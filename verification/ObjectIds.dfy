/**
 The identity of a Kubernetes object and its printed form.

 The inventory does not store object metadata: it stores strings in the format
 `<namespace>_<name>_<group>_<kind>` and parses them back whenever it is read.
 */
module ObjectIds {
  import opened Wrappers

  datatype ObjMeta = ObjMeta(namespace: string, name: string, group: string, kind: string)

  const SEPARATOR := '_'

  predicate Clean(s: string) {
    SEPARATOR !in s
  }

  /** No field of the metadata contains the separator. */
  predicate Printable(m: ObjMeta) {
    Clean(m.namespace) && Clean(m.name) && Clean(m.group) && Clean(m.kind)
  }

  function Print(m: ObjMeta): string {
    m.namespace + ([SEPARATOR] + (m.name + ([SEPARATOR] + (m.group + ([SEPARATOR] + m.kind)))))
  }

  /** The fields of a string, cut at every separator. */
  function Fields(s: string): (r: seq<string>)
    ensures |r| > 0
  {
    if s == "" then
      [""]
    else
      var rest := Fields(s[1..]);
      if s[0] == SEPARATOR then [""] + rest else [[s[0]] + rest[0]] + rest[1..]
  }

  /** The inverse of `Fields`. */
  function Join(fields: seq<string>): string
    requires |fields| > 0
  {
    if |fields| == 1 then fields[0] else fields[0] + ([SEPARATOR] + Join(fields[1..]))
  }

  /** Reads a printed identity back; an identity has exactly four fields. */
  function Parse(s: string): Option<ObjMeta> {
    var f := Fields(s);
    if |f| == 4 then Some(ObjMeta(f[0], f[1], f[2], f[3])) else None
  }

  lemma {:induction false} FieldsOfClean(a: string)
    requires Clean(a)
    ensures Fields(a) == [a]
  {
    if a != "" {
      FieldsOfClean(a[1..]);
      assert [a[0]] + a[1..] == a;
    }
  }

  lemma {:induction false} FieldsAfterClean(a: string, rest: string)
    requires Clean(a)
    ensures Fields(a + ([SEPARATOR] + rest)) == [a] + Fields(rest)
  {
    var s := a + ([SEPARATOR] + rest);
    if a == "" {
      assert s[1..] == rest;
    } else {
      assert s[1..] == a[1..] + ([SEPARATOR] + rest);
      FieldsAfterClean(a[1..], rest);
      assert [a[0]] + a[1..] == a;
    }
  }

  lemma {:induction false} FieldsAreClean(s: string)
    ensures forall f :: f in Fields(s) ==> Clean(f)
    ensures Join(Fields(s)) == s
  {
    if s != "" {
      FieldsAreClean(s[1..]);
      var rest := Fields(s[1..]);
      if s[0] == SEPARATOR {
        assert ([""] + rest)[1..] == rest;
      } else {
        var all := [[s[0]] + rest[0]] + rest[1..];
        assert Fields(s) == all && all[1..] == rest[1..];
        assert s == [s[0]] + s[1..];
        forall f | f in all
          ensures Clean(f)
        {
          if f == [s[0]] + rest[0] {
            assert rest[0] in rest;
          } else {
            assert f in rest[1..];
          }
        }
      }
    }
  }

  /** Every separator inside a field adds a field, so dirty metadata prints to five fields or more. */
  lemma {:induction false} FieldsOfConcat(a: string, rest: string)
    ensures |Fields(a + ([SEPARATOR] + rest))| >= 1 + |Fields(rest)|
    ensures !Clean(a) ==> |Fields(a + ([SEPARATOR] + rest))| > 1 + |Fields(rest)|
  {
    var s := a + ([SEPARATOR] + rest);
    if a == "" {
      assert s[1..] == rest;
    } else {
      assert s[1..] == a[1..] + ([SEPARATOR] + rest);
      FieldsOfConcat(a[1..], rest);
      assert a == [a[0]] + a[1..];
    }
  }

  lemma {:induction false} DirtyHasMoreFields(a: string)
    requires !Clean(a)
    ensures |Fields(a)| > 1
  {
    if a[0] != SEPARATOR {
      assert a == [a[0]] + a[1..];
      DirtyHasMoreFields(a[1..]);
    }
  }

  /** The codec reads back what it printed exactly when no field contains the separator. */
  lemma RoundTrip(m: ObjMeta)
    ensures Parse(Print(m)) == Some(m) <==> Printable(m)
    ensures Parse(Print(m)).Some? <==> Printable(m)
  {
    var g := m.group + ([SEPARATOR] + m.kind);
    var n := m.name + ([SEPARATOR] + g);
    if Printable(m) {
      FieldsAfterClean(m.namespace, n);
      FieldsAfterClean(m.name, g);
      FieldsAfterClean(m.group, m.kind);
      FieldsOfClean(m.kind);
    } else {
      FieldsOfConcat(m.namespace, n);
      FieldsOfConcat(m.name, g);
      FieldsOfConcat(m.group, m.kind);
      if !Clean(m.kind) {
        DirtyHasMoreFields(m.kind);
      }
    }
  }

  /** Whatever parses was printed from the metadata it parses to. */
  lemma ParseInverse(s: string)
    requires Parse(s).Some?
    ensures Print(Parse(s).value) == s && Printable(Parse(s).value)
  {
    FieldsAreClean(s);
    var f := Fields(s);
    assert f[0] in f && f[1] in f && f[2] in f && f[3] in f;
    assert f[1..][1..][1..] == [f[3]] && f[1..][1..][0] == f[2] && f[1..][0] == f[1];
    assert Join(f[1..][1..]) == f[2] + ([SEPARATOR] + f[3]);
  }

  /** Clean metadata shares its identity with nothing else, clean or not. */
  lemma PrintInjective(a: ObjMeta, b: ObjMeta)
    requires Printable(a) && Print(a) == Print(b)
    ensures a == b
  {
    RoundTrip(a);
    RoundTrip(b);
  }

  /** Without cleanliness two different objects can share an identity. */
  lemma PrintCollides()
    ensures exists a: ObjMeta, b: ObjMeta :: a != b && Print(a) == Print(b)
  {
    var a := ObjMeta("x_y", "z", "", "");
    var b := ObjMeta("x", "y_z", "", "");
    assert Print(a) == "x_y_z__" == Print(b);
    assert a.namespace[1] == '_';
  }
}
