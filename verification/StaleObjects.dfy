/**
 Which objects of the old inventory are garbage after an apply: the inventory difference, less the
 objects that an old release recorded under a namespace although their kind has none
 (controllers/cueinstance_controller.go, the stale-object loop of `reconcile`).
 */
module StaleObjects {
  import opened Wrappers
  import opened ObjectIds
  import opened Sorting
  import opened Inventories

  datatype GroupKind = GroupKind(group: string, kind: string)

  function KindOf(m: ObjMeta): GroupKind {
    GroupKind(m.group, m.kind)
  }

  /**
   The object that the API server addresses by this metadata: it ignores the namespace when the kind
   is cluster-scoped.
   */
  function Physical(clusterScoped: set<GroupKind>, m: ObjMeta): ObjMeta {
    if KindOf(m) in clusterScoped then m.(namespace := "") else m
  }

  /** Metadata as the API server reports it: a namespace exactly when the kind is namespaced. */
  predicate WellScoped(clusterScoped: set<GroupKind>, m: ObjMeta) {
    m.namespace == "" <==> KindOf(m) in clusterScoped
  }

  function ApiVersion(h: Handle): string {
    if h.meta.group == "" then h.version else h.meta.group + "/" + h.version
  }

  /** `n` is the entry without a namespace that protects `h`. */
  predicate Protects(n: Handle, h: Handle) {
    && n.meta.namespace == ""
    && h.meta.kind == n.meta.kind
    && ApiVersion(h) == ApiVersion(n)
    && h.meta.name == n.meta.name
  }

  predicate Preserved(h: Handle, newObjects: seq<Handle>) {
    h.meta.namespace != "" && exists n :: n in newObjects && Protects(n, h)
  }

  function Unpreserved(diff: seq<Handle>, newObjects: seq<Handle>): (r: seq<Handle>)
    ensures forall h :: h in r <==> h in diff && !Preserved(h, newObjects)
  {
    if diff == [] then
      []
    else
      var init := Unpreserved(diff[..|diff| - 1], newObjects);
      var last := diff[|diff| - 1];
      assert diff == diff[..|diff| - 1] + [last];
      if Preserved(last, newObjects) then init else init + [last]
  }

  /** The list that garbage collection receives. */
  function StaleList(less: Order, older: seq<ResourceRef>, newer: seq<ResourceRef>): seq<Handle>
    requires Parses(older) && Parses(newer)
  {
    Unpreserved(DiffList(less, older, newer), Sort(less, MetaOf, Handles(newer)))
  }

  /** An object is garbage: recorded before, not recorded now, and not a preserved misrecording. */
  predicate IsStale(older: seq<ResourceRef>, newer: seq<ResourceRef>, m: ObjMeta)
    requires Parses(older) && Parses(newer)
  {
    && m in Metas(older)
    && m !in Metas(newer)
    && !Preserved(HandleIn(older, m), Handles(newer))
  }

  /** A list of exactly the stale objects, in some order. */
  ghost predicate ListsStale(older: seq<ResourceRef>, newer: seq<ResourceRef>, stale: seq<ObjMeta>)
    requires Parses(older) && Parses(newer)
  {
    forall m :: m in stale <==> IsStale(older, newer, m)
  }

  function MetasOf(handles: seq<Handle>): seq<ObjMeta> {
    seq(|handles|, i requires 0 <= i < |handles| => handles[i].meta)
  }

  method FilterPreserved(diffObjects: seq<Handle>, newObjects: seq<Handle>) returns (staleObjects: seq<Handle>)
    ensures staleObjects == Unpreserved(diffObjects, newObjects)
  {
    staleObjects := [];
    for i := 0 to |diffObjects|
      invariant staleObjects == Unpreserved(diffObjects[..i], newObjects)
    {
      var obj := diffObjects[i];
      var preserve := false;
      if obj.meta.namespace != "" {
        for j := 0 to |newObjects|
          invariant !preserve
          invariant forall n :: n in newObjects[..j] ==> !Protects(n, obj)
        {
          var newObj := newObjects[j];
          if newObj.meta.namespace == "" && obj.meta.kind == newObj.meta.kind
            && ApiVersion(obj) == ApiVersion(newObj) && obj.meta.name == newObj.meta.name
          {
            preserve := true;
            assert newObj in newObjects;
            break;
          }
        }
        assert newObjects[..|newObjects|] == newObjects;
      }
      assert preserve == Preserved(obj, newObjects);
      assert diffObjects[..i + 1][..i] == diffObjects[..i];
      if !preserve {
        staleObjects := staleObjects + [obj];
      }
    }
    assert diffObjects[..|diffObjects|] == diffObjects;
  }

  /** Compare the inventories and keep what is preserved out of the difference. */
  method DetectStale(less: Order, older: seq<ResourceRef>, newInventory: ResourceInventory)
    returns (stale: Option<seq<Handle>>)
    ensures stale.Some? <==> Parses(older) && Parses(newInventory.entries)
    ensures stale.Some? ==> stale.value == StaleList(less, older, newInventory.entries)
  {
    var oldInventory := new ResourceInventory();
    oldInventory.entries := older;
    var diffObjects := oldInventory.Diff(newInventory, less);
    if diffObjects.None? {
      return None;
    }
    var newObjects := newInventory.ListObjects(less);
    var staleObjects := FilterPreserved(diffObjects.value, newObjects.value);
    stale := Some(staleObjects);
  }

  lemma MetasOfNames(handles: seq<Handle>, m: ObjMeta)
    ensures m in MetasOf(handles) <==> Names(handles, m)
  {
    if m in MetasOf(handles) {
      var i :| 0 <= i < |handles| && MetasOf(handles)[i] == m;
      assert handles[i] in handles;
    }
    if Names(handles, m) {
      var h :| h in handles && h.meta == m;
      var i :| 0 <= i < |handles| && handles[i] == h;
      assert MetasOf(handles)[i] == m;
    }
  }

  /** The loops compute the set equation: the list handed to garbage collection is exactly the stale objects. */
  lemma StaleListIsExact(less: Order, older: seq<ResourceRef>, newer: seq<ResourceRef>)
    requires Parses(older) && Parses(newer)
    ensures ListsStale(older, newer, MetasOf(StaleList(less, older, newer)))
  {
    var diff := DiffList(less, older, newer);
    var sorted := Sort(less, MetaOf, Handles(newer));
    var stale := StaleList(less, older, newer);
    DiffNames(less, older, newer);
    SortElements(less, MetaOf, Handles(newer));
    forall m
      ensures m in MetasOf(stale) <==> IsStale(older, newer, m)
    {
      MetasOfNames(stale, m);
      assert Preserved(HandleIn(older, m), sorted) <==> Preserved(HandleIn(older, m), Handles(newer));
      if IsStale(older, newer, m) {
        assert Names(diff, m);
        var h :| h in diff && h.meta == m;
        assert h in stale;
      }
      if Names(stale, m) {
        var h :| h in stale && h.meta == m;
        assert h in diff && Names(diff, m);
      }
    }
  }

  /** Some entry for this object carries this version. */
  predicate HasVersion(refs: seq<ResourceRef>, m: ObjMeta, version: string) {
    ResourceRef(Print(m), version) in refs
  }

  lemma HandlesAreRefs(refs: seq<ResourceRef>, m: ObjMeta, version: string)
    requires Parses(refs)
    ensures Handle(m, version) in Handles(refs) <==> HasVersion(refs, m, version)
  {
    var h := Handle(m, version);
    if h in Handles(refs) {
      var i :| 0 <= i < |refs| && Handles(refs)[i] == h;
      assert refs[i] in refs;
      ParseInverse(refs[i].id);
    }
    if HasVersion(refs, m, version) {
      var i :| 0 <= i < |refs| && refs[i] == ResourceRef(Print(m), version);
      RoundTrip(m);
      assert Handles(refs)[i] == h;
    }
  }

  /** An API version tells group and version apart when no version contains a slash. */
  lemma ApiVersionTells(a: Handle, b: Handle)
    requires '/' !in a.version && '/' !in b.version
    requires ApiVersion(a) == ApiVersion(b)
    ensures a.meta.group == b.meta.group && a.version == b.version
  {
    var s := ApiVersion(a);
    assert a.meta.group != "" ==> s[|s| - |a.version|..] == a.version && s[|s| - |a.version| - 1] == '/';
    assert b.meta.group != "" ==> s[|s| - |b.version|..] == b.version && s[|s| - |b.version| - 1] == '/';
    assert a.meta.group != "" ==> s[..|s| - |a.version| - 1] == a.meta.group;
    assert b.meta.group != "" ==> s[..|s| - |b.version| - 1] == b.meta.group;
  }

  /** What the workaround preserves: objects whose twin without a namespace is recorded under the same API version. */
  lemma PreservedMeans(refs: seq<ResourceRef>, h: Handle)
    requires Parses(refs) && h.meta.namespace != ""
    requires '/' !in h.version && forall r :: r in refs ==> '/' !in r.version
    ensures Preserved(h, Handles(refs)) <==> HasVersion(refs, h.meta.(namespace := ""), h.version)
  {
    var twin := h.meta.(namespace := "");
    HandlesAreRefs(refs, twin, h.version);
    if Preserved(h, Handles(refs)) {
      var n :| n in Handles(refs) && Protects(n, h);
      HandlesAreRefs(refs, n.meta, n.version);
      ApiVersionTells(n, h);
      assert n == Handle(twin, h.version);
    }
    if HasVersion(refs, twin, h.version) {
      assert Protects(Handle(twin, h.version), h);
    }
  }

  /**
   Garbage collection against the very objects just applied, by physical identity and for any old
   inventory, however it was written: a stale entry addresses an object of the new inventory exactly when
   an old release recorded a cluster-scoped object under a namespace and the new inventory holds the same
   object under another API version only.
   */
  lemma StaleHitsApplied(clusterScoped: set<GroupKind>, older: seq<ResourceRef>, newer: seq<ResourceRef>, m: ObjMeta)
    requires Parses(older) && Parses(newer)
    requires forall n :: n in Metas(newer) ==> WellScoped(clusterScoped, n)
    requires forall r :: r in older || r in newer ==> '/' !in r.version
    requires m in Metas(older)
    ensures IsStale(older, newer, m) && Physical(clusterScoped, m) in Metas(newer)
       <==> && KindOf(m) in clusterScoped && m.namespace != ""
            && m.(namespace := "") in Metas(newer)
            && !HasVersion(newer, m.(namespace := ""), FirstVersion(older, Print(m)))
  {
    var version := FirstVersion(older, Print(m));
    FirstVersionSlashless(older, Print(m));
    if KindOf(m) in clusterScoped && m.namespace != "" {
      PreservedMeans(newer, Handle(m, version));
      assert m !in Metas(newer);
    }
  }

  lemma {:induction false} FirstVersionSlashless(refs: seq<ResourceRef>, id: string)
    requires forall r :: r in refs ==> '/' !in r.version
    ensures '/' !in FirstVersion(refs, id)
  {
    if refs != [] {
      assert refs[0] in refs;
      FirstVersionSlashless(refs[1..], id);
    }
  }

  /**
   The failing family is not empty: after an API version bump the old record of a ClusterRole is garbage that
   names the new one.
   */
  lemma VersionBumpHitsApplied()
    ensures exists clusterScoped: set<GroupKind>, older: seq<ResourceRef>, newer: seq<ResourceRef>, m: ObjMeta ::
      && Parses(older) && Parses(newer) && IsStale(older, newer, m) && Physical(clusterScoped, m) in Metas(newer)
  {
    var m := ObjMeta("n", "x", "g", "K");
    var twin := m.(namespace := "");
    RoundTrip(m);
    RoundTrip(twin);
    var older := [ResourceRef(Print(m), "a")];
    var newer := [ResourceRef(Print(twin), "b")];
    var scope := {KindOf(m)};
    assert Metas(older) == [m] && Metas(newer) == [twin];
    StaleHitsApplied(scope, older, newer, m);
    if Print(m) == Print(twin) {
      PrintInjective(m, twin);
    }
    assert FirstVersion(older, Print(m)) == "a";
    assert newer[0].version == "b";
    assert !HasVersion(newer, twin, "a");
  }
}
