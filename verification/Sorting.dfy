/**
 The sort of the server-side apply library, by contract: an order on metadata is a
 parameter, and sorting arranges a sequence by it.
 */
module Sorting {
  import opened ObjectIds

  type Order = (ObjMeta, ObjMeta) -> bool

  ghost predicate StrictTotal(less: Order) {
    && (forall a :: !less(a, a))
    && (forall a, b, c :: less(a, b) && less(b, c) ==> less(a, c))
    && (forall a, b :: a == b || less(a, b) || less(b, a))
  }

  /** No element comes after one that it should precede. */
  ghost predicate Sorted<T>(less: Order, key: T -> ObjMeta, s: seq<T>) {
    forall i, j :: 0 <= i < j < |s| ==> !less(key(s[j]), key(s[i]))
  }

  function Insert<T>(less: Order, key: T -> ObjMeta, x: T, s: seq<T>): (r: seq<T>)
    ensures multiset(r) == multiset(s) + multiset{x}
  {
    if s == [] || less(key(x), key(s[0])) then
      [x] + s
    else
      assert s == [s[0]] + s[1..];
      [s[0]] + Insert(less, key, x, s[1..])
  }

  function Sort<T>(less: Order, key: T -> ObjMeta, s: seq<T>): (r: seq<T>)
    ensures multiset(r) == multiset(s)
  {
    if s == [] then
      []
    else
      assert s == [s[0]] + s[1..];
      Insert(less, key, s[0], Sort(less, key, s[1..]))
  }

  lemma {:induction false} InsertKeepsSorted<T>(less: Order, key: T -> ObjMeta, x: T, s: seq<T>)
    requires StrictTotal(less) && Sorted(less, key, s)
    ensures Sorted(less, key, Insert(less, key, x, s))
  {
    if s != [] && !less(key(x), key(s[0])) {
      var rest := Insert(less, key, x, s[1..]);
      InsertKeepsSorted(less, key, x, s[1..]);
      assert multiset(rest) == multiset(s[1..]) + multiset{x};
      forall j | 0 <= j < |rest|
        ensures !less(key(rest[j]), key(s[0]))
      {
        assert rest[j] in multiset(rest);
        assert rest[j] in s[1..] || rest[j] == x;
      }
    } else if s != [] {
      forall j | 0 <= j < |s|
        ensures !less(key(s[j]), key(x))
      {
        if j > 0 {
          assert !less(key(s[j]), key(s[0]));
        }
      }
    }
  }

  /** Sorting arranges: same elements, in order. */
  lemma {:induction false} SortSorts<T>(less: Order, key: T -> ObjMeta, s: seq<T>)
    requires StrictTotal(less)
    ensures Sorted(less, key, Sort(less, key, s))
    ensures multiset(Sort(less, key, s)) == multiset(s)
    ensures forall x :: x in Sort(less, key, s) <==> x in s
  {
    if s != [] {
      SortSorts(less, key, s[1..]);
      InsertKeepsSorted(less, key, s[0], Sort(less, key, s[1..]));
    }
    SortElements(less, key, s);
  }

  /** Sorting neither loses nor invents elements, whatever the order. */
  lemma SortElements<T>(less: Order, key: T -> ObjMeta, s: seq<T>)
    ensures forall x :: x in Sort(less, key, s) <==> x in s
    ensures |Sort(less, key, s)| == |s|
  {
    var r := Sort(less, key, s);
    forall x
      ensures x in r <==> x in s
    {
      assert x in multiset(r) <==> x in multiset(s);
    }
    assert |multiset(r)| == |multiset(s)|;
  }
}
