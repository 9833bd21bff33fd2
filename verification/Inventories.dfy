/**
 The inventory of a CueInstance (controllers/cueinstance_inventory.go): how the change set of an
 apply is recorded, listed, and compared with the inventory of the next apply.
 */
module Inventories {
  import opened Wrappers
  import opened ObjectIds
  import opened Sorting

  datatype Action = Created | Configured | Unchanged

  /** One line of the change set that the server-side apply returns. */
  datatype Entry = Entry(meta: ObjMeta, version: string, action: Action)

  datatype ResourceRef = ResourceRef(id: string, version: string)

  /** An object rebuilt from an inventory: everything needed to address it, and nothing else. */
  datatype Handle = Handle(meta: ObjMeta, version: string)

  const MetaOf: Handle -> ObjMeta := (h: Handle) => h.meta

  function Ref(e: Entry): ResourceRef {
    ResourceRef(Print(e.meta), e.version)
  }

  /** The entries recorded for a change set. */
  function Refs(entries: seq<Entry>): seq<ResourceRef> {
    seq(|entries|, i requires 0 <= i < |entries| => Ref(entries[i]))
  }

  function EntryMetas(entries: seq<Entry>): seq<ObjMeta> {
    seq(|entries|, i requires 0 <= i < |entries| => entries[i].meta)
  }

  predicate Parses(refs: seq<ResourceRef>) {
    forall r :: r in refs ==> Parse(r.id).Some?
  }

  function Metas(refs: seq<ResourceRef>): (r: seq<ObjMeta>)
    requires Parses(refs)
    ensures |r| == |refs|
  {
    seq(|refs|, i requires 0 <= i < |refs| => Parse(refs[i].id).value)
  }

  function Handles(refs: seq<ResourceRef>): (r: seq<Handle>)
    requires Parses(refs)
    ensures |r| == |refs|
  {
    seq(|refs|, i requires 0 <= i < |refs| => Handle(Parse(refs[i].id).value, refs[i].version))
  }

  /** The version of the first entry with this identity; empty if there is none. */
  function FirstVersion(refs: seq<ResourceRef>, id: string): string {
    if refs == [] then "" else if refs[0].id == id then refs[0].version else FirstVersion(refs[1..], id)
  }

  /** Set difference of two lists of metadata, listed without duplicates. */
  function Difference(a: seq<ObjMeta>, b: seq<ObjMeta>): (r: seq<ObjMeta>)
    ensures NoDuplicates(r)
    ensures forall m :: m in r <==> m in a && m !in b
  {
    if a == [] then
      []
    else
      var init := Difference(a[..|a| - 1], b);
      var last := a[|a| - 1];
      assert a == a[..|a| - 1] + [last];
      if last in b || last in init then init else init + [last]
  }

  /** A handle on an object, with the version that the inventory records for it. */
  function HandleIn(refs: seq<ResourceRef>, m: ObjMeta): Handle {
    Handle(m, FirstVersion(refs, Print(m)))
  }

  function HandlesIn(refs: seq<ResourceRef>, metas: seq<ObjMeta>): seq<Handle> {
    seq(|metas|, i requires 0 <= i < |metas| => HandleIn(refs, metas[i]))
  }

  /** The objects of one inventory that are not in another, as `ResourceInventory.Diff` lists them. */
  function DiffList(less: Order, refs: seq<ResourceRef>, target: seq<ResourceRef>): seq<Handle>
    requires Parses(refs) && Parses(target)
  {
    Sort(less, MetaOf, HandlesIn(refs, Difference(Metas(refs), Metas(target))))
  }

  class ResourceInventory {
    var entries: seq<ResourceRef>

    constructor ()
      ensures entries == []
    {
      entries := [];
    }

    method AddObjects(changes: Option<seq<Entry>>)
      modifies this
      ensures entries == old(entries) + (if changes.Some? then Refs(changes.value) else [])
    {
      if changes.None? {
        return;
      }
      for i := 0 to |changes.value|
        invariant entries == old(entries) + Refs(changes.value[..i])
      {
        entries := entries + [ResourceRef(Print(changes.value[i].meta), changes.value[i].version)];
        assert Refs(changes.value[..i + 1]) == Refs(changes.value[..i]) + [Ref(changes.value[i])];
      }
      assert changes.value[..|changes.value|] == changes.value;
    }

    method ListObjects(less: Order) returns (r: Option<seq<Handle>>)
      ensures r.Some? <==> Parses(entries)
      ensures r.Some? ==> r.value == Sort(less, MetaOf, Handles(entries))
    {
      var objects: seq<Handle> := [];
      for i := 0 to |entries|
        invariant Parses(entries[..i])
        invariant objects == Handles(entries[..i])
      {
        var parsed := Parse(entries[i].id);
        assert entries[i] in entries;
        if parsed.None? {
          return None;
        }
        assert entries[..i + 1] == entries[..i] + [entries[i]];
        objects := objects + [Handle(parsed.value, entries[i].version)];
      }
      assert entries[..|entries|] == entries;
      r := Some(Sort(less, MetaOf, objects));
    }

    method ListMeta() returns (r: Option<seq<ObjMeta>>)
      ensures r.Some? <==> Parses(entries)
      ensures r.Some? ==> r.value == Metas(entries)
    {
      var metas: seq<ObjMeta> := [];
      for i := 0 to |entries|
        invariant Parses(entries[..i])
        invariant metas == Metas(entries[..i])
      {
        var parsed := Parse(entries[i].id);
        assert entries[i] in entries;
        if parsed.None? {
          return None;
        }
        assert entries[..i + 1] == entries[..i] + [entries[i]];
        metas := metas + [parsed.value];
      }
      assert entries[..|entries|] == entries;
      r := Some(metas);
    }

    method VersionOf(m: ObjMeta) returns (version: string)
      ensures version == FirstVersion(entries, Print(m))
    {
      for i := 0 to |entries|
        invariant FirstVersion(entries, Print(m)) == FirstVersion(entries[i..], Print(m))
      {
        if entries[i].id == Print(m) {
          return entries[i].version;
        }
      }
      return "";
    }

    method Diff(target: ResourceInventory, less: Order) returns (r: Option<seq<Handle>>)
      ensures r.Some? <==> Parses(entries) && Parses(target.entries)
      ensures r.Some? ==> r.value == DiffList(less, entries, target.entries)
    {
      var aList := ListMeta();
      if aList.None? {
        return None;
      }
      var bList := target.ListMeta();
      if bList.None? {
        return None;
      }
      var list := Difference(aList.value, bList.value);
      var objects: seq<Handle> := [];
      if |list| == 0 {
        assert HandlesIn(entries, list) == [];
        return Some(objects);
      }
      for i := 0 to |list|
        invariant objects == HandlesIn(entries, list[..i])
      {
        var version := VersionOf(list[i]);
        objects := objects + [Handle(list[i], version)];
        assert HandlesIn(entries, list[..i + 1]) == HandlesIn(entries, list[..i]) + [HandleIn(entries, list[i])];
      }
      assert list[..|list|] == list;
      r := Some(Sort(less, MetaOf, objects));
    }
  }

  /** Recording a change set and listing it gives back its metadata, exactly when every field is clean. */
  lemma InventoryRoundTrip(entries: seq<Entry>)
    ensures Parses(Refs(entries)) <==> forall e :: e in entries ==> Printable(e.meta)
    ensures Parses(Refs(entries)) ==> Metas(Refs(entries)) == EntryMetas(entries)
  {
    var refs := Refs(entries);
    forall e | e in entries
      ensures Parse(Print(e.meta)).Some? <==> Printable(e.meta)
      ensures Printable(e.meta) ==> Parse(Print(e.meta)) == Some(e.meta)
    {
      RoundTrip(e.meta);
    }
    if Parses(refs) {
      forall e | e in entries
        ensures Printable(e.meta)
      {
        var i :| 0 <= i < |entries| && entries[i] == e;
        assert refs[i] in refs;
      }
    }
    forall r | r in refs
      ensures exists e :: e in entries && r == Ref(e)
    {
      var i :| 0 <= i < |refs| && refs[i] == r;
      assert entries[i] in entries && r == Ref(entries[i]);
    }
  }

  /** Listing objects after recording loses nothing: a sorted permutation, each with the version recorded. */
  lemma ListingKeepsObjects(less: Order, entries: seq<Entry>)
    requires StrictTotal(less)
    requires forall e :: e in entries ==> Printable(e.meta)
    ensures Parses(Refs(entries))
    ensures var listed := Sort(less, MetaOf, Handles(Refs(entries)));
      && Sorted(less, MetaOf, listed)
      && multiset(listed) ==
          multiset(seq(|entries|, i requires 0 <= i < |entries| => Handle(entries[i].meta, entries[i].version)))
  {
    InventoryRoundTrip(entries);
    var handles := Handles(Refs(entries));
    SortSorts(less, MetaOf, handles);
    forall i | 0 <= i < |entries|
      ensures handles[i] == Handle(entries[i].meta, entries[i].version)
    {
      assert Metas(Refs(entries))[i] == EntryMetas(entries)[i];
    }
    assert handles == seq(|entries|, i requires 0 <= i < |entries| => Handle(entries[i].meta, entries[i].version));
  }

  ghost predicate NamesEachOnce(s: seq<Handle>) {
    forall i, j :: 0 <= i < j < |s| ==> s[i].meta != s[j].meta
  }

  ghost predicate Names(s: seq<Handle>, m: ObjMeta) {
    exists h :: h in s && h.meta == m
  }

  /** The handle carries the version of the first entry for its object. */
  ghost predicate FirstRecorded(entries: seq<Entry>, h: Handle) {
    exists i :: 0 <= i < |entries| && IsFirst(entries, i, h)
  }

  ghost predicate IsFirst(entries: seq<Entry>, i: nat, h: Handle)
    requires i < |entries|
  {
    && entries[i].meta == h.meta && entries[i].version == h.version
    && forall j :: 0 <= j < i ==> entries[j].meta != h.meta
  }

  ghost predicate FirstRef(refs: seq<ResourceRef>, id: string, i: nat) {
    && i < |refs| && refs[i] == ResourceRef(id, FirstVersion(refs, id))
    && forall j :: 0 <= j < i ==> refs[j].id != id
  }

  lemma {:induction false} FirstVersionIsRecorded(refs: seq<ResourceRef>, id: string) returns (i: nat)
    requires exists r :: r in refs && r.id == id
    ensures FirstRef(refs, id, i)
  {
    if refs[0].id == id {
      i := 0;
    } else {
      var r :| r in refs && r.id == id;
      assert refs == [refs[0]] + refs[1..];
      assert r in refs[1..];
      i := FirstVersionIsRecorded(refs[1..], id);
      i := i + 1;
    }
  }

  lemma {:induction false} InsertKeepsNames(less: Order, x: Handle, s: seq<Handle>)
    requires NamesEachOnce(s) && !Names(s, x.meta)
    ensures NamesEachOnce(Insert(less, MetaOf, x, s))
  {
    if s != [] && !less(x.meta, s[0].meta) {
      var rest := Insert(less, MetaOf, x, s[1..]);
      InsertKeepsNames(less, x, s[1..]);
      forall j | 0 <= j < |rest|
        ensures rest[j].meta != s[0].meta
      {
        assert rest[j] in multiset(rest);
        assert s[0] in s;
        assert rest[j] in s[1..] || rest[j] == x;
      }
    }
  }

  lemma {:induction false} SortKeepsNames(less: Order, s: seq<Handle>)
    requires NamesEachOnce(s)
    ensures NamesEachOnce(Sort(less, MetaOf, s))
  {
    if s != [] {
      SortKeepsNames(less, s[1..]);
      SortElements(less, MetaOf, s[1..]);
      InsertKeepsNames(less, s[0], Sort(less, MetaOf, s[1..]));
    }
  }

  lemma DiffVersion(entries: seq<Entry>, metas: seq<ObjMeta>, h: Handle)
    requires forall e :: e in entries ==> Printable(e.meta)
    requires h in HandlesIn(Refs(entries), metas)
    requires forall m :: m in metas ==> m in EntryMetas(entries)
    ensures h.meta in metas && FirstRecorded(entries, h)
  {
    var refs := Refs(entries);
    assert h == HandleIn(refs, h.meta) && h.meta in metas;
    var k :| 0 <= k < |entries| && entries[k].meta == h.meta;
    assert refs[k] in refs;
    var i := FirstVersionIsRecorded(refs, Print(h.meta));
    assert entries[i] in entries;
    PrintInjective(entries[i].meta, h.meta);
    forall j | 0 <= j < i
      ensures entries[j].meta != h.meta
    {
      assert refs[j].id == Print(entries[j].meta);
    }
    assert IsFirst(entries, i, h);
  }

  /**
   For inventories written from clean change sets the difference never fails and lists, sorted and once
   each, exactly the objects recorded in the first and not in the second, with the version first recorded.
   */
  lemma DiffIsExact(less: Order, older: seq<Entry>, newer: seq<Entry>)
    requires StrictTotal(less)
    requires forall e :: e in older || e in newer ==> Printable(e.meta)
    ensures Parses(Refs(older)) && Parses(Refs(newer))
    ensures var r := DiffList(less, Refs(older), Refs(newer));
      && Sorted(less, MetaOf, r)
      && NamesEachOnce(r)
      && (forall m :: Names(r, m) <==> m in EntryMetas(older) && m !in EntryMetas(newer))
      && (forall h :: h in r ==> FirstRecorded(older, h))
  {
    InventoryRoundTrip(older);
    InventoryRoundTrip(newer);
    var refs := Refs(older);
    var metas := Difference(Metas(refs), Metas(Refs(newer)));
    var handles := HandlesIn(refs, metas);
    SortSorts(less, MetaOf, handles);
    SortKeepsNames(less, handles);
    var r := DiffList(less, refs, Refs(newer));
    DiffNames(less, refs, Refs(newer));
    forall h | h in r
      ensures FirstRecorded(older, h)
    {
      DiffVersion(older, metas, h);
    }
  }

  /** What the difference names, for any two inventories that parse. */
  lemma DiffNames(less: Order, refs: seq<ResourceRef>, target: seq<ResourceRef>)
    requires Parses(refs) && Parses(target)
    ensures forall m :: Names(DiffList(less, refs, target), m) <==> m in Metas(refs) && m !in Metas(target)
    ensures forall h :: h in DiffList(less, refs, target) ==> h == HandleIn(refs, h.meta)
    ensures NamesEachOnce(DiffList(less, refs, target))
  {
    var metas := Difference(Metas(refs), Metas(target));
    var handles := HandlesIn(refs, metas);
    var r := Sort(less, MetaOf, handles);
    assert NamesEachOnce(handles);
    SortKeepsNames(less, handles);
    SortElements(less, MetaOf, handles);
    forall h | h in r
      ensures h.meta in metas && h == HandleIn(refs, h.meta)
    {
      var i :| 0 <= i < |handles| && handles[i] == h;
      assert metas[i] == h.meta;
    }
    forall m
      ensures Names(r, m) <==> m in metas
    {
      if m in metas {
        var i :| 0 <= i < |metas| && metas[i] == m;
        assert handles[i] in r && handles[i].meta == m;
      }
    }
  }
}
