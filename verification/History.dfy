/**
 What the log of a run can say, for every run and every interleaving: each record is justified by
 earlier ones. Dependencies complete before their dependents begin; a completed reconciliation began,
 applied what its inventory lists, and did so for the spec of its generation; nothing is deleted that the
 same instance had not applied.
 */
module History {
  import opened Wrappers
  import opened ObjectIds
  import opened Inventories
  import opened StaleObjects
  import opened Statuses
  import opened Machine
  import opened Coherence

  ghost predicate HasCompleted(log: seq<Record>, k: Key, revision: string) {
    exists r :: r in log && r.Completed? && r.k == k && r.revision == revision
  }

  predicate BeganFor(r: Record, k: Key) {
    r.Began? && r.k == k
  }

  /** The reconciliation of `k` that began at position `b` is the latest one. */
  predicate IsCurrent(log: seq<Record>, k: Key, revision: string, spec: Spec, b: nat) {
    && b < |log| && BeganFor(log[b], k) && log[b].revision == revision && log[b].spec == spec
    && forall j :: b < j < |log| ==> !BeganFor(log[j], k)
  }

  /** The latest reconciliation of `k` is at this revision and spec. */
  ghost predicate Current(log: seq<Record>, k: Key, revision: string, spec: Spec) {
    exists b :: IsCurrent(log, k, revision, spec, b)
  }

  /** At position `a` it has applied these objects. */
  predicate IsApplied(log: seq<Record>, k: Key, revision: string, spec: Spec, objs: set<ObjMeta>, b: nat, a: nat) {
    IsCurrent(log, k, revision, spec, b) && b < a < |log| && log[a] == Applied(k, revision, spec, objs)
  }

  ghost predicate CurrentApplied(log: seq<Record>, k: Key, revision: string, spec: Spec, objs: set<ObjMeta>) {
    exists b, a :: IsApplied(log, k, revision, spec, objs, b, a)
  }

  ghost predicate HasApplied(log: seq<Record>, k: Key, m: ObjMeta) {
    exists r :: r in log && r.Applied? && r.k == k && m in r.objs
  }

  function Recorded(inventory: seq<ResourceRef>): set<string> {
    set r | r in inventory :: r.id
  }

  function Printed(objs: set<ObjMeta>): set<string> {
    set m | m in objs :: Print(m)
  }

  /** The inventory lists exactly these objects. */
  predicate Lists(inventory: seq<ResourceRef>, objs: set<ObjMeta>) {
    Recorded(inventory) == Printed(objs)
  }

  ghost predicate RecordOk(config: Config, earlier: seq<Record>, r: Record) {
    match r
    case Began(k, revision, spec, same) => forall d :: d in same ==> HasCompleted(earlier, d, revision)
    case Touched(k, m) => exists b :: b in earlier && b.Began? && b.k == k
    case Applied(k, revision, spec, objs) =>
      && Current(earlier, k, revision, spec)
      && forall m :: m in objs ==> Physical(config.clusterScoped, m) == m
    case Completed(k, revision, generation, spec, inventory) =>
      exists objs :: Lists(inventory, objs) && CurrentApplied(earlier, k, revision, spec, objs)
    case Deleted(k, m) => HasApplied(earlier, k, m)
    case LeftBehind(_, _, _) => true
  }

  ghost predicate LogOk(config: Config, log: seq<Record>) {
    forall i :: 0 <= i < |log| ==> RecordOk(config, log[..i], log[i])
  }

  /** An inventory entry stands for an object that this instance has applied. */
  ghost predicate Traced(config: Config, log: seq<Record>, k: Key, id: string) {
    exists m :: Print(m) == id && HasApplied(log, k, m) && Physical(config.clusterScoped, m) == m
  }

  ghost predicate AllTraced(config: Config, log: seq<Record>, k: Key, inventory: Option<seq<ResourceRef>>) {
    inventory.Some? ==> forall r :: r in inventory.value ==> Traced(config, log, k, r.id)
  }

  /** An object that garbage collection may delete: in the inventory, and applied by this instance. */
  ghost predicate Doomed(config: Config, log: seq<Record>, k: Key, inventory: Option<seq<ResourceRef>>, m: ObjMeta) {
    Covers(inventory, m) && HasApplied(log, k, m) && Physical(config.clusterScoped, m) == m
  }

  ghost predicate StatusTraced(log: seq<Record>, k: Key, i: Instance) {
    && (i.status.lastApplied != "" ==> HasCompleted(log, k, i.status.lastApplied))
    && (IsReady(i.status) ==> ReadyTraced(log, k, i))
  }

  ghost predicate ReadyTraced(log: seq<Record>, k: Key, i: Instance) {
    && i.status.lastApplied == i.status.lastAttempted
    && i.status.inventory.Some?
    && 0 < i.status.observedGeneration <= i.Generation()
    && Completed(k, i.status.lastApplied, i.status.observedGeneration,
                 i.Specs()[i.status.observedGeneration - 1], i.status.inventory.value) in log
  }

  ghost predicate FlightTraced(config: Config, log: seq<Record>, k: Key, base: Instance, p: Phase) {
    match p
    case Resolving => true
    case Checking(revision, _, same) => forall d :: d in same ==> HasCompleted(log, d, revision)
    case Building(revision) => Current(log, k, revision, base.spec)
    case Applying(revision, _, _, _, entries) =>
      Current(log, k, revision, base.spec) && EntriesPhysical(config, entries)
    case Pruning(revision, stale, entries, _) =>
      && EntriesPhysical(config, entries) && CurrentApplied(log, k, revision, base.spec, EntrySet(entries))
      && forall m :: m in stale ==> Doomed(config, log, k, base.status.inventory, m)
    case Assessing(revision, entries, _) =>
      EntriesPhysical(config, entries) && CurrentApplied(log, k, revision, base.spec, EntrySet(entries))
    case Closing(status, _, applied) =>
      applied.Some? ==>
        && EntriesPhysical(config, applied.value)
        && CurrentApplied(log, k, status.lastAttempted, base.spec, EntrySet(applied.value))
    case Finalizing(remaining, _) => forall m :: m in remaining ==> Doomed(config, log, k, base.status.inventory, m)
  }

  ghost predicate EntriesPhysical(config: Config, entries: seq<Entry>) {
    forall e :: e in entries ==> Physical(config.clusterScoped, e.meta) == e.meta
  }

  ghost predicate SlotTraced(config: Config, log: seq<Record>, k: Key, s: Slot) {
    && (s.instance.Some? ==>
        StatusTraced(log, k, s.instance.value) && AllTraced(config, log, k, s.instance.value.status.inventory))
    && (s.flight.Some? ==> FlightTraced(config, log, k, s.flight.value.base, s.flight.value.phase))
  }

  ghost predicate Traceable(w: World) {
    && Coherent(w)
    && LogOk(w.config, w.log)
    && forall k :: SlotTraced(w.config, w.log, k, w.At(k))
  }

  // ---------------------------------------------------------------- the log only grows

  lemma TracedGrows(config: Config, log: seq<Record>, notes: seq<Record>, k: Key, inventory: Option<seq<ResourceRef>>)
    requires AllTraced(config, log, k, inventory)
    ensures AllTraced(config, log + notes, k, inventory)
  {
    if inventory.Some? {
      forall r | r in inventory.value
        ensures Traced(config, log + notes, k, r.id)
      {
        var m :| Print(m) == r.id && HasApplied(log, k, m) && Physical(config.clusterScoped, m) == m;
        assert HasApplied(log + notes, k, m);
      }
    }
  }

  lemma CurrentGrows(log: seq<Record>, notes: seq<Record>, k: Key, revision: string, spec: Spec)
    requires forall r :: r in notes ==> !BeganFor(r, k)
    ensures Current(log, k, revision, spec) ==> Current(log + notes, k, revision, spec)
    ensures forall objs :: CurrentApplied(log, k, revision, spec, objs) ==>
      CurrentApplied(log + notes, k, revision, spec, objs)
  {
    if Current(log, k, revision, spec) {
      var b :| IsCurrent(log, k, revision, spec, b);
      assert IsCurrent(log + notes, k, revision, spec, b);
    }
    forall objs | CurrentApplied(log, k, revision, spec, objs)
      ensures CurrentApplied(log + notes, k, revision, spec, objs)
    {
      var b, a :| IsApplied(log, k, revision, spec, objs, b, a);
      assert IsApplied(log + notes, k, revision, spec, objs, b, a);
    }
  }

  lemma FlightGrows(config: Config, log: seq<Record>, notes: seq<Record>, k: Key, base: Instance, p: Phase)
    requires FlightTraced(config, log, k, base, p)
    requires forall r :: r in notes ==> !BeganFor(r, k)
    ensures FlightTraced(config, log + notes, k, base, p)
  {
    match p
    case Building(revision) => CurrentGrows(log, notes, k, revision, base.spec);
    case Applying(revision, _, _, _, _) => CurrentGrows(log, notes, k, revision, base.spec);
    case Pruning(revision, _, _, _) => CurrentGrows(log, notes, k, revision, base.spec);
    case Assessing(revision, _, _) => CurrentGrows(log, notes, k, revision, base.spec);
    case Closing(status, _, _) => CurrentGrows(log, notes, k, status.lastAttempted, base.spec);
    case _ =>
  }

  lemma SlotGrows(config: Config, log: seq<Record>, notes: seq<Record>, k: Key, s: Slot)
    requires SlotTraced(config, log, k, s)
    requires s.flight.Some? ==> forall r :: r in notes ==> !BeganFor(r, k)
    ensures SlotTraced(config, log + notes, k, s)
  {
    if s.instance.Some? {
      TracedGrows(config, log, notes, k, s.instance.value.status.inventory);
    }
    if s.flight.Some? {
      FlightGrows(config, log, notes, k, s.flight.value.base, s.flight.value.phase);
    }
  }

  /** A turn notes at most one thing that needs a reason, and notes it first. */
  ghost predicate NotesOk(config: Config, log: seq<Record>, notes: seq<Record>) {
    notes != [] ==> RecordOk(config, log, notes[0]) && forall i :: 0 < i < |notes| ==> notes[i].LeftBehind?
  }

  lemma LogGrows(config: Config, log: seq<Record>, notes: seq<Record>)
    requires LogOk(config, log) && NotesOk(config, log, notes)
    ensures LogOk(config, log + notes)
  {
    var all := log + notes;
    forall i | 0 <= i < |all|
      ensures RecordOk(config, all[..i], all[i])
    {
      if i <= |log| {
        assert all[..i] == log[..i];
        assert i == |log| ==> log[..i] == log;
      }
    }
  }

  // ---------------------------------------------------------------- every move justifies its records

  lemma TracedMeta(config: Config, log: seq<Record>, k: Key, inventory: seq<ResourceRef>, m: ObjMeta)
    requires AllTraced(config, log, k, Some(inventory)) && Parses(inventory) && m in Metas(inventory)
    ensures Doomed(config, log, k, Some(inventory), m)
  {
    var i :| 0 <= i < |inventory| && Metas(inventory)[i] == m;
    assert inventory[i] in inventory;
    var o :| Print(o) == inventory[i].id && HasApplied(log, k, o) && Physical(config.clusterScoped, o) == o;
    ParseInverse(inventory[i].id);
    PrintInjective(m, o);
  }

  lemma RefsList(entries: seq<Entry>)
    ensures Lists(Refs(entries), EntrySet(entries))
  {
    var refs := Refs(entries);
    forall id
      ensures id in Recorded(refs) <==> id in Printed(EntrySet(entries))
    {
      if id in Recorded(refs) {
        var i :| 0 <= i < |refs| && refs[i].id == id;
        assert entries[i] in entries && entries[i].meta in EntrySet(entries);
      }
      if id in Printed(EntrySet(entries)) {
        var i :| 0 <= i < |entries| && Print(entries[i].meta) == id;
        assert refs[i] in refs;
      }
    }
  }

  lemma StoredTraced(config: Config, log: seq<Record>, k: Key, revision: string, spec: Spec, entries: seq<Entry>)
    requires EntriesPhysical(config, entries) && CurrentApplied(log, k, revision, spec, EntrySet(entries))
    ensures AllTraced(config, log, k, Some(Refs(entries)))
  {
    var refs := Refs(entries);
    var b: nat, a: nat :| IsApplied(log, k, revision, spec, EntrySet(entries), b, a);
    assert log[a] in log;
    forall r | r in refs
      ensures Traced(config, log, k, r.id)
    {
      var i :| 0 <= i < |refs| && refs[i] == r;
      assert entries[i] in entries && entries[i].meta in EntrySet(entries);
      assert HasApplied(log, k, entries[i].meta);
    }
  }

  ghost predicate Justified(w: World, k: Key, t: Turn) {
    && SlotTraced(w.config, w.log + t.notes, k, t.slot)
    && NotesOk(w.config, w.log, t.notes)
  }

  lemma RegisteredTraced(log: seq<Record>, k: Key, i: Instance)
    requires StatusTraced(log, k, i)
    ensures StatusTraced(log, k, i.(finalizer := true))
  {
    assert i.(finalizer := true).Specs() == i.Specs();
  }

  lemma FetchJustified(w: World, k: Key, canFinalize: bool)
    requires Traceable(w)
    ensures Justified(w, k, FetchTurn(w, k, canFinalize))
  {
    var s := w.At(k);
    var t := FetchTurn(w, k, canFinalize);
    assert SlotTraced(w.config, w.log, k, s);
    SlotGrows(w.config, w.log, t.notes, k, s);
    if s.flight.None? && s.instance.Some? {
      RegisteredTraced(w.log + t.notes, k, s.instance.value);
      FetchedFlightTraced(w, k, canFinalize);
    }
  }

  lemma FetchedFlightTraced(w: World, k: Key, canFinalize: bool)
    requires SlotTraced(w.config, w.log, k, w.At(k)) && w.At(k).flight.None? && w.At(k).instance.Some?
    ensures var t := FetchTurn(w, k, canFinalize);
      t.slot.flight.Some? ==>
          FlightTraced(w.config, w.log + t.notes, k, t.slot.flight.value.base, t.slot.flight.value.phase)
  {
    var i := w.At(k).instance.value;
    if i.deleting && Finalizes(i, canFinalize) {
      assert w.log + FetchTurn(w, k, canFinalize).notes == w.log;
      forall m | m in Metas(i.status.inventory.value)
        ensures Doomed(w.config, w.log, k, i.status.inventory, m)
      {
        TracedMeta(w.config, w.log, k, i.status.inventory.value, m);
      }
    }
  }

  lemma ResolveJustified(w: World, k: Key)
    requires Traceable(w)
    ensures Justified(w, k, ResolveTurn(w, k))
  {
    assert SlotTraced(w.config, w.log, k, w.At(k)) && SlotCoherent(w.At(k));
    assert ResolveTurn(w, k).notes == [] && w.log + [] == w.log;
  }

  lemma ProgressJustified(w: World, k: Key)
    requires Traceable(w)
    ensures Justified(w, k, ProgressTurn(w, k))
  {
    var s := w.At(k);
    var t := ProgressTurn(w, k);
    assert SlotTraced(w.config, w.log, k, s) && SlotCoherent(s);
    if t == Idle(w, k) {
      assert w.log + t.notes == w.log;
    } else {
      var f := s.flight.value;
      TracedGrows(w.config, w.log, t.notes, k, s.instance.value.status.inventory);
      assert IsCurrent(w.log + t.notes, k, f.phase.revision, f.base.spec, |w.log|);
    }
  }

  /** A dependency that passes the check at the shared source has completed at this very revision. */
  lemma CheckJustified(w: World, k: Key)
    requires Traceable(w)
    ensures Justified(w, k, CheckTurn(w, k))
  {
    var s := w.At(k);
    var t := CheckTurn(w, k);
    assert SlotTraced(w.config, w.log, k, s) && SlotCoherent(s);
    assert w.log + t.notes == w.log;
    if t.slot.flight.Some? && t.slot.flight.value.phase.Checking? && t.slot != s {
      var f := s.flight.value;
      var d := DependencyKey(k, f.base.spec.dependsOn[f.phase.next]);
      assert SlotTraced(w.config, w.log, d, w.At(d));
    }
  }

  lemma BuildJustified(w: World, k: Key, outcome: BuildOutcome)
    requires Traceable(w)
    ensures Justified(w, k, BuildTurn(w, k, outcome))
  {
    assert SlotTraced(w.config, w.log, k, w.At(k)) && SlotCoherent(w.At(k));
    SlotGrows(w.config, w.log, BuildTurn(w, k, outcome).notes, k, w.At(k));
  }

  lemma WaitJustified(w: World, k: Key)
    requires Traceable(w)
    ensures Justified(w, k, WaitTurn(w, k))
  {
    assert SlotTraced(w.config, w.log, k, w.At(k)) && SlotCoherent(w.At(k));
    SlotGrows(w.config, w.log, WaitTurn(w, k).notes, k, w.At(k));
  }

  lemma ApplyNextJustified(w: World, k: Key, switches: Switches)
    requires Traceable(w)
    ensures Justified(w, k, ApplyNextTurn(w, k, switches))
  {
    assert SlotTraced(w.config, w.log, k, w.At(k)) && SlotCoherent(w.At(k));
    SlotGrows(w.config, w.log, ApplyNextTurn(w, k, switches).notes, k, w.At(k));
  }

  lemma ApplyFailJustified(w: World, k: Key)
    requires Traceable(w)
    ensures Justified(w, k, ApplyFailTurn(w, k))
  {
    assert SlotTraced(w.config, w.log, k, w.At(k)) && SlotCoherent(w.At(k));
    SlotGrows(w.config, w.log, ApplyFailTurn(w, k).notes, k, w.At(k));
  }

  lemma StaleDoomed(w: World, k: Key, entries: seq<Entry>, stale: seq<ObjMeta>)
    requires SlotTraced(w.config, w.log, k, w.At(k)) && SlotCoherent(w.At(k)) && Flying(w.At(k))
    requires IsPlan(w.At(k).flight.value.base, entries, stale)
    ensures forall m :: m in stale ==> Doomed(w.config, w.log, k, w.At(k).flight.value.base.status.inventory, m)
  {
    forall m | m in stale
      ensures Doomed(w.config, w.log, k, w.At(k).flight.value.base.status.inventory, m)
    {
      TracedMeta(w.config, w.log, k, w.At(k).flight.value.base.status.inventory.value, m);
    }
  }

  lemma PlanNotes(w: World, k: Key, stale: seq<ObjMeta>)
    requires SlotTraced(w.config, w.log, k, w.At(k))
    ensures var t := PlanTurn(w, k, stale);
      && NotesOk(w.config, w.log, t.notes)
      && (forall r :: r in t.notes ==> !BeganFor(r, k))
      && t.slot.instance == w.At(k).instance
      && (t != Idle(w, k) ==>
            && var f := w.At(k).flight.value;
            && |t.notes| > 0
            && t.notes[0] == Applied(k, f.phase.revision, f.base.spec, EntrySet(f.phase.entries)))
  {
  }

  /** The record of an apply, put at the end of the log, belongs to the current reconciliation. */
  lemma AppliedIsCurrent(log: seq<Record>, notes: seq<Record>, k: Key, revision: string, spec: Spec, objs: set<ObjMeta>)
    requires Current(log, k, revision, spec) && (forall r :: r in notes ==> !BeganFor(r, k))
    requires |notes| > 0 && notes[0] == Applied(k, revision, spec, objs)
    ensures CurrentApplied(log + notes, k, revision, spec, objs)
  {
    var b :| IsCurrent(log, k, revision, spec, b);
    assert IsApplied(log + notes, k, revision, spec, objs, b, |log|);
  }

  lemma PlanJustified(w: World, k: Key, stale: seq<ObjMeta>)
    requires Traceable(w)
    ensures Justified(w, k, PlanTurn(w, k, stale))
  {
    var s := w.At(k);
    var t := PlanTurn(w, k, stale);
    assert SlotTraced(w.config, w.log, k, s) && SlotCoherent(s);
    PlanNotes(w, k, stale);
    if t == Idle(w, k) {
      assert w.log + t.notes == w.log;
    } else {
      var entries := s.flight.value.phase.entries;
      TracedGrows(w.config, w.log, t.notes, k, s.instance.value.status.inventory);
      AppliedIsCurrent(w.log, t.notes, k, s.flight.value.phase.revision, s.flight.value.base.spec, EntrySet(entries));
      if IsPlan(s.flight.value.base, entries, stale) {
        StaleDoomed(w, k, entries, stale);
      }
      assert FlightTraced(w.config, w.log + t.notes, k, t.slot.flight.value.base, t.slot.flight.value.phase);
    }
  }

  lemma PruneJustified(w: World, k: Key, ok: bool)
    requires Traceable(w)
    ensures Justified(w, k, PruneNextTurn(w, k, ok))
  {
    var s := w.At(k);
    assert SlotTraced(w.config, w.log, k, s) && SlotCoherent(s);
    SlotGrows(w.config, w.log, PruneNextTurn(w, k, ok).notes, k, s);
    if Flying(s) && s.flight.value.phase.Pruning? && s.flight.value.phase.stale != [] {
      assert Doomed(w.config, w.log, k, s.flight.value.base.status.inventory, s.flight.value.phase.stale[0]);
    }
  }

  lemma PruneDoneJustified(w: World, k: Key)
    requires Traceable(w)
    ensures Justified(w, k, PruneDoneTurn(w, k))
  {
    assert SlotTraced(w.config, w.log, k, w.At(k)) && SlotCoherent(w.At(k));
    SlotGrows(w.config, w.log, PruneDoneTurn(w, k).notes, k, w.At(k));
  }

  lemma AnnounceJustified(w: World, k: Key)
    requires Traceable(w)
    ensures Justified(w, k, AnnounceTurn(w, k))
  {
    assert SlotTraced(w.config, w.log, k, w.At(k)) && SlotCoherent(w.At(k));
    SlotGrows(w.config, w.log, AnnounceTurn(w, k).notes, k, w.At(k));
  }

  lemma AssessJustified(w: World, k: Key, ok: bool)
    requires Traceable(w)
    ensures Justified(w, k, AssessTurn(w, k, ok))
  {
    assert SlotTraced(w.config, w.log, k, w.At(k)) && SlotCoherent(w.At(k));
    assert w.log + AssessTurn(w, k, ok).notes == w.log;
  }

  lemma CloseJustified(w: World, k: Key)
    requires Traceable(w)
    ensures Justified(w, k, CloseTurn(w, k))
  {
    var s := w.At(k);
    var t := CloseTurn(w, k);
    assert SlotTraced(w.config, w.log, k, s) && SlotCoherent(s);
    SlotGrows(w.config, w.log, t.notes, k, s);
    if Flying(s) && s.flight.value.phase.Closing? && s.flight.value.phase.applied.Some? {
      var entries := s.flight.value.phase.applied.value;
      var base := s.flight.value.base;
      RefsList(entries);
      StoredTraced(w.config, w.log, k, s.flight.value.phase.status.lastAttempted, base.spec, entries);
      TracedGrows(w.config, w.log, t.notes, k, Some(Refs(entries)));
      assert base.Specs()[base.Generation() - 1] == base.spec;
    }
  }

  lemma FinalizeJustified(w: World, k: Key, ok: bool)
    requires Traceable(w)
    ensures Justified(w, k, FinalizeNextTurn(w, k, ok))
  {
    var s := w.At(k);
    assert SlotTraced(w.config, w.log, k, s) && SlotCoherent(s);
    SlotGrows(w.config, w.log, FinalizeNextTurn(w, k, ok).notes, k, s);
    if Flying(s) && s.flight.value.phase.Finalizing? && s.flight.value.phase.remaining != [] {
      assert Doomed(w.config, w.log, k, s.flight.value.base.status.inventory, s.flight.value.phase.remaining[0]);
    }
  }

  lemma ReleaseJustified(w: World, k: Key)
    requires Traceable(w)
    ensures Justified(w, k, ReleaseTurn(w, k))
  {
    assert SlotTraced(w.config, w.log, k, w.At(k)) && SlotCoherent(w.At(k));
    SlotGrows(w.config, w.log, ReleaseTurn(w, k).notes, k, w.At(k));
  }

  lemma AbortJustified(w: World, k: Key)
    requires Traceable(w)
    ensures Justified(w, k, AbortTurn(w, k))
  {
    assert SlotTraced(w.config, w.log, k, w.At(k)) && SlotCoherent(w.At(k));
    SlotGrows(w.config, w.log, AbortTurn(w, k).notes, k, w.At(k));
  }

  lemma CreateJustified(w: World, k: Key, spec: Spec)
    requires Traceable(w)
    ensures Justified(w, k, CreateTurn(w, k, spec))
  {
    assert SlotTraced(w.config, w.log, k, w.At(k)) && SlotCoherent(w.At(k));
    SlotGrows(w.config, w.log, CreateTurn(w, k, spec).notes, k, w.At(k));
  }

  lemma EditTraced(log: seq<Record>, k: Key, i: Instance, spec: Spec)
    requires StatusTraced(log, k, i)
    ensures StatusTraced(log, k, i.Edited(spec))
  {
    var g := i.status.observedGeneration;
    if 0 < g <= i.Generation() {
      assert i.Edited(spec).Specs()[g - 1] == i.Specs()[g - 1];
    }
  }

  lemma EditJustified(w: World, k: Key, spec: Spec)
    requires Traceable(w)
    ensures Justified(w, k, EditTurn(w, k, spec))
  {
    assert SlotTraced(w.config, w.log, k, w.At(k));
    assert w.log + EditTurn(w, k, spec).notes == w.log;
    if w.At(k).instance.Some? {
      EditTraced(w.log, k, w.At(k).instance.value, spec);
    }
  }

  lemma DeleteJustified(w: World, k: Key)
    requires Traceable(w)
    ensures Justified(w, k, DeleteTurn(w, k))
  {
    var s := w.At(k);
    var t := DeleteTurn(w, k);
    assert SlotTraced(w.config, w.log, k, s);
    if t.slot.instance.Some? {
      assert w.log + t.notes == w.log;
      MarkedTraced(w.log, k, s.instance.value);
    }
  }

  lemma MarkedTraced(log: seq<Record>, k: Key, i: Instance)
    requires StatusTraced(log, k, i)
    ensures StatusTraced(log, k, i.Edited(i.spec).(deleting := true))
  {
    EditTraced(log, k, i, i.spec);
    assert i.Edited(i.spec).(deleting := true).Specs() == i.Edited(i.spec).Specs();
  }

  /** Every move leaves only justified records, and a slot that the log explains. */
  lemma TurnJustified(w: World, k: Key, move: Move)
    requires Traceable(w)
    ensures Justified(w, k, TurnOf(w, k, move))
  {
    match move
    case Fetch(canFinalize) => FetchJustified(w, k, canFinalize);
    case Resolve => ResolveJustified(w, k);
    case CheckNext => CheckJustified(w, k);
    case Progress => ProgressJustified(w, k);
    case Build(outcome) => BuildJustified(w, k, outcome);
    case ApplyNext(switches) => ApplyNextJustified(w, k, switches);
    case ApplyFail => ApplyFailJustified(w, k);
    case WaitDone => WaitJustified(w, k);
    case Plan(stale) => PlanJustified(w, k, stale);
    case PruneNext(ok) => PruneJustified(w, k, ok);
    case PruneDone => PruneDoneJustified(w, k);
    case Announce => AnnounceJustified(w, k);
    case Assess(ok) => AssessJustified(w, k, ok);
    case Close => CloseJustified(w, k);
    case FinalizeNext(ok) => FinalizeJustified(w, k, ok);
    case Release => ReleaseJustified(w, k);
    case Abort => AbortJustified(w, k);
    case Create(spec) => CreateJustified(w, k, spec);
    case Edit(spec) => EditJustified(w, k, spec);
    case Delete => DeleteJustified(w, k);
  }

  /** Whoever begins notes it under its own key. */
  lemma BeginsForItself(w: World, k: Key, move: Move, j: Key)
    requires j != k
    ensures forall r :: r in TurnOf(w, k, move).notes ==> !BeganFor(r, j)
  {
  }

  lemma OthersTraced(w: World, e: Event, k: Key)
    requires SlotTraced(w.config, w.log, k, w.At(k)) && !(e.Of? && e.k == k)
    ensures SlotTraced(w.config, Step(w, e).log, k, Step(w, e).At(k))
  {
    StepSlot(w, e, k);
    NotesAdded(w, e);
    if e.Of? {
      BeginsForItself(w, e.k, e.move, k);
    }
    SlotGrows(w.config, w.log, Notes(w, e), k, w.At(k));
  }

  lemma NotesJustified(w: World, e: Event)
    requires Traceable(w)
    ensures LogOk(w.config, Step(w, e).log)
  {
    NotesAdded(w, e);
    if e.Of? {
      TurnJustified(w, e.k, e.move);
    }
    assert !e.Of? ==> |Notes(w, e)| <= 1;
    LogGrows(w.config, w.log, Notes(w, e));
  }

  lemma OwnTraced(w: World, k: Key, move: Move)
    requires Traceable(w)
    ensures SlotTraced(w.config, Step(w, Of(k, move)).log, k, Step(w, Of(k, move)).At(k))
  {
    TurnJustified(w, k, move);
    StepSlot(w, Of(k, move), k);
    NotesAdded(w, Of(k, move));
  }

  lemma TraceableStep(w: World, e: Event)
    requires Traceable(w)
    ensures Traceable(Step(w, e))
  {
    var v := Step(w, e);
    CoherentStep(w, e);
    NotesJustified(w, e);
    forall k
      ensures SlotTraced(v.config, v.log, k, v.At(k))
    {
      StepSlot(w, e, k);
      assert SlotTraced(w.config, w.log, k, w.At(k));
      if e.Of? && e.k == k {
        OwnTraced(w, k, e.move);
      } else {
        OthersTraced(w, e, k);
      }
    }
    StepSlot(w, e, Key("", ""));
  }

  lemma {:induction false} TraceableRun(config: Config, es: seq<Event>)
    ensures Traceable(Run(config, es))
  {
    if es != [] {
      TraceableRun(config, es[..|es| - 1]);
      TraceableStep(Run(config, es[..|es| - 1]), es[|es| - 1]);
    } else {
      forall k
        ensures SlotCoherent(EmptyWorld(config).At(k))
      {
      }
    }
  }

  /** Every record of the log has its reason before it. */
  lemma RecordHolds(config: Config, log: seq<Record>, r: Record) returns (n: nat)
    requires LogOk(config, log) && r in log
    ensures n < |log| && log[n] == r && RecordOk(config, log[..n], r)
  {
    n :| 0 <= n < |log| && log[n] == r;
  }
}
