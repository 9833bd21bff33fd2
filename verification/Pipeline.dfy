/**
 The apply, inventory and garbage collection pipeline as one set equation: a reconciliation in which
 nothing fails makes the owned objects, the stored inventory and the desired objects the same set.
 */
module Pipeline {
  import opened Wrappers
  import opened ObjectIds
  import opened Sorting
  import opened Inventories
  import opened StaleObjects
  import opened Statuses
  import opened Machine
  import opened Coherence
  import opened History
  import opened Ownership
  import opened SmoothRuns
  import opened Driver

  /** The build succeeds with these objects, and nothing fails afterwards. */
  ghost predicate FaultFree(config: Config, o: Oracle, objects: seq<Desired>) {
    && o.built == Objects(objects) && (forall d :: d in objects ==> Acceptable(config.clusterScoped, d))
    && o.canFinalize && o.sourceRead && o.statusPatched && o.waited && o.announced && o.healthy && o.finished
    && o.applyFailsAt == None && o.undeletable == {} && o.switches == map[]
  }

  /** No two desired objects are the same cluster object with different contents. */
  predicate Unambiguous(config: Config, objects: seq<Desired>) {
    forall a, b :: a in objects && b in objects && Target(config, a) == Target(config, b) ==> a == b
  }

  function Target(config: Config, o: Desired): ObjMeta {
    Physical(config.clusterScoped, o.meta)
  }

  function Targets(config: Config, objects: seq<Desired>): set<ObjMeta> {
    set o | o in objects :: Target(config, o)
  }

  predicate Delivered(config: Config, cluster: Cluster, k: Key, o: Desired) {
    && Target(config, o) in cluster
    && cluster[Target(config, o)].owner == Some(k)
    && cluster[Target(config, o)].content == o.content
  }

  predicate NotSwitchedOff(cluster: Cluster, m: ObjMeta) {
    m in cluster ==> !cluster[m].Disabled()
  }

  /** No desired object is there already and switched off. */
  predicate ObjectsOn(w: World, objects: seq<Desired>) {
    forall o :: o in objects ==> NotSwitchedOff(w.cluster, Target(w.config, o))
  }

  ghost predicate AllMet(instances: map<Key, Instance>, k: Key, spec: Spec, revision: string) {
    forall i :: 0 <= i < |spec.dependsOn| ==>
        DependencyMet(instances, DependencyKey(k, spec.dependsOn[i]), spec, revision)
  }

  /** Every object with the owner labels of `k` is accounted for by its slot. */
  ghost predicate AllHeld(w: World, k: Key) {
    forall m :: Owned(w.cluster, k, m) ==> Held(w.At(k), m)
  }

  /** What holds between any two moves of the reconciliation. */
  ghost predicate Underway(w: World, k: Key) {
    Traceable(w) && CleanFor(w, k) && Appliable(w.config.clusterScoped, w.At(k)) && AllHeld(w, k)
  }

  /**
   The reconciliation can start: `k` is idle, live and not suspended, its source offers the revision, its
   dependencies are met.
   */
  ghost predicate Poised(w: World, k: Key, revision: string) {
    && Underway(w, k)
    && k in w.instances && k !in w.flights && !w.instances[k].deleting && !w.instances[k].spec.suspend
    && GetSource(w, k, w.instances[k].spec.source) == Artifact(revision)
    && AllMet(w.instances, k, w.instances[k].spec, revision)
  }

  /** Nothing but `k` and the objects it owns or wants has changed. */
  ghost predicate OthersKept(v: World, w: World, k: Key, objects: seq<Desired>) {
    && w.config == v.config && w.sources == v.sources
    && (forall j :: j != k ==> w.At(j) == v.At(j))
    && (forall m :: m !in Targets(v.config, objects) && !Owned(v.cluster, k, m) ==> SameAt(v.cluster, w.cluster, m))
  }

  /** The desired objects are all recorded and in place. */
  ghost predicate InPlace(w: World, k: Key, entries: seq<Entry>, objects: seq<Desired>) {
    && EntrySet(entries) == Targets(w.config, objects)
    && forall o :: o in objects ==> Delivered(w.config, w.cluster, k, o)
  }

  ghost predicate OnTrack(w: World, k: Key, p: Phase, base: Instance, objects: seq<Desired>, revision: string) {
    match p
    case Resolving => GetSource(w, k, base.spec.source) == Artifact(revision) &&
      AllMet(w.instances, k, base.spec, revision)
    case Checking(r, _, _) => r == revision && AllMet(w.instances, k, base.spec, revision)
    case Building(r) => r == revision
    case Applying(r, stage, todo, later, entries) =>
      && r == revision
      && (stage.Others? ==> later == [])
      && (forall o :: o in todo || o in later ==> o in objects)
      && EntrySet(entries) <= Targets(w.config, objects)
      && forall o :: o in objects ==>
           o in todo || o in later || (Target(w.config, o) in EntrySet(entries) && Delivered(w.config, w.cluster, k, o))
    case Pruning(r, stale, entries, failed) =>
      && r == revision && !failed && InPlace(w, k, entries, objects)
      && forall m :: m in stale ==> Physical(w.config.clusterScoped, m) == m && m !in EntrySet(entries)
    case Assessing(r, entries, _) => r == revision && InPlace(w, k, entries, objects)
    case Closing(status, _, applied) =>
      && applied.Some? && InPlace(w, k, applied.value, objects)
      && IsReady(status) && status.lastApplied == revision
    case Finalizing(_, _) => false
  }

  ghost predicate OnCourse(v: World, w: World, k: Key, objects: seq<Desired>, revision: string) {
    && Underway(w, k) && ObjectsOn(w, objects)
    && OthersKept(v, w, k, objects)
    && k in v.instances && k in w.instances && k in w.flights
    && w.instances[k].spec == v.instances[k].spec && w.instances[k].past == v.instances[k].past &&
        !w.instances[k].deleting
    && var f := w.flights[k];
    && f.base.spec == v.instances[k].spec && f.base.past == v.instances[k].past
    && OnTrack(w, k, f.phase, f.base, objects, revision)
  }

  /**
   The outcome: desired objects, stored inventory and owned objects are one set; the instance is ready; nothing
   else moved.
   */
  ghost predicate Refined(v: World, w: World, k: Key, objects: seq<Desired>, revision: string) {
    && Underway(w, k)
    && OthersKept(v, w, k, objects)
    && k in v.instances && k in w.instances && k !in w.flights
    && w.instances[k].spec == v.instances[k].spec && w.instances[k].past == v.instances[k].past &&
        !w.instances[k].deleting
    && var status := w.instances[k].status;
    && IsReady(status) && status.lastApplied == revision && status.observedGeneration == w.instances[k].Generation()
    && (forall m :: Covers(status.inventory, m) <==> m in Targets(w.config, objects))
    && (forall m :: Owned(w.cluster, k, m) <==> m in Targets(w.config, objects))
    && (forall o :: o in objects ==> Delivered(w.config, w.cluster, k, o))
  }

  // ---------------------------------------------------------------- the general part of a move

  lemma NextIsSmooth(w: World, k: Key, o: Oracle, objects: seq<Desired>)
    requires FaultFree(w.config, o, objects) && w.At(k).flight.Some?
    ensures Smooth(w.config, Of(k, NextMove(w.config, w.At(k).flight.value, o)))
  {
    if w.At(k).flight.value.phase.Building? {
      SortElements(o.less, DesiredMeta, StageTwo(objects));
    }
  }

  lemma UnderwayTurn(w: World, k: Key, move: Move)
    requires Underway(w, k) && Smooth(w.config, Of(k, move)) && Undisturbed(w.At(k), move)
    ensures Underway(w.With(k, TurnOf(w, k, move)), k)
  {
    var t := TurnOf(w, k, move);
    var v := w.With(k, t);
    assert v == Step(w, Of(k, move));
    assert SlotCoherent(w.At(k)) && SlotTraced(w.config, w.log, k, w.At(k));
    TraceableStep(w, Of(k, move));
    TurnClean(w, k, move);
    StaysAppliable(w, k, move);
    WithAt(w, k, t, k);
    forall m | Owned(v.cluster, k, m)
      ensures Held(v.At(k), m)
    {
      TurnAccountsAll(w, k, move, m);
      assert !LeftBy(t.notes, k, m);
    }
  }

  /** Nothing a smooth turn does switches an object off. */
  lemma StaysSwitchedOn(w: World, k: Key, move: Move, m: ObjMeta)
    requires Smooth(w.config, Of(k, move)) && NotSwitchedOff(w.cluster, m)
    ensures NotSwitchedOff(TurnOf(w, k, move).cluster, m)
  {
  }

  lemma ObjectsStayOn(w: World, k: Key, move: Move, objects: seq<Desired>)
    requires Smooth(w.config, Of(k, move)) && ObjectsOn(w, objects)
    ensures ObjectsOn(w.With(k, TurnOf(w, k, move)), objects)
  {
    forall o | o in objects
      ensures NotSwitchedOff(TurnOf(w, k, move).cluster, Target(w.config, o))
    {
      StaysSwitchedOn(w, k, move, Target(w.config, o));
    }
  }

  /** A turn of `k` that touches only its own slot and objects it owns or wants. */
  lemma OthersKeptTurn(v: World, w: World, k: Key, objects: seq<Desired>, t: Turn)
    requires OthersKept(v, w, k, objects)
    requires forall m :: m !in Targets(v.config, objects) && !Owned(v.cluster, k, m) ==> SameAt(w.cluster, t.cluster, m)
    ensures OthersKept(v, w.With(k, t), k, objects)
  {
    forall j | j != k
      ensures w.With(k, t).At(j) == v.At(j)
    {
      WithAt(w, k, t, j);
    }
  }

  // ---------------------------------------------------------------- phase by phase

  /** What a move of the journey adds to the general part: the flight stays on track, foreign objects stay put. */
  ghost predicate StaysOn(v: World, w: World, k: Key, t: Turn, objects: seq<Desired>, revision: string)
    requires k in v.instances
  {
    && Flying(t.slot)
    && t.slot.instance.value.spec == v.instances[k].spec && t.slot.instance.value.past == v.instances[k].past
    && !t.slot.instance.value.deleting
    && t.slot.flight.value.base.spec == v.instances[k].spec && t.slot.flight.value.base.past == v.instances[k].past
    && OnTrack(w.With(k, t), k, t.slot.flight.value.phase, t.slot.flight.value.base, objects, revision)
    && forall m :: m !in Targets(v.config, objects) && !Owned(v.cluster, k, m) ==> SameAt(w.cluster, t.cluster, m)
  }

  lemma ResolvingOn(v: World, w: World, k: Key, objects: seq<Desired>, revision: string)
    requires k in v.instances && OnCourse(v, w, k, objects, revision) && w.flights[k].phase.Resolving?
    ensures StaysOn(v, w, k, ResolveTurn(w, k), objects, revision)
  {
    var t := ResolveTurn(w, k);
    assert w.With(k, t).instances == w.instances;
  }

  lemma CheckingOn(v: World, w: World, k: Key, objects: seq<Desired>, revision: string)
    requires k in v.instances && OnCourse(v, w, k, objects, revision) && w.flights[k].phase.Checking?
    requires w.flights[k].phase.next < |w.flights[k].base.spec.dependsOn|
    ensures StaysOn(v, w, k, CheckTurn(w, k), objects, revision)
  {
    var t := CheckTurn(w, k);
    assert w.With(k, t).instances == w.instances;
  }

  lemma ProgressOn(v: World, w: World, k: Key, objects: seq<Desired>, revision: string)
    requires k in v.instances && OnCourse(v, w, k, objects, revision) && w.flights[k].phase.Checking?
    requires w.flights[k].phase.next >= |w.flights[k].base.spec.dependsOn|
    ensures StaysOn(v, w, k, ProgressTurn(w, k), objects, revision)
  {
  }

  lemma BuildingOn(v: World, w: World, k: Key, o: Oracle, objects: seq<Desired>, revision: string)
    requires k in v.instances && OnCourse(v, w, k, objects, revision) && w.flights[k].phase.Building?
    requires FaultFree(w.config, o, objects)
    ensures StaysOn(v, w, k, BuildTurn(w, k, Outcome(o)), objects, revision)
  {
    SortElements(o.less, DesiredMeta, StageTwo(objects));
    StagedOn(v, w, k, StageOne(objects), SortedStageTwo(o.less, objects), objects, revision);
  }

  lemma StagedOn(v: World, w: World, k: Key, one: seq<Desired>, two: seq<Desired>, objects: seq<Desired>,
          revision: string)
    requires k in v.instances && OnCourse(v, w, k, objects, revision) && w.flights[k].phase.Building?
    requires IsStaging(one, two) && forall d :: d in objects <==> d in one || d in two
    ensures StaysOn(v, w, k, BuildTurn(w, k, Staged(one, two)), objects, revision)
  {
    var f := w.flights[k];
    var t := BuildTurn(w, k, Staged(one, two));
    assert w.At(k).flight == Some(f);
    assert EntrySet([]) == {};
    assert t.cluster == w.cluster && t.slot.instance == Some(w.instances[k]);
    if one == [] {
      assert t.slot.flight == Some(Flight(f.base, Applying(f.phase.revision, Others, two, [], [])));
    } else {
      assert t.slot.flight == Some(Flight(f.base, Applying(f.phase.revision, Definitions, one, two, [])));
    }
  }

  /** What the next object adds to what is done. */
  lemma DeliversNext(config: Config, cluster: Cluster, k: Key, p: Phase, entry: Entry, objects: seq<Desired>)
    requires p.Applying? && p.todo != [] && Unambiguous(config, objects)
    requires forall x :: x in p.todo || x in p.later ==> x in objects
    requires entry.meta == Target(config, p.todo[0]) && NotSwitchedOff(cluster, entry.meta)
    requires forall x :: x in objects ==>
      x in p.todo || x in p.later || (Target(config, x) in EntrySet(p.entries) && Delivered(config, cluster, k, x))
    ensures var after := ApplyObject(cluster, k, entry.meta, p.todo[0], NO_SWITCHES);
      var entries := p.entries + [entry];
      && EntrySet(entries) == EntrySet(p.entries) + {entry.meta}
      && forall x :: x in objects ==>
           x in p.todo[1..] || x in p.later ||
               (Target(config, x) in EntrySet(entries) && Delivered(config, after, k, x))
  {
    var d := p.todo[0];
    assert d in p.todo && d in objects && p.todo == [d] + p.todo[1..];
    EntrySetAppend(p.entries, entry);
    forall x | x in objects && x !in p.todo[1..] && x !in p.later
      ensures Delivered(config, ApplyObject(cluster, k, entry.meta, d, NO_SWITCHES), k, x)
    {
      if Target(config, x) == entry.meta {
        assert x == d;
      }
    }
  }

  lemma ApplyingOn(v: World, w: World, k: Key, o: Oracle, objects: seq<Desired>, revision: string)
    requires k in v.instances && OnCourse(v, w, k, objects, revision) && w.flights[k].phase.Applying?
    requires w.flights[k].phase.todo != []
    requires FaultFree(w.config, o, objects) && Unambiguous(w.config, objects)
    ensures StaysOn(v, w, k, ApplyNextTurn(w, k, NO_SWITCHES), objects, revision)
  {
    var p := w.flights[k].phase;
    var d := p.todo[0];
    assert d in p.todo && d in objects && Acceptable(w.config.clusterScoped, d);
    assert w.At(k).flight.value.phase == p;
    var m := Target(w.config, d);
    var entry := Entry(m, d.version, ApplyAction(w.cluster, k, m, d));
    assert m in Targets(w.config, objects);
    DeliversNext(w.config, w.cluster, k, p, entry, objects);
    var t := ApplyNextTurn(w, k, NO_SWITCHES);
    ApplyNextIs(w, k, entry);
    ListsOn(v, w, k, t, entry, objects, revision);
  }

  lemma ListsOn(v: World, w: World, k: Key, t: Turn, entry: Entry, objects: seq<Desired>, revision: string)
    requires k in v.instances && OnCourse(v, w, k, objects, revision) && w.flights[k].phase.Applying?
    requires w.flights[k].phase.todo != []
    requires entry.meta in Targets(w.config, objects)
    requires var f := w.flights[k];
      var after := ApplyObject(w.cluster, k, entry.meta, f.phase.todo[0], NO_SWITCHES);
      var entries := f.phase.entries + [entry];
      && t.slot == w.At(k).(flight := Some(Flight(f.base, f.phase.(todo := f.phase.todo[1..], entries := entries))))
      && t.cluster == after
      && EntrySet(entries) == EntrySet(f.phase.entries) + {entry.meta}
      && forall x :: x in objects ==>
           x in f.phase.todo[1..] || x in f.phase.later ||
               (Target(w.config, x) in EntrySet(entries) && Delivered(w.config, after, k, x))
    ensures StaysOn(v, w, k, t, objects, revision)
  {
    assert forall x :: x in w.flights[k].phase.todo[1..] ==> x in w.flights[k].phase.todo;
  }

  lemma ApplyNextIs(w: World, k: Key, entry: Entry)
    requires Flying(w.At(k)) && w.At(k).flight.value.phase.Applying? && w.At(k).flight.value.phase.todo != []
    requires var d := w.At(k).flight.value.phase.todo[0];
      && CanApply(w.config.clusterScoped, d.meta)
      && entry == Entry(Target(w.config, d), d.version, ApplyAction(w.cluster, k, Target(w.config, d), d))
    ensures var s, f, t := w.At(k), w.At(k).flight.value, ApplyNextTurn(w, k, NO_SWITCHES);
      && t.slot == s.(flight := Some(Flight(f.base,
          f.phase.(todo := f.phase.todo[1..], entries := f.phase.entries + [entry]))))
      && t.cluster == ApplyObject(w.cluster, k, entry.meta, f.phase.todo[0], NO_SWITCHES)
  {
  }

  lemma EntrySetAppend(entries: seq<Entry>, e: Entry)
    ensures EntrySet(entries + [e]) == EntrySet(entries) + {e.meta}
  {
    forall m
      ensures m in EntrySet(entries + [e]) <==> m in EntrySet(entries) + {e.meta}
    {
      if m in EntrySet(entries) {
        var x :| x in entries && x.meta == m;
        assert x in entries + [e];
      }
      if m == e.meta {
        assert e in entries + [e];
      }
    }
  }

  lemma WaitingOn(v: World, w: World, k: Key, objects: seq<Desired>, revision: string)
    requires k in v.instances && OnCourse(v, w, k, objects, revision) && w.flights[k].phase.Applying?
    requires w.flights[k].phase.todo == []
    requires w.flights[k].phase.stage.Definitions?
    ensures StaysOn(v, w, k, WaitTurn(w, k), objects, revision)
  {
  }

  /** Between clean inventories the garbage can be listed, and none of it was just applied. */
  lemma GarbageApart(clusterScoped: set<GroupKind>, o: Oracle, base: Instance, entries: seq<Entry>)
    requires CleanInventory(clusterScoped, base.status.inventory)
    requires forall e :: e in entries ==> CleanEntry(clusterScoped, e)
    ensures Diffable(base, entries) && IsPlan(base, entries, PlannedStale(o, base, entries))
    ensures forall m :: m in PlannedStale(o, base, entries) ==>
      Physical(clusterScoped, m) == m && m !in EntrySet(entries)
  {
    RefsClean(clusterScoped, entries);
    ParsesClean(clusterScoped, Refs(entries));
    if base.status.inventory.Some? {
      var older := base.status.inventory.value;
      ParsesClean(clusterScoped, older);
      StaleListIsExact(o.less, older, Refs(entries));
      forall m | m in PlannedStale(o, base, entries)
        ensures Physical(clusterScoped, m) == m && m !in EntrySet(entries)
      {
        EntriesListed(entries, m);
      }
    }
  }

  lemma PlanningOn(v: World, w: World, k: Key, o: Oracle, objects: seq<Desired>, revision: string)
    requires k in v.instances && OnCourse(v, w, k, objects, revision) && w.flights[k].phase.Applying?
    requires w.flights[k].phase.todo == []
    requires w.flights[k].phase.stage.Others?
    ensures var f := w.flights[k];
      StaysOn(v, w, k, PlanTurn(w, k, PlannedStale(o, f.base, f.phase.entries)), objects, revision)
  {
    var f := w.flights[k];
    var stale := PlannedStale(o, f.base, f.phase.entries);
    assert w.At(k).flight == Some(f) && CleanSlot(w.config.clusterScoped, w.At(k));
    GarbageApart(w.config.clusterScoped, o, f.base, f.phase.entries);
    forall m | m in Targets(w.config, objects)
      ensures m in EntrySet(f.phase.entries)
    {
      var x :| x in objects && Target(w.config, x) == m;
    }
    PlanGoesOn(w, k, stale);
  }

  lemma PlanGoesOn(w: World, k: Key, stale: seq<ObjMeta>)
    requires Flying(w.At(k)) && AppliedAll(w.At(k).flight.value.phase, Others)
    requires IsPlan(w.At(k).flight.value.base, w.At(k).flight.value.phase.entries, stale)
    ensures var s, f, t := w.At(k), w.At(k).flight.value, PlanTurn(w, k, stale);
      && t.cluster == w.cluster
      && t.slot == s.(flight := Some(Flight(f.base,
           if f.base.spec.prune then Pruning(f.phase.revision, stale, f.phase.entries, false)
           else Assessing(f.phase.revision, f.phase.entries, false))))
  {
  }

  lemma PruningOn(v: World, w: World, k: Key, objects: seq<Desired>, revision: string)
    requires k in v.instances && OnCourse(v, w, k, objects, revision) && w.flights[k].phase.Pruning?
    requires w.flights[k].phase.stale != []
    ensures StaysOn(v, w, k, PruneNextTurn(w, k, true), objects, revision)
  {
    var p := w.flights[k].phase;
    var m := p.stale[0];
    assert m in p.stale && w.At(k).flight.value.phase == p;
    var t := PruneNextTurn(w, k, true);
    assert forall x :: x in objects ==> Target(w.config, x) != m by {
      assert forall x :: x in objects ==> Target(w.config, x) in Targets(w.config, objects);
    }
    if m in w.cluster && !Owned(v.cluster, k, m) {
      assert m !in Targets(v.config, objects);
      assert SameAt(v.cluster, w.cluster, m);
    }
  }

  lemma ClosingOn(v: World, w: World, k: Key, objects: seq<Desired>, revision: string)
    requires k in v.instances && OnCourse(v, w, k, objects, revision) && w.flights[k].phase.Closing?
    requires Underway(w.With(k, CloseTurn(w, k)), k) && OthersKept(v, w.With(k, CloseTurn(w, k)), k, objects)
    ensures Refined(v, w.With(k, CloseTurn(w, k)), k, objects, revision)
  {
    var f := w.flights[k];
    var entries := f.phase.applied.value;
    var u := w.With(k, CloseTurn(w, k));
    assert SlotCoherent(w.At(k)) && w.At(k).flight.value == f && CleanSlot(w.config.clusterScoped, w.At(k));
    var status := u.instances[k].status;
    assert status == f.phase.status && status.inventory == Some(Refs(entries));
    forall m
      ensures Covers(status.inventory, m) <==> m in Targets(w.config, objects)
    {
      RefsClean(w.config.clusterScoped, entries);
      ParsesClean(w.config.clusterScoped, Refs(entries));
      CoveredIsListed(Refs(entries), m);
      EntriesListed(entries, m);
    }
    forall m
      ensures Owned(u.cluster, k, m) <==> m in Targets(w.config, objects)
    {
      if Owned(u.cluster, k, m) {
        assert Held(u.At(k), m);
      }
      if m in Targets(w.config, objects) {
        var x :| x in objects && Target(w.config, x) == m;
        assert Delivered(w.config, w.cluster, k, x);
      }
    }
  }

  // ---------------------------------------------------------------- the whole journey

  lemma JourneyMove(v: World, w: World, k: Key, o: Oracle, objects: seq<Desired>, revision: string)
    requires k in v.instances && OnCourse(v, w, k, objects, revision)
    requires FaultFree(w.config, o, objects) && Unambiguous(w.config, objects)
    ensures var u := w.With(k, NextTurn(w, k, o));
      if w.flights[k].phase.Closing? then Refined(v, u, k, objects, revision) else OnCourse(v, u, k, objects, revision)
  {
    var f := w.flights[k];
    var t := NextTurn(w, k, o);
    assert w.At(k).flight == Some(f);
    NextIsSmooth(w, k, o, objects);
    UnderwayTurn(w, k, NextMove(w.config, f, o));
    ObjectsStayOn(w, k, NextMove(w.config, f, o), objects);
    if f.phase.Closing? {
      assert t == CloseTurn(w, k);
      OthersKeptTurn(v, w, k, objects, t);
      ClosingOn(v, w, k, objects, revision);
    } else {
      JourneyStays(v, w, k, o, objects, revision);
      OthersKeptTurn(v, w, k, objects, t);
      WithAt(w, k, t, k);
    }
  }

  lemma JourneyStays(v: World, w: World, k: Key, o: Oracle, objects: seq<Desired>, revision: string)
    requires k in v.instances && OnCourse(v, w, k, objects, revision) && !w.flights[k].phase.Closing?
    requires FaultFree(w.config, o, objects) && Unambiguous(w.config, objects)
    ensures StaysOn(v, w, k, NextTurn(w, k, o), objects, revision)
  {
    var f := w.flights[k];
    if f.phase.Applying? {
      JourneyApplies(v, w, k, o, objects, revision);
    } else if f.phase.Pruning? {
      JourneyPrunes(v, w, k, o, objects, revision);
    } else if f.phase.Assessing? && AwaitsHealth(f.base.spec, f.phase.entries) && !f.phase.announced {
      JourneyAnnounces(v, w, k, o, objects, revision);
    } else if f.phase.Assessing? {
      JourneyAssesses(v, w, k, o, objects, revision);
    } else {
      JourneyOpens(v, w, k, o, objects, revision);
    }
  }

  lemma JourneyOpens(v: World, w: World, k: Key, o: Oracle, objects: seq<Desired>, revision: string)
    requires k in v.instances && OnCourse(v, w, k, objects, revision)
    requires (w.flights[k].phase.Resolving? || w.flights[k].phase.Checking? || w.flights[k].phase.Building?)
    requires FaultFree(w.config, o, objects) && Unambiguous(w.config, objects)
    ensures StaysOn(v, w, k, NextTurn(w, k, o), objects, revision)
  {
    match NextMove(w.config, w.flights[k], o)
    case Resolve => ResolvingOn(v, w, k, objects, revision);
    case CheckNext => CheckingOn(v, w, k, objects, revision);
    case Progress => ProgressOn(v, w, k, objects, revision);
    case Build(_) => BuildingOn(v, w, k, o, objects, revision);
  }

  lemma JourneyApplies(v: World, w: World, k: Key, o: Oracle, objects: seq<Desired>, revision: string)
    requires k in v.instances && OnCourse(v, w, k, objects, revision) && w.flights[k].phase.Applying?
    requires FaultFree(w.config, o, objects) && Unambiguous(w.config, objects)
    ensures StaysOn(v, w, k, NextTurn(w, k, o), objects, revision)
  {
    var f := w.flights[k];
    assert w.At(k).flight == Some(f);
    if f.phase.todo != [] {
      assert NextTurn(w, k, o) == ApplyNextTurn(w, k, NO_SWITCHES);
      ApplyingOn(v, w, k, o, objects, revision);
    } else if f.phase.stage.Definitions? {
      assert NextTurn(w, k, o) == WaitTurn(w, k);
      WaitingOn(v, w, k, objects, revision);
    } else {
      assert NextMove(w.config, f, o) == Plan(PlannedStale(o, f.base, f.phase.entries));
      PlanningOn(v, w, k, o, objects, revision);
    }
  }

  lemma JourneyPrunes(v: World, w: World, k: Key, o: Oracle, objects: seq<Desired>, revision: string)
    requires k in v.instances && OnCourse(v, w, k, objects, revision) && w.flights[k].phase.Pruning?
    requires FaultFree(w.config, o, objects)
    ensures StaysOn(v, w, k, NextTurn(w, k, o), objects, revision)
  {
    assert w.At(k).flight == Some(w.flights[k]);
    if w.flights[k].phase.stale != [] {
      assert NextTurn(w, k, o) == PruneNextTurn(w, k, true);
      PruningOn(v, w, k, objects, revision);
    } else {
      assert NextTurn(w, k, o) == PruneDoneTurn(w, k);
    }
  }

  lemma JourneyAnnounces(v: World, w: World, k: Key, o: Oracle, objects: seq<Desired>, revision: string)
    requires k in v.instances && OnCourse(v, w, k, objects, revision) && w.flights[k].phase.Assessing?
    requires AwaitsHealth(w.flights[k].base.spec, w.flights[k].phase.entries) && !w.flights[k].phase.announced
    requires FaultFree(w.config, o, objects)
    ensures StaysOn(v, w, k, NextTurn(w, k, o), objects, revision)
  {
    assert w.At(k).flight == Some(w.flights[k]);
    assert NextTurn(w, k, o) == AnnounceTurn(w, k);
  }

  lemma JourneyAssesses(v: World, w: World, k: Key, o: Oracle, objects: seq<Desired>, revision: string)
    requires k in v.instances && OnCourse(v, w, k, objects, revision) && w.flights[k].phase.Assessing?
    requires AwaitsHealth(w.flights[k].base.spec, w.flights[k].phase.entries) ==> w.flights[k].phase.announced
    requires FaultFree(w.config, o, objects)
    ensures StaysOn(v, w, k, NextTurn(w, k, o), objects, revision)
  {
    assert w.At(k).flight == Some(w.flights[k]);
    assert NextTurn(w, k, o) == AssessTurn(w, k, true);
  }

  lemma {:induction false} JourneyEnds(v: World, w: World, k: Key, o: Oracle, objects: seq<Desired>, revision: string)
    requires k in v.instances && OnCourse(v, w, k, objects, revision)
    requires FaultFree(w.config, o, objects) && Unambiguous(w.config, objects)
    requires SlotCoherent(w.At(k))
    ensures Refined(v, Drive(w, k, o), k, objects, revision)
    decreases Rank(w.At(k)), Work(w.At(k))
  {
    var f := w.flights[k];
    var u := w.With(k, NextTurn(w, k, o));
    MovesOn(w, k, o);
    TurnCoherent(w, k, NextMove(w.config, f, o));
    WithAt(w, k, NextTurn(w, k, o), k);
    JourneyMove(v, w, k, o, objects, revision);
    if !f.phase.Closing? {
      JourneyEnds(v, u, k, o, objects, revision);
    }
  }

  /** A fetch that finds the instance poised sets out. */
  lemma SetsOut(w: World, k: Key, objects: seq<Desired>, revision: string)
    requires Poised(w, k, revision) && ObjectsOn(w, objects)
    ensures OnCourse(w, w.With(k, FetchTurn(w, k, true)), k, objects, revision)
  {
    var t := FetchTurn(w, k, true);
    var u := w.With(k, t);
    assert SlotCoherent(w.At(k)) && CleanSlot(w.config.clusterScoped, w.At(k));
    assert TurnOf(w, k, Fetch(true)) == t;
    UnderwayTurn(w, k, Fetch(true));
    OthersKeptTurn(w, w, k, objects, t);
    WithAt(w, k, t, k);
    var spec := w.instances[k].spec;
    forall i | 0 <= i < |spec.dependsOn|
      ensures DependencyMet(u.instances, DependencyKey(k, spec.dependsOn[i]), spec, revision)
    {
      assert DependencyMet(w.instances, DependencyKey(k, spec.dependsOn[i]), spec, revision);
    }
  }

  /**
   Pipeline refinement. Start a reconciliation in any reachable state in which every object with the owner
   labels of `k` is in its stored inventory (`Poised`), let nothing fail, with pruning on and no owned or
   desired object switched off: afterwards the owned objects, the stored inventory and the desired objects
   are the same set, each desired object is there with its content, the instance is ready at the revision and
   the generation it was read at, and every other object and instance is untouched.
   */
  lemma PipelineRefines(w: World, k: Key, o: Oracle, objects: seq<Desired>, revision: string)
    requires Poised(w, k, revision) && FaultFree(w.config, o, objects) && Unambiguous(w.config, objects)
    requires SlotCoherent(w.At(k)) && ObjectsOn(w, objects)
    ensures Refined(w, Reconcile(w, k, o), k, objects, revision)
  {
    SetsOut(w, k, objects, revision);
    TurnCoherent(w, k, Fetch(true));
    WithAt(w, k, FetchTurn(w, k, true), k);
    JourneyEnds(w, w.With(k, FetchTurn(w, k, true)), k, o, objects, revision);
  }
}
