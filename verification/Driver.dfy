/**
 One reconciliation from start to end with nobody interfering: the moves the controller makes, in the
 order in which it makes them, given what the outside answers.
 */
module Driver {
  import opened Wrappers
  import opened ObjectIds
  import opened Sorting
  import opened Inventories
  import opened StaleObjects
  import opened Statuses
  import opened Machine
  import opened Coherence

  datatype BuildResult = Broken(reason: string) | Closed | Objects(objects: seq<Desired>)

  /** What the outside answers during one reconciliation. */
  datatype Oracle = Oracle(
    canFinalize: bool,
    sourceRead: bool,
    statusPatched: bool,
    built: BuildResult,
    less: Order,
    switches: map<ObjMeta, Switches>,
    applyFailsAt: Option<nat>,
    waited: bool,
    undeletable: set<ObjMeta>,
    announced: bool,
    healthy: bool,
    finished: bool)

  // ---------------------------------------------------------------- staging

  function StageOne(objects: seq<Desired>): (r: seq<Desired>)
    ensures forall o :: o in r <==> o in objects && IsClusterDefinition(o.meta)
  {
    if objects == [] then
      []
    else
      var init, last := StageOne(objects[..|objects| - 1]), objects[|objects| - 1];
      assert objects == objects[..|objects| - 1] + [last];
      if IsClusterDefinition(last.meta) then init + [last] else init
  }

  function StageTwo(objects: seq<Desired>): (r: seq<Desired>)
    ensures forall o :: o in r <==> o in objects && !IsClusterDefinition(o.meta)
  {
    if objects == [] then
      []
    else
      var init, last := StageTwo(objects[..|objects| - 1]), objects[|objects| - 1];
      assert objects == objects[..|objects| - 1] + [last];
      if IsClusterDefinition(last.meta) then init else init + [last]
  }

  const DesiredMeta: Desired -> ObjMeta := (o: Desired) => o.meta

  /** The second stage in the order of the apply library. */
  function SortedStageTwo(less: Order, objects: seq<Desired>): seq<Desired> {
    Sort(less, DesiredMeta, StageTwo(objects))
  }

  /** The stages partition the input: each object goes to one stage, as often as it was given. */
  lemma {:induction false} StagesPartition(less: Order, objects: seq<Desired>)
    ensures multiset(StageOne(objects)) + multiset(SortedStageTwo(less, objects)) == multiset(objects)
    ensures IsStaging(StageOne(objects), SortedStageTwo(less, objects))
  {
    StagesCount(objects);
    SortElements(less, DesiredMeta, StageTwo(objects));
  }

  lemma {:induction false} StagesCount(objects: seq<Desired>)
    ensures multiset(StageOne(objects)) + multiset(StageTwo(objects)) == multiset(objects)
  {
    if objects != [] {
      StagesCount(objects[..|objects| - 1]);
      assert objects == objects[..|objects| - 1] + [objects[|objects| - 1]];
    }
  }

  // ---------------------------------------------------------------- the next move

  function SwitchesFor(o: Oracle, m: ObjMeta): Switches {
    if m in o.switches then o.switches[m] else Switches(false, false)
  }

  function Outcome(o: Oracle): BuildOutcome {
    match o.built
    case Broken(reason) => BuildError(reason)
    case Closed => GateClosed
    case Objects(objects) => Staged(StageOne(objects), SortedStageTwo(o.less, objects))
  }

  /** The garbage to collect, in the order in which the inventory difference lists it. */
  function PlannedStale(o: Oracle, i: Instance, entries: seq<Entry>): seq<ObjMeta> {
    if i.status.inventory.None? || !Diffable(i, entries) then []
    else MetasOf(StaleList(o.less, i.status.inventory.value, Refs(entries)))
  }

  function NextMove(config: Config, f: Flight, o: Oracle): Move {
    match f.phase
    case Resolving => if o.sourceRead then Resolve else Abort
    case Checking(_, next, _) =>
      if next < |f.base.spec.dependsOn| then CheckNext else if o.statusPatched then Progress else Abort
    case Building(_) => Build(Outcome(o))
    case Applying(_, stage, todo, _, entries) =>
      if o.applyFailsAt == Some(|entries|) then ApplyFail
      else if todo != [] then ApplyNext(SwitchesFor(o, Physical(config.clusterScoped, todo[0].meta)))
      else if stage.Definitions? then (if o.waited then WaitDone else ApplyFail)
      else Plan(PlannedStale(o, f.base, entries))
    case Pruning(_, stale, _, _) => if stale != [] then PruneNext(stale[0] !in o.undeletable) else PruneDone
    case Assessing(_, entries, announced) =>
      if AwaitsHealth(f.base.spec, entries) && !announced && o.announced then Announce else Assess(o.healthy)
    case Closing(_, _, _) => if o.finished then Close else Abort
    case Finalizing(remaining, _) =>
      if remaining != [] then FinalizeNext(remaining[0] !in o.undeletable) else if o.finished then Release else Abort
  }

  function Rank(s: Slot): nat {
    if s.flight.None? then 0
    else match s.flight.value.phase
      case Resolving => 11
      case Checking(_, _, _) => 10
      case Building(_) => 9
      case Applying(_, stage, _, _, _) => if stage.Definitions? then 8 else 7
      case Pruning(_, _, _, _) => 6
      case Assessing(_, _, announced) => if announced then 4 else 5
      case Closing(_, _, _) => 3
      case Finalizing(_, _) => 2
  }

  function Work(s: Slot): nat {
    if s.flight.None? then 0
    else match s.flight.value.phase
      case Checking(_, next, _) =>
        var n := |s.flight.value.base.spec.dependsOn|;
        if next < n then n - next else 0
      case Applying(_, _, todo, _, _) => |todo|
      case Pruning(_, stale, _, _) => |stale|
      case Finalizing(remaining, _) => |remaining|
      case _ => 0
  }

  ghost function NextTurn(w: World, k: Key, o: Oracle): Turn
    requires w.At(k).flight.Some?
  {
    TurnOf(w, k, NextMove(w.config, w.At(k).flight.value, o))
  }

  predicate Nearer(a: Slot, b: Slot) {
    Rank(a) < Rank(b) || (Rank(a) == Rank(b) && Work(a) < Work(b))
  }

  /** Every move gets a reconciliation nearer its end. */
  lemma MovesOn(w: World, k: Key, o: Oracle)
    requires SlotCoherent(w.At(k)) && w.At(k).flight.Some?
    ensures Nearer(NextTurn(w, k, o).slot, w.At(k))
  {
    var f := w.At(k).flight.value;
    match f.phase
    case Building(_) =>
      if o.built.Objects? {
        StagesPartition(o.less, o.built.objects);
      }
      BuildMovesOn(w, k, o);
    case Applying(_, _, todo, _, _) =>
      if todo != [] {
        ApplyNextMovesOn(w, k, o);
      } else {
        StageMovesOn(w, k, o);
      }
    case Resolving => OpeningMovesOn(w, k, o);
    case Checking(_, _, _) => OpeningMovesOn(w, k, o);
    case Pruning(_, _, _, _) => PruningMovesOn(w, k, o);
    case Assessing(_, _, _) => AssessingMovesOn(w, k, o);
    case Closing(_, _, _) => ClosingMovesOn(w, k, o);
    case Finalizing(_, _) => ClosingMovesOn(w, k, o);
  }

  lemma BuildMovesOn(w: World, k: Key, o: Oracle)
    requires SlotCoherent(w.At(k)) && w.At(k).flight.Some? && w.At(k).flight.value.phase.Building?
    requires o.built.Objects? ==> IsStaging(StageOne(o.built.objects), SortedStageTwo(o.less, o.built.objects))
    ensures Nearer(NextTurn(w, k, o).slot, w.At(k))
  {
    var outcome := Outcome(o);
    OutcomeMovesOn(w, k, outcome);
    assert NextMove(w.config, w.At(k).flight.value, o) == Build(outcome);
  }

  lemma OutcomeMovesOn(w: World, k: Key, outcome: BuildOutcome)
    requires Flying(w.At(k)) && w.At(k).flight.value.phase.Building?
    requires outcome.Staged? ==> IsStaging(outcome.one, outcome.two)
    ensures Nearer(BuildTurn(w, k, outcome).slot, w.At(k))
  {
  }

  lemma FailMovesOn(w: World, k: Key)
    requires Flying(w.At(k)) && w.At(k).flight.value.phase.Applying?
    ensures Nearer(ApplyFailTurn(w, k).slot, w.At(k))
  {
  }

  lemma ApplyNextMovesOn(w: World, k: Key, o: Oracle)
    requires SlotCoherent(w.At(k)) && w.At(k).flight.Some? && w.At(k).flight.value.phase.Applying?
    requires w.At(k).flight.value.phase.todo != []
    ensures Nearer(NextTurn(w, k, o).slot, w.At(k))
  {
    var move := NextMove(w.config, w.At(k).flight.value, o);
    if move.ApplyFail? {
      FailMovesOn(w, k);
    } else {
      assert NextTurn(w, k, o) == ApplyNextTurn(w, k, move.switches);
    }
  }

  lemma PlanMovesOn(w: World, k: Key, stale: seq<ObjMeta>)
    requires Flying(w.At(k)) && w.At(k).flight.value.phase.Applying?
    requires w.At(k).flight.value.phase.todo == [] && w.At(k).flight.value.phase.stage.Others?
    requires var f := w.At(k).flight.value; Diffable(f.base, f.phase.entries) ==> IsPlan(f.base, f.phase.entries, stale)
    ensures Nearer(PlanTurn(w, k, stale).slot, w.At(k))
  {
  }

  lemma StageMovesOn(w: World, k: Key, o: Oracle)
    requires SlotCoherent(w.At(k)) && w.At(k).flight.Some? && w.At(k).flight.value.phase.Applying?
    requires w.At(k).flight.value.phase.todo == []
    ensures Nearer(NextTurn(w, k, o).slot, w.At(k))
  {
    var f := w.At(k).flight.value;
    var move := NextMove(w.config, f, o);
    if move.ApplyFail? {
      FailMovesOn(w, k);
      assert NextTurn(w, k, o) == ApplyFailTurn(w, k);
    } else if f.phase.stage.Definitions? {
      assert NextTurn(w, k, o) == WaitTurn(w, k);
    } else {
      PlansOn(w, k, o);
    }
  }

  lemma NextIsPlan(config: Config, f: Flight, o: Oracle)
    requires f.phase.Applying?
    requires o.applyFailsAt != Some(|f.phase.entries|) && f.phase.todo == [] && f.phase.stage.Others?
    ensures NextMove(config, f, o) == Plan(PlannedStale(o, f.base, f.phase.entries))
  {
  }

  lemma TurnOfPlan(w: World, k: Key, stale: seq<ObjMeta>)
    ensures TurnOf(w, k, Plan(stale)) == PlanTurn(w, k, stale)
  {
  }

  lemma PlansOn(w: World, k: Key, o: Oracle)
    requires Flying(w.At(k)) && w.At(k).flight.value.phase.Applying?
    requires var p := w.At(k).flight.value.phase; p.todo == [] && p.stage.Others? && o.applyFailsAt != Some(|p.entries|)
    ensures Nearer(NextTurn(w, k, o).slot, w.At(k))
  {
    var f := w.At(k).flight.value;
    var stale := PlannedStale(o, f.base, f.phase.entries);
    if Diffable(f.base, f.phase.entries) {
      PlannedIsPlan(o, f.base, f.phase.entries);
    }
    PlanMovesOn(w, k, stale);
    NextIsPlan(w.config, f, o);
    TurnOfPlan(w, k, stale);
  }

  /** The list that the loops compute is one of those that the machine accepts. */
  lemma PlannedIsPlan(o: Oracle, i: Instance, entries: seq<Entry>)
    requires Diffable(i, entries)
    ensures IsPlan(i, entries, PlannedStale(o, i, entries))
  {
    if i.status.inventory.Some? {
      StaleListIsExact(o.less, i.status.inventory.value, Refs(entries));
    }
  }

  lemma OpeningMovesOn(w: World, k: Key, o: Oracle)
    requires SlotCoherent(w.At(k)) && w.At(k).flight.Some?
    requires w.At(k).flight.value.phase.Resolving? || w.At(k).flight.value.phase.Checking?
    ensures Nearer(NextTurn(w, k, o).slot, w.At(k))
  {
  }

  lemma PruningMovesOn(w: World, k: Key, o: Oracle)
    requires SlotCoherent(w.At(k)) && w.At(k).flight.Some?
    requires w.At(k).flight.value.phase.Pruning?
    ensures Nearer(NextTurn(w, k, o).slot, w.At(k))
  {
  }

  lemma AssessingMovesOn(w: World, k: Key, o: Oracle)
    requires SlotCoherent(w.At(k)) && w.At(k).flight.Some?
    requires w.At(k).flight.value.phase.Assessing?
    ensures Nearer(NextTurn(w, k, o).slot, w.At(k))
  {
    var move := NextMove(w.config, w.At(k).flight.value, o);
    if move.Announce? {
      assert NextTurn(w, k, o) == AnnounceTurn(w, k);
    } else {
      assert NextTurn(w, k, o) == AssessTurn(w, k, o.healthy);
    }
  }

  lemma ClosingMovesOn(w: World, k: Key, o: Oracle)
    requires SlotCoherent(w.At(k)) && w.At(k).flight.Some?
    requires w.At(k).flight.value.phase.Closing? || w.At(k).flight.value.phase.Finalizing?
    ensures Nearer(NextTurn(w, k, o).slot, w.At(k))
  {
  }

  /** Carry the reconciliation of `k` in flight to its end. */
  ghost function Drive(w: World, k: Key, o: Oracle): World
    requires SlotCoherent(w.At(k))
    decreases Rank(w.At(k)), Work(w.At(k))
  {
    if w.At(k).flight.None? then w
    else
      MovesOn(w, k, o);
      TurnCoherent(w, k, NextMove(w.config, w.At(k).flight.value, o));
      WithAt(w, k, NextTurn(w, k, o), k);
      Drive(w.With(k, NextTurn(w, k, o)), k, o)
  }

  /** `Reconcile`: fetch the instance and carry on to the end. */
  ghost function Reconcile(w: World, k: Key, o: Oracle): World
    requires SlotCoherent(w.At(k))
  {
    TurnCoherent(w, k, Fetch(o.canFinalize));
    WithAt(w, k, FetchTurn(w, k, o.canFinalize), k);
    Drive(w.With(k, FetchTurn(w, k, o.canFinalize)), k, o)
  }

  /** The events of a driven reconciliation. */
  lemma {:induction false} DriveIsRun(w: World, k: Key, o: Oracle) returns (es: seq<Event>)
    requires SlotCoherent(w.At(k))
    ensures Exec(w, es) == Drive(w, k, o)
    ensures forall e :: e in es ==> e.Of? && e.k == k
    ensures w.At(k).flight.Some? ==> es != []
    decreases Rank(w.At(k)), Work(w.At(k))
  {
    if w.At(k).flight.None? {
      es := [];
    } else {
      var move := NextMove(w.config, w.At(k).flight.value, o);
      MovesOn(w, k, o);
      TurnCoherent(w, k, move);
      WithAt(w, k, NextTurn(w, k, o), k);
      var rest := DriveIsRun(w.With(k, NextTurn(w, k, o)), k, o);
      es := [Of(k, move)] + rest;
      ExecConcat(w, [Of(k, move)], rest);
      assert Exec(w, [Of(k, move)]) == Step(Exec(w, [Of(k, move)][..0]), Of(k, move));
    }
  }

  /** A driven reconciliation is a run of the machine: all that holds of every run holds of it. */
  lemma ReconcileIsRun(w: World, k: Key, o: Oracle) returns (es: seq<Event>)
    requires SlotCoherent(w.At(k))
    ensures Exec(w, es) == Reconcile(w, k, o)
    ensures forall e :: e in es ==> e.Of? && e.k == k
    ensures Reconcile(w, k, o).At(k).flight.None?
  {
    var fetch := Of(k, Fetch(o.canFinalize));
    TurnCoherent(w, k, fetch.move);
    WithAt(w, k, FetchTurn(w, k, o.canFinalize), k);
    var v := w.With(k, FetchTurn(w, k, o.canFinalize));
    var rest := DriveIsRun(v, k, o);
    es := [fetch] + rest;
    ExecConcat(w, [fetch], rest);
    assert Exec(w, [fetch]) == Step(Exec(w, [fetch][..0]), fetch);
    DriveEnds(v, k, o);
  }

  lemma {:induction false} DriveEnds(w: World, k: Key, o: Oracle)
    requires SlotCoherent(w.At(k))
    ensures Drive(w, k, o).At(k).flight.None?
    decreases Rank(w.At(k)), Work(w.At(k))
  {
    if w.At(k).flight.Some? {
      MovesOn(w, k, o);
      TurnCoherent(w, k, NextMove(w.config, w.At(k).flight.value, o));
      WithAt(w, k, NextTurn(w, k, o), k);
      DriveEnds(w.With(k, NextTurn(w, k, o)), k, o);
    }
  }
}
