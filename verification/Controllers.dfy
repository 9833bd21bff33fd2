/**
 The reconciler in the form of the source: an object whose methods loop over dependencies, stages and
 objects, write to the cluster, patch the stored status and put the instance back on the queue. Each
 method is proved against the transition system: one call of `Reconcile` leaves the fields exactly where
 the machine takes them.
 */
module Controllers {
  import opened Wrappers
  import opened ObjectIds
  import opened Sorting
  import opened Inventories
  import opened StaleObjects
  import opened Statuses
  import opened Machine
  import opened Coherence
  import opened Driver
  import opened Pipeline
  import opened Wakeups
  import opened Validation
  import opened Preparation

  lemma NextOfApplyFailing(w: World, k: Key, o: Oracle)
    requires Flying(w.At(k)) && w.At(k).flight.value.phase.Applying?
    requires var p := w.At(k).flight.value.phase;
      o.applyFailsAt == Some(|p.entries|) || (p.todo == [] && p.stage.Definitions? && !o.waited)
    ensures NextTurn(w, k, o) == ApplyFailTurn(w, k)
  {
  }

  lemma NextOfPruning(w: World, k: Key, o: Oracle)
    requires Flying(w.At(k)) && w.At(k).flight.value.phase.Pruning?
    ensures var stale := w.At(k).flight.value.phase.stale;
      NextTurn(w, k, o) == if stale != [] then PruneNextTurn(w, k, stale[0] !in o.undeletable) else PruneDoneTurn(w, k)
  {
  }

  lemma NextOfFinalizing(w: World, k: Key, o: Oracle)
    requires Flying(w.At(k)) && w.At(k).flight.value.phase.Finalizing?
    ensures var remaining := w.At(k).flight.value.phase.remaining;
      NextTurn(w, k, o) == if remaining != [] then FinalizeNextTurn(w, k, remaining[0] !in o.undeletable)
                           else if o.finished then ReleaseTurn(w, k) else AbortTurn(w, k)
  {
  }

  /** One move, then the rest. */
  lemma DriveOn(w: World, k: Key, o: Oracle) returns (v: World)
    requires w.At(k).flight.Some? && SlotCoherent(w.At(k))
    ensures v == w.With(k, NextTurn(w, k, o)) && v.At(k) == NextTurn(w, k, o).slot
    ensures SlotCoherent(v.At(k)) && Drive(v, k, o) == Drive(w, k, o)
  {
    v := w.With(k, NextTurn(w, k, o));
    MovesOn(w, k, o);
    TurnCoherent(w, k, NextMove(w.config, w.At(k).flight.value, o));
    WithAt(w, k, NextTurn(w, k, o), k);
  }

  // ---------------------------------------------------------------- whole loops

  /** The stored instance and everything outside the cluster stay; the reconciliation is in this phase. */
  ghost predicate Moved(w: World, v: World, k: Key, base: Instance, phase: Phase) {
    && v.config == w.config && v.instances == w.instances && v.sources == w.sources && v.pending == w.pending
    && k in v.flights && v.flights[k] == Flight(base, phase) && SlotCoherent(v.At(k))
  }

  ghost predicate In(w: World, k: Key, base: Instance, phase: Phase) {
    k in w.instances && k in w.flights && w.flights[k] == Flight(base, phase) && SlotCoherent(w.At(k))
  }

  lemma InPhase(w: World, k: Key, base: Instance, phase: Phase)
    requires In(w, k, base, phase)
    ensures Flying(w.At(k)) && w.At(k).flight.value == Flight(base, phase) && w.At(k).instance.value == w.instances[k]
    ensures w.At(k).queued == (k in w.pending)
  {
  }

  /** From `w` on and from `v` on the reconciliation ends in the same state. */
  ghost predicate SameEnd(w: World, v: World, k: Key, o: Oracle) {
    SlotCoherent(w.At(k)) && SlotCoherent(v.At(k)) && Drive(v, k, o) == Drive(w, k, o)
  }

  lemma FlyMoves(w: World, k: Key, base: Instance, phase: Phase, v: World)
    requires k in w.instances && v == w.With(k, Fly(w, k, base, phase)) && SlotCoherent(v.At(k))
    ensures Moved(w, v, k, base, phase) && v.cluster == w.cluster
  {
    assert v.instances == w.instances && v.pending == w.pending;
  }

  lemma CheckMove(w: World, k: Key, o: Oracle, base: Instance, revision: string, n: nat, same: set<Key>)
    returns (v: World, same': set<Key>)
    requires In(w, k, base, Checking(revision, n, same)) && n < |base.spec.dependsOn|
    ensures SameEnd(w, v, k, o)
    ensures v.cluster == w.cluster
    ensures Moved(w, v, k, base,
      if DependencyMet(w.instances, DependencyKey(k, base.spec.dependsOn[n]), base.spec, revision)
                                 then Checking(revision, n + 1, same')
                                 else Closing(NotReady(base.status, revision, FAILED), w.config.requeueDependency,
                                     None))
  {
    InPhase(w, k, base, Checking(revision, n, same));
    assert NextTurn(w, k, o) == CheckTurn(w, k);
    v := DriveOn(w, k, o);
    var d := DependencyKey(k, base.spec.dependsOn[n]);
    same' := same + if DependencyMet(w.instances, d, base.spec, revision) &&
        w.instances[d].spec.source == base.spec.source then {d} else {};
    FlyMoves(w, k, base, v.At(k).flight.value.phase, v);
  }

  /** The dependency loop from the `n`th dependency on. */
  lemma {:induction false} ChecksRun(w: World, k: Key, o: Oracle, base: Instance, revision: string, n: nat,
          same: set<Key>) returns (v: World, same': set<Key>)
    requires In(w, k, base, Checking(revision, n, same)) && n <= |base.spec.dependsOn|
    requires forall i :: 0 <= i < n ==>
      DependencyMet(w.instances, DependencyKey(k, base.spec.dependsOn[i]), base.spec, revision)
    ensures SameEnd(w, v, k, o)
    ensures v.cluster == w.cluster
    ensures Moved(w, v, k, base, if AllMet(w.instances, k, base.spec, revision)
                                 then Checking(revision, |base.spec.dependsOn|, same')
                                 else Closing(NotReady(base.status, revision, FAILED), w.config.requeueDependency,
                                     None))
    decreases |base.spec.dependsOn| - n
  {
    if n == |base.spec.dependsOn| {
      v, same' := w, same;
    } else {
      v, same' := CheckMove(w, k, o, base, revision, n, same);
      if DependencyMet(w.instances, DependencyKey(k, base.spec.dependsOn[n]), base.spec, revision) {
        v, same' := ChecksRun(v, k, o, base, revision, n + 1, same');
      }
    }
  }

  /** What applying a list of objects leaves: the cluster, the change set, and whether it failed. */
  datatype ApplyResult = ApplyResult(cluster: Cluster, entries: seq<Entry>, failed: bool)

  function ApplyRest(config: Config, k: Key, o: Oracle, cluster: Cluster, todo: seq<Desired>,
          entries: seq<Entry>): ApplyResult
    decreases |todo|
  {
    if o.applyFailsAt == Some(|entries|) then ApplyResult(cluster, entries, true)
    else if todo == [] then ApplyResult(cluster, entries, false)
    else if !CanApply(config.clusterScoped, todo[0].meta) then ApplyResult(cluster, entries, true)
    else
      var m := Physical(config.clusterScoped, todo[0].meta);
      ApplyRest(config, k, o, ApplyObject(cluster, k, m, todo[0], SwitchesFor(o, m)), todo[1..],
                entries + [Entry(m, todo[0].version, ApplyAction(cluster, k, m, todo[0]))])
  }

  function GaveUp(base: Instance, revision: string): Phase {
    Closing(NotReady(base.status, revision, FAILED), base.spec.RetryInterval(), None)
  }

  lemma FailMove(w: World, k: Key, o: Oracle, base: Instance, p: Phase) returns (v: World)
    requires p.Applying? && In(w, k, base, p)
    requires o.applyFailsAt == Some(|p.entries|) || (p.todo == [] && p.stage.Definitions? && !o.waited)
      || (p.todo != [] && !CanApply(w.config.clusterScoped, p.todo[0].meta))
    ensures SameEnd(w, v, k, o)
    ensures v.cluster == w.cluster && Moved(w, v, k, base, GaveUp(base, p.revision))
  {
    InPhase(w, k, base, p);
    if o.applyFailsAt == Some(|p.entries|) || p.todo == [] {
      NextOfApplyFailing(w, k, o);
    } else {
      assert NextTurn(w, k, o) ==
        ApplyNextTurn(w, k, SwitchesFor(o, Physical(w.config.clusterScoped, p.todo[0].meta)));
    }
    v := DriveOn(w, k, o);
    assert v.instances == w.instances && v.pending == w.pending;
  }

  lemma ObjectMove(w: World, k: Key, o: Oracle, base: Instance, p: Phase) returns (v: World)
    requires p.Applying? && In(w, k, base, p)
    requires o.applyFailsAt != Some(|p.entries|) && p.todo != [] && CanApply(w.config.clusterScoped, p.todo[0].meta)
    ensures SameEnd(w, v, k, o)
    ensures var m := Physical(w.config.clusterScoped, p.todo[0].meta);
      && v.cluster == ApplyObject(w.cluster, k, m, p.todo[0], SwitchesFor(o, m))
      && Moved(w, v, k, base, p.(todo := p.todo[1..],
                                 entries := p.entries + [Entry(m, p.todo[0].version,
                                     ApplyAction(w.cluster, k, m, p.todo[0]))]))
  {
    InPhase(w, k, base, p);
    assert NextTurn(w, k, o) ==
      ApplyNextTurn(w, k, SwitchesFor(o, Physical(w.config.clusterScoped, p.todo[0].meta)));
    v := DriveOn(w, k, o);
    assert v.instances == w.instances && v.pending == w.pending;
  }

  /** The apply loop over the rest of a stage. */
  lemma {:induction false} ApplyRuns(w: World, k: Key, o: Oracle, base: Instance, p: Phase) returns (v: World)
    requires p.Applying? && In(w, k, base, p)
    ensures SameEnd(w, v, k, o)
    ensures var r := ApplyRest(w.config, k, o, w.cluster, p.todo, p.entries);
      && v.cluster == r.cluster
      && Moved(w, v, k, base, if r.failed then GaveUp(base, p.revision) else p.(todo := [], entries := r.entries))
      && (!r.failed ==> o.applyFailsAt != Some(|r.entries|))
    decreases |p.todo|
  {
    if o.applyFailsAt == Some(|p.entries|) || (p.todo != [] && !CanApply(w.config.clusterScoped, p.todo[0].meta)) {
      v := FailMove(w, k, o, base, p);
    } else if p.todo == [] {
      v := w;
    } else {
      var u := ObjectMove(w, k, o, base, p);
      v := ApplyRuns(u, k, o, base, u.flights[k].phase);
    }
  }

  /** Where a deletion loop stands, in garbage collection and in finalization. */
  datatype Sweep = Garbage(revision: string, entries: seq<Entry>) | Everything

  function SweepPhase(s: Sweep, remaining: seq<ObjMeta>, failed: bool): Phase {
    match s
    case Garbage(revision, entries) => Pruning(revision, remaining, entries, failed)
    case Everything => Finalizing(remaining, failed)
  }

  datatype DeleteResult = DeleteResult(cluster: Cluster, failed: bool)

  function DeleteRest(config: Config, k: Key, o: Oracle, cluster: Cluster, todo: seq<ObjMeta>,
          failed: bool): DeleteResult
    decreases |todo|
  {
    if todo == [] then DeleteResult(cluster, failed)
    else if todo[0] in o.undeletable then DeleteRest(config, k, o, cluster, todo[1..], true)
    else DeleteRest(config, k, o, DeleteObject(cluster, k, Physical(config.clusterScoped, todo[0])), todo[1..], failed)
  }

  lemma SweepMove(w: World, k: Key, o: Oracle, base: Instance, s: Sweep, todo: seq<ObjMeta>, failed: bool)
    returns (v: World)
    requires In(w, k, base, SweepPhase(s, todo, failed)) && todo != []
    ensures SameEnd(w, v, k, o)
    ensures var ok := todo[0] !in o.undeletable;
      && v.cluster == (if ok then DeleteObject(w.cluster, k, Physical(w.config.clusterScoped, todo[0])) else w.cluster)
      && Moved(w, v, k, base, SweepPhase(s, todo[1..], failed || !ok))
  {
    InPhase(w, k, base, SweepPhase(s, todo, failed));
    if s.Garbage? {
      NextOfPruning(w, k, o);
    } else {
      NextOfFinalizing(w, k, o);
    }
    v := DriveOn(w, k, o);
    assert v.instances == w.instances && v.pending == w.pending;
  }

  /** The deletion loop over the rest of a list. */
  lemma {:induction false} SweepRuns(w: World, k: Key, o: Oracle, base: Instance, s: Sweep, todo: seq<ObjMeta>,
          failed: bool) returns (v: World)
    requires In(w, k, base, SweepPhase(s, todo, failed))
    ensures SameEnd(w, v, k, o)
    ensures var r := DeleteRest(w.config, k, o, w.cluster, todo, failed);
      v.cluster == r.cluster && Moved(w, v, k, base, SweepPhase(s, [], r.failed))
    decreases |todo|
  {
    if todo == [] {
      v := w;
    } else {
      var u := SweepMove(w, k, o, base, s, todo, failed);
      v := SweepRuns(u, k, o, base, s, todo[1..], failed || todo[0] in o.undeletable);
    }
  }

  // ---------------------------------------------------------------- single moves

  /** The reconciliation has returned. */
  ghost predicate Landed(w: World, v: World, k: Key, queued: bool) {
    && v.config == w.config && v.sources == w.sources && v.flights == w.flights - {k}
    && v.pending == if queued then w.pending + {k} else w.pending
  }

  /** Nothing is left to drive. */
  lemma DriveDone(w: World, k: Key, o: Oracle)
    requires k !in w.flights && SlotCoherent(w.At(k))
    ensures Drive(w, k, o) == w
  {
  }

  /** An API call fails and the reconciliation returns the error. */
  lemma AbortMove(w: World, k: Key, o: Oracle, base: Instance, p: Phase)
    requires In(w, k, base, p)
    requires match p
      case Resolving => !o.sourceRead
      case Checking(_, next, _) => next == |base.spec.dependsOn| && !o.statusPatched
      case Closing(_, _, _) => !o.finished
      case Finalizing(remaining, _) => remaining == [] && !o.finished
      case _ => false
    ensures var v := Drive(w, k, o);
      Landed(w, v, k, true) && v.instances == w.instances && v.cluster == w.cluster
  {
    InPhase(w, k, base, p);
    assert NextTurn(w, k, o) == AbortTurn(w, k);
    var v := DriveOn(w, k, o);
    AbortLands(w, k, v);
    DriveDone(v, k, o);
  }

  lemma AbortLands(w: World, k: Key, v: World)
    requires k in w.instances && w.At(k).flight.Some? && v == w.With(k, AbortTurn(w, k))
    ensures Landed(w, v, k, true) && v.instances == w.instances && v.cluster == w.cluster
  {
  }

  lemma FetchMove(w: World, k: Key, o: Oracle) returns (v: World)
    requires k !in w.flights && SlotCoherent(w.At(k))
    ensures SlotCoherent(v.At(k)) && Driver.Reconcile(w, k, o) == Drive(v, k, o)
    ensures v.config == w.config && v.sources == w.sources && v.cluster == w.cluster && v.pending == w.pending - {k}
    ensures if k in w.instances then
        && var i := w.instances[k].(finalizer := true);
        && v.instances == w.instances[k := i]
        && if i.deleting then
            In(v, k, i, Finalizing(if Finalizes(i, o.canFinalize) then Metas(i.status.inventory.value) else [], false))
           else if i.spec.suspend then k !in v.flights
           else In(v, k, i, Resolving)
      else v.instances == w.instances && k !in v.flights
  {
    var t := FetchTurn(w, k, o.canFinalize);
    v := w.With(k, t);
    TurnCoherent(w, k, Fetch(o.canFinalize));
    assert TurnOf(w, k, Fetch(o.canFinalize)) == t;
    WithAt(w, k, t, k);
    FetchIs(w, k, o.canFinalize);
  }

  lemma FetchIs(w: World, k: Key, canFinalize: bool)
    requires k !in w.flights
    ensures var t := FetchTurn(w, k, canFinalize);
      && t.cluster == w.cluster && !t.slot.queued
      && if k in w.instances then
           && var i := w.instances[k].(finalizer := true);
           && t.slot.instance == Some(i)
           && t.slot.flight ==
                if i.deleting then
                  Some(Flight(i,
                  Finalizing(if Finalizes(i, canFinalize) then Metas(i.status.inventory.value) else [], false)))
                else if i.spec.suspend then None
                else Some(Flight(i, Resolving))
         else t.slot.instance == None && t.slot.flight == None
  {
  }

  lemma ResolveMove(w: World, k: Key, o: Oracle, base: Instance) returns (v: World)
    requires In(w, k, base, Resolving) && o.sourceRead
    ensures SameEnd(w, v, k, o) && v.cluster == w.cluster && v.instances == w.instances
    ensures match GetSource(w, k, base.spec.source)
      case Denied => Landed(w, v, k, true)
      case Unsupported => Landed(w, v, k, true)
      case Artifact(revision) => Moved(w, v, k, base, Checking(revision, 0, {}))
      case _ => Moved(w, v, k, base,
        Closing(NotReady(base.status, "", ARTIFACT_FAILED), base.spec.RetryInterval(), None))
  {
    InPhase(w, k, base, Resolving);
    assert NextTurn(w, k, o) == ResolveTurn(w, k);
    v := DriveOn(w, k, o);
    assert v.instances == w.instances;
    match GetSource(w, k, base.spec.source)
    case Artifact(revision) => FlyMoves(w, k, base, Checking(revision, 0, {}), v);
    case Missing => FlyMoves(w, k, base, v.At(k).flight.value.phase, v);
    case NoArtifact => FlyMoves(w, k, base, v.At(k).flight.value.phase, v);
    case _ =>
  }

  lemma ProgressMove(w: World, k: Key, o: Oracle, base: Instance, revision: string, same: set<Key>) returns (v: World)
    requires In(w, k, base, Checking(revision, |base.spec.dependsOn|, same)) && o.statusPatched
    ensures SameEnd(w, v, k, o)
    ensures var status := Progressing(base.status);
      && v.config == w.config && v.sources == w.sources && v.pending == w.pending && v.cluster == w.cluster
      && v.instances == w.instances[k := w.instances[k].(status := status)]
      && In(v, k, base.(status := status), Building(revision))
  {
    InPhase(w, k, base, Checking(revision, |base.spec.dependsOn|, same));
    assert NextTurn(w, k, o) == ProgressTurn(w, k);
    v := DriveOn(w, k, o);
  }

  lemma BuildMove(w: World, k: Key, o: Oracle, base: Instance, revision: string) returns (v: World)
    requires In(w, k, base, Building(revision))
    ensures SameEnd(w, v, k, o) && v.cluster == w.cluster
    ensures Moved(w, v, k, base,
      match o.built
      case Broken(reason) => Closing(NotReady(base.status, revision, reason), base.spec.RetryInterval(), None)
      case Closed => Closing(NotReady(base.status, revision, GATE_FAILED), base.spec.interval, None)
      case Objects(objects) =>
        if StageOne(objects) == [] then Applying(revision, Others, SortedStageTwo(o.less, objects), [], [])
        else Applying(revision, Definitions, StageOne(objects), SortedStageTwo(o.less, objects), []))
  {
    InPhase(w, k, base, Building(revision));
    assert NextTurn(w, k, o) == BuildTurn(w, k, Outcome(o));
    if o.built.Objects? {
      StagesPartition(o.less, o.built.objects);
    }
    v := DriveOn(w, k, o);
    FlyMoves(w, k, base, v.At(k).flight.value.phase, v);
  }

  lemma WaitMove(w: World, k: Key, o: Oracle, base: Instance, p: Phase) returns (v: World)
    requires p.Applying? && p.stage.Definitions? && p.todo == [] && In(w, k, base, p)
    requires o.applyFailsAt != Some(|p.entries|) && o.waited
    ensures SameEnd(w, v, k, o) && v.cluster == w.cluster
    ensures Moved(w, v, k, base, Applying(p.revision, Others, p.later, [], p.entries))
  {
    InPhase(w, k, base, p);
    assert NextTurn(w, k, o) == WaitTurn(w, k);
    v := DriveOn(w, k, o);
    FlyMoves(w, k, base, Applying(p.revision, Others, p.later, [], p.entries), v);
  }

  lemma PlanMove(w: World, k: Key, o: Oracle, base: Instance, revision: string, entries: seq<Entry>) returns (v: World)
    requires In(w, k, base, Applying(revision, Others, [], [], entries)) && o.applyFailsAt != Some(|entries|)
    ensures SameEnd(w, v, k, o) && v.cluster == w.cluster
    ensures Moved(w, v, k, base,
      if !Diffable(base, entries) then GaveUp(base, revision)
      else if base.spec.prune then Pruning(revision, PlannedStale(o, base, entries), entries, false)
      else Assessing(revision, entries, false))
  {
    InPhase(w, k, base, Applying(revision, Others, [], [], entries));
    NextIsPlan(w.config, w.flights[k], o);
    TurnOfPlan(w, k, PlannedStale(o, base, entries));
    v := DriveOn(w, k, o);
    var stale := PlannedStale(o, base, entries);
    if Diffable(base, entries) && base.status.inventory.Some? {
      StaleListIsExact(o.less, base.status.inventory.value, Refs(entries));
    }
    PlanIs(w, k, base, revision, entries, stale);
    assert v.instances == w.instances && v.pending == w.pending;
  }

  lemma PlanIs(w: World, k: Key, base: Instance, revision: string, entries: seq<Entry>, stale: seq<ObjMeta>)
    requires In(w, k, base, Applying(revision, Others, [], [], entries))
    requires Diffable(base, entries) ==> IsPlan(base, entries, stale)
    ensures var t := PlanTurn(w, k, stale);
      && t.cluster == w.cluster
      && t.slot == w.At(k).(flight := Some(Flight(base,
           if !Diffable(base, entries) then GaveUp(base, revision)
           else if base.spec.prune then Pruning(revision, stale, entries, false)
           else Assessing(revision, entries, false))))
  {
    InPhase(w, k, base, Applying(revision, Others, [], [], entries));
  }

  lemma PruneDoneMove(w: World, k: Key, o: Oracle, base: Instance, revision: string, entries: seq<Entry>, failed: bool)
    returns (v: World)
    requires In(w, k, base, Pruning(revision, [], entries, failed))
    ensures SameEnd(w, v, k, o) && v.cluster == w.cluster
    ensures Moved(w, v, k, base,
      if failed then Closing(NotReadyInventory(base.status, base.Generation(), Refs(entries), revision, PRUNE_FAILED),
                             base.spec.RetryInterval(), Some(entries))
      else Assessing(revision, entries, false))
  {
    InPhase(w, k, base, Pruning(revision, [], entries, failed));
    assert NextTurn(w, k, o) == PruneDoneTurn(w, k);
    v := DriveOn(w, k, o);
    assert v.instances == w.instances && v.pending == w.pending;
  }

  lemma AnnounceMove(w: World, k: Key, o: Oracle, base: Instance, revision: string, entries: seq<Entry>)
    returns (v: World)
    requires In(w, k, base, Assessing(revision, entries, false)) && AwaitsHealth(base.spec, entries) && o.announced
    ensures SameEnd(w, v, k, o)
    ensures var status := Healthiness(Progressing(base.status), base.spec.Assessed(), Unknown, PROGRESSING);
      && v.config == w.config && v.sources == w.sources && v.pending == w.pending && v.cluster == w.cluster
      && v.instances == w.instances[k := w.instances[k].(status := status)]
      && In(v, k, base, Assessing(revision, entries, true))
  {
    InPhase(w, k, base, Assessing(revision, entries, false));
    assert NextTurn(w, k, o) == AnnounceTurn(w, k);
    v := DriveOn(w, k, o);
  }

  lemma AssessMove(w: World, k: Key, o: Oracle, base: Instance, revision: string, entries: seq<Entry>, announced: bool)
    returns (v: World)
    requires In(w, k, base, Assessing(revision, entries, announced))
    requires AwaitsHealth(base.spec, entries) && o.announced ==> announced
    ensures SameEnd(w, v, k, o) && v.cluster == w.cluster
    ensures Moved(w, v, k, base,
      if AwaitsHealth(base.spec, entries) && !(o.healthy && announced)
      then Closing(NotReadyInventory(base.status, base.Generation(), Refs(entries), revision, HEALTH_CHECK_FAILED),
                   base.spec.RetryInterval(), Some(entries))
      else Closing(ReadyInventory(base.status, base.Generation(), Refs(entries), revision, SUCCEEDED),
                   base.spec.interval, Some(entries)))
  {
    InPhase(w, k, base, Assessing(revision, entries, announced));
    assert NextTurn(w, k, o) == AssessTurn(w, k, o.healthy);
    v := DriveOn(w, k, o);
    assert v.instances == w.instances && v.pending == w.pending;
  }

  lemma CloseMove(w: World, k: Key, o: Oracle, base: Instance, status: Status, after: int, applied: Option<seq<Entry>>)
    requires In(w, k, base, Closing(status, after, applied)) && o.finished
    ensures var v := Drive(w, k, o);
      Landed(w, v, k, after > 0) && v.instances == w.instances[k := w.instances[k].(status := status)] &&
          v.cluster == w.cluster
  {
    InPhase(w, k, base, Closing(status, after, applied));
    assert NextTurn(w, k, o) == CloseTurn(w, k);
    var v := DriveOn(w, k, o);
    DriveDone(v, k, o);
    assert k in w.pending ==> w.pending == w.pending + {k};
  }

  lemma ReleaseMove(w: World, k: Key, o: Oracle, base: Instance, failed: bool)
    requires In(w, k, base, Finalizing([], failed)) && o.finished
    ensures var v := Drive(w, k, o);
      && v.cluster == w.cluster
      && if failed || w.instances[k] != base then Landed(w, v, k, true) && v.instances == w.instances
         else Landed(w, v, k, false) && v.instances == w.instances - {k}
  {
    InPhase(w, k, base, Finalizing([], failed));
    assert NextTurn(w, k, o) == ReleaseTurn(w, k);
    var v := DriveOn(w, k, o);
    DriveDone(v, k, o);
    assert k in w.pending ==> w.pending == w.pending + {k};
    assert k !in w.pending ==> w.pending == w.pending - {k};
  }

  // ---------------------------------------------------------------- the reconciler

  // What the methods promise of single objects and dependencies, in the fields that they read.

  predicate IsDefinition(kind: string) {
    kind == "CustomResourceDefinition" || kind == "Namespace"
  }

  /** Not owned by `k`, or carrying a switch. */
  predicate IsExempt(x: Live, k: Key) {
    x.owner != Some(k) || x.switches.pruneDisabled || x.switches.reconcileDisabled
  }

  /**
   The dependency of `k` written so exists, is observed at its generation and ready, and has applied the
   revision if it names the source by the same reference.
   */
  predicate IsUpToDate(instances: map<Key, Instance>, k: Key, written: Key, source: SourceRef, revision: string) {
    var d := Key(if written.namespace == "" then k.namespace else written.namespace, written.name);
    && d in instances
    && var i := instances[d];
    && i.status.observedGeneration == |i.past| + 1
    && FindCondition(i.status.conditions, READY).Some?
    && FindCondition(i.status.conditions, READY).value.status == True
    && (i.spec.source == source ==> i.status.lastApplied == revision)
  }

  /**
   The reconciler. Its fields are what it shares with the API server: the stored instances and sources,
   the cluster and its work queue. `o` says what the outside answers during a call.
   */
  class CueInstanceReconciler {
    const config: Config
    var instances: map<Key, Instance>
    var sources: map<Key, Option<string>>
    var cluster: Cluster
    var pending: set<Key>
    /** Where each reconciliation stands, and what has happened: followed along, never read. */
    ghost var flights: map<Key, Flight>
    ghost var log: seq<Record>

    constructor (config: Config)
      ensures World() == EmptyWorld(config)
    {
      this.config := config;
      instances, sources, cluster, pending := map[], map[], map[], {};
      flights, log := map[], [];
    }

    ghost function World(): World
      reads this
    {
      Machine.World(config, instances, sources, cluster, flights, pending, log)
    }

    /** What is left to do leads to the same end as before. */
    twostate predicate KeepsEnd(k: Key, o: Oracle)
      reads this
    {
      SameEnd(old(World()), World(), k, o)
    }

    ghost method Follow(v: Machine.World)
      requires v.config == config && v.instances == instances && v.sources == sources && v.cluster == cluster
      requires v.pending == pending
      modifies `flights, `log
      ensures World() == v
    {
      flights, log := v.flights, v.log;
    }

    // -------------------------------------------------------------- the API server and the queue

    method PatchStatus(k: Key, status: Status)
      requires k in instances
      modifies `instances
      ensures instances == old(instances)[k := old(instances)[k].(status := status)]
    {
      instances := instances[k := instances[k].(status := status)];
    }

    method Requeue(k: Key)
      modifies `pending
      ensures pending == old(pending) + {k}
    {
      pending := pending + {k};
    }

    method GetSource(k: Key, ref: SourceRef) returns (r: Lookup)
      ensures r == Machine.GetSource(World(), k, ref)
    {
      var namespace := k.namespace;
      if ref.namespace != "" {
        namespace := ref.namespace;
      }
      if config.noCrossNamespaceRefs && namespace != k.namespace {
        return Denied;
      }
      if ref.kind != GIT_REPOSITORY {
        return Unsupported;
      }
      var name := Key(namespace, ref.name);
      if name !in sources {
        return Missing;
      }
      r := if sources[name].None? then NoArtifact else Artifact(sources[name].value);
    }

    // -------------------------------------------------------------- dependencies

    /** Every dependency must be ready, and at this revision if it shares the source. */
    method CheckDependencies(k: Key, i: Instance, revision: string) returns (met: bool)
      ensures met <==> AllMet(instances, k, i.spec, revision)
      ensures met <==> forall n :: 0 <= n < |i.spec.dependsOn| ==>
        IsUpToDate(instances, k, i.spec.dependsOn[n], i.spec.source, revision)
    {
      for n := 0 to |i.spec.dependsOn|
        invariant forall j :: 0 <= j < n ==>
          DependencyMet(instances, DependencyKey(k, i.spec.dependsOn[j]), i.spec, revision)
      {
        var d := i.spec.dependsOn[n];
        if d.namespace == "" {
          d := d.(namespace := k.namespace);
        }
        assert d == DependencyKey(k, i.spec.dependsOn[n]);
        if d !in instances {
          return false;
        }
        var dependency := instances[d];
        if dependency.status.conditions == [] || dependency.Generation() != dependency.status.observedGeneration {
          return false;
        }
        if !IsReady(dependency.status) {
          return false;
        }
        if dependency.spec.source == i.spec.source && revision != dependency.status.lastApplied {
          return false;
        }
      }
      met := true;
    }

    // -------------------------------------------------------------- applying and deleting

    /** Server-side apply of one stage; an error leaves the objects before it applied. */
    method ApplyAll(k: Key, o: Oracle, objects: seq<Desired>, before: seq<Entry>)
      returns (failed: bool, entries: seq<Entry>)
      modifies `cluster
      ensures var r := ApplyRest(config, k, o, old(cluster), objects, before);
        cluster == r.cluster && failed == r.failed && entries == r.entries
    {
      entries := before;
      failed := false;
      for n := 0 to |objects|
        invariant !failed
        invariant ApplyRest(config, k, o, old(cluster), objects, before) ==
          ApplyRest(config, k, o, cluster, objects[n..], entries)
      {
        if o.applyFailsAt == Some(|entries|) || !CanApply(config.clusterScoped, objects[n].meta) {
          return true, entries;
        }
        var m := Physical(config.clusterScoped, objects[n].meta);
        var action := ApplyAction(cluster, k, m, objects[n]);
        if !action.Unchanged? {
          cluster := cluster[m := Live(Some(k), objects[n].content, SwitchesFor(o, m))];
        }
        entries := entries + [Entry(m, objects[n].version, action)];
        assert objects[n..][1..] == objects[n + 1..];
      }
      failed := o.applyFailsAt == Some(|entries|);
    }

    /** Delete what carries the owner labels and neither switch; an error does not stop the others. */
    method DeleteAll(k: Key, o: Oracle, objects: seq<ObjMeta>) returns (failed: bool)
      modifies `cluster
      ensures var r := DeleteRest(config, k, o, old(cluster), objects, false);
        cluster == r.cluster && failed == r.failed
      ensures forall m :: m in old(cluster) && IsExempt(old(cluster)[m], k) ==> m in cluster
    {
      failed := false;
      for n := 0 to |objects|
        invariant forall m :: m in cluster ==> m in old(cluster) && cluster[m] == old(cluster)[m]
        invariant forall m :: m in old(cluster) && IsExempt(old(cluster)[m], k) ==> m in cluster
        invariant DeleteRest(config, k, o, old(cluster), objects, false) ==
          DeleteRest(config, k, o, cluster, objects[n..], failed)
      {
        if objects[n] in o.undeletable {
          failed := true;
        } else {
          var m := Physical(config.clusterScoped, objects[n]);
          if m in cluster && cluster[m].owner == Some(k) && !cluster[m].switches.pruneDisabled &&
            !cluster[m].switches.reconcileDisabled {
            cluster := cluster - {m};
          }
        }
        assert objects[n..][1..] == objects[n + 1..];
      }
    }

    /** Custom resource definitions and namespaces go first; the rest is sorted by kind. */
    method SplitStages(o: Oracle, objects: seq<Desired>) returns (stageOne: seq<Desired>, stageTwo: seq<Desired>)
      ensures stageOne == StageOne(objects) && stageTwo == SortedStageTwo(o.less, objects)
      ensures forall x :: x in stageOne <==> x in objects && IsDefinition(x.meta.kind)
      ensures forall x :: x in stageTwo <==> x in objects && !IsDefinition(x.meta.kind)
      ensures StrictTotal(o.less) ==> Sorted(o.less, DesiredMeta, stageTwo)
    {
      stageOne, stageTwo := [], [];
      for n := 0 to |objects|
        invariant stageOne == StageOne(objects[..n]) && stageTwo == StageTwo(objects[..n])
      {
        assert objects[..n + 1][..n] == objects[..n];
        if IsClusterDefinition(objects[n].meta) {
          stageOne := stageOne + [objects[n]];
        } else {
          stageTwo := stageTwo + [objects[n]];
        }
      }
      assert objects[..|objects|] == objects;
      if StrictTotal(o.less) {
        SortSorts(o.less, DesiredMeta, stageTwo);
      }
      SortElements(o.less, DesiredMeta, stageTwo);
      stageTwo := Sort(o.less, DesiredMeta, stageTwo);
    }

    method ApplyStage(k: Key, o: Oracle, i: Instance, ghost p: Phase, objects: seq<Desired>, before: seq<Entry>)
      returns (failed: bool, entries: seq<Entry>)
      requires p.Applying? && p.todo == objects && p.entries == before && In(World(), k, i, p)
      modifies `cluster, `flights, `log
      ensures KeepsEnd(k, o)
      ensures failed ==> In(World(), k, i, GaveUp(i, p.revision))
      ensures !failed ==> In(World(), k, i, p.(todo := [], entries := entries)) && o.applyFailsAt != Some(|entries|)
    {
      ghost var v := ApplyRuns(World(), k, o, i, p);
      failed, entries := ApplyAll(k, o, objects, before);
      Follow(v);
    }

    /** Apply the definitions and wait for them. */
    method ApplyDefinitions(k: Key, o: Oracle, i: Instance, revision: string, stageOne: seq<Desired>,
            ghost stageTwo: seq<Desired>) returns (failed: bool, entries: seq<Entry>)
      requires In(World(), k, i, Applying(revision, Definitions, stageOne, stageTwo, []))
      modifies `cluster, `flights, `log
      ensures KeepsEnd(k, o)
      ensures failed ==> In(World(), k, i, GaveUp(i, revision))
      ensures !failed ==>
        In(World(), k, i, Applying(revision, Others, stageTwo, [], entries)) && o.applyFailsAt != Some(|entries|)
    {
      failed, entries := ApplyStage(k, o, i, Applying(revision, Definitions, stageOne, stageTwo, []), stageOne, []);
      if failed {
        return;
      }
      failed := !o.waited;
      ghost var v;
      if failed {
        v := FailMove(World(), k, o, i, Applying(revision, Definitions, [], stageTwo, entries));
      } else {
        v := WaitMove(World(), k, o, i, Applying(revision, Definitions, [], stageTwo, entries));
      }
      Follow(v);
    }

    /** Apply in two stages; the objects' metadata after apply comes back. */
    method Apply(k: Key, o: Oracle, i: Instance, revision: string, objects: seq<Desired>)
      returns (failed: bool, entries: seq<Entry>)
      requires In(World(), k, i, Building(revision)) && o.built == Objects(objects)
      modifies `cluster, `flights, `log
      ensures KeepsEnd(k, o)
      ensures failed ==> In(World(), k, i, GaveUp(i, revision))
      ensures !failed ==>
        In(World(), k, i, Applying(revision, Others, [], [], entries)) && o.applyFailsAt != Some(|entries|)
    {
      var stageOne, stageTwo := SplitStages(o, objects);
      ghost var v := BuildMove(World(), k, o, i, revision);
      Follow(v);
      entries := [];
      failed := o.applyFailsAt == Some(0);
      if failed {
        v := FailMove(World(), k, o, i, v.flights[k].phase);
        Follow(v);
        return;
      }
      if |stageOne| > 0 {
        failed, entries := ApplyDefinitions(k, o, i, revision, stageOne, stageTwo);
        if failed {
          return;
        }
      }
      if |stageTwo| > 0 {
        failed, entries := ApplyStage(k, o, i, Applying(revision, Others, stageTwo, [], entries), stageTwo, entries);
      }
    }

    // -------------------------------------------------------------- garbage

    /** The recorded objects that are gone from the new inventory; none if the inventories do not parse. */
    method FindStale(o: Oracle, i: Instance, entries: seq<Entry>) returns (stale: Option<seq<ObjMeta>>)
      ensures stale.Some? <==> Diffable(i, entries)
      ensures stale.Some? ==> stale.value == PlannedStale(o, i, entries)
    {
      if i.status.inventory.None? {
        return Some([]);
      }
      var newInventory := new ResourceInventory();
      newInventory.AddObjects(Some(entries));
      ghost var older, newer := i.status.inventory.value, Refs(entries);
      assert newInventory.entries == newer;
      var staleObjects := DetectStale(o.less, i.status.inventory.value, newInventory);
      assert Diffable(i, entries) <==> Parses(older) && Parses(newer);
      if staleObjects.None? {
        return None;
      }
      assert PlannedStale(o, i, entries) == MetasOf(StaleList(o.less, older, newer));
      return Some(MetasOf(staleObjects.value));
    }

    /** Delete the garbage, unless pruning is off. */
    method Prune(k: Key, o: Oracle, i: Instance, revision: string, entries: seq<Entry>, stale: seq<ObjMeta>)
      returns (failed: bool)
      requires In(World(), k, i, if i.spec.prune then Pruning(revision, stale, entries, false)
        else Assessing(revision, entries, false))
      modifies `cluster, `flights, `log
      ensures KeepsEnd(k, o)
      ensures failed ==>
        In(World(), k, i, Closing(NotReadyInventory(i.status, i.Generation(), Refs(entries), revision, PRUNE_FAILED),
                                                  i.spec.RetryInterval(), Some(entries)))
      ensures !failed ==> In(World(), k, i, Assessing(revision, entries, false))
    {
      if !i.spec.prune {
        return false;
      }
      ghost var v := SweepRuns(World(), k, o, i, Garbage(revision, entries), stale, false);
      failed := DeleteAll(k, o, stale);
      Follow(v);
      v := PruneDoneMove(v, k, o, i, revision, entries, failed);
      Follow(v);
    }

    // -------------------------------------------------------------- health

    /** Nothing to wait for, or announced as in progress and then found healthy. */
    method CheckHealth(k: Key, o: Oracle, i: Instance, revision: string, entries: seq<Entry>) returns (healthy: bool)
      requires In(World(), k, i, Assessing(revision, entries, false))
      modifies `instances, `flights, `log
      ensures KeepsEnd(k, o)
      ensures healthy <==>
        || (i.spec.wait && entries == [])
        || (!i.spec.wait && i.spec.healthChecks == [])
        || (o.announced && o.healthy)
      ensures In(World(), k, i,
        if healthy then
          Closing(ReadyInventory(i.status, i.Generation(), Refs(entries), revision, SUCCEEDED), i.spec.interval,
          Some(entries))
        else Closing(NotReadyInventory(i.status, i.Generation(), Refs(entries), revision, HEALTH_CHECK_FAILED),
                     i.spec.RetryInterval(), Some(entries)))
    {
      var toCheck := if i.spec.wait then |entries| else |i.spec.healthChecks|;
      ghost var v;
      healthy := true;
      if toCheck > 0 {
        healthy := o.announced;
        if o.announced {
          v := AnnounceMove(World(), k, o, i, revision, entries);
          var c := new CueInstanceStatus(i.Generation(), i.spec.Assessed(), i.status);
          c.SetProgressing();
          c.SetHealthiness(Unknown, PROGRESSING);
          PatchStatus(k, c.Value());
          Follow(v);
          healthy := o.healthy;
        }
      }
      v := AssessMove(World(), k, o, i, revision, entries, toCheck > 0 && o.announced);
      Follow(v);
    }

    // -------------------------------------------------------------- one revision

    /** Prune and check what a successful apply left. */
    method Collect(k: Key, o: Oracle, i: Instance, revision: string, entries: seq<Entry>)
      returns (status: Status, after: int, ghost applied: Option<seq<Entry>>)
      requires In(World(), k, i, Applying(revision, Others, [], [], entries)) && o.applyFailsAt != Some(|entries|)
      modifies this
      ensures KeepsEnd(k, o) && pending == old(pending)
      ensures In(World(), k, i, Closing(status, after, applied))
    {
      var s := new CueInstanceStatus(i.Generation(), i.spec.Assessed(), i.status);
      var stale := FindStale(o, i, entries);
      ghost var v := PlanMove(World(), k, o, i, revision, entries);
      Follow(v);
      if stale.None? {
        s.SetNotReady(revision, FAILED);
        return s.Value(), i.spec.RetryInterval(), None;
      }
      var pruneFailed := Prune(k, o, i, revision, entries, stale.value);
      if pruneFailed {
        s.SetNotReadyInventory(Refs(entries), revision, PRUNE_FAILED);
        return s.Value(), i.spec.RetryInterval(), Some(entries);
      }
      var healthy := CheckHealth(k, o, i, revision, entries);
      if !healthy {
        s.SetNotReadyInventory(Refs(entries), revision, HEALTH_CHECK_FAILED);
        return s.Value(), i.spec.RetryInterval(), Some(entries);
      }
      s.SetReadyInventory(Refs(entries), revision, SUCCEEDED);
      return s.Value(), i.spec.interval, Some(entries);
    }

    /**
     Build, apply, prune and check one revision: the status to store, and when to come back. `v` is the
     validation that the spec asks for, `a` what the outside answers up to the apply.
     */
    method ReconcileRevision(k: Key, o: Oracle, v: Option<Validate>, a: Answers, i: Instance, revision: string)
      returns (status: Status, after: int, ghost applied: Option<seq<Entry>>)
      requires In(World(), k, i, Building(revision)) && o.built == Prepared(v, a)
      modifies this
      ensures KeepsEnd(k, o) && pending == old(pending)
      ensures In(World(), k, i, Closing(status, after, applied))
    {
      var s := new CueInstanceStatus(i.Generation(), i.spec.Assessed(), i.status);
      var built := Prepare(v, a);
      match built
      case Broken(reason) =>
        ghost var u := BuildMove(World(), k, o, i, revision);
        Follow(u);
        s.SetNotReady(revision, reason);
        return s.Value(), i.spec.RetryInterval(), None;
      case Closed =>
        ghost var u := BuildMove(World(), k, o, i, revision);
        Follow(u);
        s.SetNotReady(revision, GATE_FAILED);
        return s.Value(), i.spec.interval, None;
      case Objects(objects) =>
        var failed, entries := Apply(k, o, i, revision, objects);
        if failed {
          s.SetNotReady(revision, FAILED);
          return s.Value(), i.spec.RetryInterval(), None;
        }
        status, after, applied := Collect(k, o, i, revision, entries);
    }

    // -------------------------------------------------------------- the whole reconciliation

    /** Store the final status, and come back later. */
    method Finish(k: Key, o: Oracle, status: Status, after: int, ghost base: Instance,
            ghost applied: Option<seq<Entry>>)
      requires In(World(), k, base, Closing(status, after, applied))
      modifies this
      ensures World() == old(Drive(World(), k, o))
    {
      ghost var w := World();
      if !o.finished {
        AbortMove(w, k, o, base, Closing(status, after, applied));
        Requeue(k);
      } else {
        CloseMove(w, k, o, base, status, after, applied);
        PatchStatus(k, status);
        if after > 0 {
          Requeue(k);
        }
      }
      Follow(Drive(w, k, o));
    }

    /** Delete everything recorded, then let the object go. */
    method Finalize(k: Key, o: Oracle, i: Instance)
      requires In(World(), k, i,
        Finalizing(if Finalizes(i, o.canFinalize) then Metas(i.status.inventory.value) else [], false))
      modifies this
      ensures World() == old(Drive(World(), k, o))
      ensures !i.spec.prune || i.spec.suspend || !o.canFinalize ==> cluster == old(cluster)
    {
      ghost var w := World();
      var failed := false;
      if i.spec.prune && !i.spec.suspend && i.status.inventory.Some? {
        var inventory := new ResourceInventory();
        inventory.entries := i.status.inventory.value;
        var objects := inventory.ListMeta();
        if objects.Some? && o.canFinalize {
          ghost var v := SweepRuns(World(), k, o, i, Everything, objects.value, false);
          failed := DeleteAll(k, o, objects.value);
          Follow(v);
        }
      }
      ghost var u := World();
      assert In(u, k, i, Finalizing([], failed)) && SameEnd(w, u, k, o);
      if !o.finished {
        AbortMove(u, k, o, i, Finalizing([], failed));
        Requeue(k);
      } else {
        ReleaseMove(u, k, o, i, failed);
        if failed || instances[k] != i {
          Requeue(k);
        } else {
          instances := instances - {k};
        }
      }
      Follow(Drive(u, k, o));
    }

    /** Nothing could be applied: store why. */
    method FinishNotReady(k: Key, o: Oracle, i: Instance, revision: string, reason: string, after: int)
      requires In(World(), k, i, Closing(NotReady(i.status, revision, reason), after, None))
      modifies this
      ensures World() == old(Drive(World(), k, o))
    {
      var s := new CueInstanceStatus(i.Generation(), i.spec.Assessed(), i.status);
      s.SetNotReady(revision, reason);
      Finish(k, o, s.Value(), after, i, None);
    }

    /** The dependencies are met: mark the instance as progressing, and go on to the build. */
    method Proceed(k: Key, o: Oracle, validate: Option<Validate>, answers: Answers, i: Instance, revision: string,
            ghost same: set<Key>)
      requires In(World(), k, i, Checking(revision, |i.spec.dependsOn|, same)) && o.built == Prepared(validate, answers)
      modifies this
      ensures World() == old(Drive(World(), k, o))
    {
      ghost var w := World();
      if !o.statusPatched {
        AbortMove(w, k, o, i, Checking(revision, |i.spec.dependsOn|, same));
        Requeue(k);
        Follow(Drive(w, k, o));
        return;
      }
      ghost var v := ProgressMove(w, k, o, i, revision, same);
      var s := new CueInstanceStatus(i.Generation(), i.spec.Assessed(), i.status);
      s.SetProgressing();
      PatchStatus(k, s.Value());
      Follow(v);
      var base := i.(status := s.Value());
      var status, after, applied := ReconcileRevision(k, o, validate, answers, base, revision);
      Finish(k, o, status, after, base, applied);
    }

    /** The dependency check decides. */
    method ReconcileAt(k: Key, o: Oracle, validate: Option<Validate>, answers: Answers, i: Instance, revision: string)
      requires In(World(), k, i, Checking(revision, 0, {})) && o.built == Prepared(validate, answers)
      modifies this
      ensures World() == old(Drive(World(), k, o))
    {
      var met := CheckDependencies(k, i, revision);
      ghost var v, same := ChecksRun(World(), k, o, i, revision, 0, {});
      Follow(v);
      if met {
        Proceed(k, o, validate, answers, i, revision, same);
      } else {
        FinishNotReady(k, o, i, revision, FAILED, config.requeueDependency);
      }
    }

    /** The source decides. */
    method ReconcileLive(k: Key, o: Oracle, validate: Option<Validate>, answers: Answers, i: Instance)
      requires In(World(), k, i, Resolving) && o.built == Prepared(validate, answers)
      modifies this
      ensures World() == old(Drive(World(), k, o))
    {
      ghost var w := World();
      if !o.sourceRead {
        AbortMove(w, k, o, i, Resolving);
        Requeue(k);
        Follow(Drive(w, k, o));
        return;
      }
      var source := GetSource(k, i.spec.source);
      ghost var v := ResolveMove(w, k, o, i);
      match source
      case Artifact(revision) =>
        Follow(v);
        ReconcileAt(k, o, validate, answers, i, revision);
      case Denied =>
        ReturnError(k, o, v);
      case Unsupported =>
        ReturnError(k, o, v);
      case _ =>
        Follow(v);
        FinishNotReady(k, o, i, "", ARTIFACT_FAILED, i.spec.RetryInterval());
    }

    /** An error puts the instance back on the queue. */
    method ReturnError(k: Key, ghost o: Oracle, ghost v: Machine.World)
      requires Landed(World(), v, k, true) && v.instances == instances && v.cluster == cluster && SlotCoherent(v.At(k))
      modifies `pending, `flights, `log
      ensures World() == v && Drive(v, k, o) == v
    {
      Requeue(k);
      Follow(v);
      DriveDone(v, k, o);
    }

    /**
     One reconciliation. Whatever the outside answers, the fields end where the transition system ends
     when it takes the same reconciliation from start to end; what the build gives there is what the
     documents, the validation and the gates give here.
     */
    method Reconcile(k: Key, o: Oracle, validate: Option<Validate>, answers: Answers)
      requires k !in flights && SlotCoherent(World().At(k)) && o.built == Prepared(validate, answers)
      modifies this
      ensures World() == Driver.Reconcile(old(World()), k, o)
    {
      ghost var v := FetchMove(World(), k, o);
      pending := pending - {k};
      if k !in instances {
        Follow(v);
        DriveDone(v, k, o);
        return;
      }
      RegisterFinalizer(k);
      Follow(v);
      ReconcileFetched(k, o, validate, answers, instances[k]);
    }

    method RegisterFinalizer(k: Key)
      requires k in instances
      modifies `instances
      ensures instances == old(instances)[k := old(instances)[k].(finalizer := true)]
    {
      if !instances[k].finalizer {
        instances := instances[k := instances[k].(finalizer := true)];
      }
    }

    /** Deleted, suspended or live. */
    method ReconcileFetched(k: Key, o: Oracle, validate: Option<Validate>, answers: Answers, i: Instance)
      requires SlotCoherent(World().At(k)) && o.built == Prepared(validate, answers)
      requires
        if i.deleting then
          In(World(), k, i,
              Finalizing(if Finalizes(i, o.canFinalize) then Metas(i.status.inventory.value) else [], false))
        else if i.spec.suspend then k !in flights
        else In(World(), k, i, Resolving)
      modifies this
      ensures World() == old(Drive(World(), k, o))
    {
      if i.deleting {
        Finalize(k, o, i);
      } else if i.spec.suspend {
        DriveDone(World(), k, o);
      } else {
        ReconcileLive(k, o, validate, answers, i);
      }
    }

    // -------------------------------------------------------------- the watch

    /**
     A source changes; a new revision queues the instances that the index lists for it and that have not
     attempted it, unless the dependency sort fails.
     */
    method SourceChanged(source: Key, artifact: Option<string>, items: seq<Key>, sort: seq<Key> -> Option<seq<Key>>)
      requires AllPointing(instances, source, items) && IsDependencySort(instances, sort)
      modifies `sources, `pending
      ensures exists sorted :: SourceMoves(old(World()), World(), source, artifact, sorted)
    {
      var before := if source in sources then sources[source] else None;
      sources := sources[source := artifact];
      ghost var sorted: Option<seq<Key>> := None;
      if RevisionChanged(before, artifact) {
        var reqs := RequestsForRevisionChange(instances, source, artifact, items, sort);
        ghost var requested := Requests(instances, source, artifact.value);
        sorted := if SortsDependencies(instances, requested, Some(reqs)) then Some(reqs) else None;
        for n := 0 to |reqs|
          modifies `pending
          invariant pending == old(pending) + Elements(reqs[..n])
        {
          Requeue(reqs[n]);
          assert reqs[..n + 1] == reqs[..n] + [reqs[n]];
        }
        assert reqs[..|reqs|] == reqs;
        assert sorted.None? ==> Elements(reqs) == {};
      }
      assert SourceMoves(old(World()), World(), source, artifact, sorted);
    }
  }
}
