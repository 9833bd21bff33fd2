/**
 A whole reconciliation in one step. `EndingOf` says from the state at the start how the reconciliation of
 an instance will end and what cluster it leaves, by plain recursion over lists; the move-by-move machine,
 driven to its end, agrees, and stores the status that belongs to that ending.
 */
module Endings {
  import opened Wrappers
  import opened ObjectIds
  import opened Inventories
  import opened StaleObjects
  import opened Statuses
  import opened Machine
  import opened Coherence
  import opened Driver
  import opened Pipeline
  import opened Controllers
  import opened Preparation
  import opened EarlyStops

  /** How a reconciliation ends. */
  datatype Ending =
    | Suspended
    | Refused
    | Unmarked
    | SourceMissing
    | DependencyUnmet(revision: string)
    | NotBuilt(revision: string, reason: string)
    | Gated(revision: string)
    | NotApplied(revision: string)
    | NotPruned(revision: string, entries: seq<Entry>)
    | NotHealthy(revision: string, entries: seq<Entry>)
    | Succeeds(revision: string, entries: seq<Entry>)

  datatype Summary = Summary(ending: Ending, cluster: Cluster)

  /** Both stages of the apply. */
  function ApplyStages(config: Config, k: Key, o: Oracle, cluster: Cluster, objects: seq<Desired>): ApplyResult {
    var one, two := StageOne(objects), SortedStageTwo(o.less, objects);
    if one == [] then ApplyRest(config, k, o, cluster, two, [])
    else
      var first := ApplyRest(config, k, o, cluster, one, []);
      if first.failed || !o.waited then first.(failed := true)
      else ApplyRest(config, k, o, first.cluster, two, first.entries)
  }

  /** Pruning and health after a successful apply; `i` is the instance as read. */
  function AfterApply(config: Config, k: Key, o: Oracle, i: Instance, revision: string, cluster: Cluster,
          entries: seq<Entry>): Summary {
    if !Diffable(i, entries) then Summary(NotApplied(revision), cluster)
    else
      var pruned := if i.spec.prune then DeleteRest(config, k, o, cluster, PlannedStale(o, i, entries), false)
        else DeleteResult(cluster, false);
      if pruned.failed then Summary(NotPruned(revision, entries), pruned.cluster)
      else if AwaitsHealth(i.spec, entries) && !(o.announced && o.healthy) then
        Summary(NotHealthy(revision, entries), pruned.cluster)
      else Summary(Succeeds(revision, entries), pruned.cluster)
  }

  function AfterBuild(config: Config, k: Key, o: Oracle, i: Instance, revision: string, cluster: Cluster): Summary {
    match o.built
    case Broken(reason) => Summary(NotBuilt(revision, reason), cluster)
    case Closed => Summary(Gated(revision), cluster)
    case Objects(objects) =>
      var r := ApplyStages(config, k, o, cluster, objects);
      if r.failed then Summary(NotApplied(revision), r.cluster)
        else AfterApply(config, k, o, i, revision, r.cluster, r.entries)
  }

  /**
   The ending of a reconciliation of a live instance. `Refused`: the source cannot be read, must not be used or
   is of an unknown kind. `Unmarked`: the status could not be patched to progressing.
   */
  ghost function EndingOf(w: World, k: Key, o: Oracle): Summary
    requires k in w.instances
  {
    var i := w.instances[k];
    if i.spec.suspend then Summary(Suspended, w.cluster)
    else if !o.sourceRead then Summary(Refused, w.cluster)
    else
      match GetSource(w, k, i.spec.source)
      case Denied => Summary(Refused, w.cluster)
      case Unsupported => Summary(Refused, w.cluster)
      case Artifact(revision) =>
        if !AllMet(w.instances, k, i.spec, revision) then Summary(DependencyUnmet(revision), w.cluster)
        else if !o.statusPatched then Summary(Unmarked, w.cluster)
        else AfterBuild(w.config, k, o, i, revision, w.cluster)
      case _ => Summary(SourceMissing, w.cluster)
  }

  /** Some endings leave nothing to store. */
  predicate HasStatus(e: Ending) {
    !e.Suspended? && !e.Refused? && !e.Unmarked?
  }

  // ---------------------------------------------------------------- the status of an ending

  function Reason(e: Ending): string
    requires HasStatus(e)
  {
    match e
    case SourceMissing => ARTIFACT_FAILED
    case DependencyUnmet(_) => FAILED
    case NotBuilt(_, reason) => reason
    case Gated(_) => GATE_FAILED
    case NotApplied(_) => FAILED
    case NotPruned(_, _) => PRUNE_FAILED
    case NotHealthy(_, _) => HEALTH_CHECK_FAILED
    case Succeeds(_, _) => SUCCEEDED
  }

  /** Something was applied completely, and is recorded. */
  predicate Records(e: Ending) {
    e.NotPruned? || e.NotHealthy? || e.Succeeds?
  }

  /** The status stored for an ending, given the instance as read. */
  predicate Tells(i: Instance, e: Ending, s: Status)
    requires HasStatus(e)
  {
    && FindCondition(s.conditions, READY) == Some(Condition(READY, if e.Succeeds? then True else False, Reason(e)))
    && s.inventory == (if Records(e) then Some(Refs(e.entries)) else i.status.inventory)
    && s.observedGeneration == (if Records(e) then i.Generation() else i.status.observedGeneration)
    && s.lastApplied == (if e.Succeeds? then e.revision else i.status.lastApplied)
    && s.lastAttempted ==
        (if e.SourceMissing? || (!Records(e) && e.revision == "") then i.status.lastAttempted else e.revision)
  }

  /** When the instance comes back. */
  function ComesBack(config: Config, spec: Spec, e: Ending): int
    requires HasStatus(e)
  {
    match e
    case DependencyUnmet(_) => config.requeueDependency
    case Gated(_) => spec.interval
    case Succeeds(_, _) => spec.interval
    case _ => spec.RetryInterval()
  }

  /** `w`, driven to its end, is what this ending says. */
  ghost predicate EndsAs(w: World, k: Key, o: Oracle, i: Instance, r: Summary) {
    SlotCoherent(w.At(k)) && HasStatus(r.ending)
    && var v := Drive(w, k, o);
    && v.cluster == r.cluster
    && k in v.instances && k !in v.flights
    && if o.finished then
         && Tells(i, r.ending, v.instances[k].status)
         && (k in v.pending <==> k in w.pending || ComesBack(w.config, i.spec, r.ending) > 0)
       else SameRecord(v.instances[k].status, i.status) && k in v.pending
  }

  lemma SetReady(s: Status, status: ConditionStatus, reason: string)
    ensures FindCondition(WithReady(s, status, reason).conditions, READY) == Some(Condition(READY, status, reason))
  {
    SetThenFind(s.conditions, Condition(READY, status, reason), READY);
  }

  /** Up to its conditions, `base` is the instance as read. */
  predicate ReadAs(base: Instance, i: Instance) {
    base.spec == i.spec && base.past == i.past && SameRecord(base.status, i.status)
  }

  lemma StatusTells(base: Instance, i: Instance, e: Ending)
    requires ReadAs(base, i) && HasStatus(e)
    ensures Tells(i, e,
      match e
      case SourceMissing => NotReady(base.status, "", Reason(e))
      case NotPruned(revision, entries) => NotReadyInventory(base.status, base.Generation(), Refs(entries), revision,
        Reason(e))
      case NotHealthy(revision, entries) => NotReadyInventory(base.status, base.Generation(), Refs(entries), revision,
        Reason(e))
      case Succeeds(revision, entries) => ReadyInventory(base.status, base.Generation(), Refs(entries), revision,
        Reason(e))
      case DependencyUnmet(revision) => NotReady(base.status, revision, Reason(e))
      case NotBuilt(revision, _) => NotReady(base.status, revision, Reason(e))
      case Gated(revision) => NotReady(base.status, revision, Reason(e))
      case NotApplied(revision) => NotReady(base.status, revision, Reason(e)))
  {
    SetReady(base.status, if e.Succeeds? then True else False, Reason(e));
  }

  // ---------------------------------------------------------------- from the end backwards

  lemma CarryOver(w: World, v: World, k: Key, o: Oracle, i: Instance, r: Summary)
    requires SameEnd(w, v, k, o) && v.config == w.config && v.pending == w.pending && EndsAs(v, k, o, i, r)
    ensures EndsAs(w, k, o, i, r)
  {
  }

  lemma ClosingEnds(w: World, k: Key, o: Oracle, base: Instance, status: Status, after: int,
          applied: Option<seq<Entry>>, i: Instance, e: Ending)
    requires In(w, k, base, Closing(status, after, applied)) && ReadAs(base, i)
    requires HasStatus(e) && Tells(i, e, status) && after == ComesBack(w.config, i.spec, e)
    ensures EndsAs(w, k, o, i, Summary(e, w.cluster))
  {
    InPhase(w, k, base, Closing(status, after, applied));
    if o.finished {
      CloseMove(w, k, o, base, status, after, applied);
    } else {
      AbortMove(w, k, o, base, Closing(status, after, applied));
    }
  }

  lemma AssessingEnds(w: World, k: Key, o: Oracle, base: Instance, revision: string, entries: seq<Entry>, i: Instance)
    requires In(w, k, base, Assessing(revision, entries, false)) && ReadAs(base, i)
    ensures EndsAs(w, k, o, i, Summary(
      if AwaitsHealth(i.spec, entries) && !(o.announced && o.healthy) then NotHealthy(revision, entries)
        else Succeeds(revision, entries), w.cluster))
  {
    var e := if AwaitsHealth(i.spec, entries) && !(o.announced && o.healthy) then NotHealthy(revision, entries)
      else Succeeds(revision, entries);
    StatusTells(base, i, e);
    var u := w;
    if AwaitsHealth(base.spec, entries) && o.announced {
      u := AnnounceMove(w, k, o, base, revision, entries);
    }
    var v := AssessMove(u, k, o, base, revision, entries, u != w);
    var p := v.flights[k].phase;
    ClosingEnds(v, k, o, base, p.status, p.after, p.applied, i, e);
    CarryOver(u, v, k, o, i, Summary(e, w.cluster));
    CarryOver(w, u, k, o, i, Summary(e, w.cluster));
  }

  lemma PruningEnds(w: World, k: Key, o: Oracle, base: Instance, revision: string, entries: seq<Entry>,
          stale: seq<ObjMeta>, i: Instance)
    requires In(w, k, base, Pruning(revision, stale, entries, false)) && ReadAs(base, i)
    ensures var r := DeleteRest(w.config, k, o, w.cluster, stale, false);
      EndsAs(w, k, o, i, Summary(
        if r.failed then NotPruned(revision, entries)
        else if AwaitsHealth(i.spec, entries) && !(o.announced && o.healthy) then NotHealthy(revision, entries)
        else Succeeds(revision, entries), r.cluster))
  {
    var r := DeleteRest(w.config, k, o, w.cluster, stale, false);
    var u := SweepRuns(w, k, o, base, Garbage(revision, entries), stale, false);
    var v := PruneDoneMove(u, k, o, base, revision, entries, r.failed);
    if r.failed {
      var p, e := v.flights[k].phase, NotPruned(revision, entries);
      StatusTells(base, i, e);
      ClosingEnds(v, k, o, base, p.status, p.after, p.applied, i, e);
      CarryOver(u, v, k, o, i, Summary(e, r.cluster));
      CarryOver(w, u, k, o, i, Summary(e, r.cluster));
    } else {
      AssessingEnds(v, k, o, base, revision, entries, i);
      var e := if AwaitsHealth(i.spec, entries) && !(o.announced && o.healthy) then NotHealthy(revision, entries)
        else Succeeds(revision, entries);
      CarryOver(u, v, k, o, i, Summary(e, r.cluster));
      CarryOver(w, u, k, o, i, Summary(e, r.cluster));
    }
  }

  lemma SameGarbage(o: Oracle, base: Instance, i: Instance, entries: seq<Entry>)
    requires ReadAs(base, i)
    ensures Diffable(base, entries) == Diffable(i, entries)
    ensures PlannedStale(o, base, entries) == PlannedStale(o, i, entries)
  {
  }

  lemma GaveUpEnds(w: World, k: Key, o: Oracle, base: Instance, revision: string, i: Instance)
    requires In(w, k, base, GaveUp(base, revision)) && ReadAs(base, i)
    ensures EndsAs(w, k, o, i, Summary(NotApplied(revision), w.cluster))
  {
    StatusTells(base, i, NotApplied(revision));
    ClosingEnds(w, k, o, base, NotReady(base.status, revision, FAILED), base.spec.RetryInterval(), None, i,
        NotApplied(revision));
  }

  lemma AppliedEnds(w: World, k: Key, o: Oracle, base: Instance, revision: string, entries: seq<Entry>, i: Instance)
    requires In(w, k, base, Applying(revision, Others, [], [], entries)) && o.applyFailsAt != Some(|entries|)
    requires ReadAs(base, i)
    ensures EndsAs(w, k, o, i, AfterApply(w.config, k, o, i, revision, w.cluster, entries))
  {
    SameGarbage(o, base, i, entries);
    var v := PlanMove(w, k, o, base, revision, entries);
    if !Diffable(base, entries) {
      GaveUpEnds(v, k, o, base, revision, i);
    } else if base.spec.prune {
      PruningEnds(v, k, o, base, revision, entries, PlannedStale(o, base, entries), i);
    } else {
      AssessingEnds(v, k, o, base, revision, entries, i);
    }
    CarryOver(w, v, k, o, i, AfterApply(w.config, k, o, i, revision, w.cluster, entries));
  }

  lemma SecondStageEnds(w: World, k: Key, o: Oracle, base: Instance, revision: string, two: seq<Desired>,
          before: seq<Entry>, i: Instance)
    requires In(w, k, base, Applying(revision, Others, two, [], before)) && ReadAs(base, i)
    ensures var r := ApplyRest(w.config, k, o, w.cluster, two, before);
      EndsAs(w, k, o, i, if r.failed then Summary(NotApplied(revision), r.cluster)
                         else AfterApply(w.config, k, o, i, revision, r.cluster, r.entries))
  {
    var r := ApplyRest(w.config, k, o, w.cluster, two, before);
    var v := ApplyRuns(w, k, o, base, Applying(revision, Others, two, [], before));
    if r.failed {
      GaveUpEnds(v, k, o, base, revision, i);
      CarryOver(w, v, k, o, i, Summary(NotApplied(revision), r.cluster));
    } else {
      AppliedEnds(v, k, o, base, revision, r.entries, i);
      CarryOver(w, v, k, o, i, AfterApply(w.config, k, o, i, revision, r.cluster, r.entries));
    }
  }

  lemma FirstStageEnds(w: World, k: Key, o: Oracle, base: Instance, revision: string, one: seq<Desired>,
          two: seq<Desired>, i: Instance)
    requires In(w, k, base, Applying(revision, Definitions, one, two, [])) && ReadAs(base, i)
    ensures var first := ApplyRest(w.config, k, o, w.cluster, one, []);
      EndsAs(w, k, o, i,
        if first.failed || !o.waited then Summary(NotApplied(revision), first.cluster)
        else
          var r := ApplyRest(w.config, k, o, first.cluster, two, first.entries);
          if r.failed then Summary(NotApplied(revision), r.cluster)
            else AfterApply(w.config, k, o, i, revision, r.cluster, r.entries))
  {
    var first := ApplyRest(w.config, k, o, w.cluster, one, []);
    var u := ApplyRuns(w, k, o, base, Applying(revision, Definitions, one, two, []));
    if first.failed {
      GaveUpEnds(u, k, o, base, revision, i);
      CarryOver(w, u, k, o, i, Summary(NotApplied(revision), first.cluster));
    } else {
      var p := u.flights[k].phase;
      var v: World;
      if o.waited {
        v := WaitMove(u, k, o, base, p);
        SecondStageEnds(v, k, o, base, revision, two, first.entries, i);
        var r := ApplyRest(w.config, k, o, first.cluster, two, first.entries);
        var s := if r.failed then Summary(NotApplied(revision), r.cluster)
          else AfterApply(w.config, k, o, i, revision, r.cluster, r.entries);
        CarryOver(u, v, k, o, i, s);
        CarryOver(w, u, k, o, i, s);
      } else {
        v := FailMove(u, k, o, base, p);
        GaveUpEnds(v, k, o, base, revision, i);
        CarryOver(u, v, k, o, i, Summary(NotApplied(revision), first.cluster));
        CarryOver(w, u, k, o, i, Summary(NotApplied(revision), first.cluster));
      }
    }
  }

  lemma BuildingEnds(w: World, k: Key, o: Oracle, base: Instance, revision: string, i: Instance)
    requires In(w, k, base, Building(revision)) && ReadAs(base, i)
    ensures EndsAs(w, k, o, i, AfterBuild(w.config, k, o, i, revision, w.cluster))
  {
    var v := BuildMove(w, k, o, base, revision);
    var p := v.flights[k].phase;
    match o.built {
      case Broken(reason) =>
        StatusTells(base, i, NotBuilt(revision, reason));
        ClosingEnds(v, k, o, base, p.status, p.after, p.applied, i, NotBuilt(revision, reason));
      case Closed =>
        StatusTells(base, i, Gated(revision));
        ClosingEnds(v, k, o, base, p.status, p.after, p.applied, i, Gated(revision));
      case Objects(objects) =>
        if StageOne(objects) == [] {
          SecondStageEnds(v, k, o, base, revision, SortedStageTwo(o.less, objects), [], i);
        } else {
          FirstStageEnds(v, k, o, base, revision, StageOne(objects), SortedStageTwo(o.less, objects), i);
        }
    }
    CarryOver(w, v, k, o, i, AfterBuild(w.config, k, o, i, revision, w.cluster));
  }

  lemma CheckingEnds(w: World, k: Key, o: Oracle, base: Instance, revision: string, i: Instance)
    requires In(w, k, base, Checking(revision, 0, {})) && ReadAs(base, i)
    requires AllMet(w.instances, k, base.spec, revision) ==> o.statusPatched
    ensures EndsAs(w, k, o, i,
      if AllMet(w.instances, k, base.spec, revision) then AfterBuild(w.config, k, o, i, revision, w.cluster)
      else Summary(DependencyUnmet(revision), w.cluster))
  {
    var u, same := ChecksRun(w, k, o, base, revision, 0, {});
    if AllMet(w.instances, k, base.spec, revision) {
      var v := ProgressMove(u, k, o, base, revision, same);
      BuildingEnds(v, k, o, base.(status := Progressing(base.status)), revision, i);
      CarryOver(u, v, k, o, i, AfterBuild(w.config, k, o, i, revision, w.cluster));
      CarryOver(w, u, k, o, i, AfterBuild(w.config, k, o, i, revision, w.cluster));
    } else {
      var p := u.flights[k].phase;
      StatusTells(base, i, DependencyUnmet(revision));
      ClosingEnds(u, k, o, base, p.status, p.after, p.applied, i, DependencyUnmet(revision));
      CarryOver(w, u, k, o, i, Summary(DependencyUnmet(revision), w.cluster));
    }
  }

  /** Endings without a result: the status is as it was read, and only a suspended instance does not come back. */
  ghost predicate EndsUnchanged(w: World, v: World, k: Key, i: Instance, queued: bool) {
    && v.cluster == w.cluster
    && k in v.instances && k !in v.flights
    && v.instances[k].status == i.status
    && (k in v.pending <==> queued)
  }

  lemma ResolvingRefused(w: World, k: Key, o: Oracle, base: Instance, i: Instance)
    requires In(w, k, base, Resolving) && base.status == i.status
    requires var source := GetSource(w, k, base.spec.source); !o.sourceRead || source.Denied? || source.Unsupported?
    ensures EndsUnchanged(w, Drive(w, k, o), k, i, true)
  {
    InPhase(w, k, base, Resolving);
    if !o.sourceRead {
      AbortMove(w, k, o, base, Resolving);
    } else {
      var v := ResolveMove(w, k, o, base);
      DriveDone(v, k, o);
    }
  }

  lemma CheckingUnmarked(w: World, k: Key, o: Oracle, base: Instance, revision: string, i: Instance)
    requires In(w, k, base, Checking(revision, 0, {})) && base.status == i.status
    requires AllMet(w.instances, k, base.spec, revision) && !o.statusPatched
    ensures EndsUnchanged(w, Drive(w, k, o), k, i, true)
  {
    var u, same := ChecksRun(w, k, o, base, revision, 0, {});
    InPhase(w, k, base, Checking(revision, 0, {}));
    InPhase(u, k, base, Checking(revision, |base.spec.dependsOn|, same));
    AbortMove(u, k, o, base, Checking(revision, |base.spec.dependsOn|, same));
  }

  /**
   One reconciliation in one step, for any live instance and whatever the outside answers: it ends as computed
   from the state at its start, and leaves the cluster so computed. If the final patch succeeds, the status
   stored tells this ending and the instance comes back when the ending says so; if it fails, only conditions
   may have changed and the instance is queued. Without a result, the status is as it was, and all but a
   suspended instance come back.
   */
  lemma ReconcileEndsAs(w: World, k: Key, o: Oracle)
    requires k in w.instances && k !in w.flights && SlotCoherent(w.At(k)) && !w.instances[k].deleting
    ensures var r, v := EndingOf(w, k, o), Reconcile(w, k, o);
      && v.cluster == r.cluster
      && k in v.instances && k !in v.flights
      && var i, status := w.instances[k], v.instances[k].status;
      && if !HasStatus(r.ending) then status == i.status && (k in v.pending <==> !r.ending.Suspended?)
         else if o.finished then
           Tells(i, r.ending, status) && (k in v.pending <==> ComesBack(w.config, i.spec, r.ending) > 0)
         else SameRecord(status, i.status) && k in v.pending
  {
    var i := w.instances[k];
    var base := i.(finalizer := true);
    var u := FetchMove(w, k, o);
    SameDependencies(w, u, k, base);
    if i.spec.suspend {
      DriveDone(u, k, o);
    } else {
      ResolvingEnds(u, k, o, base, i);
    }
  }

  lemma ResolvingEnds(w: World, k: Key, o: Oracle, base: Instance, i: Instance)
    requires In(w, k, base, Resolving) && base == i.(finalizer := true)
    ensures var source := GetSource(w, k, base.spec.source);
      if !o.sourceRead || source.Denied? || source.Unsupported? then EndsUnchanged(w, Drive(w, k, o), k, i, true)
      else if source.Artifact? then
        if !AllMet(w.instances, k, base.spec, source.revision) then
          EndsAs(w, k, o, i, Summary(DependencyUnmet(source.revision), w.cluster))
        else if !o.statusPatched then EndsUnchanged(w, Drive(w, k, o), k, i, true)
        else EndsAs(w, k, o, i, AfterBuild(w.config, k, o, i, source.revision, w.cluster))
      else EndsAs(w, k, o, i, Summary(SourceMissing, w.cluster))
  {
    var source := GetSource(w, k, base.spec.source);
    if !o.sourceRead || source.Denied? || source.Unsupported? {
      ResolvingRefused(w, k, o, base, i);
    } else {
      var v := ResolveMove(w, k, o, base);
      if !source.Artifact? {
        var p := v.flights[k].phase;
        StatusTells(base, i, SourceMissing);
        ClosingEnds(v, k, o, base, p.status, p.after, p.applied, i, SourceMissing);
        CarryOver(w, v, k, o, i, Summary(SourceMissing, w.cluster));
      } else if AllMet(w.instances, k, base.spec, source.revision) && !o.statusPatched {
        CheckingUnmarked(v, k, o, base, source.revision, i);
      } else {
        CheckingEnds(v, k, o, base, source.revision, i);
        var r := if AllMet(w.instances, k, base.spec, source.revision) then
          AfterBuild(w.config, k, o, i, source.revision, w.cluster)
                 else Summary(DependencyUnmet(source.revision), w.cluster);
        CarryOver(w, v, k, o, i, r);
      }
    }
  }
}
