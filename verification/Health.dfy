/**
 Health: an instance becomes ready only after what its spec asks to wait for has been announced and found
 healthy, and no piece of garbage was left undeleted; in every run, by events of the same reconciliation.
 */
module Health {
  import opened Wrappers
  import opened ObjectIds
  import opened Inventories
  import opened StaleObjects
  import opened Statuses
  import opened Machine
  import opened Coherence
  import opened History
  import opened Driver
  import opened Controllers
  import opened Batches
  import opened DependencyChecks
  import opened Endings

  // ---------------------------------------------------------------- one reconciliation

  /** With `wait`, everything applied is waited for, and without it the listed health checks. */
  predicate Unhealthy(spec: Spec, o: Oracle, entries: seq<Entry>) {
    (if spec.wait then entries != [] else spec.healthChecks != []) && !(o.announced && o.healthy)
  }

  predicate ByHealth(spec: Spec, o: Oracle, e: Ending) {
    e.Succeeds? || e.NotHealthy? ==> (e.NotHealthy? <==> Unhealthy(spec, o, e.entries))
  }

  lemma ApplyEndsByHealth(config: Config, k: Key, o: Oracle, i: Instance, revision: string, cluster: Cluster,
          entries: seq<Entry>)
    ensures ByHealth(i.spec, o, AfterApply(config, k, o, i, revision, cluster, entries).ending)
  {
  }

  lemma BuildEndsByHealth(config: Config, k: Key, o: Oracle, i: Instance, revision: string, cluster: Cluster)
    ensures ByHealth(i.spec, o, AfterBuild(config, k, o, i, revision, cluster).ending)
  {
    if o.built.Objects? {
      var r := ApplyStages(config, k, o, cluster, o.built.objects);
      ApplyEndsByHealth(config, k, o, i, revision, r.cluster, r.entries);
    }
  }

  lemma EndsByHealth(w: World, k: Key, o: Oracle)
    requires k in w.instances
    ensures ByHealth(w.instances[k].spec, o, EndingOf(w, k, o).ending)
  {
    var i := w.instances[k];
    var source := GetSource(w, k, i.spec.source);
    if source.Artifact? {
      BuildEndsByHealth(w.config, k, o, i, source.revision, w.cluster);
    }
  }

  /**
   Once everything is applied and pruned, health decides. If there is something to wait for, the progress must be
   announced and the wait succeed; otherwise the instance is stored as unhealthy, with the new inventory and
   generation.
   */
  lemma HealthDecides(w: World, k: Key, o: Oracle)
    requires k in w.instances && k !in w.flights && SlotCoherent(w.At(k)) && !w.instances[k].deleting
    requires o.finished && (EndingOf(w, k, o).ending.Succeeds? || EndingOf(w, k, o).ending.NotHealthy?)
    ensures k in Reconcile(w, k, o).instances
    ensures var i, status := w.instances[k], Reconcile(w, k, o).instances[k].status;
      var entries := EndingOf(w, k, o).ending.entries;
      && status.inventory == Some(Refs(entries)) && status.observedGeneration == i.Generation()
      && FindCondition(status.conditions, READY) == Some(
           if Unhealthy(i.spec, o, entries) then Condition(READY, False, HEALTH_CHECK_FAILED)
           else Condition(READY, True, SUCCEEDED))
  {
    ReconcileEndsAs(w, k, o);
    EndsByHealth(w, k, o);
    TellsHealth(w.instances[k], EndingOf(w, k, o).ending, o, Reconcile(w, k, o).instances[k].status);
  }

  lemma TellsHealth(i: Instance, e: Ending, o: Oracle, status: Status)
    requires (e.Succeeds? || e.NotHealthy?) && ByHealth(i.spec, o, e) && Tells(i, e, status)
    ensures status.inventory == Some(Refs(e.entries)) && status.observedGeneration == i.Generation()
    ensures FindCondition(status.conditions, READY) == Some(
      if Unhealthy(i.spec, o, e.entries) then Condition(READY, False, HEALTH_CHECK_FAILED)
      else Condition(READY, True, SUCCEEDED))
  {
  }

  /** Some piece of garbage, of those that the inventories show, cannot be deleted. */
  ghost predicate Undeleted(i: Instance, o: Oracle, entries: seq<Entry>) {
    && i.spec.prune && i.status.inventory.Some?
    && var older, newer := i.status.inventory.value, Refs(entries);
    && Parses(older) && Parses(newer)
    && exists m :: IsStale(older, newer, m) && m in o.undeletable
  }

  lemma ApplyEndsByPruning(config: Config, k: Key, o: Oracle, i: Instance, revision: string, cluster: Cluster,
          entries: seq<Entry>)
    ensures var e := AfterApply(config, k, o, i, revision, cluster, entries).ending;
      Records(e) ==> e.entries == entries && (e.NotPruned? <==> Undeleted(i, o, entries))
  {
    if Diffable(i, entries) {
      PlannedIsPlan(o, i, entries);
      DeletesExactly(config, k, o, cluster, PlannedStale(o, i, entries), false);
    }
  }

  lemma BuildEndsByPruning(config: Config, k: Key, o: Oracle, i: Instance, revision: string, cluster: Cluster)
    ensures var e := AfterBuild(config, k, o, i, revision, cluster).ending;
      Records(e) ==> (e.NotPruned? <==> Undeleted(i, o, e.entries))
  {
    if o.built.Objects? {
      var r := ApplyStages(config, k, o, cluster, o.built.objects);
      ApplyEndsByPruning(config, k, o, i, revision, r.cluster, r.entries);
    }
  }

  lemma EndsByPruning(w: World, k: Key, o: Oracle)
    requires k in w.instances
    ensures var e := EndingOf(w, k, o).ending;
      Records(e) ==> (e.NotPruned? <==> Undeleted(w.instances[k], o, e.entries))
  {
    var i := w.instances[k];
    var source := GetSource(w, k, i.spec.source);
    if source.Artifact? {
      BuildEndsByPruning(w.config, k, o, i, source.revision, w.cluster);
    }
  }

  /**
   Once everything is applied, the instance is stored as not pruned exactly when pruning is on and some garbage
   cannot be deleted; the new inventory and generation are stored all the same.
   */
  lemma PruningDecides(w: World, k: Key, o: Oracle)
    requires k in w.instances && k !in w.flights && SlotCoherent(w.At(k)) && !w.instances[k].deleting
    requires o.finished && Records(EndingOf(w, k, o).ending)
    ensures k in Reconcile(w, k, o).instances
    ensures var i, status := w.instances[k], Reconcile(w, k, o).instances[k].status;
      var entries := EndingOf(w, k, o).ending.entries;
      && status.inventory == Some(Refs(entries)) && status.observedGeneration == i.Generation()
      && (FindCondition(status.conditions, READY) == Some(Condition(READY, False, PRUNE_FAILED)) <==>
          Undeleted(i, o, entries))
  {
    ReconcileEndsAs(w, k, o);
    EndsByPruning(w, k, o);
    TellsPruning(w.instances[k], EndingOf(w, k, o).ending, Reconcile(w, k, o).instances[k].status);
  }

  lemma TellsPruning(i: Instance, e: Ending, status: Status)
    requires Records(e) && Tells(i, e, status)
    ensures status.inventory == Some(Refs(e.entries)) && status.observedGeneration == i.Generation()
    ensures FindCondition(status.conditions, READY) == Some(Condition(READY, False, PRUNE_FAILED)) <==> e.NotPruned?
  {
  }

  // ---------------------------------------------------------------- while it works

  /** Past its dependency check, the instance shows in its stored status that it is in progress. */
  lemma ProgressShows(w: World, k: Key)
    requires Flying(w.At(k)) && w.At(k).flight.value.phase.Checking?
    requires w.At(k).flight.value.phase.next == |w.At(k).flight.value.base.spec.dependsOn|
    ensures var v := Step(w, Of(k, Progress));
      && k in v.instances
      && FindCondition(v.instances[k].status.conditions, READY) == Some(Condition(READY, Unknown, PROGRESSING))
      && v.cluster == w.cluster
  {
    assert TurnOf(w, k, Progress) == ProgressTurn(w, k);
    SetThenFind(w.At(k).flight.value.base.status.conditions, Condition(READY, Unknown, PROGRESSING), READY);
  }

  /** While it waits for what its spec asks for, the stored status shows this too, and the health is unknown. */
  lemma AnnounceShows(w: World, k: Key)
    requires Flying(w.At(k)) && w.At(k).flight.value.phase.Assessing?
    requires var f := w.At(k).flight.value; Awaited(f.base.spec, Refs(f.phase.entries))
    ensures var v := Step(w, Of(k, Announce));
      && k in v.instances
      && FindCondition(v.instances[k].status.conditions, READY) == Some(Condition(READY, Unknown, PROGRESSING))
      && FindCondition(v.instances[k].status.conditions, HEALTHY) == Some(Condition(HEALTHY, Unknown, PROGRESSING))
      && v.cluster == w.cluster
  {
    var base := w.At(k).flight.value.base;
    var shown := SetCondition(base.status.conditions, Condition(READY, Unknown, PROGRESSING));
    assert TurnOf(w, k, Announce) == AnnounceTurn(w, k);
    SetThenFind(base.status.conditions, Condition(READY, Unknown, PROGRESSING), READY);
    SetThenFind(shown, Condition(HEALTHY, Unknown, PROGRESSING), READY);
    SetThenFind(shown, Condition(HEALTHY, Unknown, PROGRESSING), HEALTHY);
  }

  // ---------------------------------------------------------------- every run

  /** The spec asks to wait for something, given what was applied. */
  predicate Awaited(spec: Spec, inventory: seq<ResourceRef>) {
    (spec.wait && inventory != []) || (!spec.wait && spec.healthChecks != [])
  }

  /** Event `j` is this move of `k`, which is about to check health. */
  ghost predicate AssessesAt(config: Config, es: seq<Event>, k: Key, move: Move, j: nat) {
    && j < |es| && es[j] == Of(k, move)
    && k in Run(config, es[..j]).flights && Run(config, es[..j]).flights[k].phase.Assessing?
  }

  ghost predicate AnnouncedAfter(config: Config, es: seq<Event>, k: Key, a: nat) {
    exists h :: a < h && AssessesAt(config, es, k, Announce, h)
  }

  /** After event `a` the progress was announced, and then everything found healthy. */
  ghost predicate HealthyAfter(config: Config, es: seq<Event>, k: Key, a: nat) {
    exists h, g :: a < h < g && AssessesAt(config, es, k, Announce, h) && AssessesAt(config, es, k, Assess(true), g)
  }

  predicate ReportsFailure(notes: seq<Record>) {
    exists r :: r in notes && r.LeftBehind? && r.cause == PruneFailed
  }

  /** No deletion by `k` failed after event `a`. */
  ghost predicate AllDeletedAfter(config: Config, es: seq<Event>, k: Key, a: nat) {
    forall j :: a < j < |es| && es[j].Of? && es[j].k == k ==> !ReportsFailure(Notes(Run(config, es[..j]), es[j]))
  }

  /** In event `a` the reconciliation of `k` in flight ever since has applied these objects completely. */
  ghost predicate AppliesAt(config: Config, es: seq<Event>, k: Key, revision: string, spec: Spec, objs: set<ObjMeta>,
          a: nat) {
    && a < |es| && es[a].Of? && es[a].k == k && InFlightSince(config, es, k, a)
    && Applied(k, revision, spec, objs) in Notes(Run(config, es[..a]), es[a])
  }

  /** The phases after the apply that may still lead to success, and their revision. */
  predicate MaySucceed(p: Phase) {
    p.Pruning? || p.Assessing? || (p.Closing? && p.applied.Some? && IsReady(p.status))
  }

  function RevisionOf(p: Phase): string
    requires MaySucceed(p)
  {
    if p.Closing? then p.status.lastApplied else p.revision
  }

  /** What has happened since the apply of event `a`. */
  ghost predicate FollowedUp(config: Config, es: seq<Event>, k: Key, f: Flight, a: nat) {
    && MaySucceed(f.phase)
    && AppliesAt(config, es, k, RevisionOf(f.phase), f.base.spec, EntrySet(Unstored(f.phase)), a)
    && (!(f.phase.Pruning? && f.phase.failed) ==> AllDeletedAfter(config, es, k, a))
    && (f.phase.Assessing? && f.phase.announced ==> AnnouncedAfter(config, es, k, a))
    && (f.phase.Closing? && Awaited(f.base.spec, Refs(Unstored(f.phase))) ==> HealthyAfter(config, es, k, a))
  }

  ghost predicate AllFollowedUp(config: Config, es: seq<Event>, k: Key) {
    var s := Run(config, es).At(k);
    s.flight.Some? && MaySucceed(s.flight.value.phase) ==> exists a :: FollowedUp(config, es, k, s.flight.value, a)
  }

  // The earlier events stay what they were.

  lemma AssessesLater(config: Config, es: seq<Event>, e: Event, k: Key, move: Move, j: nat)
    requires AssessesAt(config, es, k, move, j)
    ensures AssessesAt(config, es + [e], k, move, j)
  {
    assert (es + [e])[..j] == es[..j];
  }

  lemma AnnouncedLater(config: Config, es: seq<Event>, e: Event, k: Key, a: nat)
    requires AnnouncedAfter(config, es, k, a)
    ensures AnnouncedAfter(config, es + [e], k, a)
  {
    var h: nat :| a < h && AssessesAt(config, es, k, Announce, h);
    AssessesLater(config, es, e, k, Announce, h);
  }

  lemma HealthyLater(config: Config, es: seq<Event>, e: Event, k: Key, a: nat)
    requires HealthyAfter(config, es, k, a)
    ensures HealthyAfter(config, es + [e], k, a)
  {
    var h: nat, g: nat :| a < h < g && AssessesAt(config, es, k, Announce, h)
        && AssessesAt(config, es, k, Assess(true), g);
    AssessesLater(config, es, e, k, Announce, h);
    AssessesLater(config, es, e, k, Assess(true), g);
  }

  lemma AllDeletedLater(config: Config, es: seq<Event>, e: Event, k: Key, a: nat)
    requires AllDeletedAfter(config, es, k, a)
    requires e.Of? && e.k == k ==> !ReportsFailure(Notes(Run(config, es), e))
    ensures AllDeletedAfter(config, es + [e], k, a)
  {
    var fs := es + [e];
    forall j | a < j < |fs| && fs[j].Of? && fs[j].k == k
      ensures !ReportsFailure(Notes(Run(config, fs[..j]), fs[j]))
    {
      assert fs[..j] == es[..j];
      if j == |es| {
        assert es[..j] == es;
      }
    }
  }

  lemma AppliesLater(config: Config, es: seq<Event>, e: Event, k: Key, revision: string, spec: Spec,
          objs: set<ObjMeta>, a: nat)
    requires AppliesAt(config, es, k, revision, spec, objs, a) && k in Run(config, es + [e]).flights
    ensures AppliesAt(config, es + [e], k, revision, spec, objs, a)
  {
    InFlightLater(config, es, e, k, a);
    assert (es + [e])[..a] == es[..a];
  }

  // ---------------------------------------------------------------- the moves

  /** What a move makes of a flight that may succeed: it keeps what was applied, and earns what it claims. */
  ghost predicate Earns(w: World, k: Key, move: Move, t: Turn) {
    t.slot.flight.Some? && MaySucceed(t.slot.flight.value.phase) ==>
      && w.At(k).flight.Some?
      && var f, g := w.At(k).flight.value, t.slot.flight.value;
      && MaySucceed(f.phase) && RevisionOf(g.phase) == RevisionOf(f.phase) && g.base.spec == f.base.spec
      && Unstored(g.phase) == Unstored(f.phase)
      && (!(g.phase.Pruning? && g.phase.failed) ==> !(f.phase.Pruning? && f.phase.failed) && !ReportsFailure(t.notes))
      && (g.phase.Assessing? && g.phase.announced ==>
            f.phase.Assessing? && (f.phase.announced || move.Announce?))
      && (g.phase.Closing? && Awaited(g.base.spec, Refs(Unstored(g.phase))) ==>
            f.phase.Closing? || (f.phase.Assessing? && f.phase.announced && move == Assess(true)))
  }

  lemma OpeningEarns(w: World, k: Key, move: Move)
    requires SlotCoherent(w.At(k)) && (Opening(move) || Checks(move))
    ensures Earns(w, k, move, TurnOf(w, k, move))
  {
  }

  lemma BuildEarns(w: World, k: Key, move: Move)
    requires SlotCoherent(w.At(k)) && (Builds(move) || Applies(move))
    ensures Earns(w, k, move, TurnOf(w, k, move))
  {
  }

  lemma PruneEarns(w: World, k: Key, ok: bool)
    ensures Earns(w, k, PruneNext(ok), PruneNextTurn(w, k, ok))
  {
    var notes := PruneNextTurn(w, k, ok).notes;
    if !ok && notes != [] {
      assert notes[0] in notes;
    }
  }

  lemma AnnounceEarns(w: World, k: Key, move: Move)
    requires SlotCoherent(w.At(k)) && Assesses(move)
    ensures Earns(w, k, move, TurnOf(w, k, move))
  {
  }

  lemma AssessEarns(w: World, k: Key, ok: bool)
    requires SlotCoherent(w.At(k))
    ensures Earns(w, k, Assess(ok), AssessTurn(w, k, ok))
  {
  }

  lemma LateEarns(w: World, k: Key, move: Move)
    requires SlotCoherent(w.At(k)) && (move.Close? || Leaves(move))
    ensures Earns(w, k, move, TurnOf(w, k, move))
  {
  }

  lemma OutsideEarns(w: World, k: Key, move: Move)
    requires SlotCoherent(w.At(k)) && Outside(move)
    ensures Earns(w, k, move, TurnOf(w, k, move))
  {
  }

  lemma MoveEarns(w: World, k: Key, move: Move)
    requires SlotCoherent(w.At(k)) && !move.Plan?
    ensures Earns(w, k, move, TurnOf(w, k, move))
  {
    if Opening(move) || Checks(move) {
      OpeningEarns(w, k, move);
    } else if Builds(move) || Applies(move) {
      BuildEarns(w, k, move);
    } else if move.PruneNext? {
      PruneEarns(w, k, move.ok);
    } else if Assesses(move) {
      AnnounceEarns(w, k, move);
    } else if move.Assess? {
      AssessEarns(w, k, move.ok);
    } else if Outside(move) {
      OutsideEarns(w, k, move);
    } else {
      LateEarns(w, k, move);
    }
  }

  /** A plan either changes nothing or is where the apply is noted. */
  lemma PlanApplies(w: World, k: Key, stale: seq<ObjMeta>)
    requires SlotCoherent(w.At(k))
    ensures var t := PlanTurn(w, k, stale);
      t.slot.flight.Some? && MaySucceed(t.slot.flight.value.phase) ==>
        || t == Idle(w, k)
        || (&& w.At(k).flight.Some?
            && var g := t.slot.flight.value;
            && !g.phase.Closing?
            && (g.phase.Pruning? ==> !g.phase.failed) && (g.phase.Assessing? ==> !g.phase.announced)
            && Applied(k, RevisionOf(g.phase), g.base.spec, EntrySet(Unstored(g.phase))) in t.notes)
  {
    var t := PlanTurn(w, k, stale);
    if t != Idle(w, k) {
      assert t.notes[0] in t.notes;
    }
  }

  lemma FollowOn(config: Config, es: seq<Event>, k: Key, move: Move, a: nat)
    requires var s := Run(config, es).At(k);
      s.flight.Some? && FollowedUp(config, es, k, s.flight.value, a)
    requires Earns(Run(config, es), k, move, TurnOf(Run(config, es), k, move))
    requires var t := TurnOf(Run(config, es), k, move);
      t.slot.flight.Some? && MaySucceed(t.slot.flight.value.phase)
    requires k in Run(config, es + [Of(k, move)]).flights
    ensures FollowedUp(config, es + [Of(k, move)], k, TurnOf(Run(config, es), k, move).slot.flight.value, a)
  {
    var w := Run(config, es);
    var e := Of(k, move);
    var f, g := w.At(k).flight.value, TurnOf(w, k, move).slot.flight.value;
    AppliesLater(config, es, e, k, RevisionOf(f.phase), f.base.spec, EntrySet(Unstored(f.phase)), a);
    if !(g.phase.Pruning? && g.phase.failed) {
      AllDeletedLater(config, es, e, k, a);
    }
    Here(config, es, k, move);
    if g.phase.Assessing? && g.phase.announced {
      if f.phase.announced {
        AnnouncedLater(config, es, e, k, a);
      } else {
        assert AssessesAt(config, es + [e], k, Announce, |es|);
      }
    }
    if g.phase.Closing? && Awaited(g.base.spec, Refs(Unstored(g.phase))) {
      if f.phase.Closing? {
        HealthyLater(config, es, e, k, a);
      } else {
        FoundHealthy(config, es, k, a);
      }
    }
  }

  lemma Here(config: Config, es: seq<Event>, k: Key, move: Move)
    requires k in Run(config, es).flights
    ensures Run(config, es).flights[k].phase.Assessing? ==> AssessesAt(config, es + [Of(k, move)], k, move, |es|)
  {
    assert (es + [Of(k, move)])[..|es|] == es;
  }

  lemma FoundHealthy(config: Config, es: seq<Event>, k: Key, a: nat)
    requires AnnouncedAfter(config, es, k, a)
    requires AssessesAt(config, es + [Of(k, Assess(true))], k, Assess(true), |es|)
    ensures HealthyAfter(config, es + [Of(k, Assess(true))], k, a)
  {
    var h: nat :| a < h && AssessesAt(config, es, k, Announce, h);
    AssessesLater(config, es, Of(k, Assess(true)), k, Announce, h);
  }

  lemma FollowOthers(config: Config, es: seq<Event>, e: Event, k: Key, f: Flight, a: nat)
    requires FollowedUp(config, es, k, f, a) && !(e.Of? && e.k == k) && k in Run(config, es + [e]).flights
    ensures FollowedUp(config, es + [e], k, f, a)
  {
    AppliesLater(config, es, e, k, RevisionOf(f.phase), f.base.spec, EntrySet(Unstored(f.phase)), a);
    if !(f.phase.Pruning? && f.phase.failed) {
      AllDeletedLater(config, es, e, k, a);
    }
    if f.phase.Assessing? && f.phase.announced {
      AnnouncedLater(config, es, e, k, a);
    }
    if f.phase.Closing? && Awaited(f.base.spec, Refs(Unstored(f.phase))) {
      HealthyLater(config, es, e, k, a);
    }
  }

  lemma FollowPlan(config: Config, es: seq<Event>, k: Key, stale: seq<ObjMeta>)
    requires var w := Run(config, es); SlotCoherent(w.At(k)) && PlanTurn(w, k, stale) != Idle(w, k)
    requires var t := PlanTurn(Run(config, es), k, stale); t.slot.flight.Some? && MaySucceed(t.slot.flight.value.phase)
    requires k in Run(config, es + [Of(k, Plan(stale))]).flights
    ensures FollowedUp(config, es + [Of(k, Plan(stale))], k, PlanTurn(Run(config, es), k, stale).slot.flight.value,
      |es|)
  {
    var w := Run(config, es);
    var e := Of(k, Plan(stale));
    PlanApplies(w, k, stale);
    SinceNow(config, es, e, k);
    assert (es + [e])[..|es|] == es && Notes(w, e) == PlanTurn(w, k, stale).notes;
  }

  lemma FollowStep(config: Config, es: seq<Event>, e: Event, k: Key)
    requires AllFollowedUp(config, es, k)
    ensures AllFollowedUp(config, es + [e], k)
  {
    var w, v := Run(config, es), Run(config, es + [e]);
    RunStep(config, es, e);
    StepSlot(w, e, k);
    CoherentRun(config, es);
    assert SlotCoherent(w.At(k));
    if v.At(k).flight.Some? && MaySucceed(v.At(k).flight.value.phase) {
      if e.Of? && e.k == k {
        FollowMove(config, es, k, e.move);
      } else {
        var a: nat :| FollowedUp(config, es, k, w.At(k).flight.value, a);
        FollowOthers(config, es, e, k, w.At(k).flight.value, a);
      }
    }
  }

  lemma FollowMove(config: Config, es: seq<Event>, k: Key, move: Move)
    requires AllFollowedUp(config, es, k) && SlotCoherent(Run(config, es).At(k))
    requires k in Run(config, es + [Of(k, move)]).flights
    requires var t := TurnOf(Run(config, es), k, move);
      t.slot.flight.Some? && MaySucceed(t.slot.flight.value.phase)
    ensures exists a :: FollowedUp(config, es + [Of(k, move)], k, TurnOf(Run(config, es), k, move).slot.flight.value, a)
  {
    var w := Run(config, es);
    if move.Plan? && PlanTurn(w, k, move.stale) != Idle(w, k) {
      FollowPlan(config, es, k, move.stale);
    } else {
      if !move.Plan? {
        MoveEarns(w, k, move);
      } else {
        assert TurnOf(w, k, move) == Idle(w, k);
      }
      var a: nat :| FollowedUp(config, es, k, w.At(k).flight.value, a);
      FollowOn(config, es, k, move, a);
    }
  }

  lemma {:induction false} FollowRun(config: Config, es: seq<Event>, k: Key)
    ensures AllFollowedUp(config, es, k)
  {
    if es != [] {
      assert es == es[..|es| - 1] + [es[|es| - 1]];
      FollowRun(config, es[..|es| - 1], k);
      FollowStep(config, es[..|es| - 1], es[|es| - 1], k);
    }
  }

  // ---------------------------------------------------------------- completions

  /** Every record of the log was noted by some event. */
  lemma {:induction false} NotedBy(config: Config, es: seq<Event>, r: Record) returns (n: nat)
    requires r in Run(config, es).log
    ensures n < |es| && r in Notes(Run(config, es[..n]), es[n])
  {
    var init, e := es[..|es| - 1], es[|es| - 1];
    assert es == init + [e];
    RunStep(config, init, e);
    NotesAdded(Run(config, init), e);
    if r in Run(config, init).log {
      n := NotedBy(config, init, r);
      assert es[..n] == init[..n];
    } else {
      n := |init|;
    }
  }

  lemma OnlyCloseCompletes(w: World, k: Key, move: Move, r: Record)
    requires SlotCoherent(w.At(k)) && r in TurnOf(w, k, move).notes && r.Completed?
    ensures move.Close? && r.k == k && w.At(k).flight.Some?
    ensures var f := w.At(k).flight.value;
      && MaySucceed(f.phase) && f.phase.Closing?
      && r.revision == RevisionOf(f.phase) && r.spec == f.base.spec && r.inventory == Refs(Unstored(f.phase))
  {
    if Opening(move) || Checks(move) || Builds(move) || Applies(move) {
      EarlyCompletesNothing(w, k, move, r);
    }
  }

  lemma EarlyCompletesNothing(w: World, k: Key, move: Move, r: Record)
    requires Opening(move) || Checks(move) || Builds(move) || Applies(move)
    requires r.Completed?
    ensures r !in TurnOf(w, k, move).notes
  {
  }

  /**
   Every completion in the log of any run is the final status patch, event `n`, of a reconciliation that applied
   at an earlier event `a` exactly what the inventory lists. Between the two no deletion of garbage failed; and if
   the spec asks to wait for something, the progress was announced and then everything found healthy.
   */
  lemma CompletedInHealth(config: Config, es: seq<Event>, r: Record) returns (a: nat, n: nat)
    requires r in Run(config, es).log && r.Completed?
    ensures a < n < |es| && es[n] == Of(r.k, Close) && r in Notes(Run(config, es[..n]), es[n])
    ensures exists objs ::
      Lists(r.inventory, objs) && AppliesAt(config, es[..n], r.k, r.revision, r.spec, objs, a)
    ensures AllDeletedAfter(config, es[..n], r.k, a)
    ensures (r.spec.wait && r.inventory != []) || (!r.spec.wait && r.spec.healthChecks != []) ==>
      HealthyAfter(config, es[..n], r.k, a)
  {
    n := NotedBy(config, es, r);
    var fs, w := es[..n], Run(config, es[..n]);
    NotesAdded(w, es[n]);
    CoherentRun(config, fs);
    var k := es[n].k;
    assert SlotCoherent(w.At(k));
    OnlyCloseCompletes(w, k, es[n].move, r);
    FollowRun(config, fs, k);
    var f := w.At(k).flight.value;
    var m: nat :| FollowedUp(config, fs, k, f, m);
    a := m;
    RefsList(Unstored(f.phase));
  }
}
