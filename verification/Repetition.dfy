/** Reconciling again, and again and again: idempotence, and what a series of reconciliations leaves. */
module Repetition {
  import opened Wrappers
  import opened ObjectIds
  import opened Inventories
  import opened StaleObjects
  import opened Statuses
  import opened Machine
  import opened Coherence
  import opened History
  import opened Ownership
  import opened Handover
  import opened SmoothRuns
  import opened Driver
  import opened Pipeline

  // ---------------------------------------------------------------- the second run

  /** Drift: an object was written or deleted. */
  predicate Drifts(r: Record) {
    r.Touched? || r.Deleted?
  }

  ghost predicate Still(v: World, w: World, k: Key)
    requires k in v.instances
  {
    && w.cluster == v.cluster
    && v.log <= w.log && (forall r :: r in News(v, w) ==> !Drifts(r))
    && (k in w.flights ==>
          && SameRecord(w.flights[k].base.status, v.instances[k].status)
          && (w.flights[k].phase.Pruning? ==> w.flights[k].phase.stale == []))
  }

  /** The moves of a reconciliation that works on what it has read. */
  predicate Works(move: Move) {
    !Outside(move) && !Leaves(move) && !move.Fetch?
  }

  lemma QuietMove(w: World, k: Key, move: Move)
    requires Works(move) && !move.ApplyNext? && !move.PruneNext?
    ensures var t := TurnOf(w, k, move);
      && t.cluster == w.cluster
      && forall r :: r in t.notes ==> !Drifts(r)
  {
  }

  /** Applying an object that is already in place writes nothing. */
  lemma ApplyStays(w: World, k: Key, switches: Switches)
    requires Flying(w.At(k)) && w.At(k).flight.value.phase.Applying? && w.At(k).flight.value.phase.todo != []
    requires Delivered(w.config, w.cluster, k, w.At(k).flight.value.phase.todo[0])
    ensures var t := ApplyNextTurn(w, k, switches);
      && t.cluster == w.cluster
      && forall r :: r in t.notes ==> !Drifts(r)
  {
  }

  lemma BaseKept(w: World, k: Key, move: Move)
    requires Works(move) && Flying(w.At(k)) && TurnOf(w, k, move).slot.flight.Some?
    ensures SameRecord(TurnOf(w, k, move).slot.flight.value.base.status, w.At(k).flight.value.base.status)
  {
  }

  lemma OnlyPlanPrunes(w: World, k: Key, move: Move)
    requires TurnOf(w, k, move).slot.flight.Some? && TurnOf(w, k, move).slot.flight.value.phase.Pruning?
    requires !move.PruneNext? && !move.Plan? && Flying(w.At(k))
    ensures TurnOf(w, k, move).slot.flight == w.At(k).flight
  {
  }

  /** When everything recorded is applied again there is no garbage. */
  lemma NoGarbage(o: Oracle, base: Instance, entries: seq<Entry>)
    requires forall m :: Covers(base.status.inventory, m) ==> m in EntrySet(entries)
    ensures PlannedStale(o, base, entries) == []
  {
    var stale := PlannedStale(o, base, entries);
    if base.status.inventory.Some? && Diffable(base, entries) {
      var older := base.status.inventory.value;
      StaleListIsExact(o.less, older, Refs(entries));
      if stale != [] {
        var m := stale[0];
        assert m in stale;
        CoveredIsListed(older, m);
        EntriesListed(entries, m);
      }
    }
  }

  /** So it is with the old inventory inside the desired set. */
  lemma NothingStale(v: World, w: World, k: Key, o: Oracle, objects: seq<Desired>, revision: string)
    requires k in v.instances && OnCourse(v, w, k, objects, revision) && Still(v, w, k)
    requires w.flights[k].phase.Applying? && w.flights[k].phase.todo == [] && w.flights[k].phase.stage.Others?
    requires forall m :: Covers(v.instances[k].status.inventory, m) ==> m in Targets(v.config, objects)
    ensures PlannedStale(o, w.flights[k].base, w.flights[k].phase.entries) == []
  {
    var base := w.flights[k].base;
    var entries := w.flights[k].phase.entries;
    forall m | Covers(base.status.inventory, m)
      ensures m in EntrySet(entries)
    {
      assert Covers(v.instances[k].status.inventory, m);
      var x :| x in objects && Target(v.config, x) == m;
      assert Target(w.config, x) in EntrySet(entries);
    }
    NoGarbage(o, base, entries);
  }

  /** Without garbage, the next move works on what was read; it applies only what is still to be applied. */
  lemma NextWorks(config: Config, f: Flight, o: Oracle, objects: seq<Desired>)
    requires FaultFree(config, o, objects) && !f.phase.Finalizing?
    requires f.phase.Pruning? ==> f.phase.stale == []
    ensures var move := NextMove(config, f, o);
      Works(move) && !move.PruneNext? && (move.ApplyNext? ==> f.phase.Applying? && f.phase.todo != [])
  {
  }

  lemma StillCluster(v: World, w: World, k: Key, o: Oracle, objects: seq<Desired>, revision: string)
    requires k in v.instances && OnCourse(v, w, k, objects, revision) && Still(v, w, k)
    requires FaultFree(w.config, o, objects)
    requires forall x :: x in objects ==> Delivered(v.config, v.cluster, k, x)
    ensures NextTurn(w, k, o).cluster == w.cluster && forall r :: r in NextTurn(w, k, o).notes ==> !Drifts(r)
  {
    var f := w.flights[k];
    assert w.At(k).flight == Some(f) && Flying(w.At(k));
    NextWorks(w.config, f, o, objects);
    var move := NextMove(w.config, f, o);
    if move.ApplyNext? {
      assert f.phase.todo[0] in f.phase.todo && Delivered(w.config, w.cluster, k, f.phase.todo[0]);
      ApplyStays(w, k, move.switches);
      assert TurnOf(w, k, move) == ApplyNextTurn(w, k, move.switches);
    } else {
      QuietMove(w, k, move);
    }
  }

  lemma StillMove(v: World, w: World, k: Key, o: Oracle, objects: seq<Desired>, revision: string)
    requires k in v.instances && OnCourse(v, w, k, objects, revision) && Still(v, w, k)
    requires FaultFree(w.config, o, objects)
    requires forall x :: x in objects ==> Delivered(v.config, v.cluster, k, x)
    requires forall m :: Covers(v.instances[k].status.inventory, m) ==> m in Targets(v.config, objects)
    ensures Still(v, w.With(k, NextTurn(w, k, o)), k)
  {
    assert w.At(k).flight == Some(w.flights[k]) && Flying(w.At(k));
    var move := NextMove(w.config, w.flights[k], o);
    var t := NextTurn(w, k, o);
    StillCluster(v, w, k, o, objects, revision);
    if t.slot.flight.Some? {
      BaseKept(w, k, move);
      if move.Plan? {
        NothingStale(v, w, k, o, objects, revision);
        PlanKeepsOrder(w, k, move.stale);
      } else if t.slot.flight.value.phase.Pruning? {
        OnlyPlanPrunes(w, k, move);
      }
    }
    StillTurn(v, w, k, t);
  }

  lemma StillTurn(v: World, w: World, k: Key, t: Turn)
    requires k in v.instances && Still(v, w, k)
    requires t.cluster == w.cluster && forall r :: r in t.notes ==> !Drifts(r)
    requires t.slot.flight.Some? ==>
      && SameRecord(t.slot.flight.value.base.status, v.instances[k].status)
      && (t.slot.flight.value.phase.Pruning? ==> t.slot.flight.value.phase.stale == [])
    ensures Still(v, w.With(k, t), k)
  {
    assert News(v, w.With(k, t)) == News(v, w) + t.notes;
    WithAt(w, k, t, k);
  }

  lemma PlanKeepsOrder(w: World, k: Key, stale: seq<ObjMeta>)
    requires Flying(w.At(k)) && w.At(k).flight.value.phase.Applying?
    ensures var t := PlanTurn(w, k, stale);
      t.slot.flight.Some? && t.slot.flight.value.phase.Pruning? ==> t.slot.flight.value.phase.stale == stale
  {
  }

  lemma {:induction false} StillEnds(v: World, w: World, k: Key, o: Oracle, objects: seq<Desired>, revision: string)
    requires k in v.instances && OnCourse(v, w, k, objects, revision) && Still(v, w, k)
    requires FaultFree(w.config, o, objects) && Unambiguous(w.config, objects)
    requires forall x :: x in objects ==> Delivered(v.config, v.cluster, k, x)
    requires forall m :: Covers(v.instances[k].status.inventory, m) ==> m in Targets(v.config, objects)
    requires SlotCoherent(w.At(k))
    ensures Still(v, Drive(w, k, o), k)
    decreases Rank(w.At(k)), Work(w.At(k))
  {
    var u := w.With(k, NextTurn(w, k, o));
    MovesOn(w, k, o);
    TurnCoherent(w, k, NextMove(w.config, w.flights[k], o));
    WithAt(w, k, NextTurn(w, k, o), k);
    JourneyMove(v, w, k, o, objects, revision);
    StillMove(v, w, k, o, objects, revision);
    if !w.flights[k].phase.Closing? {
      StillEnds(v, u, k, o, objects, revision);
    }
  }

  /**
   A second reconciliation with the same objects finds everything in place: it deletes nothing, writes
   nothing, reports no drift, and leaves the cluster as it was.
   */
  lemma SecondRunIsStill(w: World, k: Key, first: Oracle, second: Oracle, objects: seq<Desired>, revision: string)
    requires Poised(w, k, revision) && SlotCoherent(w.At(k))
    requires FaultFree(w.config, first, objects) && FaultFree(w.config, second, objects)
    requires Unambiguous(w.config, objects) && ObjectsOn(w, objects)
    ensures var u := Reconcile(w, k, first);
      && SlotCoherent(u.At(k))
      && var x := Reconcile(u, k, second);
      && x.cluster == u.cluster
      && (forall r :: r in News(u, x) ==> !Drifts(r))
      && Refined(u, x, k, objects, revision)
  {
    PipelineRefines(w, k, first, objects, revision);
    var u := Reconcile(w, k, first);
    RefinedIsPoised(w, u, k, objects, revision);
    DeliveredAreOn(u, k, objects);
    assert SlotCoherent(u.At(k));
    PipelineRefines(u, k, second, objects, revision);
    SetsOut(u, k, objects, revision);
    var t := FetchTurn(u, k, true);
    var s := u.With(k, t);
    TurnCoherent(u, k, Fetch(true));
    WithAt(u, k, t, k);
    assert u.At(k).instance == Some(u.instances[k]);
    assert t.notes == [] && News(u, s) == [];
    StillEnds(u, s, k, second, objects, revision);
  }

  lemma DeliveredAreOn(w: World, k: Key, objects: seq<Desired>)
    requires OwnedAreOn(w.cluster) && forall o :: o in objects ==> Delivered(w.config, w.cluster, k, o)
    ensures ObjectsOn(w, objects)
  {
  }

  /** Having been reconciled, an instance is ready to be reconciled again, even if it depends on itself. */
  lemma RefinedIsPoised(v: World, w: World, k: Key, objects: seq<Desired>, revision: string)
    requires Poised(v, k, revision) && Refined(v, w, k, objects, revision)
    ensures Poised(w, k, revision)
  {
    var spec := w.instances[k].spec;
    forall i | 0 <= i < |spec.dependsOn|
      ensures DependencyMet(w.instances, DependencyKey(k, spec.dependsOn[i]), spec, revision)
    {
      var d := DependencyKey(k, spec.dependsOn[i]);
      assert DependencyMet(v.instances, d, spec, revision);
      if d != k {
        assert w.At(d) == v.At(d);
      } else {
        assert w.instances[k].status.conditions != [];
      }
    }
  }

  // ---------------------------------------------------------------- a series of runs

  /** What every smooth run keeps, for all instances at once. */
  ghost predicate InGoodOrder(w: World) {
    Traceable(w) && CleanWorld(w) && forall k :: AllHeld(w, k)
  }

  lemma StepKeepsOrder(w: World, e: Event)
    requires InGoodOrder(w) && SmoothStep(w, e)
    ensures InGoodOrder(Step(w, e)) && Step(w, e).config == w.config
  {
    TraceableStep(w, e);
    CleanStep(w, e);
    StepSlot(w, e, Key("", ""));
    forall k
      ensures AllHeld(Step(w, e), k)
    {
      StepHolds(w, e, k);
    }
  }

  /** An object that gets lost is reported, and in good order nothing is. */
  lemma StepHolds(w: World, e: Event, k: Key)
    requires Traceable(w) && AllHeld(w, k) && CleanWorld(Step(w, e))
    ensures AllHeld(Step(w, e), k)
  {
    var v := Step(w, e);
    NotesAdded(w, e);
    assert forall r :: r in Notes(w, e) ==> r in v.log;
    forall m | Owned(v.cluster, k, m)
      ensures Held(v.At(k), m)
    {
      assert !LeftBy(Notes(w, e), k, m);
      if Stray(v, k, m) {
        NewStray(w, e, k, m);
      }
    }
  }

  lemma {:induction false} RunKeepsOrder(w: World, es: seq<Event>)
    requires InGoodOrder(w) && SmoothFrom(w, es)
    ensures InGoodOrder(Exec(w, es)) && Exec(w, es).config == w.config
  {
    if es != [] {
      SmoothLast(w, es);
      RunKeepsOrder(w, es[..|es| - 1]);
      StepKeepsOrder(Exec(w, es[..|es| - 1]), es[|es| - 1]);
    }
  }

  /** A reconciliation without faults is a smooth run. */
  lemma {:induction false} DriveKeepsOrder(w: World, k: Key, o: Oracle, objects: seq<Desired>)
    requires InGoodOrder(w) && FaultFree(w.config, o, objects) && SlotCoherent(w.At(k))
    ensures InGoodOrder(Drive(w, k, o)) && Drive(w, k, o).config == w.config
    decreases Rank(w.At(k)), Work(w.At(k))
  {
    if w.At(k).flight.Some? {
      var move := NextMove(w.config, w.At(k).flight.value, o);
      MovesOn(w, k, o);
      TurnCoherent(w, k, move);
      WithAt(w, k, NextTurn(w, k, o), k);
      NextIsSmooth(w, k, o, objects);
      assert Step(w, Of(k, move)) == w.With(k, NextTurn(w, k, o));
      StepKeepsOrder(w, Of(k, move));
      DriveKeepsOrder(w.With(k, NextTurn(w, k, o)), k, o, objects);
    }
  }

  lemma ReconcileKeepsOrder(w: World, k: Key, o: Oracle, objects: seq<Desired>)
    requires InGoodOrder(w) && FaultFree(w.config, o, objects) && SlotCoherent(w.At(k))
    requires k in w.instances && !w.instances[k].deleting
    ensures InGoodOrder(Reconcile(w, k, o)) && Reconcile(w, k, o).config == w.config
  {
    var fetch := Of(k, Fetch(true));
    TurnCoherent(w, k, fetch.move);
    WithAt(w, k, FetchTurn(w, k, true), k);
    assert Step(w, fetch) == w.With(k, FetchTurn(w, k, true));
    StepKeepsOrder(w, fetch);
    DriveKeepsOrder(w.With(k, FetchTurn(w, k, true)), k, o, objects);
  }

  /** The instance can be reconciled at the revision: idle, live, its source there, its dependencies met. */
  ghost predicate CanServe(w: World, k: Key, revision: string) {
    && k in w.instances && k !in w.flights && !w.instances[k].deleting && !w.instances[k].spec.suspend
    && GetSource(w, k, w.instances[k].spec.source) == Artifact(revision)
    && AllMet(w.instances, k, w.instances[k].spec, revision)
  }

  lemma OrderIsPoised(w: World, k: Key, revision: string)
    requires InGoodOrder(w) && CanServe(w, k, revision)
    ensures Poised(w, k, revision) && SlotCoherent(w.At(k))
  {
    assert SlotCoherent(w.At(k)) && CleanSlot(w.config.clusterScoped, w.At(k)) && AllHeld(w, k);
  }

  /**
   One round: first anything may happen, specs edited, sources moved, other instances reconciled; then the
   instance is reconciled at a revision.
   */
  datatype Round = Round(between: seq<Event>, revision: string, oracle: Oracle, objects: seq<Desired>)

  /** A series of rounds. */
  ghost function Series(w: World, k: Key, rounds: seq<Round>): (r: World)
    requires InGoodOrder(w) && Served(w, k, rounds)
    ensures InGoodOrder(r) && r.config == w.config
    decreases |rounds|, 2
  {
    if rounds == [] then w
    else
      var last := rounds[|rounds| - 1];
      var v := Arrived(w, k, rounds);
      assert SlotCoherent(v.At(k));
      ReconcileKeepsOrder(v, k, last.oracle, last.objects);
      Reconcile(v, k, last.oracle)
  }

  /** The state in which the last round reconciles. */
  ghost function Arrived(w: World, k: Key, rounds: seq<Round>): (v: World)
    requires InGoodOrder(w) && Served(w, k, rounds) && rounds != []
    ensures InGoodOrder(v) && v.config == w.config
    ensures CanServe(v, k, rounds[|rounds| - 1].revision) && ObjectsOn(v, rounds[|rounds| - 1].objects)
    decreases |rounds|, 1
  {
    var last := rounds[|rounds| - 1];
    var u := Series(w, k, rounds[..|rounds| - 1]);
    RunKeepsOrder(u, last.between);
    Exec(u, last.between)
  }

  /**
   Nothing fails, and each round finds the instance ready to be reconciled and none of its objects switched
   off by somebody else.
   */
  ghost predicate Served(w: World, k: Key, rounds: seq<Round>)
    requires InGoodOrder(w)
    decreases |rounds|, 0
  {
    rounds == [] ||
      (&& var init, last := rounds[..|rounds| - 1], rounds[|rounds| - 1];
       && Served(w, k, init)
       && FaultFree(w.config, last.oracle, last.objects) && Unambiguous(w.config, last.objects)
       && SmoothFrom(Series(w, k, init), last.between)
       && CanServe(Exec(Series(w, k, init), last.between), k, last.revision)
       && ObjectsOn(Exec(Series(w, k, init), last.between), last.objects))
  }

  /**
   After any series of faultless rounds, whatever went on in between and however the desired objects changed,
   what is owned is what was desired last.
   */
  lemma LastDesiredIsOwned(w: World, k: Key, rounds: seq<Round>)
    requires InGoodOrder(w) && Served(w, k, rounds) && rounds != []
    ensures forall m :: Owned(Series(w, k, rounds).cluster, k, m) <==>
      m in Targets(w.config, rounds[|rounds| - 1].objects)
  {
    var last := rounds[|rounds| - 1];
    var v := Arrived(w, k, rounds);
    OrderIsPoised(v, k, last.revision);
    PipelineRefines(v, k, last.oracle, last.objects, last.revision);
  }

  /** Every smooth run is in good order, from the empty cluster on. */
  lemma SmoothIsInGoodOrder(config: Config, es: seq<Event>)
    requires SmoothRun(config, es)
    ensures InGoodOrder(Run(config, es))
  {
    TraceableRun(config, []);
    CleanRun(config, []);
    RunKeepsOrder(EmptyWorld(config), es);
  }

  /** The instance is created, and its source offers a first revision. */
  function Birth(k: Key, spec: Spec, revision: string): seq<Event> {
    [Of(k, Create(spec)), SetSource(SourceKey(k, spec.source), Some(revision), Some([k]))]
  }

  /** Such a series can start from nothing. */
  lemma FreshIsServed(config: Config, k: Key, spec: Spec, revision: string, o: Oracle, objects: seq<Desired>)
    requires spec.prune && !spec.suspend && spec.dependsOn == [] && spec.source.kind == GIT_REPOSITORY && revision != ""
    requires !(config.noCrossNamespaceRefs && SourceKey(k, spec.source).namespace != k.namespace)
    requires FaultFree(config, o, objects) && Unambiguous(config, objects)
    ensures InGoodOrder(EmptyWorld(config))
    ensures Served(EmptyWorld(config), k, [Round(Birth(k, spec, revision), revision, o, objects)])
  {
    var w := EmptyWorld(config);
    var es := Birth(k, spec, revision);
    assert es[..0] == [] && es[..1] == [es[0]];
    SmoothIsInGoodOrder(config, []);
    Born(config, k, spec, revision);
    assert ObjectsOn(Exec(w, es), objects);
    ServedOnce(w, k, Round(es, revision, o, objects));
  }

  lemma ServedOnce(w: World, k: Key, r: Round)
    requires InGoodOrder(w) && SmoothFrom(w, r.between)
    requires FaultFree(w.config, r.oracle, r.objects) && Unambiguous(w.config, r.objects)
    requires CanServe(Exec(w, r.between), k, r.revision) && ObjectsOn(Exec(w, r.between), r.objects)
    ensures Served(w, k, [r])
  {
    assert [r][..0] == [];
    assert Series(w, k, [r][..0]) == w;
  }

  lemma Born(config: Config, k: Key, spec: Spec, revision: string)
    requires spec.prune && !spec.suspend && spec.dependsOn == [] && spec.source.kind == GIT_REPOSITORY && revision != ""
    requires !(config.noCrossNamespaceRefs && SourceKey(k, spec.source).namespace != k.namespace)
    ensures var w, es := EmptyWorld(config), Birth(k, spec, revision);
      SmoothFrom(w, es) && CanServe(Exec(w, es), k, revision) && Exec(w, es).cluster == map[]
  {
    var w, es := EmptyWorld(config), Birth(k, spec, revision);
    Created(config, k, spec);
    var u := Step(w, es[0]);
    assert es[..0] == [] && es[..1] == [es[0]] && es[..2] == es;
    assert Exec(w, es[..1]) == u by {
      assert [es[0]][..0] == [];
    }
    Offers(u, k, SourceKey(k, spec.source), revision);
  }

  lemma Created(config: Config, k: Key, spec: Spec)
    ensures var u := Step(EmptyWorld(config), Of(k, Create(spec)));
      && u.config == config && u.instances == map[k := Instance(spec, [], false, false, EMPTY_STATUS)]
      && u.flights == map[] && u.sources == map[] && u.cluster == map[]
  {
    var w := EmptyWorld(config);
    assert TurnOf(w, k, Create(spec)) == CreateTurn(w, k, spec);
  }

  /** A first revision for the only instance there is. */
  lemma Offers(u: World, k: Key, source: Key, revision: string)
    requires u.instances.Keys == {k} && u.instances[k].spec.dependsOn == [] && source !in u.sources
    requires source in IndexKeys(k, u.instances[k].spec) && u.instances[k].status.lastAttempted != revision
    ensures var v := Step(u, SetSource(source, Some(revision), Some([k])));
      && v.config == u.config && v.instances == u.instances && v.flights == u.flights
      && v.sources == u.sources[source := Some(revision)] && v.cluster == u.cluster
  {
    assert Requests(u.instances, source, revision) == {k};
    assert SortsDependencies(u.instances, {k}, Some([k]));
  }
}
