/**
 Runs in which nothing goes wrong: pruning on, no owned object switched off, no failure inside apply, prune or
 the final patch. Then there are no orphans at all, over every interleaving.
 */
module SmoothRuns {
  import opened Wrappers
  import opened ObjectIds
  import opened Inventories
  import opened StaleObjects
  import opened Statuses
  import opened Machine
  import opened Coherence
  import opened History
  import opened Ownership
  import opened Handover

  const NO_SWITCHES := Switches(false, false)

  /** The object is recorded so that it can be read back. */
  predicate Nameable(o: Desired) {
    Printable(o.meta) && '/' !in o.version
  }

  predicate Acceptable(clusterScoped: set<GroupKind>, o: Desired) {
    CanApply(clusterScoped, o.meta) && Nameable(o)
  }

  /** Nothing fails, no apply switches anything off, and nobody else writes owner labels. */
  ghost predicate Smooth(config: Config, e: Event) {
    match e
    case Of(_, move) =>
      (match move
       case Fetch(canFinalize) => canFinalize
       case Build(Staged(one, two)) => forall o :: o in one || o in two ==> Acceptable(config.clusterScoped, o)
       case ApplyNext(switches) => switches == NO_SWITCHES
       case ApplyFail => false
       case PruneNext(ok) => ok
       case FinalizeNext(ok) => ok
       case Abort => false
       case Create(spec) => spec.prune
       case Edit(spec) => spec.prune
       case _ => true)
    case SetSource(_, _, _) => true
    case Write(_, after) => after.Some? ==> after.value.owner.None?
  }

  /** An instance under deletion is not suspended when it is fetched: its objects would be left behind. */
  predicate Undisturbed(s: Slot, move: Move) {
    move.Fetch? && s.instance.Some? && s.instance.value.deleting ==> !s.instance.value.spec.suspend
  }

  ghost predicate SmoothStep(w: World, e: Event) {
    Smooth(w.config, e) && (e.Of? ==> Undisturbed(w.At(e.k), e.move))
  }

  /** Smooth events from here on; instances may be suspended and resumed on the way. */
  ghost predicate SmoothFrom(w: World, es: seq<Event>) {
    forall n :: 0 <= n < |es| ==> SmoothStep(Exec(w, es[..n]), es[n])
  }

  ghost predicate SmoothRun(config: Config, es: seq<Event>) {
    SmoothFrom(EmptyWorld(config), es)
  }

  lemma SmoothBefore(w: World, es: seq<Event>, n: nat)
    requires SmoothFrom(w, es) && n <= |es|
    ensures SmoothFrom(w, es[..n])
  {
    forall i | 0 <= i < n
      ensures es[..n][..i] == es[..i] && es[..n][i] == es[i]
    {
    }
  }

  /** A recorded entry as applies write it. */
  predicate CleanRef(clusterScoped: set<GroupKind>, r: ResourceRef) {
    Parse(r.id).Some? && WellScoped(clusterScoped, Parse(r.id).value) && '/' !in r.version
  }

  ghost predicate CleanInventory(clusterScoped: set<GroupKind>, inventory: Option<seq<ResourceRef>>) {
    inventory.Some? ==> forall r :: r in inventory.value ==> CleanRef(clusterScoped, r)
  }

  predicate CleanEntry(clusterScoped: set<GroupKind>, e: Entry) {
    Printable(e.meta) && WellScoped(clusterScoped, e.meta) && '/' !in e.version
  }

  ghost predicate CleanInstance(clusterScoped: set<GroupKind>, i: Instance) {
    && i.spec.prune
    && CleanInventory(clusterScoped, i.status.inventory)
    && (i.finalizer || i.status.inventory.None?)
  }

  ghost predicate CleanPhase(clusterScoped: set<GroupKind>, p: Phase) {
    && (forall e :: e in Unstored(p) ==> CleanEntry(clusterScoped, e))
    && (p.Applying? ==> forall o :: o in p.todo || o in p.later ==> Nameable(o))
  }

  ghost predicate CleanSlot(clusterScoped: set<GroupKind>, s: Slot) {
    && (s.instance.Some? ==> CleanInstance(clusterScoped, s.instance.value))
    && (s.flight.Some? ==>
        CleanInstance(clusterScoped, s.flight.value.base) && CleanPhase(clusterScoped, s.flight.value.phase))
  }

  /** The API server accepts what is still to be applied. */
  ghost predicate Appliable(clusterScoped: set<GroupKind>, s: Slot) {
    s.flight.Some? && s.flight.value.phase.Applying? ==>
      forall o :: o in s.flight.value.phase.todo || o in s.flight.value.phase.later ==> CanApply(clusterScoped, o.meta)
  }

  /** No object with owner labels is switched off; others may be. */
  predicate OwnedAreOn(cluster: Cluster) {
    forall m :: m in cluster && cluster[m].owner.Some? ==> !cluster[m].Disabled()
  }

  predicate LeavesNothing(r: Record) {
    r.LeftBehind? ==> r.objs == {}
  }

  ghost predicate CleanWorld(w: World) {
    && OwnedAreOn(w.cluster)
    && (forall r :: r in w.log ==> LeavesNothing(r))
    && (forall k :: CleanSlot(w.config.clusterScoped, w.At(k)) && Appliable(w.config.clusterScoped, w.At(k)))
  }

  /** What a smooth turn of `k` starts from; an apply also needs `NextApplies`. */
  ghost predicate CleanFor(w: World, k: Key) {
    OwnedAreOn(w.cluster) && CleanSlot(w.config.clusterScoped, w.At(k))
  }

  ghost predicate CleanTurn(w: World, t: Turn) {
    && OwnedAreOn(t.cluster)
    && (forall r :: r in t.notes ==> LeavesNothing(r))
    && CleanSlot(w.config.clusterScoped, t.slot)
  }

  lemma ParsesClean(clusterScoped: set<GroupKind>, inventory: seq<ResourceRef>)
    requires CleanInventory(clusterScoped, Some(inventory))
    ensures Parses(inventory)
    ensures forall m :: m in Metas(inventory) ==> WellScoped(clusterScoped, m)
  {
  }

  lemma RefsClean(clusterScoped: set<GroupKind>, entries: seq<Entry>)
    requires forall e :: e in entries ==> CleanEntry(clusterScoped, e)
    ensures CleanInventory(clusterScoped, Some(Refs(entries)))
  {
    var refs := Refs(entries);
    forall r | r in refs
      ensures CleanRef(clusterScoped, r)
    {
      var i :| 0 <= i < |refs| && refs[i] == r;
      assert entries[i] in entries;
      RoundTrip(entries[i].meta);
    }
  }

  /** Between inventories that applies wrote, the namespace workaround keeps nothing. */
  lemma NothingKept(clusterScoped: set<GroupKind>, older: seq<ResourceRef>, newer: seq<ResourceRef>, m: ObjMeta)
    requires CleanInventory(clusterScoped, Some(older)) && CleanInventory(clusterScoped, Some(newer))
    requires Parses(older) && Parses(newer) && m in Metas(older)
    ensures !Preserved(HandleIn(older, m), Handles(newer))
  {
    ParsesClean(clusterScoped, older);
    ParsesClean(clusterScoped, newer);
    FirstVersionSlashless(older, Print(m));
    if m.namespace != "" {
      var h := HandleIn(older, m);
      var twin := m.(namespace := "");
      PreservedMeans(newer, h);
      HandlesAreRefs(newer, twin, h.version);
    }
  }

  lemma FetchClean(w: World, k: Key)
    requires CleanFor(w, k) && SlotCoherent(w.At(k)) && Undisturbed(w.At(k), Fetch(true))
    ensures CleanTurn(w, FetchTurn(w, k, true))
  {
    if w.At(k).instance.Some? && w.At(k).instance.value.status.inventory.Some? {
      ParsesClean(w.config.clusterScoped, w.At(k).instance.value.status.inventory.value);
    }
  }

  lemma OpeningClean(w: World, k: Key, move: Move)
    requires CleanFor(w, k) && SlotCoherent(w.At(k)) && (move.Resolve? || Checks(move))
    ensures CleanTurn(w, TurnOf(w, k, move))
  {
  }

  lemma BuildClean(w: World, k: Key, move: Move)
    requires CleanFor(w, k) && Builds(move)
    requires move.Build? && move.outcome.Staged? ==>
      forall o :: o in move.outcome.one || o in move.outcome.two ==> Nameable(o)
    ensures CleanTurn(w, TurnOf(w, k, move))
  {
  }

  /** The API server accepts the next object. */
  predicate NextApplies(clusterScoped: set<GroupKind>, s: Slot) {
    s.flight.Some? && s.flight.value.phase.Applying? && s.flight.value.phase.todo != [] ==>
      CanApply(clusterScoped, s.flight.value.phase.todo[0].meta)
  }

  lemma ApplyClean(w: World, k: Key)
    requires CleanFor(w, k) && NextApplies(w.config.clusterScoped, w.At(k))
    ensures CleanTurn(w, ApplyNextTurn(w, k, NO_SWITCHES))
  {
    var s := w.At(k);
    if Flying(s) && s.flight.value.phase.Applying? && s.flight.value.phase.todo != [] {
      var p := s.flight.value.phase;
      assert p.todo[0] in p.todo && Nameable(p.todo[0]);
      var e := Entry(Physical(w.config.clusterScoped, p.todo[0].meta), p.todo[0].version,
                     ApplyAction(w.cluster, k, Physical(w.config.clusterScoped, p.todo[0].meta), p.todo[0]));
      assert CleanEntry(w.config.clusterScoped, e);
      assert forall x :: x in p.entries + [e] ==> x in p.entries || x == e;
    }
  }

  lemma PlanClean(w: World, k: Key, stale: seq<ObjMeta>)
    requires CleanFor(w, k)
    ensures CleanTurn(w, PlanTurn(w, k, stale))
  {
    var s := w.At(k);
    if PlanTurn(w, k, stale) != Idle(w, k) {
      var base := s.flight.value.base;
      var entries := s.flight.value.phase.entries;
      RefsClean(w.config.clusterScoped, entries);
      ParsesClean(w.config.clusterScoped, Refs(entries));
      if base.status.inventory.Some? {
        var older := base.status.inventory.value;
        ParsesClean(w.config.clusterScoped, older);
        forall m | m in Metas(older)
          ensures !Preserved(HandleIn(older, m), Handles(Refs(entries)))
        {
          NothingKept(w.config.clusterScoped, older, Refs(entries), m);
        }
      }
      assert KeptObjects(base, entries) == {};
    }
  }

  lemma PruneClean(w: World, k: Key, move: Move)
    requires CleanFor(w, k) && SlotCoherent(w.At(k)) && Smooth(w.config, Of(k, move))
    requires move.PruneNext? || move.FinalizeNext? || Assesses(move)
    ensures CleanTurn(w, TurnOf(w, k, move))
  {
  }

  lemma CloseClean(w: World, k: Key, move: Move)
    requires CleanFor(w, k) && SlotCoherent(w.At(k)) && Closes(move)
    ensures CleanTurn(w, TurnOf(w, k, move))
  {
    var s := w.At(k);
    if Flying(s) && s.flight.value.phase.Closing? && s.flight.value.phase.applied.Some? {
      RefsClean(w.config.clusterScoped, s.flight.value.phase.applied.value);
    }
  }

  lemma OutsideClean(w: World, k: Key, move: Move)
    requires CleanFor(w, k) && SlotCoherent(w.At(k)) && Smooth(w.config, Of(k, move))
    requires (Outside(move) || move.Release?)
    ensures CleanTurn(w, TurnOf(w, k, move))
  {
  }

  lemma TurnClean(w: World, k: Key, move: Move)
    requires CleanFor(w, k) && SlotCoherent(w.At(k)) && Smooth(w.config, Of(k, move)) && Undisturbed(w.At(k), move)
    requires move.ApplyNext? ==> NextApplies(w.config.clusterScoped, w.At(k))
    ensures CleanTurn(w, TurnOf(w, k, move))
  {
    if move.Fetch? {
      FetchClean(w, k);
      assert TurnOf(w, k, move) == FetchTurn(w, k, true);
    } else if move.ApplyNext? {
      ApplyClean(w, k);
      assert TurnOf(w, k, move) == ApplyNextTurn(w, k, NO_SWITCHES);
    } else if move.Plan? {
      PlanClean(w, k, move.stale);
    } else {
      OtherTurnClean(w, k, move);
    }
  }

  lemma OtherTurnClean(w: World, k: Key, move: Move)
    requires CleanFor(w, k) && SlotCoherent(w.At(k)) && Smooth(w.config, Of(k, move))
    requires !move.Fetch? && !move.ApplyNext? && !move.Plan?
    ensures CleanTurn(w, TurnOf(w, k, move))
  {
    if move.Resolve? || Checks(move) {
      OpeningClean(w, k, move);
    } else if Builds(move) {
      BuildClean(w, k, move);
    } else if Closes(move) {
      CloseClean(w, k, move);
    } else if Outside(move) || move.Release? {
      OutsideClean(w, k, move);
    } else {
      PruneClean(w, k, move);
    }
  }

  /** Builds of acceptable objects stage nothing else, and applying only shortens the list. */
  lemma StaysAppliable(w: World, k: Key, move: Move)
    requires Appliable(w.config.clusterScoped, w.At(k)) && Smooth(w.config, Of(k, move))
    ensures Appliable(w.config.clusterScoped, TurnOf(w, k, move).slot)
  {
    if Builds(move) || move.ApplyNext? {
      StagesAppliable(w, k, move);
    } else {
      assert TurnOf(w, k, move).slot.flight.Some? && TurnOf(w, k, move).slot.flight.value.phase.Applying? ==>
          TurnOf(w, k, move).slot.flight == w.At(k).flight;
    }
  }

  lemma StagesAppliable(w: World, k: Key, move: Move)
    requires Appliable(w.config.clusterScoped, w.At(k)) && Smooth(w.config, Of(k, move))
    requires Builds(move) || move.ApplyNext?
    ensures Appliable(w.config.clusterScoped, TurnOf(w, k, move).slot)
  {
  }

  /** Nobody else labels an object in a smooth or steady run. */
  lemma OwnedStayOn(w: World, e: Event)
    requires OwnedAreOn(w.cluster)
    requires !e.Of? ==> Smooth(w.config, e)
    requires e.Of? ==> OwnedAreOn(TurnOf(w, e.k, e.move).cluster)
    ensures OwnedAreOn(Step(w, e).cluster)
  {
  }

  lemma CleanStep(w: World, e: Event)
    requires CleanWorld(w) && Coherent(w) && SmoothStep(w, e)
    ensures CleanWorld(Step(w, e))
  {
    if e.Of? {
      assert SlotCoherent(w.At(e.k));
      assert CleanSlot(w.config.clusterScoped, w.At(e.k)) && Appliable(w.config.clusterScoped, w.At(e.k));
      assert NextApplies(w.config.clusterScoped, w.At(e.k));
      TurnClean(w, e.k, e.move);
      StaysAppliable(w, e.k, e.move);
    }
    OwnedStayOn(w, e);
    NotesAdded(w, e);
    forall k
      ensures CleanSlot(Step(w, e).config.clusterScoped, Step(w, e).At(k))
      ensures Appliable(Step(w, e).config.clusterScoped, Step(w, e).At(k))
    {
      assert CleanSlot(w.config.clusterScoped, w.At(k)) && Appliable(w.config.clusterScoped, w.At(k));
      StepSlot(w, e, k);
    }
  }

  lemma SmoothLast(w: World, es: seq<Event>)
    requires SmoothFrom(w, es) && es != []
    ensures SmoothFrom(w, es[..|es| - 1]) && SmoothStep(Exec(w, es[..|es| - 1]), es[|es| - 1])
  {
    SmoothBefore(w, es, |es| - 1);
  }

  lemma {:induction false} CleanRun(config: Config, es: seq<Event>)
    requires SmoothRun(config, es)
    ensures Run(config, es).config == config && CleanWorld(Run(config, es))
  {
    if es != [] {
      var init := es[..|es| - 1];
      SmoothLast(EmptyWorld(config), es);
      CleanRun(config, init);
      CoherentRun(config, init);
      CleanStep(Run(config, init), es[|es| - 1]);
      StepSlot(Run(config, init), es[|es| - 1], Key("", ""));
    }
  }

  lemma NotesInLog(config: Config, es: seq<Event>, n: nat)
    requires n < |es|
    ensures Run(config, es[..n + 1]).log == Run(config, es[..n]).log + Notes(Run(config, es[..n]), es[n])
  {
    assert es[..n + 1] == es[..n] + [es[n]];
    RunStep(config, es[..n], es[n]);
    NotesAdded(Run(config, es[..n]), es[n]);
  }

  /** No event of a smooth run leaves anything behind. */
  lemma NothingReported(config: Config, es: seq<Event>, n: nat)
    requires SmoothRun(config, es) && n < |es|
    ensures forall r :: r in Notes(Run(config, es[..n]), es[n]) ==> LeavesNothing(r)
  {
    SmoothBefore(EmptyWorld(config), es, n + 1);
    assert SmoothRun(config, es[..n + 1]);
    CleanRun(config, es[..n + 1]);
    NotesInLog(config, es, n);
    var log := Run(config, es[..n + 1]).log;
    assert forall r :: r in Notes(Run(config, es[..n]), es[n]) ==> r in log;
  }

  /**
   No failures, no orphans: over every interleaving of smooth reconciliations, edits, suspensions, deletions
   and source changes, an object that carries the owner labels of an instance is in its stored inventory
   whenever no reconciliation of it is in flight, and in the hands of that reconciliation otherwise.
   */
  lemma NoOrphans(config: Config, es: seq<Event>, k: Key, m: ObjMeta)
    requires SmoothRun(config, es)
    requires Owned(Run(config, es).cluster, k, m)
    ensures Held(Run(config, es).At(k), m)
    ensures k !in Run(config, es).flights ==>
      k in Run(config, es).instances && Covers(Run(config, es).instances[k].status.inventory, m)
  {
    if Stray(Run(config, es), k, m) {
      OrphansAccounted(config, es, k, m);
      var n: nat :| StraySince(config, es, k, m, n);
      NothingReported(config, es, n);
      assert false;
    }
  }
}
