/**
 Where orphans come from. With pruning on and no owned object switched off, an object that carries the owner
 labels of an instance but is not in its inventory was left there by a failed apply, a failed deletion or a
 reconciliation that was cut off, be it at its final status patch; and each of these does leave orphans.
 */
module Orphans {
  import opened Wrappers
  import opened ObjectIds
  import opened Inventories
  import opened StaleObjects
  import opened Statuses
  import opened Machine
  import opened Coherence
  import opened History
  import opened Ownership
  import opened Handover
  import opened SmoothRuns

  predicate Fails(m: Move) {
    m.ApplyFail? || m.PruneNext? || m.FinalizeNext? || m.Abort?
  }

  /** The build may stage objects that the API server refuses. */
  ghost predicate BuildsNameable(m: Move) {
    m.Build? && m.outcome.Staged? && forall o :: o in m.outcome.one || o in m.outcome.two ==> Nameable(o)
  }

  /** Failures are allowed; otherwise as in smooth runs. */
  ghost predicate Steady(config: Config, e: Event) {
    Smooth(config, e) || (e.Of? && (Fails(e.move) || BuildsNameable(e.move)))
  }

  ghost predicate SteadyEvents(config: Config, es: seq<Event>) {
    forall n :: 0 <= n < |es| ==>
      Steady(config, es[n]) && (es[n].Of? ==> Undisturbed(Run(config, es[..n]).At(es[n].k), es[n].move))
  }

  predicate IsFailure(c: Cause) {
    c == ApplyFailed || c == PruneFailed || c == Aborted
  }

  /** Something is left behind only by a failure. */
  predicate Excused(r: Record) {
    r.LeftBehind? && r.objs != {} ==> IsFailure(r.cause)
  }

  ghost predicate SteadyWorld(w: World) {
    && OwnedAreOn(w.cluster)
    && (forall r :: r in w.log ==> Excused(r))
    && (forall k :: CleanSlot(w.config.clusterScoped, w.At(k)))
  }

  ghost predicate SteadyTurn(w: World, t: Turn) {
    && OwnedAreOn(t.cluster)
    && (forall r :: r in t.notes ==> Excused(r))
    && CleanSlot(w.config.clusterScoped, t.slot)
  }

  lemma FailureSteady(w: World, k: Key, move: Move)
    requires CleanFor(w, k) && SlotCoherent(w.At(k)) && Fails(move)
    ensures SteadyTurn(w, TurnOf(w, k, move))
  {
  }

  /** An object that the API server refuses makes the apply fail. */
  lemma ApplySteady(w: World, k: Key)
    requires CleanFor(w, k) && SlotCoherent(w.At(k))
    ensures SteadyTurn(w, ApplyNextTurn(w, k, NO_SWITCHES))
  {
    if NextApplies(w.config.clusterScoped, w.At(k)) {
      ApplyClean(w, k);
    } else {
      assert ApplyNextTurn(w, k, NO_SWITCHES) == ApplyFailTurn(w, k) == TurnOf(w, k, ApplyFail);
      FailureSteady(w, k, ApplyFail);
    }
  }

  lemma TurnSteady(w: World, k: Key, move: Move)
    requires CleanFor(w, k) && SlotCoherent(w.At(k)) && Steady(w.config, Of(k, move)) && Undisturbed(w.At(k), move)
    ensures SteadyTurn(w, TurnOf(w, k, move))
  {
    if Fails(move) {
      FailureSteady(w, k, move);
    } else if BuildsNameable(move) {
      BuildClean(w, k, move);
    } else if move.ApplyNext? {
      ApplySteady(w, k);
      assert TurnOf(w, k, move) == ApplyNextTurn(w, k, NO_SWITCHES);
    } else {
      TurnClean(w, k, move);
    }
  }

  lemma SteadyStep(w: World, e: Event)
    requires SteadyWorld(w) && Coherent(w) && Steady(w.config, e)
    requires e.Of? ==> Undisturbed(w.At(e.k), e.move)
    ensures SteadyWorld(Step(w, e))
  {
    if e.Of? {
      assert SlotCoherent(w.At(e.k)) && CleanSlot(w.config.clusterScoped, w.At(e.k));
      TurnSteady(w, e.k, e.move);
    }
    OwnedStayOn(w, e);
    NotesAdded(w, e);
    forall k
      ensures CleanSlot(Step(w, e).config.clusterScoped, Step(w, e).At(k))
    {
      assert CleanSlot(w.config.clusterScoped, w.At(k));
      StepSlot(w, e, k);
    }
  }

  lemma {:induction false} SteadyRun(config: Config, es: seq<Event>)
    requires SteadyEvents(config, es)
    ensures Run(config, es).config == config && SteadyWorld(Run(config, es))
  {
    if es != [] {
      assert forall n :: 0 <= n < |es| - 1 ==> es[..|es| - 1][..n] == es[..n] && es[..|es| - 1][n] == es[n];
      SteadyRun(config, es[..|es| - 1]);
      CoherentRun(config, es[..|es| - 1]);
      SteadyStep(Run(config, es[..|es| - 1]), es[|es| - 1]);
    }
  }

  /** Some failure of a reconciliation of `k` left this object behind. */
  ghost predicate LeftByFailure(log: seq<Record>, k: Key, m: ObjMeta) {
    exists r :: r in log && r.LeftBehind? && r.k == k && m in r.objs && IsFailure(r.cause)
  }

  lemma SteadyBefore(config: Config, es: seq<Event>, n: nat)
    requires SteadyEvents(config, es) && n <= |es|
    ensures SteadyEvents(config, es[..n])
  {
    forall i | 0 <= i < n
      ensures es[..n][..i] == es[..i] && es[..n][i] == es[i]
    {
    }
  }

  /** In event `n` a failure leaves the object behind, and it has been in nobody's books ever since. */
  ghost predicate FailedSince(config: Config, es: seq<Event>, k: Key, m: ObjMeta, n: nat) {
    && StraySince(config, es, k, m, n)
    && LeftByFailure(Notes(Run(config, es[..n]), es[n]), k, m)
  }

  /**
   The causes of orphans, over all interleavings: when an owned object is neither in the stored inventory nor
   in the hands of a reconciliation, then a failed apply, a failed deletion or an interruption left it behind,
   and it has been neither ever since.
   */
  lemma OrphansComeFromFailures(config: Config, es: seq<Event>, k: Key, m: ObjMeta)
    requires SteadyEvents(config, es)
    requires Stray(Run(config, es), k, m)
    ensures exists n :: FailedSince(config, es, k, m, n)
  {
    OrphansAccounted(config, es, k, m);
    var n: nat :| StraySince(config, es, k, m, n);
    SteadyBefore(config, es, n + 1);
    SteadyRun(config, es[..n + 1]);
    NotesInLog(config, es, n);
    var notes := Notes(Run(config, es[..n]), es[n]);
    var r :| r in notes && r.LeftBehind? && r.k == k && m in r.objs;
    assert r in Run(config, es[..n + 1]).log && Excused(r);
    assert FailedSince(config, es, k, m, n);
  }

  // ---------------------------------------------------------------- failures do leave orphans

  /** The failure of this event puts an object of `k` in nobody's books. */
  ghost predicate OrphanedBy(w: World, e: Event, k: Key, m: ObjMeta) {
    Stray(Step(w, e), k, m) && LeftByFailure(Notes(w, e), k, m)
  }

  /** An object applied for the first time is orphaned when the apply fails after it. */
  lemma FailedApplyOrphans(w: World, k: Key, m: ObjMeta)
    requires SlotCoherent(w.At(k)) && k in w.instances && k in w.flights && w.flights[k].phase.Applying?
    requires m in EntrySet(w.flights[k].phase.entries) && Owned(w.cluster, k, m)
    requires !Covers(w.instances[k].status.inventory, m)
    ensures OrphanedBy(w, Of(k, ApplyFail), k, m)
  {
    assert w.At(k).flight == Some(w.flights[k]);
    var t := ApplyFailTurn(w, k);
    WithAt(w, k, t, k);
    assert TurnOf(w, k, ApplyFail) == t;
    var r := LeftBehind(k, EntrySet(w.flights[k].phase.entries), ApplyFailed);
    assert r in t.notes;
  }

  /** So is one whose reconciliation is cut off before its result is stored, at the final patch for instance. */
  lemma InterruptionOrphans(w: World, k: Key, m: ObjMeta)
    requires SlotCoherent(w.At(k)) && k in w.instances && k in w.flights
    requires m in EntrySet(Unstored(w.flights[k].phase)) && Owned(w.cluster, k, m)
    requires !Covers(w.instances[k].status.inventory, m)
    ensures OrphanedBy(w, Of(k, Abort), k, m)
  {
    assert w.At(k).flight == Some(w.flights[k]);
    var t := AbortTurn(w, k);
    WithAt(w, k, t, k);
    assert TurnOf(w, k, Abort) == t;
    var r := LeftBehind(k, EntrySet(Unstored(w.flights[k].phase)), Aborted);
    assert r in t.notes;
  }

  /** And a piece of garbage that cannot be deleted: the new inventory is stored without it. */
  lemma FailedPruneOrphans(w: World, k: Key, m: ObjMeta)
    requires SlotCoherent(w.At(k)) && k in w.instances && k in w.flights && w.flights[k].phase.Pruning?
    requires var p := w.flights[k].phase;
      p.stale != [] && p.stale[0] == m && m !in p.stale[1..] && m !in EntrySet(p.entries)
    requires Physical(w.config.clusterScoped, m) == m && Owned(w.cluster, k, m)
    ensures OrphanedBy(w, Of(k, PruneNext(false)), k, m)
  {
    assert w.At(k).flight == Some(w.flights[k]);
    var t := PruneNextTurn(w, k, false);
    WithAt(w, k, t, k);
    assert TurnOf(w, k, PruneNext(false)) == t;
    var r := LeftBehind(k, {m}, PruneFailed);
    assert r in t.notes;
  }
}
