/**
 What every move of every reconciliation keeps between the stored instance and the copy in flight, and
 the generation bookkeeping that follows.
 */
module Coherence {
  import opened Wrappers
  import opened ObjectIds
  import opened Inventories
  import opened Statuses
  import opened Machine

  /** `b` differs from `a` at most in its conditions. */
  predicate SameRecord(a: Status, b: Status) {
    a.observedGeneration == b.observedGeneration && a.lastApplied == b.lastApplied
    && a.lastAttempted == b.lastAttempted && a.inventory == b.inventory
  }

  /** The copy in flight and the stored instance agree, up to later edits and the conditions. */
  predicate Sync(i: Instance, f: Flight) {
    && i.finalizer && f.base.finalizer
    && f.base.Specs() <= i.Specs()
    && SameRecord(i.status, f.base.status)
    && f.base.status.observedGeneration <= f.base.Generation()
    && PhaseSync(i, f.base, f.phase)
  }

  predicate PhaseSync(i: Instance, base: Instance, p: Phase) {
    match p
    case Resolving => i.status == base.status
    case Checking(_, next, _) => i.status == base.status && next <= |base.spec.dependsOn|
    case Finalizing(_, _) => i.status == base.status
    case Closing(status, _, applied) =>
      if applied.None? then
        && !IsReady(status)
        && status.inventory == i.status.inventory
        && status.observedGeneration == i.status.observedGeneration
        && status.lastApplied == i.status.lastApplied
      else
        && !IsReady(i.status)
        && status.inventory == Some(Refs(applied.value))
        && status.observedGeneration == base.Generation()
        && (if IsReady(status) then status.lastApplied == status.lastAttempted
            else status.lastApplied == i.status.lastApplied)
    case _ => !IsReady(i.status) && !IsReady(base.status)
  }

  predicate SlotCoherent(s: Slot) {
    && (s.flight.Some? ==> s.instance.Some? && Sync(s.instance.value, s.flight.value))
    && (s.instance.Some? ==> s.instance.value.status.observedGeneration <= s.instance.value.Generation())
  }

  /** Generations seen never run ahead, and whatever is in flight is in step with what is stored. */
  ghost predicate Coherent(w: World) {
    forall k :: SlotCoherent(w.At(k))
  }

  lemma FetchCoherent(w: World, k: Key, canFinalize: bool)
    requires SlotCoherent(w.At(k))
    ensures SlotCoherent(FetchTurn(w, k, canFinalize).slot)
  {
  }

  lemma ResolveCoherent(w: World, k: Key)
    requires SlotCoherent(w.At(k))
    ensures SlotCoherent(ResolveTurn(w, k).slot)
  {
  }

  lemma CheckCoherent(w: World, k: Key)
    requires SlotCoherent(w.At(k))
    ensures SlotCoherent(CheckTurn(w, k).slot)
  {
  }

  lemma ProgressCoherent(w: World, k: Key)
    requires SlotCoherent(w.At(k))
    ensures SlotCoherent(ProgressTurn(w, k).slot)
  {
  }

  lemma BuildCoherent(w: World, k: Key, outcome: BuildOutcome)
    requires SlotCoherent(w.At(k))
    ensures SlotCoherent(BuildTurn(w, k, outcome).slot)
  {
  }

  lemma WaitCoherent(w: World, k: Key)
    requires SlotCoherent(w.At(k))
    ensures SlotCoherent(WaitTurn(w, k).slot)
  {
  }

  lemma AppliesCoherent(w: World, k: Key, move: Move)
    requires SlotCoherent(w.At(k)) && Applies(move)
    ensures SlotCoherent(TurnOf(w, k, move).slot)
  {
  }

  lemma PlanCoherent(w: World, k: Key, stale: seq<ObjMeta>)
    requires SlotCoherent(w.At(k))
    ensures SlotCoherent(PlanTurn(w, k, stale).slot)
  {
    var s := w.At(k);
    if Flying(s) && s.flight.value.phase.Applying? {
      PlanChoices(w, k, stale);
    }
  }

  /** Where planning may lead. */
  lemma PlanChoices(w: World, k: Key, stale: seq<ObjMeta>)
    requires Flying(w.At(k)) && w.At(k).flight.value.phase.Applying?
    ensures var s, p, t := w.At(k), w.At(k).flight.value.phase, PlanTurn(w, k, stale).slot;
      var base := s.flight.value.base;
      || t == s
      || t == s.(flight := Some(Flight(base,
          Closing(NotReady(base.status, p.revision, FAILED), base.spec.RetryInterval(), None))))
      || t == s.(flight := Some(Flight(base, Pruning(p.revision, stale, p.entries, false))))
      || t == s.(flight := Some(Flight(base, Assessing(p.revision, p.entries, false))))
  {
  }

  lemma PruneCoherent(w: World, k: Key, ok: bool)
    requires SlotCoherent(w.At(k))
    ensures SlotCoherent(PruneNextTurn(w, k, ok).slot)
  {
  }

  lemma AssessesCoherent(w: World, k: Key, move: Move)
    requires SlotCoherent(w.At(k)) && Assesses(move)
    ensures SlotCoherent(TurnOf(w, k, move).slot)
  {
  }

  lemma AssessCoherent(w: World, k: Key, move: Move)
    requires SlotCoherent(w.At(k)) && Closes(move)
    requires move.Assess?
    ensures SlotCoherent(TurnOf(w, k, move).slot)
  {
  }

  lemma CloseCoherent(w: World, k: Key, move: Move)
    requires SlotCoherent(w.At(k)) && Closes(move)
    requires move.Close?
    ensures SlotCoherent(TurnOf(w, k, move).slot)
  {
  }

  lemma LeavesCoherent(w: World, k: Key, move: Move)
    requires SlotCoherent(w.At(k)) && Leaves(move)
    ensures SlotCoherent(TurnOf(w, k, move).slot)
  {
  }

  lemma OutsideCoherent(w: World, k: Key, move: Move)
    requires SlotCoherent(w.At(k)) && Outside(move)
    ensures SlotCoherent(TurnOf(w, k, move).slot)
  {
  }

  /** Every move of a reconciliation, and every edit of its instance, keeps its slot coherent. */
  lemma TurnCoherent(w: World, k: Key, move: Move)
    requires SlotCoherent(w.At(k))
    ensures SlotCoherent(TurnOf(w, k, move).slot)
  {
    match move
    case Fetch(canFinalize) => FetchCoherent(w, k, canFinalize);
    case Resolve => ResolveCoherent(w, k);
    case CheckNext => CheckCoherent(w, k);
    case Progress => ProgressCoherent(w, k);
    case Build(outcome) => BuildCoherent(w, k, outcome);
    case WaitDone => WaitCoherent(w, k);
    case Plan(stale) => PlanCoherent(w, k, stale);
    case PruneNext(ok) => PruneCoherent(w, k, ok);
    case _ => OtherCoherent(w, k, move);
  }

  lemma OtherCoherent(w: World, k: Key, move: Move)
    requires SlotCoherent(w.At(k)) && !Opening(move) && !Checks(move) && !Builds(move) && !Prunes(move)
    ensures SlotCoherent(TurnOf(w, k, move).slot)
  {
    if Applies(move) {
      AppliesCoherent(w, k, move);
    } else if Assesses(move) {
      AssessesCoherent(w, k, move);
    } else if move.Assess? {
      AssessCoherent(w, k, move);
    } else if move.Close? {
      CloseCoherent(w, k, move);
    } else if Leaves(move) {
      LeavesCoherent(w, k, move);
    } else {
      OutsideCoherent(w, k, move);
    }
  }

  lemma CoherentStep(w: World, e: Event)
    requires Coherent(w)
    ensures Coherent(Step(w, e))
  {
    forall k
      ensures SlotCoherent(Step(w, e).At(k))
    {
      assert SlotCoherent(w.At(k));
      if e.Of? {
        TurnCoherent(w, e.k, e.move);
        WithAt(w, e.k, TurnOf(w, e.k, e.move), k);
      } else {
        assert Step(w, e).At(k).(queued := false) == w.At(k).(queued := false);
      }
    }
  }

  lemma {:induction false} CoherentRun(config: Config, es: seq<Event>)
    ensures Coherent(Run(config, es))
  {
    if es != [] {
      CoherentRun(config, es[..|es| - 1]);
      CoherentStep(Run(config, es[..|es| - 1]), es[|es| - 1]);
    }
  }
}
