/**
 What the history of every run means for the users: what ready says, how generations are observed, and
 what is ever deleted.
 */
module Guarantees {
  import opened Wrappers
  import opened ObjectIds
  import opened Inventories
  import opened StaleObjects
  import opened Statuses
  import opened Machine
  import opened Coherence
  import opened History

  /**
   At position `n` a reconciliation of `spec` completed that began at `b` and applied at `a`, at the revision
   and with the inventory of this status, and no other of the same instance began in between.
   */
  ghost predicate BackedAt(log: seq<Record>, k: Key, status: Status, spec: Spec, b: nat, a: nat, n: nat) {
    && status.inventory.Some? && n < |log|
    && log[n] == Completed(k, status.lastApplied, status.observedGeneration, spec, status.inventory.value)
    && exists objs ::
         Lists(status.inventory.value, objs) && IsApplied(log[..n], k, status.lastApplied, spec, objs, b, a)
  }

  /** The current status is the work of one completed reconciliation of `spec`. */
  ghost predicate BackedBy(log: seq<Record>, k: Key, status: Status, spec: Spec) {
    status.lastApplied == status.lastAttempted && exists b, a, n :: BackedAt(log, k, status, spec, b, a, n)
  }

  lemma ReadyIsBacked(w: World, k: Key)
    requires Traceable(w) && k in w.instances && IsReady(w.instances[k].status)
    ensures var i := w.instances[k];
      && 0 < i.status.observedGeneration <= i.Generation()
      && BackedBy(w.log, k, i.status, i.Specs()[i.status.observedGeneration - 1])
  {
    assert SlotTraced(w.config, w.log, k, w.At(k));
    var i := w.instances[k];
    var spec := i.Specs()[i.status.observedGeneration - 1];
    var inventory := i.status.inventory.value;
    var n := RecordHolds(w.config, w.log,
      Completed(k, i.status.lastApplied, i.status.observedGeneration, spec, inventory));
    var objs :| Lists(inventory, objs) && CurrentApplied(w.log[..n], k, i.status.lastApplied, spec, objs);
    var b, a :| IsApplied(w.log[..n], k, i.status.lastApplied, spec, objs, b, a);
    assert BackedAt(w.log, k, i.status, spec, b, a, n);
  }

  /**
   In every state: a ready instance has last applied what it last attempted, and one single reconciliation,
   which read the spec of the observed generation, applied exactly what the inventory lists and completed at
   that revision. If this is the current generation, the current spec is what was applied.
   */
  lemma ReadyMeansApplied(config: Config, es: seq<Event>, k: Key)
    requires k in Run(config, es).instances && IsReady(Run(config, es).instances[k].status)
    ensures var i := Run(config, es).instances[k];
      && 0 < i.status.observedGeneration <= i.Generation()
      && BackedBy(Run(config, es).log, k, i.status, i.Specs()[i.status.observedGeneration - 1])
      && (i.status.observedGeneration == i.Generation() ==> BackedBy(Run(config, es).log, k, i.status, i.spec))
  {
    TraceableRun(config, es);
    ReadyIsBacked(Run(config, es), k);
  }

  lemma EarlyObservesNothing(w: World, k: Key, move: Move)
    requires SlotCoherent(w.At(k)) && w.At(k).instance.Some? && TurnOf(w, k, move).slot.instance.Some? && !move.Close?
    requires Opening(move) || Checks(move) || Builds(move) || Applies(move)
    ensures TurnOf(w, k, move).slot.instance.value.status.observedGeneration ==
      w.At(k).instance.value.status.observedGeneration
  {
  }

  lemma LateObservesNothing(w: World, k: Key, move: Move)
    requires SlotCoherent(w.At(k)) && w.At(k).instance.Some? && TurnOf(w, k, move).slot.instance.Some? && !move.Close?
    requires !(Opening(move) || Checks(move) || Builds(move) || Applies(move))
    ensures TurnOf(w, k, move).slot.instance.value.status.observedGeneration ==
      w.At(k).instance.value.status.observedGeneration
  {
  }

  /** The observed generation of an instance that lives on never decreases and never passes its generation. */
  lemma ObservedGenerationGrows(w: World, k: Key, move: Move)
    requires SlotCoherent(w.At(k)) && w.At(k).instance.Some? && TurnOf(w, k, move).slot.instance.Some?
    ensures var before := w.At(k).instance.value;
      var after := TurnOf(w, k, move).slot.instance.value;
      before.status.observedGeneration <= after.status.observedGeneration <= after.Generation()
  {
    TurnCoherent(w, k, move);
    if move.Close? {
      assert TurnOf(w, k, move) == CloseTurn(w, k);
    } else if Opening(move) || Checks(move) || Builds(move) || Applies(move) {
      EarlyObservesNothing(w, k, move);
    } else {
      LateObservesNothing(w, k, move);
    }
  }

  /** Only garbage collection and finalization delete, and only the object at hand. */
  lemma OnlyDeleters(w: World, k: Key, move: Move, m: ObjMeta)
    requires m in w.cluster && m !in TurnOf(w, k, move).cluster
    ensures Flying(w.At(k)) && w.cluster[m].owner == Some(k)
    ensures !w.cluster[m].switches.pruneDisabled && !w.cluster[m].switches.reconcileDisabled
    ensures var p := w.At(k).flight.value.phase;
      || (p.Pruning? && p.stale != [] && m == Physical(w.config.clusterScoped, p.stale[0]))
      || (p.Finalizing? && p.remaining != [] && m == Physical(w.config.clusterScoped, p.remaining[0]))
  {
  }

  /**
   Every object that a reconciliation or a finalization deletes, in any run, carried the owner labels and
   no switch when it was deleted, was in the inventory stored for that instance, and had been applied by a
   completed apply of the same instance.
   */
  lemma DeletionsAccounted(config: Config, es: seq<Event>, k: Key, move: Move, m: ObjMeta)
    requires m in Run(config, es).cluster && m !in Step(Run(config, es), Of(k, move)).cluster
    ensures var w := Run(config, es);
      && w.cluster[m].owner == Some(k)
      && !w.cluster[m].switches.pruneDisabled && !w.cluster[m].switches.reconcileDisabled
      && k in w.instances && Covers(w.instances[k].status.inventory, m)
      && HasApplied(w.log, k, m)
  {
    TraceableRun(config, es);
    var w := Run(config, es);
    OnlyDeleters(w, k, move, m);
    DoomedIsAccounted(w, k, m);
  }

  lemma DoomedIsAccounted(w: World, k: Key, m: ObjMeta)
    requires Traceable(w) && Flying(w.At(k))
    requires var p := w.At(k).flight.value.phase;
      || (p.Pruning? && p.stale != [] && m == Physical(w.config.clusterScoped, p.stale[0]))
      || (p.Finalizing? && p.remaining != [] && m == Physical(w.config.clusterScoped, p.remaining[0]))
    ensures Covers(w.instances[k].status.inventory, m) && HasApplied(w.log, k, m)
  {
    var s := w.At(k);
    assert SlotTraced(w.config, w.log, k, s) && SlotCoherent(s);
    var p := s.flight.value.phase;
    assert Doomed(w.config, w.log, k, s.flight.value.base.status.inventory, if p.Pruning? then p.stale[0]
      else p.remaining[0]);
  }
}
