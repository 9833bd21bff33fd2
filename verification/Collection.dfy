/**
 Garbage collection and the objects of the very same run (controllers/cueinstance_controller.go, the
 stale-object loop and `prune`), over all runs and interleavings.
 */
module Collection {
  import opened Wrappers
  import opened ObjectIds
  import opened Inventories
  import opened StaleObjects
  import opened Statuses
  import opened Machine
  import opened Coherence
  import opened History
  import opened Ownership

  /** The garbage list names nothing that this run applied. */
  ghost predicate Apart(s: Slot) {
    s.flight.Some? && s.flight.value.phase.Pruning? ==>
      forall m :: m in s.flight.value.phase.stale ==> m !in EntrySet(s.flight.value.phase.entries)
  }

  lemma PlanApart(w: World, k: Key, stale: seq<ObjMeta>)
    requires Apart(w.At(k))
    ensures Apart(PlanTurn(w, k, stale).slot)
  {
    var t := PlanTurn(w, k, stale);
    if t != Idle(w, k) && t.slot.flight.Some? && t.slot.flight.value.phase.Pruning? {
      var f := w.At(k).flight.value;
      forall m | m in stale
        ensures m !in EntrySet(f.phase.entries)
      {
        EntriesListed(f.phase.entries, m);
      }
    }
  }

  lemma PruneApart(w: World, k: Key, ok: bool)
    requires Apart(w.At(k))
    ensures Apart(PruneNextTurn(w, k, ok).slot)
  {
  }

  lemma OtherApart(w: World, k: Key, move: Move)
    requires Apart(w.At(k)) && !Prunes(move)
    ensures Apart(TurnOf(w, k, move).slot)
  {
  }

  lemma {:induction false} ApartRun(config: Config, es: seq<Event>, k: Key)
    ensures Apart(Run(config, es).At(k))
  {
    if es != [] {
      var w, e := Run(config, es[..|es| - 1]), es[|es| - 1];
      ApartRun(config, es[..|es| - 1], k);
      if e.Of? {
        WithAt(w, e.k, TurnOf(w, e.k, e.move), k);
        if e.k == k {
          match e.move
          case Plan(stale) => PlanApart(w, k, stale);
          case PruneNext(ok) => PruneApart(w, k, ok);
          case _ => OtherApart(w, k, e.move);
        }
      } else {
        assert Run(config, es).At(k).flight == w.At(k).flight;
      }
    }
  }

  /**
   In any run, with failures, crashes and other instances at work: the garbage collection of a
   reconciliation leaves every object alone that this reconciliation applied, by physical identity.
   */
  lemma CollectionSparesApplied(config: Config, es: seq<Event>, k: Key, move: Move, m: ObjMeta)
    requires var w := Run(config, es);
      k in w.flights && w.flights[k].phase.Pruning? && m in EntrySet(w.flights[k].phase.entries)
    ensures var w, v := Run(config, es), Step(Run(config, es), Of(k, move));
      (m in v.cluster <==> m in w.cluster) && (m in w.cluster ==> v.cluster[m] == w.cluster[m])
  {
    var w := Run(config, es);
    ApartRun(config, es, k);
    TraceableRun(config, es);
    assert SlotTraced(w.config, w.log, k, w.At(k)) && SlotCoherent(w.At(k));
    assert w.At(k).flight == Some(w.flights[k]);
    if w.flights[k].phase.stale != [] {
      var first := w.flights[k].phase.stale[0];
      assert Doomed(w.config, w.log, k, w.flights[k].base.status.inventory, first);
      assert first in w.flights[k].phase.stale;
    }
    SweepsOnlyFirst(w, k, move, m);
  }

  lemma SweepsOnlyFirst(w: World, k: Key, move: Move, m: ObjMeta)
    requires Flying(w.At(k)) && w.At(k).flight.value.phase.Pruning?
    requires var stale := w.At(k).flight.value.phase.stale; stale != [] ==>
      m != Physical(w.config.clusterScoped, stale[0])
    ensures var t := TurnOf(w, k, move);
      (m in t.cluster <==> m in w.cluster) && (m in w.cluster ==> t.cluster[m] == w.cluster[m])
  {
  }
}
