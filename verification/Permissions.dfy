/**
 What a reconciliation may do to cluster objects, said in the fields of specs and objects: who may delete at
 all, which objects are left alone, and where objects are created.
 */
module Permissions {
  import opened Wrappers
  import opened ObjectIds
  import opened StaleObjects
  import opened Statuses
  import opened Machine

  // ---------------------------------------------------------------- what the switches protect

  /** A move leaves alone what is excluded from reconciliation, and deletes nothing that is excluded from pruning. */
  ghost predicate Respects(cluster: Cluster, t: Turn, m: ObjMeta) {
    m in cluster ==>
      && (cluster[m].switches.reconcileDisabled ==> SameAt(cluster, t.cluster, m))
      && (cluster[m].switches.pruneDisabled ==> m in t.cluster)
  }

  lemma EarlyRespects(w: World, k: Key, move: Move, m: ObjMeta)
    requires Opening(move) || Checks(move) || Builds(move) || Applies(move)
    ensures Respects(w.cluster, TurnOf(w, k, move), m)
  {
  }

  lemma LateRespects(w: World, k: Key, move: Move, m: ObjMeta)
    requires !(Opening(move) || Checks(move) || Builds(move) || Applies(move))
    ensures Respects(w.cluster, TurnOf(w, k, move), m)
  {
  }

  /**
   No move of any reconciliation or finalization, in any state, deletes an object that carries one of the two
   switches, and one that is excluded from reconciliation stays exactly as it is.
   */
  lemma SwitchesProtect(w: World, k: Key, move: Move, m: ObjMeta)
    requires m in w.cluster
    ensures var v := Step(w, Of(k, move));
      && (w.cluster[m].switches.pruneDisabled || w.cluster[m].switches.reconcileDisabled ==> m in v.cluster)
      && (w.cluster[m].switches.reconcileDisabled ==> m in v.cluster && v.cluster[m] == w.cluster[m])
  {
    if Opening(move) || Checks(move) || Builds(move) || Applies(move) {
      EarlyRespects(w, k, move, m);
    } else {
      LateRespects(w, k, move, m);
    }
  }

  /** So an excluded object stays as it is over any run in which nobody else writes it. */
  lemma {:induction false} ExcludedStays(w: World, es: seq<Event>, m: ObjMeta)
    requires m in w.cluster && w.cluster[m].switches.reconcileDisabled
    requires forall e :: e in es && e.Write? ==> e.obj != m
    ensures var v := Exec(w, es); m in v.cluster && v.cluster[m] == w.cluster[m]
  {
    if es != [] {
      var init, e := es[..|es| - 1], es[|es| - 1];
      assert es == init + [e];
      ExcludedStays(w, init, m);
      if e.Of? {
        SwitchesProtect(Exec(w, init), e.k, e.move, m);
      }
    }
  }

  // ---------------------------------------------------------------- what the spec permits

  /** Every phase is one that the instance as read permits. */
  predicate Permitted(s: Slot) {
    s.flight.Some? ==>
      var base, p := s.flight.value.base, s.flight.value.phase;
      && (p.Finalizing? <==> base.deleting)
      && (base.spec.suspend ==> p.Finalizing? && p.remaining == [])
      && (p.Pruning? || (p.Finalizing? && p.remaining != []) ==> base.spec.prune)
  }

  lemma OpeningPermitted(w: World, k: Key, move: Move)
    requires Permitted(w.At(k)) && (Opening(move) || Checks(move))
    ensures Permitted(TurnOf(w, k, move).slot)
  {
  }

  lemma BuildPermitted(w: World, k: Key, move: Move)
    requires Permitted(w.At(k)) && (Builds(move) || Applies(move))
    ensures Permitted(TurnOf(w, k, move).slot)
  {
  }

  lemma PlanPermitted(w: World, k: Key, stale: seq<ObjMeta>)
    requires Permitted(w.At(k))
    ensures Permitted(PlanTurn(w, k, stale).slot)
  {
  }

  lemma PrunePermitted(w: World, k: Key, move: Move)
    requires Permitted(w.At(k)) && (move.PruneNext? || Assesses(move))
    ensures Permitted(TurnOf(w, k, move).slot)
  {
  }

  lemma LatePermitted(w: World, k: Key, move: Move)
    requires Permitted(w.At(k)) && (Closes(move) || Leaves(move) || Outside(move))
    ensures Permitted(TurnOf(w, k, move).slot)
  {
  }

  lemma TurnPermitted(w: World, k: Key, move: Move)
    requires Permitted(w.At(k))
    ensures Permitted(TurnOf(w, k, move).slot)
  {
    if Opening(move) || Checks(move) {
      OpeningPermitted(w, k, move);
    } else if Builds(move) || Applies(move) {
      BuildPermitted(w, k, move);
    } else if move.Plan? {
      PlanPermitted(w, k, move.stale);
    } else if move.PruneNext? || Assesses(move) {
      PrunePermitted(w, k, move);
    } else {
      LatePermitted(w, k, move);
    }
  }

  lemma {:induction false} PermittedRun(config: Config, es: seq<Event>, k: Key)
    ensures Permitted(Run(config, es).At(k))
  {
    if es != [] {
      var init, e := es[..|es| - 1], es[|es| - 1];
      PermittedRun(config, init, k);
      StepSlot(Run(config, init), e, k);
      if e.Of? && e.k == k {
        TurnPermitted(Run(config, init), k, e.move);
      }
    }
  }

  /** What may have happened to the object at `m` in a move of this flight. */
  predicate Warranted(config: Config, before: Cluster, after: Cluster, k: Key, f: Flight, m: ObjMeta) {
    && (m in before && m !in after ==>
          && before[m].owner == Some(k)
          && f.base.spec.prune && (f.phase.Pruning? || f.phase.Finalizing?))
    && (m in after && !SameAt(before, after, m) ==>
          && after[m].owner == Some(k) && f.phase.Applying? && f.phase.todo != []
          && after[m].content == f.phase.todo[0].content
          && m.kind == f.phase.todo[0].meta.kind && m.name == f.phase.todo[0].meta.name
          && (m.namespace == "" <==> GroupKind(m.group, m.kind) in config.clusterScoped))
  }

  lemma EarlyWarranted(w: World, k: Key, move: Move, m: ObjMeta)
    requires Opening(move) || Checks(move) || Builds(move) || Applies(move)
    requires !SameAt(w.cluster, TurnOf(w, k, move).cluster, m)
    ensures w.At(k).flight.Some?
    ensures Warranted(w.config, w.cluster, TurnOf(w, k, move).cluster, k, w.At(k).flight.value, m)
  {
  }

  lemma LateWarranted(w: World, k: Key, move: Move, m: ObjMeta)
    requires !(Opening(move) || Checks(move) || Builds(move) || Applies(move))
    requires Permitted(w.At(k)) && !SameAt(w.cluster, TurnOf(w, k, move).cluster, m)
    ensures w.At(k).flight.Some? && m !in TurnOf(w, k, move).cluster
    ensures var f := w.At(k).flight.value;
      && (f.phase.Pruning? || (f.phase.Finalizing? && f.phase.remaining != []))
      && Warranted(w.config, w.cluster, TurnOf(w, k, move).cluster, k, f, m)
  {
  }

  /**
   Whatever a move of `k` changes in any run, its reconciliation has read a spec that is not suspended. If the
   object disappears, pruning is on in that spec, and the instance owned the object; if the instance as read is
   being deleted, objects only disappear. If the object is written, it is the one at hand with its content, under
   the owner labels, and has a namespace exactly when its kind asks for one.
   */
  lemma ChangesWarranted(config: Config, es: seq<Event>, k: Key, move: Move, m: ObjMeta)
    requires var w := Run(config, es); !SameAt(w.cluster, Step(w, Of(k, move)).cluster, m)
    ensures var w, v := Run(config, es), Step(Run(config, es), Of(k, move));
      && k in w.flights
      && var f := w.flights[k];
      && !f.base.spec.suspend
      && (m !in v.cluster ==> f.base.spec.prune && w.cluster[m].owner == Some(k))
      && (f.base.deleting ==> f.phase.Finalizing? && m !in v.cluster)
      && Warranted(config, w.cluster, v.cluster, k, f, m)
  {
    var w := Run(config, es);
    PermittedRun(config, es, k);
    ConfigKept(config, es);
    if Opening(move) || Checks(move) || Builds(move) || Applies(move) {
      EarlyWarranted(w, k, move, m);
    } else {
      LateWarranted(w, k, move, m);
    }
  }
}
