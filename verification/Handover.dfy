/** Objects that change hands, and the finalizer: safety over all interleavings. */
module Handover {
  import opened Wrappers
  import opened ObjectIds
  import opened Inventories
  import opened StaleObjects
  import opened Statuses
  import opened Machine
  import opened Coherence
  import opened History
  import opened Ownership

  // ---------------------------------------------------------------- handover

  /** Somebody outside the controller writes the owner labels of `k` on an object. */
  predicate Forges(e: Event, k: Key) {
    e.Write? && e.after.Some? && e.after.value.owner == Some(k)
  }

  /** What is in the log of the later world and not yet in that of the earlier one. */
  function News(before: World, after: World): seq<Record> {
    if |before.log| <= |after.log| then after.log[|before.log|..] else []
  }

  lemma {:induction false} ExecLogGrows(w: World, es: seq<Event>)
    ensures w.log <= Exec(w, es).log
  {
    if es != [] {
      ExecLogGrows(w, es[..|es| - 1]);
      NotesAdded(Exec(w, es[..|es| - 1]), es[|es| - 1]);
    }
  }

  lemma NewsAddUp(w: World, u: World, v: World)
    requires w.log <= u.log <= v.log
    ensures News(w, v) == News(w, u) + News(u, v)
  {
  }

  /** Ownership is gained by applying, and only an owner deletes. */
  lemma OwnershipTurn(w: World, k: Key, move: Move, a: Key, m: ObjMeta)
    requires !Owned(w.cluster, a, m)
    ensures var t := TurnOf(w, k, move);
      && (Owned(t.cluster, a, m) ==> k == a && Touched(a, m) in t.notes)
      && Deleted(a, m) !in t.notes
  {
    if Opening(move) || Checks(move) || Builds(move) || Applies(move) {
      OwnershipEarly(w, k, move, a, m);
    } else {
      OwnershipLate(w, k, move, a, m);
    }
  }

  lemma OwnershipEarly(w: World, k: Key, move: Move, a: Key, m: ObjMeta)
    requires !Owned(w.cluster, a, m)
    requires Opening(move) || Checks(move) || Builds(move) || Applies(move)
    ensures var t := TurnOf(w, k, move);
      && (Owned(t.cluster, a, m) ==> k == a && Touched(a, m) in t.notes)
      && Deleted(a, m) !in t.notes
  {
  }

  lemma OwnershipLate(w: World, k: Key, move: Move, a: Key, m: ObjMeta)
    requires !Owned(w.cluster, a, m)
    requires !(Opening(move) || Checks(move) || Builds(move) || Applies(move))
    ensures var t := TurnOf(w, k, move);
      && (Owned(t.cluster, a, m) ==> k == a && Touched(a, m) in t.notes)
      && Deleted(a, m) !in t.notes
  {
  }

  lemma OwnershipStep(w: World, e: Event, a: Key, m: ObjMeta)
    requires !Owned(w.cluster, a, m) && !Forges(e, a)
    ensures var v := Step(w, e);
      && (Owned(v.cluster, a, m) ==> Touched(a, m) in News(w, v))
      && Deleted(a, m) !in News(w, v)
  {
    if e.Of? {
      OwnershipTurn(w, e.k, e.move, a, m);
      assert News(w, Step(w, e)) == TurnOf(w, e.k, e.move).notes;
    }
  }

  lemma {:induction false} NotRegained(w: World, es: seq<Event>, a: Key, m: ObjMeta)
    requires !Owned(w.cluster, a, m)
    requires forall e :: e in es ==> !Forges(e, a)
    requires Touched(a, m) !in News(w, Exec(w, es))
    ensures !Owned(Exec(w, es).cluster, a, m)
    ensures Deleted(a, m) !in News(w, Exec(w, es))
  {
    if es == [] {
      assert News(w, w) == [];
    } else {
      var init := es[..|es| - 1];
      var e := es[|es| - 1];
      assert es == init + [e];
      var u := Exec(w, init);
      var v := Exec(w, es);
      ExecLogGrows(w, init);
      NotesAdded(u, e);
      NewsAddUp(w, u, v);
      NotRegained(w, init, a, m);
      OwnershipStep(u, e, a, m);
    }
  }

  /** What an event of the run notes is among the news of the run. */
  lemma NewsOfEvent(w: World, es: seq<Event>, n: nat)
    requires n < |es|
    ensures var v := Exec(w, es);
      && (forall r :: r in News(w, Exec(w, es[..n])) ==> r in News(w, v))
      && forall r :: r in Notes(Exec(w, es[..n]), es[n]) ==> r in News(w, v)
  {
    var u, x := Exec(w, es[..n]), Exec(w, es[..n + 1]);
    assert es == es[..n + 1] + es[n + 1..];
    assert es[..n + 1][..n] == es[..n];
    ExecConcat(w, es[..n + 1], es[n + 1..]);
    ExecLogGrows(w, es[..n]);
    ExecLogGrows(x, es[n + 1..]);
    NotesAdded(u, es[n]);
    NewsAddUp(w, u, x);
    NewsAddUp(w, x, Exec(w, es));
  }

  /** A move of `a` that does not touch an object of somebody else leaves it exactly as it is. */
  lemma LeavesAlone(w: World, a: Key, move: Move, m: ObjMeta)
    requires !Owned(w.cluster, a, m) && Touched(a, m) !in TurnOf(w, a, move).notes
    ensures SameAt(w.cluster, TurnOf(w, a, move).cluster, m)
  {
    if Opening(move) || Checks(move) || Builds(move) || Applies(move) {
      LeavesAloneEarly(w, a, move, m);
    } else {
      LeavesAloneLate(w, a, move, m);
    }
  }

  lemma LeavesAloneEarly(w: World, a: Key, move: Move, m: ObjMeta)
    requires !Owned(w.cluster, a, m) && Touched(a, m) !in TurnOf(w, a, move).notes
    requires Opening(move) || Checks(move) || Builds(move) || Applies(move)
    ensures SameAt(w.cluster, TurnOf(w, a, move).cluster, m)
  {
  }

  lemma LeavesAloneLate(w: World, a: Key, move: Move, m: ObjMeta)
    requires !Owned(w.cluster, a, m)
    requires !(Opening(move) || Checks(move) || Builds(move) || Applies(move))
    ensures SameAt(w.cluster, TurnOf(w, a, move).cluster, m)
  {
  }

  /**
   Safe handover. Once an object is not `a`'s, whoever owns it now, no move that reconciliations and
   finalizations of `a` make in any interleaving deletes it or changes it in any way, until `a` applies it
   again.
   */
  lemma HandoverIsSafe(w: World, es: seq<Event>, a: Key, m: ObjMeta)
    requires !Owned(w.cluster, a, m)
    requires forall e :: e in es ==> !Forges(e, a)
    requires Touched(a, m) !in News(w, Exec(w, es))
    ensures !Owned(Exec(w, es).cluster, a, m)
    ensures Deleted(a, m) !in News(w, Exec(w, es))
    ensures forall n :: 0 <= n < |es| && es[n].Of? && es[n].k == a ==>
      SameAt(Exec(w, es[..n]).cluster, Step(Exec(w, es[..n]), es[n]).cluster, m)
  {
    NotRegained(w, es, a, m);
    forall n | 0 <= n < |es| && es[n].Of? && es[n].k == a
      ensures SameAt(Exec(w, es[..n]).cluster, Step(Exec(w, es[..n]), es[n]).cluster, m)
    {
      NewsOfEvent(w, es, n);
      assert forall e :: e in es[..n] ==> e in es;
      NotRegained(w, es[..n], a, m);
      LeavesAlone(Exec(w, es[..n]), a, es[n].move, m);
    }
  }

  // ---------------------------------------------------------------- inventories that parse

  /** Builds produce metadata that prints and parses: no field contains the separator. */
  ghost predicate BuildsReadable(e: Event) {
    e.Of? && e.move.Build? && e.move.outcome.Staged? ==>
      forall o :: o in e.move.outcome.one || o in e.move.outcome.two ==> Printable(o.meta)
  }

  ghost predicate SlotReadable(s: Slot) {
    && (s.instance.Some? && s.instance.value.status.inventory.Some? ==> Parses(s.instance.value.status.inventory.value))
    && (s.flight.Some? ==> PhaseReadable(s.flight.value.phase))
  }

  ghost predicate PhaseReadable(p: Phase) {
    && (p.Applying? ==> forall o :: o in p.todo || o in p.later ==> Printable(o.meta))
    && (forall e :: e in Unstored(p) ==> Printable(e.meta))
  }

  lemma ReadableTurn(w: World, k: Key, move: Move)
    requires SlotCoherent(w.At(k)) && SlotReadable(w.At(k)) && BuildsReadable(Of(k, move))
    ensures SlotReadable(TurnOf(w, k, move).slot)
  {
    if move.Close? {
      ReadableClose(w, k);
    } else if move.ApplyNext? {
      assert TurnOf(w, k, move) == ApplyNextTurn(w, k, move.switches);
    } else if Opening(move) {
      ReadableFetch(w, k, move);
    } else if Checks(move) {
      ReadableChecks(w, k, move);
    } else if Builds(move) || move.ApplyFail? {
      ReadableBuild(w, k, move);
    } else if Prunes(move) {
      ReadablePrune(w, k, move);
    } else if Assesses(move) {
      ReadableAnnounce(w, k, move);
    } else if move.Assess? {
      ReadableVerdict(w, k, move);
    } else if Leaves(move) {
      ReadableLeaves(w, k, move);
    } else {
      ReadableOutside(w, k, move);
    }
  }

  lemma ReadableClose(w: World, k: Key)
    requires SlotCoherent(w.At(k)) && SlotReadable(w.At(k))
    ensures SlotReadable(CloseTurn(w, k).slot)
  {
    var s := w.At(k);
    if Flying(s) && s.flight.value.phase.Closing? && s.flight.value.phase.applied.Some? {
      InventoryRoundTrip(s.flight.value.phase.applied.value);
    }
  }

  lemma ReadableFetch(w: World, k: Key, move: Move)
    requires SlotReadable(w.At(k)) && Opening(move)
    ensures SlotReadable(TurnOf(w, k, move).slot)
  {
  }

  lemma ReadableChecks(w: World, k: Key, move: Move)
    requires SlotCoherent(w.At(k)) && SlotReadable(w.At(k)) && Checks(move)
    ensures SlotReadable(TurnOf(w, k, move).slot)
  {
  }

  lemma ReadableBuild(w: World, k: Key, move: Move)
    requires SlotReadable(w.At(k)) && BuildsReadable(Of(k, move)) && (Builds(move) || move.ApplyFail?)
    ensures SlotReadable(TurnOf(w, k, move).slot)
  {
  }

  lemma ReadablePrune(w: World, k: Key, move: Move)
    requires SlotReadable(w.At(k)) && Prunes(move)
    ensures SlotReadable(TurnOf(w, k, move).slot)
  {
  }

  lemma ReadableAnnounce(w: World, k: Key, move: Move)
    requires SlotCoherent(w.At(k)) && SlotReadable(w.At(k)) && Assesses(move)
    ensures SlotReadable(TurnOf(w, k, move).slot)
  {
  }

  lemma ReadableVerdict(w: World, k: Key, move: Move)
    requires SlotCoherent(w.At(k)) && SlotReadable(w.At(k)) && move.Assess?
    ensures SlotReadable(TurnOf(w, k, move).slot)
  {
  }

  lemma ReadableLeaves(w: World, k: Key, move: Move)
    requires SlotReadable(w.At(k)) && Leaves(move)
    ensures SlotReadable(TurnOf(w, k, move).slot)
  {
  }

  lemma ReadableOutside(w: World, k: Key, move: Move)
    requires SlotReadable(w.At(k)) && Outside(move)
    ensures SlotReadable(TurnOf(w, k, move).slot)
  {
  }

  lemma ReadableStep(w: World, e: Event)
    requires Coherent(w) && (forall k :: SlotReadable(w.At(k))) && BuildsReadable(e)
    ensures forall k :: SlotReadable(Step(w, e).At(k))
  {
    forall k
      ensures SlotReadable(Step(w, e).At(k))
    {
      assert SlotReadable(w.At(k)) && SlotCoherent(w.At(k));
      if e.Of? {
        WithAt(w, e.k, TurnOf(w, e.k, e.move), k);
        if e.k == k {
          ReadableTurn(w, k, e.move);
        }
      } else {
        assert Step(w, e).At(k).(queued := false) == w.At(k).(queued := false);
      }
    }
  }

  /** If builds produce only clean metadata, every stored inventory parses, in every state. */
  lemma {:induction false} InventoriesParse(config: Config, es: seq<Event>)
    requires forall e :: e in es ==> BuildsReadable(e)
    ensures forall k :: SlotReadable(Run(config, es).At(k))
  {
    if es != [] {
      assert es == es[..|es| - 1] + [es[|es| - 1]];
      InventoriesParse(config, es[..|es| - 1]);
      CoherentRun(config, es[..|es| - 1]);
      ReadableStep(Run(config, es[..|es| - 1]), es[|es| - 1]);
    }
  }

  // ---------------------------------------------------------------- the finalizer

  /** Nobody outside makes an object deletable for `k`, and the account of `k` is there whenever it is fetched. */
  predicate Polite(e: Event, k: Key) {
    match e
    case Of(j, Fetch(canFinalize)) => j == k ==> canFinalize
    case Write(_, after) => after.Some? ==> after.value.owner == Some(k) ==> after.value.Disabled()
    case _ => true
  }

  /** Finalization has dealt with every object of the inventory but those still on its list. */
  ghost predicate Sweeping(config: Config, cluster: Cluster, k: Key, s: Slot) {
    s.flight.Some? && s.flight.value.phase.Finalizing? && !s.flight.value.phase.failed &&
        Finalizes(s.flight.value.base, true) ==>
      forall m :: m in Metas(s.flight.value.base.status.inventory.value) ==>
        m in s.flight.value.phase.remaining || !Deletable(cluster, k, Physical(config.clusterScoped, m))
  }

  lemma SweepTurn(w: World, k: Key, move: Move)
    requires Sweeping(w.config, w.cluster, k, w.At(k)) && Polite(Of(k, move), k)
    ensures Sweeping(w.config, TurnOf(w, k, move).cluster, k, TurnOf(w, k, move).slot)
  {
    if move.FinalizeNext? {
      SweepNext(w, k, move.ok);
    } else if move.Fetch? {
      assert TurnOf(w, k, move) == FetchTurn(w, k, true);
    } else {
      SweepIdle(w, k, move);
    }
  }

  lemma SweepIdle(w: World, k: Key, move: Move)
    requires !move.FinalizeNext? && !move.Fetch?
    ensures var t := TurnOf(w, k, move);
      t.slot.flight.Some? && t.slot.flight.value.phase.Finalizing? ==>
          t.slot.flight == w.At(k).flight && t.cluster == w.cluster
  {
  }

  lemma SweepNext(w: World, k: Key, ok: bool)
    requires Sweeping(w.config, w.cluster, k, w.At(k))
    ensures Sweeping(w.config, FinalizeNextTurn(w, k, ok).cluster, k, FinalizeNextTurn(w, k, ok).slot)
  {
    var s := w.At(k);
    if Flying(s) && s.flight.value.phase.Finalizing? && s.flight.value.phase.remaining != [] {
      var remaining := s.flight.value.phase.remaining;
      assert remaining == [remaining[0]] + remaining[1..];
    }
  }

  /** A reconciliation of another instance makes nothing deletable for `k`. */
  lemma OthersDoNotRearm(w: World, j: Key, move: Move, k: Key, m: ObjMeta)
    requires j != k && Deletable(TurnOf(w, j, move).cluster, k, m)
    ensures Deletable(w.cluster, k, m)
  {
  }

  lemma SweepStep(w: World, e: Event, k: Key)
    requires Sweeping(w.config, w.cluster, k, w.At(k)) && Polite(e, k)
    ensures Sweeping(w.config, Step(w, e).cluster, k, Step(w, e).At(k))
  {
    var v := Step(w, e);
    if e.Of? {
      WithAt(w, e.k, TurnOf(w, e.k, e.move), k);
      if e.k == k {
        SweepTurn(w, k, e.move);
      } else {
        forall m | Deletable(v.cluster, k, m)
          ensures Deletable(w.cluster, k, m)
        {
          OthersDoNotRearm(w, e.k, e.move, k, m);
        }
      }
    } else {
      assert v.At(k).flight == w.At(k).flight;
      assert forall m :: Deletable(v.cluster, k, m) ==> Deletable(w.cluster, k, m);
    }
  }

  lemma {:induction false} SweepRun(config: Config, es: seq<Event>, k: Key)
    requires forall e :: e in es ==> Polite(e, k)
    ensures var w := Run(config, es); Sweeping(w.config, w.cluster, k, w.At(k))
  {
    if es != [] {
      assert es == es[..|es| - 1] + [es[|es| - 1]];
      SweepRun(config, es[..|es| - 1], k);
      SweepStep(Run(config, es[..|es| - 1]), es[|es| - 1], k);
    }
  }

  /** The object at `m` is absent, not owned by `k`, or carries a switch. */
  predicate Retired(cluster: Cluster, k: Key, m: ObjMeta) {
    m in cluster && cluster[m].owner == Some(k) ==>
      cluster[m].switches.pruneDisabled || cluster[m].switches.reconcileDisabled
  }

  /**
   The finalizer goes last. Over any run, with any number of failed attempts and whatever other instances do:
   when an instance with pruning on and not suspended is released, every object of its stored inventory is
   absent, does not carry its owner labels, or is marked disabled. Builds that print cleanly make the parse
   error that finalization ignores impossible.
   */
  lemma FinalizerGoesLast(config: Config, es: seq<Event>, k: Key)
    requires forall e :: e in es ==> Polite(e, k) && BuildsReadable(e)
    requires var w := Run(config, es);
      && k in w.instances && k !in Step(w, Of(k, Release)).instances
      && w.instances[k].spec.prune && !w.instances[k].spec.suspend
    ensures var w := Run(config, es);
      var inventory := w.instances[k].status.inventory;
      inventory.Some? ==>
        && Parses(inventory.value)
        && forall m :: m in Metas(inventory.value) ==>
            Retired(Step(w, Of(k, Release)).cluster, k, Physical(w.config.clusterScoped, m))
  {
    var w := Run(config, es);
    InventoriesParse(config, es);
    assert SlotReadable(w.At(k));
    SweepRun(config, es, k);
    assert TurnOf(w, k, Release) == ReleaseTurn(w, k);
  }

  /** What a dirty name does: an inventory that does not parse is finalized without deleting anything. */
  lemma UnreadableIsAbandoned(w: World, k: Key, canFinalize: bool)
    requires k in w.instances && k !in w.flights && w.instances[k].deleting
    requires w.instances[k].status.inventory.Some? && !Parses(w.instances[k].status.inventory.value)
    ensures var v := Step(Step(w, Of(k, Fetch(canFinalize))), Of(k, Release));
      k !in v.instances && v.cluster == w.cluster
  {
    var u := Step(w, Of(k, Fetch(canFinalize)));
    assert TurnOf(w, k, Fetch(canFinalize)) == FetchTurn(w, k, canFinalize);
    assert u.flights[k].phase == Finalizing([], false) && u.instances[k] == u.flights[k].base;
    assert TurnOf(u, k, Release) == ReleaseTurn(u, k);
  }
}
