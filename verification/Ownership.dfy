/**
 Who owns which object, over all runs and all interleavings: every owned object outside the inventory got
 there by an event that reported it.
 */
module Ownership {
  import opened Wrappers
  import opened ObjectIds
  import opened Inventories
  import opened StaleObjects
  import opened Statuses
  import opened Machine
  import opened Coherence
  import opened History

  predicate Owned(cluster: Cluster, k: Key, m: ObjMeta) {
    m in cluster && cluster[m].owner == Some(k)
  }

  /** A reconciliation of `k` reported that it left the object behind. */
  ghost predicate LeftBy(log: seq<Record>, k: Key, m: ObjMeta) {
    exists r :: r in log && r.LeftBehind? && r.k == k && m in r.objs
  }

  /** The object is in the stored inventory or, while a reconciliation is in flight, in its hands. */
  predicate Held(s: Slot, m: ObjMeta) {
    if s.flight.Some? then InHands(s.flight.value.base, s.flight.value.phase, m)
    else s.instance.Some? && Covers(s.instance.value.status.inventory, m)
  }

  predicate InHands(base: Instance, p: Phase, m: ObjMeta) {
    match p
    case Applying(_, _, _, _, entries) => Covers(base.status.inventory, m) || m in EntrySet(entries)
    case Pruning(_, stale, entries, _) => m in EntrySet(entries) || m in stale
    case Assessing(_, entries, _) => m in EntrySet(entries)
    case Closing(_, _, applied) => if applied.Some? then m in EntrySet(applied.value)
      else Covers(base.status.inventory, m)
    case Finalizing(remaining, _) => m in remaining
    case _ => Covers(base.status.inventory, m)
  }

  /** Owned and in nobody's books: neither recorded nor in the hands of a reconciliation. */
  ghost predicate Stray(w: World, k: Key, m: ObjMeta) {
    Owned(w.cluster, k, m) && !Held(w.At(k), m)
  }

  /** Before a turn: what the turns of `k` keep about its own slot, and the object is held if it is owned. */
  ghost predicate HeldFor(w: World, k: Key, m: ObjMeta) {
    && SlotCoherent(w.At(k))
    && SlotTraced(w.config, w.log, k, w.At(k))
    && (Owned(w.cluster, k, m) ==> Held(w.At(k), m))
  }

  /** After a turn: an owned object is still held, or this very turn reports it. */
  ghost predicate TurnAccounts(k: Key, t: Turn, m: ObjMeta) {
    Owned(t.cluster, k, m) ==> Held(t.slot, m) || LeftBy(t.notes, k, m)
  }

  lemma FetchAccounts(w: World, k: Key, canFinalize: bool, m: ObjMeta)
    requires HeldFor(w, k, m)
    ensures TurnAccounts(k, FetchTurn(w, k, canFinalize), m)
  {
    var s := w.At(k);
    if s.flight.None? && s.instance.Some? && s.instance.value.deleting && Owned(w.cluster, k, m) {
      var i := s.instance.value;
      if Finalizes(i, canFinalize) {
        CoveredIsListed(i.status.inventory.value, m);
      } else {
        var r := LeftBehind(k, CoveredObjects(w.cluster, i.status.inventory), Unfinalized);
        assert r in [r] && m in r.objs;
      }
    }
  }

  lemma CoveredIsListed(inventory: seq<ResourceRef>, m: ObjMeta)
    requires Parses(inventory)
    ensures Covers(Some(inventory), m) <==> m in Metas(inventory)
  {
    if Covers(Some(inventory), m) {
      var i :| 0 <= i < |inventory| && inventory[i].id == Print(m);
      assert inventory[i] in inventory;
      RoundTrip(m);
      assert Metas(inventory)[i] == m;
    }
    if m in Metas(inventory) {
      var i :| 0 <= i < |inventory| && Metas(inventory)[i] == m;
      assert inventory[i] in inventory;
      ParseInverse(inventory[i].id);
    }
  }

  lemma ApplyNextAccounts(w: World, k: Key, switches: Switches, m: ObjMeta)
    requires HeldFor(w, k, m)
    ensures TurnAccounts(k, ApplyNextTurn(w, k, switches), m)
  {
    var s := w.At(k);
    var t := ApplyNextTurn(w, k, switches);
    if Flying(s) && s.flight.value.phase.Applying? && s.flight.value.phase.todo != [] {
      if CanApply(w.config.clusterScoped, s.flight.value.phase.todo[0].meta) {
        var entries := t.slot.flight.value.phase.entries;
        var was := s.flight.value.phase.entries;
        assert entries[..|was|] == was;
        assert forall e :: e in was ==> e in entries;
        assert entries[|was|] in entries;
      } else {
        ApplyFailAccounts(w, k, m);
      }
    }
  }

  lemma ApplyFailAccounts(w: World, k: Key, m: ObjMeta)
    requires HeldFor(w, k, m)
    ensures TurnAccounts(k, ApplyFailTurn(w, k), m)
  {
    var s := w.At(k);
    var notes := ApplyFailTurn(w, k).notes;
    if notes != [] {
      assert notes[0] in notes;
    }
  }

  /** Garbage is complete: whatever the old inventory covers is applied again, stale, or reported as kept. */
  lemma PlanAccounts(w: World, k: Key, stale: seq<ObjMeta>, m: ObjMeta)
    requires HeldFor(w, k, m)
    ensures TurnAccounts(k, PlanTurn(w, k, stale), m)
  {
    var s := w.At(k);
    var t := PlanTurn(w, k, stale);
    if t != Idle(w, k) && Owned(w.cluster, k, m) {
      var base := s.flight.value.base;
      var entries := s.flight.value.phase.entries;
      if !Diffable(base, entries) {
        assert t.notes[1] in t.notes;
      } else if m !in EntrySet(entries) {
        var older := base.status.inventory.value;
        CoveredIsListed(older, m);
        EntriesListed(entries, m);
        if m in KeptObjects(base, entries) {
          var r := LeftBehind(k, KeptObjects(base, entries), Kept);
          assert r in t.notes;
        } else {
          assert IsStale(older, Refs(entries), m) && m in stale;
          if !base.spec.prune {
            var r := LeftBehind(k, Elements(stale), PruneOff);
            assert r in t.notes && m in r.objs;
          }
        }
      }
    }
  }

  lemma EntriesListed(entries: seq<Entry>, m: ObjMeta)
    requires Parses(Refs(entries))
    ensures m in Metas(Refs(entries)) <==> m in EntrySet(entries)
  {
    InventoryRoundTrip(entries);
    if m in EntrySet(entries) {
      var i :| 0 <= i < |entries| && entries[i].meta == m;
      assert EntryMetas(entries)[i] == m;
    }
  }

  lemma PruneAccounts(w: World, k: Key, ok: bool, m: ObjMeta)
    requires HeldFor(w, k, m)
    ensures TurnAccounts(k, PruneNextTurn(w, k, ok), m)
  {
    var s := w.At(k);
    var t := PruneNextTurn(w, k, ok);
    if Flying(s) && s.flight.value.phase.Pruning? && s.flight.value.phase.stale != [] {
      var stale := s.flight.value.phase.stale;
      assert stale == [stale[0]] + stale[1..];
      assert Doomed(w.config, w.log, k, s.flight.value.base.status.inventory, stale[0]);
      SweepAccounts(w.cluster, k, stale[0], ok);
    }
  }

  lemma FinalizeAccounts(w: World, k: Key, ok: bool, m: ObjMeta)
    requires HeldFor(w, k, m)
    ensures TurnAccounts(k, FinalizeNextTurn(w, k, ok), m)
  {
    var s := w.At(k);
    if Flying(s) && s.flight.value.phase.Finalizing? && s.flight.value.phase.remaining != [] {
      var remaining := s.flight.value.phase.remaining;
      assert remaining == [remaining[0]] + remaining[1..];
      assert Doomed(w.config, w.log, k, s.flight.value.base.status.inventory, remaining[0]);
      SweepAccounts(w.cluster, k, remaining[0], ok);
    }
  }

  /** A deletion attempt deletes the object, finds it not owned, or reports it. */
  lemma SweepAccounts(cluster: Cluster, k: Key, m: ObjMeta, ok: bool)
    ensures Owned(if ok then DeleteObject(cluster, k, m) else cluster, k, m) ==>
      LeftBy(DeleteNotes(cluster, k, m, ok), k, m)
  {
    var notes := DeleteNotes(cluster, k, m, ok);
    if notes != [] && notes[0].LeftBehind? {
      assert notes[0] in notes;
    }
  }

  /** What is stored at the end holds what the reconciliation held. */
  lemma ClosingHolds(i: Instance, f: Flight, m: ObjMeta)
    requires Sync(i, f) && f.phase.Closing? && InHands(f.base, f.phase, m)
    ensures Covers(f.phase.status.inventory, m)
  {
    if f.phase.applied.Some? {
      EntryCovered(f.phase.applied.value, m);
    }
  }

  lemma EntryCovered(entries: seq<Entry>, m: ObjMeta)
    requires m in EntrySet(entries)
    ensures Covers(Some(Refs(entries)), m)
  {
    var i :| 0 <= i < |entries| && entries[i].meta == m;
    assert Refs(entries)[i] in Refs(entries) && Refs(entries)[i].id == Print(m);
  }

  lemma CloseAccounts(w: World, k: Key, m: ObjMeta)
    requires HeldFor(w, k, m)
    ensures TurnAccounts(k, CloseTurn(w, k), m)
  {
    var s := w.At(k);
    if Owned(w.cluster, k, m) && Flying(s) && s.flight.value.phase.Closing? {
      ClosingHolds(s.instance.value, s.flight.value, m);
    }
  }

  lemma AbortAccounts(w: World, k: Key, m: ObjMeta)
    requires HeldFor(w, k, m)
    ensures TurnAccounts(k, AbortTurn(w, k), m)
  {
    var s := w.At(k);
    if s.flight.Some? {
      var r := LeftBehind(k, EntrySet(Unstored(s.flight.value.phase)), Aborted);
      assert r in [r];
      var p := s.flight.value.phase;
      if (p.Pruning? && m in p.stale) || (p.Finalizing? && m in p.remaining) {
        assert Doomed(w.config, w.log, k, s.flight.value.base.status.inventory, m);
      }
    }
  }

  lemma DeleteAccounts(w: World, k: Key, m: ObjMeta)
    requires HeldFor(w, k, m)
    ensures TurnAccounts(k, DeleteTurn(w, k), m)
  {
    var s := w.At(k);
    var notes := DeleteTurn(w, k).notes;
    if notes != [] {
      assert notes[0] in notes;
    }
  }

  // The moves that change no object and hand none over.

  lemma ResolveAccounts(w: World, k: Key, move: Move, m: ObjMeta)
    requires HeldFor(w, k, m)
    requires move.Resolve? || move.CheckNext?
    ensures TurnAccounts(k, TurnOf(w, k, move), m)
  {
  }

  lemma BuildAccounts(w: World, k: Key, move: Move, m: ObjMeta)
    requires HeldFor(w, k, m)
    requires move.Progress? || Builds(move)
    ensures TurnAccounts(k, TurnOf(w, k, move), m)
  {
  }

  lemma AnnounceAccounts(w: World, k: Key, move: Move, m: ObjMeta)
    requires HeldFor(w, k, m)
    requires Assesses(move)
    ensures TurnAccounts(k, TurnOf(w, k, move), m)
  {
  }

  lemma AssessAccounts(w: World, k: Key, move: Move, m: ObjMeta)
    requires HeldFor(w, k, m)
    requires move.Assess? || move.Release?
    ensures TurnAccounts(k, TurnOf(w, k, move), m)
  {
  }

  lemma EditAccounts(w: World, k: Key, move: Move, m: ObjMeta)
    requires HeldFor(w, k, m)
    requires move.Create? || move.Edit?
    ensures TurnAccounts(k, TurnOf(w, k, move), m)
  {
  }

  lemma TurnAccountsAll(w: World, k: Key, move: Move, m: ObjMeta)
    requires HeldFor(w, k, m)
    ensures TurnAccounts(k, TurnOf(w, k, move), m)
  {
    match move
    case Fetch(canFinalize) => FetchAccounts(w, k, canFinalize, m);
    case ApplyNext(switches) => ApplyNextAccounts(w, k, switches, m);
    case ApplyFail => ApplyFailAccounts(w, k, m);
    case Plan(stale) => PlanAccounts(w, k, stale, m);
    case PruneNext(ok) => PruneAccounts(w, k, ok, m);
    case Close => CloseAccounts(w, k, m);
    case FinalizeNext(ok) => FinalizeAccounts(w, k, ok, m);
    case Abort => AbortAccounts(w, k, m);
    case Delete => DeleteAccounts(w, k, m);
    case _ =>
      if move.Resolve? || move.CheckNext? {
        ResolveAccounts(w, k, move, m);
      } else if move.Progress? || Builds(move) {
        BuildAccounts(w, k, move, m);
      } else if Assesses(move) {
        AnnounceAccounts(w, k, move, m);
      } else if move.Assess? || move.Release? {
        AssessAccounts(w, k, move, m);
      } else {
        EditAccounts(w, k, move, m);
      }
  }

  /** A reconciliation never makes another instance the owner of anything. */
  lemma OwnsForItself(w: World, k: Key, move: Move, j: Key, m: ObjMeta)
    requires j != k && Owned(TurnOf(w, k, move).cluster, j, m)
    ensures Owned(w.cluster, j, m)
  {
  }

  lemma StrayAfterTurn(w: World, k: Key, t: Turn, m: ObjMeta)
    requires TurnAccounts(k, t, m) && Stray(w.With(k, t), k, m)
    ensures LeftBy(t.notes, k, m)
  {
    WithAt(w, k, t, k);
  }

  lemma StrayAfterOthers(w: World, e: Event, k: Key, m: ObjMeta)
    requires !(e.Of? && e.k == k) && !Stray(w, k, m) && Stray(Step(w, e), k, m)
    ensures LeftBy(Notes(w, e), k, m)
  {
    StepSlot(w, e, k);
    if e.Of? {
      OwnsForItself(w, e.k, e.move, k, m);
    } else {
      assert LeftBehind(k, {m}, Foreign) in Notes(w, e);
    }
  }

  /** The event that turns an owned object into a stray reports it. */
  lemma NewStray(w: World, e: Event, k: Key, m: ObjMeta)
    requires Traceable(w) && !Stray(w, k, m) && Stray(Step(w, e), k, m)
    ensures LeftBy(Notes(w, e), k, m)
  {
    if e.Of? && e.k == k {
      assert SlotCoherent(w.At(k)) && SlotTraced(w.config, w.log, k, w.At(k));
      TurnAccountsAll(w, k, e.move, m);
      StrayAfterTurn(w, k, TurnOf(w, k, e.move), m);
    } else {
      StrayAfterOthers(w, e, k, m);
    }
  }

  /** Event `n` reports the object, and it has been in nobody's books ever since. */
  ghost predicate StraySince(config: Config, es: seq<Event>, k: Key, m: ObjMeta, n: nat) {
    && n < |es|
    && LeftBy(Notes(Run(config, es[..n]), es[n]), k, m)
    && forall j :: n < j <= |es| ==> Stray(Run(config, es[..j]), k, m)
  }

  lemma StraySinceLater(config: Config, es: seq<Event>, e: Event, k: Key, m: ObjMeta, n: nat)
    requires StraySince(config, es, k, m, n) && Stray(Run(config, es + [e]), k, m)
    ensures StraySince(config, es + [e], k, m, n)
  {
    var fs := es + [e];
    assert fs[..n] == es[..n];
    forall j | n < j <= |fs|
      ensures Stray(Run(config, fs[..j]), k, m)
    {
      assert fs[..j] == if j <= |es| then es[..j] else fs;
    }
  }

  /**
   The account of orphans, with no assumption on the run: when an object that carries the owner labels of an
   instance is neither in its stored inventory nor in the hands of its reconciliation, then some event left
   that very object behind, reporting it with the cause, and it has been neither ever since.
   */
  lemma {:induction false} OrphansAccounted(config: Config, es: seq<Event>, k: Key, m: ObjMeta)
    requires Stray(Run(config, es), k, m)
    ensures exists n :: StraySince(config, es, k, m, n)
  {
    if es != [] {
      var init, e := es[..|es| - 1], es[|es| - 1];
      assert es == init + [e];
      RunStep(config, init, e);
      if Stray(Run(config, init), k, m) {
        OrphansAccounted(config, init, k, m);
        var n: nat :| StraySince(config, init, k, m, n);
        StraySinceLater(config, init, e, k, m, n);
      } else {
        TraceableRun(config, init);
        NewStray(Run(config, init), e, k, m);
        assert es[..|init|] == init && es[..|es|] == es;
        assert StraySince(config, es, k, m, |init|);
      }
    }
  }
}
