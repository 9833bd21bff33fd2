/**
 What applying and deleting a list of objects amounts to, object by object, and what this means for an
 instance that is deleted.
 */
module Batches {
  import opened Wrappers
  import opened ObjectIds
  import opened Inventories
  import opened StaleObjects
  import opened Statuses
  import opened Machine
  import opened Coherence
  import opened Ownership
  import opened Driver
  import opened Pipeline
  import opened Staging
  import opened Controllers

  // ---------------------------------------------------------------- deletion

  /** The list asks for the object at `m` to be deleted, and the server does not refuse. */
  ghost predicate Hits(config: Config, o: Oracle, todo: seq<ObjMeta>, m: ObjMeta) {
    exists t :: t in todo && t !in o.undeletable && Physical(config.clusterScoped, t) == m
  }

  /** The owner labels of `k`, and neither switch. */
  predicate IsOwnAndOn(x: Live, k: Key) {
    x.owner == Some(k) && !x.switches.pruneDisabled && !x.switches.reconcileDisabled
  }

  /**
   Deleting a list deletes exactly the objects it hits that carry the owner labels and neither switch; all
   others are as before; it fails exactly when some deletion is refused.
   */
  lemma {:induction false} DeletesExactly(config: Config, k: Key, o: Oracle, cluster: Cluster, todo: seq<ObjMeta>,
          failed: bool)
    ensures var r := DeleteRest(config, k, o, cluster, todo, failed);
      && (r.failed <==> failed || exists t :: t in todo && t in o.undeletable)
      && (forall m :: m in r.cluster <==> m in cluster && !(IsOwnAndOn(cluster[m], k) && Hits(config, o, todo, m)))
      && (forall m :: m in r.cluster ==> r.cluster[m] == cluster[m])
    decreases |todo|
  {
    if todo != [] {
      var first, rest := todo[0], todo[1..];
      assert todo == [first] + rest;
      if first in o.undeletable {
        DeletesExactly(config, k, o, cluster, rest, true);
        assert forall m :: Hits(config, o, todo, m) <==> Hits(config, o, rest, m);
      } else {
        var p := Physical(config.clusterScoped, first);
        var next := DeleteObject(cluster, k, p);
        DeletesExactly(config, k, o, next, rest, failed);
        assert forall m :: Hits(config, o, todo, m) <==> m == p || Hits(config, o, rest, m);
        assert forall m :: Deletable(next, k, m) <==> Deletable(cluster, k, m) && m != p;
      }
    }
  }

  // ---------------------------------------------------------------- apply

  /**
   The object at `m` was excluded from reconciliation and is as it was; or it belongs to `k` with the content of
   an object listed for this place.
   */
  ghost predicate Settled(config: Config, before: Cluster, after: Cluster, k: Key, listed: seq<Desired>, m: ObjMeta) {
    m in after &&
      if m in before && before[m].switches.reconcileDisabled then after[m] == before[m]
      else after[m].owner == Some(k) && Asks(config, listed, m, after[m].content)
  }

  ghost predicate Asks(config: Config, listed: seq<Desired>, m: ObjMeta, content: string) {
    exists x :: x in listed && Physical(config.clusterScoped, x.meta) == m && x.content == content
  }

  /**
   Applying a list works off a prefix of it, the whole list unless it fails: the change set names its places in
   order, each object there has what the list asks for unless it was excluded, and all others are as before.
   */
  lemma {:induction false} AppliesPrefix(config: Config, k: Key, o: Oracle, cluster: Cluster, todo: seq<Desired>,
          entries: seq<Entry>) returns (n: nat)
    ensures var r := ApplyRest(config, k, o, cluster, todo, entries);
      && n <= |todo| && (!r.failed ==> n == |todo|)
      && EntryMetas(r.entries) == EntryMetas(entries) + Places(config, todo[..n])
      && (forall m :: m in Places(config, todo[..n]) ==> Settled(config, cluster, r.cluster, k, todo[..n], m))
      && (forall m :: m !in Places(config, todo[..n]) ==> SameAt(cluster, r.cluster, m))
    decreases |todo|
  {
    var r := ApplyRest(config, k, o, cluster, todo, entries);
    if o.applyFailsAt == Some(|entries|) || todo == [] || !CanApply(config.clusterScoped, todo[0].meta) {
      n := 0;
      assert todo[..0] == [];
    } else {
      var x, rest := todo[0], todo[1..];
      var m := Physical(config.clusterScoped, x.meta);
      var next := ApplyObject(cluster, k, m, x, SwitchesFor(o, m));
      var entry := Entry(m, x.version, ApplyAction(cluster, k, m, x));
      var i := AppliesPrefix(config, k, o, next, rest, entries + [entry]);
      n := i + 1;
      PrefixPlaces(config, todo, i);
      assert todo[..n] == [x] + rest[..i];
      assert EntryMetas(entries + [entry]) == EntryMetas(entries) + [m];
      forall p | p in Places(config, todo[..n])
        ensures Settled(config, cluster, r.cluster, k, todo[..n], p)
      {
        SettlesOn(config, cluster, next, r.cluster, k, o, x, rest[..i], p);
      }
    }
  }

  /**
   Before the `i`th object of the list, when `before` others have been applied, the server gives up; or it refuses
   this one, for want of a namespace.
   */
  predicate FailsOn(config: Config, o: Oracle, todo: seq<Desired>, before: nat, i: nat) {
    || o.applyFailsAt == Some(before + i)
    || (i < |todo| && todo[i].meta.namespace == "" &&
          GroupKind(todo[i].meta.group, todo[i].meta.kind) !in config.clusterScoped)
  }

  /** Past the first object, a list fails where its rest does. */
  lemma FailsLater(config: Config, o: Oracle, todo: seq<Desired>, before: nat, rest: seq<Desired>, next: nat, i: nat)
    requires todo != [] && rest == todo[1..] && next == before + 1
    ensures FailsOn(config, o, todo, before, i + 1) <==> FailsOn(config, o, rest, next, i)
  {
    assert i < |rest| ==> rest[i] == todo[i + 1];
  }

  lemma NoneFails(config: Config, o: Oracle, todo: seq<Desired>, before: nat, rest: seq<Desired>, next: nat, n: nat)
    requires todo != [] && rest == todo[1..] && next == before + 1
    requires !FailsOn(config, o, todo, before, 0) && forall i :: 0 <= i < n ==> !FailsOn(config, o, rest, next, i)
    ensures forall i :: 0 <= i <= n ==> !FailsOn(config, o, todo, before, i)
  {
    forall i | 0 <= i <= n
      ensures !FailsOn(config, o, todo, before, i)
    {
      if i > 0 {
        FailsLater(config, o, todo, before, rest, next, i - 1);
      }
    }
  }

  /** The apply of a list goes as far as the first object on which it fails, and fails if there is one. */
  lemma {:induction false} StopsAtFirstFailure(config: Config, k: Key, o: Oracle, cluster: Cluster,
          todo: seq<Desired>, entries: seq<Entry>) returns (n: nat)
    ensures var r := ApplyRest(config, k, o, cluster, todo, entries);
      && n <= |todo| && |r.entries| == |entries| + n && (!r.failed ==> n == |todo|)
      && (r.failed <==> FailsOn(config, o, todo, |entries|, n))
    ensures forall i :: 0 <= i < n ==> !FailsOn(config, o, todo, |entries|, i)
    decreases |todo|
  {
    if o.applyFailsAt == Some(|entries|) || todo == [] || !CanApply(config.clusterScoped, todo[0].meta) {
      n := 0;
    } else {
      var x, rest := todo[0], todo[1..];
      var m := Physical(config.clusterScoped, x.meta);
      var next := ApplyObject(cluster, k, m, x, SwitchesFor(o, m));
      var entry := Entry(m, x.version, ApplyAction(cluster, k, m, x));
      var i := StopsAtFirstFailure(config, k, o, next, rest, entries + [entry]);
      n := i + 1;
      FailsLater(config, o, todo, |entries|, rest, |entries + [entry]|, i);
      NoneFails(config, o, todo, |entries|, rest, |entries + [entry]|, i);
    }
  }

  /** Each line of the change set carries the version of the object that was applied. */
  lemma {:induction false} RecordsVersions(config: Config, k: Key, o: Oracle, cluster: Cluster, todo: seq<Desired>,
          entries: seq<Entry>) returns (added: seq<Entry>)
    ensures ApplyRest(config, k, o, cluster, todo, entries).entries == entries + added && |added| <= |todo|
    ensures forall i :: 0 <= i < |added| ==> added[i].version == todo[i].version
    decreases |todo|
  {
    if o.applyFailsAt == Some(|entries|) || todo == [] || !CanApply(config.clusterScoped, todo[0].meta) {
      added := [];
    } else {
      var x, rest := todo[0], todo[1..];
      var m := Physical(config.clusterScoped, x.meta);
      var next := ApplyObject(cluster, k, m, x, SwitchesFor(o, m));
      var entry := Entry(m, x.version, ApplyAction(cluster, k, m, x));
      var others := RecordsVersions(config, k, o, next, rest, entries + [entry]);
      added := [entry] + others;
      assert entries + [entry] + others == entries + added;
    }
  }

  /** One object and then the others. */
  lemma SettlesOn(config: Config, cluster: Cluster, next: Cluster, after: Cluster, k: Key, o: Oracle, x: Desired,
          later: seq<Desired>, p: ObjMeta)
    requires var m := Physical(config.clusterScoped, x.meta); next == ApplyObject(cluster, k, m, x, SwitchesFor(o, m))
    requires forall q :: q in Places(config, later) ==> Settled(config, next, after, k, later, q)
    requires forall q :: q !in Places(config, later) ==> SameAt(next, after, q)
    requires p in Places(config, [x] + later)
    ensures Settled(config, cluster, after, k, [x] + later, p)
  {
    var m := Physical(config.clusterScoped, x.meta);
    var listed := [x] + later;
    assert x in listed && forall y :: y in later ==> y in listed;
    PlacesConcat(config, [x], later);
    assert Places(config, [x]) == [m];
    if p in Places(config, later) {
      assert Settled(config, next, after, k, later, p);
      if p in next && next[p].switches.reconcileDisabled && !(p in cluster && cluster[p].switches.reconcileDisabled) {
        assert p == m && next[p].content == x.content;
        assert Asks(config, listed, p, x.content);
      } else if after[p].owner == Some(k) && Asks(config, later, p, after[p].content) {
        var y :| y in later && Physical(config.clusterScoped, y.meta) == p && y.content == after[p].content;
        assert Asks(config, listed, p, after[p].content);
      }
    } else {
      assert p == m && SameAt(next, after, p);
      assert Asks(config, listed, p, x.content);
    }
  }

  lemma PrefixPlaces(config: Config, todo: seq<Desired>, i: nat)
    requires i < |todo|
    ensures Places(config, todo[..i + 1]) ==
      [Physical(config.clusterScoped, todo[0].meta)] + Places(config, todo[1..][..i])
  {
    assert todo[..i + 1] == [todo[0]] + todo[1..][..i];
  }

  // ---------------------------------------------------------------- deletion of an instance

  /**
   Finalization, when nothing fails: the instance is gone, of the objects it owned none is left that is not
   switched off, and nobody else's object is touched.
   */
  lemma FinalizationCleansUp(w: World, k: Key, o: Oracle)
    requires k in w.instances && k !in w.flights && SlotCoherent(w.At(k)) && w.instances[k].deleting
    requires w.instances[k].spec.prune && !w.instances[k].spec.suspend
    requires AllHeld(w, k)
    requires var inventory := w.instances[k].status.inventory; inventory.Some? ==> Parses(inventory.value)
    requires forall m :: Owned(w.cluster, k, m) ==> Physical(w.config.clusterScoped, m) == m
    requires o.canFinalize && o.finished && o.undeletable == {}
    ensures var v := Reconcile(w, k, o);
      && k !in v.instances && k !in v.flights
      && (forall m :: Owned(v.cluster, k, m) ==>
            v.cluster[m].switches.pruneDisabled || v.cluster[m].switches.reconcileDisabled)
      && (forall m :: !Owned(w.cluster, k, m) ==> SameAt(w.cluster, v.cluster, m))
  {
    var u := FetchMove(w, k, o);
    var i := u.instances[k];
    var todo := if Finalizes(i, true) then Metas(i.status.inventory.value) else [];
    var v := SweepRuns(u, k, o, i, Everything, todo, false);
    DeletesExactly(w.config, k, o, w.cluster, todo, false);
    ReleaseMove(v, k, o, i, false);
    forall m | Owned(v.cluster, k, m)
      ensures v.cluster[m].switches.pruneDisabled || v.cluster[m].switches.reconcileDisabled
    {
      assert Owned(w.cluster, k, m) && Held(w.At(k), m);
      CoveredIsListed(i.status.inventory.value, m);
      assert m in todo && Hits(w.config, o, todo, m);
    }
  }

  /** Finalization as the spec forbids it to delete, or as it cannot. */
  predicate Spares(i: Instance, canFinalize: bool) {
    || !i.spec.prune || i.spec.suspend || !canFinalize
    || i.status.inventory.None? || !Parses(i.status.inventory.value)
  }

  /**
   With pruning off, suspended, without the account for finalization, or without an inventory that parses, the
   instance is let go and no object is deleted, whatever else the outside answers.
   */
  lemma FinalizationSpares(w: World, k: Key, o: Oracle)
    requires k in w.instances && k !in w.flights && SlotCoherent(w.At(k)) && w.instances[k].deleting
    requires Spares(w.instances[k], o.canFinalize)
    ensures var v := Reconcile(w, k, o);
      && v.cluster == w.cluster
      && k !in v.flights && (k in v.instances <==> !o.finished)
  {
    var u := FetchMove(w, k, o);
    var i := u.instances[k];
    if o.finished {
      ReleaseMove(u, k, o, i, false);
    } else {
      AbortMove(u, k, o, i, Finalizing([], false));
    }
  }
}
