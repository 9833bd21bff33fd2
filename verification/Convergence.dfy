/**
 Convergence of the dependency protocol: with the source at rest and nothing failing, trying every
 instance, round after round, makes all of them ready.
 */
module Convergence {
  import opened Wrappers
  import opened ObjectIds
  import opened Inventories
  import opened StaleObjects
  import opened Sorting
  import opened Statuses
  import opened Machine
  import opened Coherence
  import opened Driver
  import opened Pipeline
  import opened Wakeups
  import opened Staging
  import opened Controllers
  import opened Batches
  import opened Endings

  /** A plan for every instance: what its build produces and how the outside answers. */
  datatype Effort = Effort(oracle: Oracle, objects: seq<Desired>)

  type Efforts = Key -> Effort

  /** How deep the dependencies of an instance go. */
  type Height = Key -> nat

  /** The build gives these objects, the server accepts them, and nothing fails. */
  ghost predicate NothingFails(config: Config, o: Oracle, objects: seq<Desired>) {
    && o.built == Objects(objects)
    && (forall d :: d in objects ==> CanApply(config.clusterScoped, d.meta) && Printable(d.meta))
    && o.sourceRead && o.statusPatched && o.waited && o.announced && o.healthy && o.finished
    && o.applyFailsAt == None && o.undeletable == {}
  }

  ghost predicate ReadyAt(w: World, k: Key, revision: string) {
    && k in w.instances
    && var i := w.instances[k];
    && i.status.conditions != [] && IsReady(i.status)
    && i.status.lastApplied == revision && i.status.observedGeneration == i.Generation()
  }

  predicate Readable(i: Instance) {
    i.status.inventory.Some? ==> Parses(i.status.inventory.value)
  }

  /**
   One member of a fleet at rest: idle, live, not suspended, with an inventory that parses, its source at the
   revision. Nothing is asked of the objects in the cluster or of what happened before.
   */
  ghost predicate AtRest(w: World, k: Key, revision: string) {
    && SlotCoherent(w.At(k))
    && k in w.instances && k !in w.flights && !w.instances[k].deleting && !w.instances[k].spec.suspend
    && Readable(w.instances[k])
    && GetSource(w, k, w.instances[k].spec.source) == Artifact(revision)
  }

  /** Instances at rest that depend on one another only, without a cycle: every dependency is lower. */
  ghost predicate Fleet(w: World, keys: set<Key>, height: Height, revision: string) {
    && (forall k :: k in keys ==> k in w.instances && AtRest(w, k, revision))
    && forall k :: k in keys ==> Descends(keys, k, w.instances[k].spec, height)
  }

  ghost predicate Descends(keys: set<Key>, k: Key, spec: Spec, height: Height) {
    forall d :: d in Dependencies(k, spec) ==> d in keys && height(d) < height(k)
  }

  ghost predicate AllFaultFree(config: Config, keys: set<Key>, efforts: Efforts) {
    forall k :: k in keys ==> NothingFails(config, efforts(k).oracle, efforts(k).objects)
  }

  // ---------------------------------------------------------------- what a reconciliation leaves alone

  predicate SameDesign(i: Instance, j: Instance) {
    j.spec == i.spec && j.past == i.past && j.deleting == i.deleting
  }

  /** The slot of a live instance on the way, its design as in `i`. */
  predicate Living(s: Slot, i: Instance) {
    && s.instance.Some? && SameDesign(i, s.instance.value) && !i.deleting
    && (s.flight.Some? ==> !s.flight.value.phase.Finalizing?)
  }

  lemma OwnMoveKeeps(w: World, k: Key, move: Move, i: Instance)
    requires Living(w.At(k), i) && !Outside(move)
    ensures Living(TurnOf(w, k, move).slot, i)
  {
    if Opening(move) || Checks(move) || Builds(move) {
      EarlyMoveKeeps(w, k, move, i);
    } else if Applies(move) || Prunes(move) {
      MiddleMoveKeeps(w, k, move, i);
    } else {
      LateMoveKeeps(w, k, move, i);
    }
  }

  lemma EarlyMoveKeeps(w: World, k: Key, move: Move, i: Instance)
    requires Living(w.At(k), i) && (Opening(move) || Checks(move) || Builds(move))
    ensures Living(TurnOf(w, k, move).slot, i)
  {
  }

  lemma MiddleMoveKeeps(w: World, k: Key, move: Move, i: Instance)
    requires Living(w.At(k), i) && (Applies(move) || Prunes(move))
    ensures Living(TurnOf(w, k, move).slot, i)
  {
  }

  lemma LateMoveKeeps(w: World, k: Key, move: Move, i: Instance)
    requires Living(w.At(k), i) && (Assesses(move) || Closes(move) || Leaves(move))
    ensures Living(TurnOf(w, k, move).slot, i)
  {
  }

  /** Everybody else, the sources and the design of `k` are as they were. */
  ghost predicate RanAlone(w: World, v: World, k: Key, i: Instance) {
    && v.config == w.config && v.sources == w.sources
    && (forall j :: j != k ==> v.At(j) == w.At(j))
    && SlotCoherent(v.At(k)) && Living(v.At(k), i)
  }

  lemma {:induction false} DriveAlone(w: World, k: Key, o: Oracle, i: Instance)
    requires SlotCoherent(w.At(k)) && Living(w.At(k), i)
    ensures RanAlone(w, Drive(w, k, o), k, i)
    decreases Rank(w.At(k)), Work(w.At(k))
  {
    if w.At(k).flight.Some? {
      var move := NextMove(w.config, w.At(k).flight.value, o);
      var u := w.With(k, TurnOf(w, k, move));
      MovesOn(w, k, o);
      TurnCoherent(w, k, move);
      OwnMoveKeeps(w, k, move, i);
      WithAt(w, k, TurnOf(w, k, move), k);
      DriveAlone(u, k, o, i);
      forall j | j != k
        ensures Drive(u, k, o).At(j) == w.At(j)
      {
        WithAt(w, k, TurnOf(w, k, move), j);
      }
    }
  }

  lemma ReconcileAlone(w: World, k: Key, o: Oracle)
    requires SlotCoherent(w.At(k)) && k in w.instances && k !in w.flights && !w.instances[k].deleting
    ensures RanAlone(w, Reconcile(w, k, o), k, w.instances[k])
  {
    var i := w.instances[k];
    var fetch := Fetch(o.canFinalize);
    var u := w.With(k, TurnOf(w, k, fetch));
    TurnCoherent(w, k, fetch);
    OwnMoveKeeps(w, k, fetch, i);
    WithAt(w, k, TurnOf(w, k, fetch), k);
    DriveAlone(u, k, o, i);
    forall j | j != k
      ensures Reconcile(w, k, o).At(j) == w.At(j)
    {
      WithAt(w, k, TurnOf(w, k, fetch), j);
    }
  }

  // ---------------------------------------------------------------- a run in which nothing fails

  lemma {:induction false} ApplySucceeds(config: Config, k: Key, o: Oracle, cluster: Cluster, todo: seq<Desired>,
          entries: seq<Entry>)
    requires o.applyFailsAt == None && forall d :: d in todo ==> CanApply(config.clusterScoped, d.meta)
    ensures !ApplyRest(config, k, o, cluster, todo, entries).failed
    decreases |todo|
  {
    if todo != [] {
      var m := Physical(config.clusterScoped, todo[0].meta);
      assert todo[0] in todo && forall d :: d in todo[1..] ==> d in todo;
      ApplySucceeds(config, k, o, ApplyObject(cluster, k, m, todo[0], SwitchesFor(o, m)), todo[1..],
                    entries + [Entry(m, todo[0].version, ApplyAction(cluster, k, m, todo[0]))]);
    }
  }

  predicate CleanEntries(entries: seq<Entry>) {
    forall e :: e in entries ==> Printable(e.meta)
  }

  /** Applying clean objects records clean entries. */
  lemma ApplyRecordsClean(config: Config, k: Key, o: Oracle, cluster: Cluster, todo: seq<Desired>, entries: seq<Entry>)
    requires CleanEntries(entries) && forall d :: d in todo ==> Printable(d.meta)
    ensures CleanEntries(ApplyRest(config, k, o, cluster, todo, entries).entries)
  {
    var r := ApplyRest(config, k, o, cluster, todo, entries);
    var n := AppliesPrefix(config, k, o, cluster, todo, entries);
    var places := Places(config, todo[..n]);
    forall e | e in r.entries
      ensures Printable(e.meta)
    {
      var j :| 0 <= j < |r.entries| && r.entries[j] == e;
      assert EntryMetas(r.entries)[j] == e.meta;
      if j < |entries| {
        assert EntryMetas(entries)[j] == entries[j].meta && entries[j] in entries;
      } else {
        assert places[j - |entries|] == e.meta && todo[j - |entries|] in todo;
      }
    }
  }

  lemma StagesSucceed(config: Config, k: Key, o: Oracle, cluster: Cluster, objects: seq<Desired>)
    requires NothingFails(config, o, objects)
    ensures var r := ApplyStages(config, k, o, cluster, objects); !r.failed && CleanEntries(r.entries)
  {
    var one, two := StageOne(objects), SortedStageTwo(o.less, objects);
    SortElements(o.less, DesiredMeta, StageTwo(objects));
    ApplySucceeds(config, k, o, cluster, one, []);
    ApplyRecordsClean(config, k, o, cluster, one, []);
    var first := if one == [] then ApplyResult(cluster, [], false) else ApplyRest(config, k, o, cluster, one, []);
    ApplySucceeds(config, k, o, first.cluster, two, first.entries);
    ApplyRecordsClean(config, k, o, first.cluster, two, first.entries);
  }

  /** Whatever is in the cluster and whatever the inventory holds, as long as it parses. */
  lemma FlawlessEnds(w: World, k: Key, o: Oracle, objects: seq<Desired>, revision: string)
    requires AtRest(w, k, revision) && NothingFails(w.config, o, objects)
    ensures var e := EndingOf(w, k, o).ending;
      if AllMet(w.instances, k, w.instances[k].spec, revision)
      then e.Succeeds? && e.revision == revision && Parses(Refs(e.entries))
      else e == DependencyUnmet(revision)
  {
    EndingIs(w, k, o, revision);
    if AllMet(w.instances, k, w.instances[k].spec, revision) {
      FlawlessAfterBuild(w.config, k, o, objects, w.instances[k], revision, w.cluster);
    }
  }

  lemma EndingIs(w: World, k: Key, o: Oracle, revision: string)
    requires AtRest(w, k, revision) && o.sourceRead && o.statusPatched
    ensures EndingOf(w, k, o) ==
      if AllMet(w.instances, k, w.instances[k].spec, revision)
      then AfterBuild(w.config, k, o, w.instances[k], revision, w.cluster)
      else Summary(DependencyUnmet(revision), w.cluster)
  {
  }

  lemma FlawlessAfterBuild(config: Config, k: Key, o: Oracle, objects: seq<Desired>, i: Instance, revision: string,
          cluster: Cluster)
    requires Readable(i) && NothingFails(config, o, objects)
    ensures var e := AfterBuild(config, k, o, i, revision, cluster).ending;
      e.Succeeds? && e.revision == revision && Parses(Refs(e.entries))
  {
    StagesSucceed(config, k, o, cluster, objects);
    var r := ApplyStages(config, k, o, cluster, objects);
    CleanEntriesParse(r.entries);
    FlawlessAfterApply(config, k, o, i, revision, r.cluster, r.entries);
    assert AfterBuild(config, k, o, i, revision, cluster) ==
      AfterApply(config, k, o, i, revision, r.cluster, r.entries);
  }

  lemma CleanEntriesParse(entries: seq<Entry>)
    requires CleanEntries(entries)
    ensures Parses(Refs(entries))
  {
    InventoryRoundTrip(entries);
  }

  lemma FlawlessAfterApply(config: Config, k: Key, o: Oracle, i: Instance, revision: string, cluster: Cluster,
          entries: seq<Entry>)
    requires Readable(i) && Parses(Refs(entries)) && o.undeletable == {} && o.announced && o.healthy
    ensures AfterApply(config, k, o, i, revision, cluster, entries).ending == Succeeds(revision, entries)
  {
    if i.spec.prune {
      DeletesExactly(config, k, o, cluster, PlannedStale(o, i, entries), false);
    }
  }

  /** The inventory has to parse: with one that does not, every such reconciliation fails after its apply. */
  lemma UnreadableNeverReady(w: World, k: Key, o: Oracle, objects: seq<Desired>, revision: string)
    requires SlotCoherent(w.At(k)) && k in w.instances && k !in w.flights
    requires !w.instances[k].deleting && !w.instances[k].spec.suspend && !Readable(w.instances[k])
    requires GetSource(w, k, w.instances[k].spec.source) == Artifact(revision)
    requires AllMet(w.instances, k, w.instances[k].spec, revision) && NothingFails(w.config, o, objects)
    ensures var u := Reconcile(w, k, o);
      k in u.instances && !IsReady(u.instances[k].status) &&
          u.instances[k].status.inventory == w.instances[k].status.inventory
  {
    UnreadableAfterBuild(w.config, k, o, objects, w.instances[k], revision, w.cluster);
    ReconcileEndsAs(w, k, o);
    assert EndingOf(w, k, o).ending == NotApplied(revision);
  }

  lemma UnreadableAfterBuild(config: Config, k: Key, o: Oracle, objects: seq<Desired>, i: Instance, revision: string,
          cluster: Cluster)
    requires !Readable(i) && NothingFails(config, o, objects)
    ensures AfterBuild(config, k, o, i, revision, cluster).ending == NotApplied(revision)
  {
    StagesSucceed(config, k, o, cluster, objects);
  }

  // ---------------------------------------------------------------- one run in a fleet

  lemma RunAtRest(w: World, k: Key, o: Oracle, objects: seq<Desired>, revision: string)
    requires AtRest(w, k, revision) && NothingFails(w.config, o, objects)
    ensures var u := Reconcile(w, k, o);
      && RanAlone(w, u, k, w.instances[k]) && AtRest(u, k, revision)
      && (AllMet(w.instances, k, w.instances[k].spec, revision) ==> ReadyAt(u, k, revision))
  {
    var u := Reconcile(w, k, o);
    var e := EndingOf(w, k, o).ending;
    ReconcileAlone(w, k, o);
    FlawlessEnds(w, k, o, objects, revision);
    ReconcileEndsAs(w, k, o);
    assert u.At(k).instance == Some(u.instances[k]);
    assert Tells(w.instances[k], e, u.instances[k].status);
    if e.Succeeds? {
      assert IsReady(u.instances[k].status) && u.instances[k].status.conditions != [];
    }
  }

  lemma RunInFleet(w: World, keys: set<Key>, height: Height, revision: string, efforts: Efforts, k: Key)
    requires Fleet(w, keys, height, revision) && AllFaultFree(w.config, keys, efforts) && k in keys
    requires SlotCoherent(w.At(k))
    ensures var u := Reconcile(w, k, efforts(k).oracle);
      && Fleet(u, keys, height, revision) && u.config == w.config
      && (AllMet(w.instances, k, w.instances[k].spec, revision) ==> ReadyAt(u, k, revision))
      && (forall j :: j in keys ==> u.instances[j].spec == w.instances[j].spec)
      && (forall j :: j in keys && j != k ==> u.instances[j] == w.instances[j])
  {
    var u := Reconcile(w, k, efforts(k).oracle);
    assert AtRest(w, k, revision);
    RunAtRest(w, k, efforts(k).oracle, efforts(k).objects, revision);
    forall j | j in keys
      ensures j in u.instances && AtRest(u, j, revision) && u.instances[j].spec == w.instances[j].spec
      ensures j != k ==> u.instances[j] == w.instances[j]
    {
      assert AtRest(w, j, revision);
      if j != k {
        StillAtRest(w, u, k, j, revision);
      } else {
        assert u.At(k).instance == Some(u.instances[k]);
      }
    }
    forall j | j in keys
      ensures Descends(keys, j, u.instances[j].spec, height)
    {
      assert Descends(keys, j, w.instances[j].spec, height);
    }
  }

  lemma StillAtRest(w: World, u: World, k: Key, j: Key, revision: string)
    requires k in w.instances && RanAlone(w, u, k, w.instances[k]) && AtRest(w, j, revision) && j != k
    ensures AtRest(u, j, revision) && u.instances[j] == w.instances[j]
  {
    assert u.At(j) == w.At(j);
    assert w.At(j).instance == Some(w.instances[j]) && w.At(j).flight == None;
  }

  /** An instance whose dependencies are all ready at the revision passes its check. */
  lemma ReadyDependenciesMeet(w: World, k: Key, revision: string)
    requires k in w.instances
    requires forall d :: d in Dependencies(k, w.instances[k].spec) ==> ReadyAt(w, d, revision)
    ensures AllMet(w.instances, k, w.instances[k].spec, revision)
  {
    var spec := w.instances[k].spec;
    forall i | 0 <= i < |spec.dependsOn|
      ensures DependencyMet(w.instances, DependencyKey(k, spec.dependsOn[i]), spec, revision)
    {
      var d := DependencyKey(k, spec.dependsOn[i]);
      assert d in Dependencies(k, spec) && ReadyAt(w, d, revision);
    }
  }

  // ---------------------------------------------------------------- rounds

  /** One round: try each instance of a list, one after the other. */
  ghost function OneRound(w: World, keys: set<Key>, height: Height, revision: string, efforts: Efforts,
          order: seq<Key>): (u: World)
    requires Fleet(w, keys, height, revision) && AllFaultFree(w.config, keys, efforts) && Elements(order) <= keys
    ensures Fleet(u, keys, height, revision) && u.config == w.config
    decreases |order|
  {
    if order == [] then w
    else
      var init, k := order[..|order| - 1], order[|order| - 1];
      assert order == init + [k];
      assert k in Elements(order) && Elements(init) <= Elements(order);
      var v := OneRound(w, keys, height, revision, efforts, init);
      assert SlotCoherent(v.At(k));
      RunInFleet(v, keys, height, revision, efforts, k);
      Reconcile(v, k, efforts(k).oracle)
  }

  /** One more run keeps everyone else ready, and makes `k` ready when its dependencies are. */
  lemma RunLifts(v: World, keys: set<Key>, height: Height, revision: string, efforts: Efforts, k: Key, j: Key)
    requires Fleet(v, keys, height, revision) && AllFaultFree(v.config, keys, efforts) && k in keys && j in keys
    requires j == k ==> forall d :: d in Dependencies(k, v.instances[k].spec) ==> ReadyAt(v, d, revision)
    requires j != k ==> ReadyAt(v, j, revision)
    ensures ReadyAt(Reconcile(v, k, efforts(k).oracle), j, revision)
  {
    assert AtRest(v, k, revision);
    assert SlotCoherent(v.At(k));
    RunInFleet(v, keys, height, revision, efforts, k);
    if j == k {
      ReadyDependenciesMeet(v, k, revision);
    }
  }

  /** The last run of a round. */
  lemma LastOfRound(w: World, keys: set<Key>, height: Height, revision: string, efforts: Efforts, init: seq<Key>,
          k: Key)
    requires Fleet(w, keys, height, revision) && AllFaultFree(w.config, keys, efforts) && Elements(init + [k]) <= keys
    ensures Elements(init) <= keys && k in keys
    ensures var v := OneRound(w, keys, height, revision, efforts, init);
      OneRound(w, keys, height, revision, efforts, init + [k]) == Reconcile(v, k, efforts(k).oracle)
  {
    var order := init + [k];
    assert order[..|order| - 1] == init && order[|order| - 1] == k;
    assert k in order && k in Elements(order);
    assert forall j :: j in init ==> j in order;
  }

  /** The members below a height are ready, and so are the listed ones at it. */
  ghost predicate Lifted(w: World, keys: set<Key>, height: Height, revision: string, order: seq<Key>, n: nat) {
    forall j :: j in keys && (height(j) < n || (height(j) == n && j in order)) ==> ReadyAt(w, j, revision)
  }

  lemma RunLiftsOne(v: World, keys: set<Key>, height: Height, revision: string, efforts: Efforts, init: seq<Key>,
          k: Key, n: nat, j: Key)
    requires Fleet(v, keys, height, revision) && AllFaultFree(v.config, keys, efforts) && k in keys && j in keys
    requires Lifted(v, keys, height, revision, init, n)
    requires height(j) < n || (height(j) == n && j in init + [k])
    ensures ReadyAt(Reconcile(v, k, efforts(k).oracle), j, revision)
  {
    assert AtRest(v, k, revision);
    assert Descends(keys, k, v.instances[k].spec, height);
    RunLifts(v, keys, height, revision, efforts, k, j);
  }

  /** A round keeps what is ready ready, and lifts every instance it tries by one level. */
  lemma {:induction false} RoundLifts(w: World, keys: set<Key>, height: Height, revision: string, efforts: Efforts,
          order: seq<Key>, n: nat)
    requires Fleet(w, keys, height, revision) && AllFaultFree(w.config, keys, efforts) && Elements(order) <= keys
    requires Lifted(w, keys, height, revision, [], n)
    ensures Lifted(OneRound(w, keys, height, revision, efforts, order), keys, height, revision, order, n)
    decreases |order|
  {
    if order == [] {
    } else {
      var init, k := order[..|order| - 1], order[|order| - 1];
      assert order == init + [k];
      LastOfRound(w, keys, height, revision, efforts, init, k);
      RoundLifts(w, keys, height, revision, efforts, init, n);
      var v := OneRound(w, keys, height, revision, efforts, init);
      forall j | j in keys && (height(j) < n || (height(j) == n && j in order))
        ensures ReadyAt(Reconcile(v, k, efforts(k).oracle), j, revision)
      {
        RunLiftsOne(v, keys, height, revision, efforts, init, k, n, j);
      }
    }
  }

  /** Several rounds, each in its own order, each trying everyone. */
  ghost function Rounds(w: World, keys: set<Key>, height: Height, revision: string, efforts: Efforts,
          orders: seq<seq<Key>>): (u: World)
    requires Fleet(w, keys, height, revision) && AllFaultFree(w.config, keys, efforts)
    requires forall order :: order in orders ==> Elements(order) == keys
    ensures Fleet(u, keys, height, revision) && u.config == w.config
    decreases |orders|
  {
    if orders == [] then w
    else
      var init, last := orders[..|orders| - 1], orders[|orders| - 1];
      assert orders == init + [last];
      OneRound(Rounds(w, keys, height, revision, efforts, init), keys, height, revision, efforts, last)
  }

  /**
   Convergence. With the source at rest at a revision, an acyclic dependency graph, fixed specs and nothing
   failing, whatever the instances went through before and whatever else is in the cluster: after as many
   rounds as dependencies are deep, in any orders, every instance is ready at the revision.
   */
  lemma {:induction false} RoundsConverge(w: World, keys: set<Key>, height: Height, revision: string,
          efforts: Efforts, orders: seq<seq<Key>>)
    requires Fleet(w, keys, height, revision) && AllFaultFree(w.config, keys, efforts)
    requires forall order :: order in orders ==> Elements(order) == keys
    ensures forall k :: k in keys && height(k) < |orders| ==>
      ReadyAt(Rounds(w, keys, height, revision, efforts, orders), k, revision)
    decreases |orders|
  {
    if orders != [] {
      var init, last := orders[..|orders| - 1], orders[|orders| - 1];
      assert orders == init + [last];
      var v := Rounds(w, keys, height, revision, efforts, init);
      RoundsConverge(w, keys, height, revision, efforts, init);
      RoundLifts(v, keys, height, revision, efforts, last, |init|);
      forall k | k in keys && height(k) < |orders|
        ensures ReadyAt(OneRound(v, keys, height, revision, efforts, last), k, revision)
      {
        assert k in Elements(last);
      }
    }
  }

  /** A round leaves every spec as it is. */
  lemma {:induction false} RoundKeepsSpecs(w: World, keys: set<Key>, height: Height, revision: string,
          efforts: Efforts, order: seq<Key>, j: Key)
    requires Fleet(w, keys, height, revision) && AllFaultFree(w.config, keys, efforts)
    requires Elements(order) <= keys && j in keys
    ensures OneRound(w, keys, height, revision, efforts, order).instances[j].spec == w.instances[j].spec
    decreases |order|
  {
    if order != [] {
      var init, k := order[..|order| - 1], order[|order| - 1];
      assert order == init + [k];
      LastOfRound(w, keys, height, revision, efforts, init, k);
      RoundKeepsSpecs(w, keys, height, revision, efforts, init, j);
      var v := OneRound(w, keys, height, revision, efforts, init);
      assert AtRest(v, k, revision);
      RunInFleet(v, keys, height, revision, efforts, k);
    }
  }

  /** A round leaves alone whom it does not try. */
  lemma {:induction false} RoundSpares(w: World, keys: set<Key>, height: Height, revision: string, efforts: Efforts,
          order: seq<Key>, j: Key)
    requires Fleet(w, keys, height, revision) && AllFaultFree(w.config, keys, efforts) && Elements(order) <= keys
    requires j in keys && j !in order
    ensures OneRound(w, keys, height, revision, efforts, order).instances[j] == w.instances[j]
    decreases |order|
  {
    if order != [] {
      var init, k := order[..|order| - 1], order[|order| - 1];
      assert order == init + [k] && k in order && (j in init ==> j in order);
      LastOfRound(w, keys, height, revision, efforts, init, k);
      RoundSpares(w, keys, height, revision, efforts, init, j);
      var v := OneRound(w, keys, height, revision, efforts, init);
      assert AtRest(v, k, revision);
      RunInFleet(v, keys, height, revision, efforts, k);
    }
  }

  /** The dependencies of a listed instance are listed, or ready already. */
  ghost predicate Provided(w: World, order: seq<Key>, revision: string) {
    forall k, d :: k in order && DependsOn(w.instances, k, d) ==> d in order || ReadyAt(w, d, revision)
  }

  /** Without its last instance, a list in dependency order is one still, and lacks nothing. */
  lemma ShorterOrder(w: World, keys: set<Key>, height: Height, revision: string, init: seq<Key>, k: Key)
    requires Fleet(w, keys, height, revision) && Elements(init + [k]) <= keys
    requires DependenciesFirst(w.instances, init + [k]) && Provided(w, init + [k], revision)
    ensures k in keys && DependenciesFirst(w.instances, init) && Provided(w, init, revision)
    ensures forall d :: d in Dependencies(k, w.instances[k].spec) ==>
      d in init || (d !in init + [k] && ReadyAt(w, d, revision))
  {
    var order := init + [k];
    assert forall i :: 0 <= i < |init| ==> order[i] == init[i];
    assert order[|init|] == k && k in order && k in Elements(order);
    assert forall j :: j in order <==> j in init || j == k;
    forall j, d | j in order && DependsOn(w.instances, j, d) && d in order
      ensures j in init ==> d in init
      ensures j == k ==> d in init
    {
      assert j in Elements(order) && Descends(keys, j, w.instances[j].spec, height);
      assert height(d) < height(j);
      var n :| 0 <= n < |order| && order[n] == j && (j in init ==> n < |init|);
      var m :| 0 <= m < |order| && order[m] == d;
      assert m < n;
    }
  }

  lemma RunServes(v: World, keys: set<Key>, height: Height, revision: string, efforts: Efforts, init: seq<Key>,
          k: Key, j: Key)
    requires Fleet(v, keys, height, revision) && AllFaultFree(v.config, keys, efforts)
    requires Elements(init + [k]) <= keys && k in keys && j in init + [k]
    requires forall d :: d in Dependencies(k, v.instances[k].spec) ==> ReadyAt(v, d, revision)
    requires forall i :: i in init ==> ReadyAt(v, i, revision)
    ensures ReadyAt(Reconcile(v, k, efforts(k).oracle), j, revision)
  {
    assert j in Elements(init + [k]);
    RunLifts(v, keys, height, revision, efforts, k, j);
  }

  /** In dependency order one round is enough, if what is not tried and needed is ready. */
  lemma {:induction false} SortedRoundSuffices(w: World, keys: set<Key>, height: Height, revision: string,
          efforts: Efforts, order: seq<Key>)
    requires Fleet(w, keys, height, revision) && AllFaultFree(w.config, keys, efforts) && Elements(order) <= keys
    requires DependenciesFirst(w.instances, order) && Provided(w, order, revision)
    ensures var u := OneRound(w, keys, height, revision, efforts, order);
      forall j :: j in order ==> ReadyAt(u, j, revision)
    decreases |order|
  {
    if order == [] {
    } else {
      var init, k := order[..|order| - 1], order[|order| - 1];
      assert order == init + [k];
      LastOfRound(w, keys, height, revision, efforts, init, k);
      ShorterOrder(w, keys, height, revision, init, k);
      SortedRoundSuffices(w, keys, height, revision, efforts, init);
      RoundKeepsSpecs(w, keys, height, revision, efforts, init, k);
      var v := OneRound(w, keys, height, revision, efforts, init);
      DependenciesReady(w, keys, height, revision, efforts, init, k);
      forall j | j in order
        ensures ReadyAt(Reconcile(v, k, efforts(k).oracle), j, revision)
      {
        RunServes(v, keys, height, revision, efforts, init, k, j);
      }
    }
  }

  lemma DependenciesReady(w: World, keys: set<Key>, height: Height, revision: string, efforts: Efforts,
          init: seq<Key>, k: Key)
    requires Fleet(w, keys, height, revision) && AllFaultFree(w.config, keys, efforts)
    requires Elements(init) <= keys && k in keys
    requires forall d :: d in Dependencies(k, w.instances[k].spec) ==> d in init || ReadyAt(w, d, revision)
    requires forall j :: j in init ==> ReadyAt(OneRound(w, keys, height, revision, efforts, init), j, revision)
    ensures var v := OneRound(w, keys, height, revision, efforts, init);
      forall d :: d in Dependencies(k, w.instances[k].spec) ==> ReadyAt(v, d, revision)
  {
    var v := OneRound(w, keys, height, revision, efforts, init);
    assert Descends(keys, k, w.instances[k].spec, height);
    forall d | d in Dependencies(k, w.instances[k].spec)
      ensures ReadyAt(v, d, revision)
    {
      if d !in init {
        RoundSpares(w, keys, height, revision, efforts, init, d);
        assert AtRest(v, d, revision);
      }
    }
  }

  lemma FleetIsAcyclic(w: World, keys: set<Key>, height: Height, revision: string, some: set<Key>)
    requires Fleet(w, keys, height, revision) && some <= keys
    ensures Acyclic(w.instances, some)
  {
    forall k, d | k in some && d in some && DependsOn(w.instances, k, d)
      ensures height(d) < height(k)
    {
      assert Descends(keys, k, w.instances[k].spec, height);
    }
    assert Descending(w.instances, some, height);
  }

  /**
   How a new revision spreads: the dependency sort of the requests succeeds, and one round in the order it gives
   makes every instance ready at the revision, if those not asked are.
   */
  lemma RevisionSpreads(w: World, keys: set<Key>, height: Height, revision: string, efforts: Efforts, source: Key,
          sorted: Option<seq<Key>>)
    requires Fleet(w, keys, height, revision) && AllFaultFree(w.config, keys, efforts)
    requires var requested := Requests(w.instances, source, revision);
      && requested <= keys && SortsDependencies(w.instances, requested, sorted)
      && forall k :: k in keys && k !in requested ==> ReadyAt(w, k, revision)
    ensures sorted.Some? && Elements(sorted.value) <= keys
    ensures forall k :: k in keys ==> ReadyAt(OneRound(w, keys, height, revision, efforts, sorted.value), k, revision)
  {
    var requested := Requests(w.instances, source, revision);
    FleetIsAcyclic(w, keys, height, revision, requested);
    var order := sorted.value;
    assert Provided(w, order, revision) by {
      forall k, d | k in order && DependsOn(w.instances, k, d)
        ensures d in order || ReadyAt(w, d, revision)
      {
        assert k in Elements(order) && Descends(keys, k, w.instances[k].spec, height);
        assert d in requested ==> d in Elements(order);
      }
    }
    SortedRoundSuffices(w, keys, height, revision, efforts, order);
    forall k | k in keys
      ensures ReadyAt(OneRound(w, keys, height, revision, efforts, order), k, revision)
    {
      if k in requested {
        assert k in Elements(order);
      } else {
        assert k !in order by { assert k !in Elements(order); }
        RoundSpares(w, keys, height, revision, efforts, order, k);
        assert AtRest(OneRound(w, keys, height, revision, efforts, order), k, revision);
      }
    }
  }
}
