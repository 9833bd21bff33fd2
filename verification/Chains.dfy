/**
 How many rounds a fleet needs: as many as the longest chain of dependencies has members. A height of the
 dependency graph is only evidence that it has no cycle; the chains are what counts.
 */
module Chains {
  import opened Wrappers
  import opened StaleObjects
  import opened Machine
  import opened Convergence

  type Instances = map<Key, Instance>

  /** Each member depends on the next. */
  predicate IsChain(instances: Instances, chain: seq<Key>) {
    chain != [] && forall i :: 0 <= i < |chain| - 1 ==> DependsOn(instances, chain[i], chain[i + 1])
  }

  /** Instances that depend on one another only, every dependency lower. */
  ghost predicate Layered(instances: Instances, keys: set<Key>, height: Height) {
    forall k :: k in keys ==> k in instances && Descends(keys, k, instances[k].spec, height)
  }

  /** How many dependencies follow one another from `k` on, at most. */
  ghost function Depth(instances: Instances, keys: set<Key>, height: Height, k: Key): nat
    requires Layered(instances, keys, height) && k in keys
    decreases height(k), |Dependencies(k, instances[k].spec)| + 1
  {
    Beyond(instances, keys, height, k, Dependencies(k, instances[k].spec))
  }

  /** The same, if the next one is one of these. */
  ghost function Beyond(instances: Instances, keys: set<Key>, height: Height, k: Key, ds: set<Key>): (n: nat)
    requires Layered(instances, keys, height) && k in keys && ds <= Dependencies(k, instances[k].spec)
    ensures forall d :: d in ds ==> d in keys && height(d) < height(k) && Depth(instances, keys, height, d) < n
    ensures ds != {} ==> exists d :: d in ds && n == Depth(instances, keys, height, d) + 1
    decreases height(k), |ds|
  {
    if ds == {} then 0
    else
      var d :| d in ds;
      assert Descends(keys, k, instances[k].spec, height);
      var one, others := Depth(instances, keys, height, d) + 1, Beyond(instances, keys, height, k, ds - {d});
      if one > others then one else others
  }

  lemma LongerChain(instances: Instances, k: Key, rest: seq<Key>)
    requires IsChain(instances, rest) && DependsOn(instances, k, rest[0])
    ensures IsChain(instances, [k] + rest) && Elements([k] + rest) == {k} + Elements(rest)
  {
    var chain := [k] + rest;
    forall i | 0 <= i < |chain| - 1
      ensures DependsOn(instances, chain[i], chain[i + 1])
    {
      if i > 0 {
        assert DependsOn(instances, rest[i - 1], rest[i]);
      }
    }
  }

  /** There is a chain of this depth. */
  lemma {:induction false} DeepestChain(instances: Instances, keys: set<Key>, height: Height, k: Key)
    returns (chain: seq<Key>)
    requires Layered(instances, keys, height) && k in keys
    ensures IsChain(instances, chain) && chain[0] == k && Elements(chain) <= keys
    ensures |chain| == Depth(instances, keys, height, k) + 1
    decreases height(k)
  {
    var ds := Dependencies(k, instances[k].spec);
    if ds == {} {
      chain := [k];
    } else {
      var d :| d in ds && Depth(instances, keys, height, k) == Depth(instances, keys, height, d) + 1;
      var rest := DeepestChain(instances, keys, height, d);
      chain := [k] + rest;
      LongerChain(instances, k, rest);
    }
  }

  /** And none goes deeper. */
  lemma {:induction false} NoDeeperChain(instances: Instances, keys: set<Key>, height: Height, chain: seq<Key>)
    requires Layered(instances, keys, height) && IsChain(instances, chain) && chain[0] in keys
    ensures |chain| <= Depth(instances, keys, height, chain[0]) + 1
    decreases |chain|
  {
    if |chain| > 1 {
      var rest := chain[1..];
      assert DependsOn(instances, chain[0], chain[1]);
      forall i | 0 <= i < |rest| - 1
        ensures DependsOn(instances, rest[i], rest[i + 1])
      {
        assert DependsOn(instances, chain[i + 1], chain[i + 1 + 1]);
      }
      NoDeeperChain(instances, keys, height, rest);
    }
  }

  ghost function Depths(instances: Instances, keys: set<Key>, height: Height): Height
    requires Layered(instances, keys, height)
  {
    k => if k in keys then Depth(instances, keys, height, k) else 0
  }

  /** The depth is itself a height, and by the chains the least there is. */
  lemma DepthIsHeight(w: World, keys: set<Key>, height: Height, revision: string)
    requires Fleet(w, keys, height, revision)
    ensures Layered(w.instances, keys, height)
    ensures Fleet(w, keys, Depths(w.instances, keys, height), revision)
  {
    assert Layered(w.instances, keys, height);
    forall k | k in keys
      ensures Descends(keys, k, w.instances[k].spec, Depths(w.instances, keys, height))
    {
      assert Descends(keys, k, w.instances[k].spec, height);
    }
  }

  // ---------------------------------------------------------------- rounds do not depend on the height

  lemma {:induction false} RoundAnyHeight(w: World, keys: set<Key>, g: Height, h: Height, revision: string,
          efforts: Efforts, order: seq<Key>)
    requires Fleet(w, keys, g, revision) && Fleet(w, keys, h, revision)
    requires AllFaultFree(w.config, keys, efforts) && Elements(order) <= keys
    ensures OneRound(w, keys, g, revision, efforts, order) == OneRound(w, keys, h, revision, efforts, order)
    decreases |order|
  {
    if order != [] {
      var init, k := order[..|order| - 1], order[|order| - 1];
      assert order == init + [k];
      LastOfRound(w, keys, g, revision, efforts, init, k);
      LastOfRound(w, keys, h, revision, efforts, init, k);
      RoundAnyHeight(w, keys, g, h, revision, efforts, init);
    }
  }

  lemma {:induction false} RoundsAnyHeight(w: World, keys: set<Key>, g: Height, h: Height, revision: string,
          efforts: Efforts, orders: seq<seq<Key>>)
    requires Fleet(w, keys, g, revision) && Fleet(w, keys, h, revision) && AllFaultFree(w.config, keys, efforts)
    requires forall order :: order in orders ==> Elements(order) == keys
    ensures Rounds(w, keys, g, revision, efforts, orders) == Rounds(w, keys, h, revision, efforts, orders)
    decreases |orders|
  {
    if orders != [] {
      var init, last := orders[..|orders| - 1], orders[|orders| - 1];
      assert orders == init + [last];
      RoundsAnyHeight(w, keys, g, h, revision, efforts, init);
      RoundAnyHeight(Rounds(w, keys, g, revision, efforts, init), keys, g, h, revision, efforts, last);
    }
  }

  /**
   Convergence, counted in chains: once there have been as many rounds as the longest chain of dependencies has
   members, every instance is ready at the revision.
   */
  lemma LongestChainSuffices(w: World, keys: set<Key>, height: Height, revision: string, efforts: Efforts,
          orders: seq<seq<Key>>)
    requires Fleet(w, keys, height, revision) && AllFaultFree(w.config, keys, efforts)
    requires forall order :: order in orders ==> Elements(order) == keys
    requires forall chain :: IsChain(w.instances, chain) && Elements(chain) <= keys ==> |chain| <= |orders|
    ensures forall k :: k in keys ==> ReadyAt(Rounds(w, keys, height, revision, efforts, orders), k, revision)
  {
    DepthIsHeight(w, keys, height, revision);
    var depth := Depths(w.instances, keys, height);
    RoundsAnyHeight(w, keys, height, depth, revision, efforts, orders);
    RoundsConverge(w, keys, depth, revision, efforts, orders);
    forall k | k in keys
      ensures depth(k) < |orders|
    {
      var chain := DeepestChain(w.instances, keys, height, k);
    }
  }
}
