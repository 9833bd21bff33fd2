/**
 Who gets reconciled again, and when: the source index, the requests for a new revision
 (controllers/cueinstance_indexers.go, controllers/cueinstance_source_predicate.go) and the work queue.
 */
module Wakeups {
  import opened Wrappers
  import opened Statuses
  import opened Machine
  import opened Coherence

  // ---------------------------------------------------------------- the queue

  predicate Punctual(spec: Spec) {
    spec.interval > 0 && spec.RetryInterval() > 0
  }

  predicate AsksPunctual(e: Event) {
    e.Of? && (e.move.Create? || e.move.Edit?) ==> Punctual(e.move.spec)
  }

  predicate Remembered(s: Slot) {
    && (s.instance.Some? ==>
          && Punctual(s.instance.value.spec)
          && (s.instance.value.deleting || !s.instance.value.spec.suspend ==> s.queued || s.flight.Some?))
    && (s.flight.Some? ==>
          && Punctual(s.flight.value.base.spec)
          && (s.flight.value.phase.Closing? ==> s.flight.value.phase.after > 0))
  }

  lemma RememberedEarly(w: World, k: Key, move: Move)
    requires Remembered(w.At(k)) && w.config.requeueDependency > 0 && (Opening(move) || Checks(move) || Builds(move))
    ensures Remembered(TurnOf(w, k, move).slot)
  {
  }

  lemma RememberedMiddle(w: World, k: Key, move: Move)
    requires Remembered(w.At(k)) && (Applies(move) || Prunes(move) || Assesses(move))
    ensures Remembered(TurnOf(w, k, move).slot)
  {
  }

  lemma RememberedClose(w: World, k: Key, move: Move)
    requires Remembered(w.At(k)) && Closes(move)
    ensures Remembered(TurnOf(w, k, move).slot)
  {
  }

  lemma RememberedLeaves(w: World, k: Key, move: Move)
    requires Remembered(w.At(k)) && Leaves(move)
    ensures Remembered(TurnOf(w, k, move).slot)
  {
  }

  lemma RememberedOutside(w: World, k: Key, move: Move)
    requires Remembered(w.At(k)) && AsksPunctual(Of(k, move)) && Outside(move)
    ensures Remembered(TurnOf(w, k, move).slot)
  {
  }

  lemma RememberedStep(w: World, e: Event)
    requires Coherent(w) && (forall k :: Remembered(w.At(k))) && w.config.requeueDependency > 0 && AsksPunctual(e)
    ensures forall k :: Remembered(Step(w, e).At(k))
  {
    forall k
      ensures Remembered(Step(w, e).At(k))
    {
      assert Remembered(w.At(k)) && SlotCoherent(w.At(k));
      if e.Of? {
        WithAt(w, e.k, TurnOf(w, e.k, e.move), k);
        if e.k == k {
          if Opening(e.move) || Checks(e.move) || Builds(e.move) {
            RememberedEarly(w, k, e.move);
          } else if Closes(e.move) {
            RememberedClose(w, k, e.move);
          } else if Leaves(e.move) {
            RememberedLeaves(w, k, e.move);
          } else if Outside(e.move) {
            RememberedOutside(w, k, e.move);
          } else {
            RememberedMiddle(w, k, e.move);
          }
        }
      }
    }
  }

  /**
   Nothing is forgotten. With positive intervals, in every state of every run, crashes and failed calls
   included, an instance that is being deleted or is not suspended is queued or in flight.
   */
  lemma {:induction false} NothingForgotten(config: Config, es: seq<Event>)
    requires config.requeueDependency > 0
    requires forall e :: e in es ==> AsksPunctual(e)
    ensures var w := Run(config, es);
      && w.config == config
      && (forall k :: Remembered(w.At(k)))
      && forall k :: k in w.instances && (w.instances[k].deleting || !w.instances[k].spec.suspend) ==>
          k in w.pending || k in w.flights
  {
    if es != [] {
      assert es == es[..|es| - 1] + [es[|es| - 1]];
      NothingForgotten(config, es[..|es| - 1]);
      CoherentRun(config, es[..|es| - 1]);
      RememberedStep(Run(config, es[..|es| - 1]), es[|es| - 1]);
    }
    var w := Run(config, es);
    forall k | k in w.instances && (w.instances[k].deleting || !w.instances[k].spec.suspend)
      ensures k in w.pending || k in w.flights
    {
      assert Remembered(w.At(k));
    }
  }

  // ---------------------------------------------------------------- the index

  /** Asked with this repository alone offering an artifact, `getSource` finds it. */
  predicate ResolvesTo(w: World, k: Key, spec: Spec, source: Key, revision: string) {
    GetSource(w.(sources := map[source := Some(revision)]), k, spec.source) == Artifact(revision)
  }

  /** The index names the repository that `getSource` resolves to, except for references it refuses to follow. */
  lemma IndexAgrees(w: World, k: Key, spec: Spec, source: Key, revision: string)
    ensures ResolvesTo(w, k, spec, source, revision) <==>
      source in IndexKeys(k, spec) && !(w.config.noCrossNamespaceRefs && source.namespace != k.namespace)
  {
  }

  /** An update of a source counts exactly when it offers an artifact that differs from the one offered before. */
  lemma RevisionChangedMeans(before: Option<string>, after: Option<string>)
    ensures RevisionChanged(before, after) <==> after.Some? && after != before
  {
  }

  function Position(s: seq<Key>, k: Key): nat {
    if s == [] || s[0] == k then 0 else 1 + Position(s[1..], k)
  }

  lemma {:induction false} PositionOf(s: seq<Key>, i: nat)
    requires i < |s| && forall j :: 0 <= j < i ==> s[j] != s[i]
    ensures Position(s, s[i]) == i
  {
    if i > 0 {
      assert s[0] != s[i];
      PositionOf(s[1..], i - 1);
    }
  }

  predicate NoneDependsOnItself(instances: map<Key, Instance>, keys: set<Key>) {
    forall k :: k in keys ==> !DependsOn(instances, k, k)
  }

  /** A list in dependency order shows that there is no cycle. */
  lemma OrderMeansAcyclic(instances: map<Key, Instance>, s: seq<Key>)
    requires NoDuplicates(s) && DependenciesFirst(instances, s) && NoneDependsOnItself(instances, Elements(s))
    ensures Acyclic(instances, Elements(s))
  {
    var height: Key -> nat := k => Position(s, k);
    forall k, d | k in Elements(s) && d in Elements(s) && DependsOn(instances, k, d)
      ensures height(d) < height(k)
    {
      var i :| 0 <= i < |s| && s[i] == k;
      var j :| 0 <= j < |s| && s[j] == d;
      PositionOf(s, i);
      PositionOf(s, j);
    }
    assert Descending(instances, Elements(s), height);
  }

  /** So the sort succeeds exactly for instances without a cycle, self-dependencies aside. */
  lemma SortsExactlyAcyclic(instances: map<Key, Instance>, keys: set<Key>, sorted: Option<seq<Key>>)
    requires SortsDependencies(instances, keys, sorted) && NoneDependsOnItself(instances, keys)
    ensures sorted.Some? <==> Acyclic(instances, keys)
  {
    if sorted.Some? {
      OrderMeansAcyclic(instances, sorted.value);
    }
  }

  /** The instance points at the source and has not attempted the revision. */
  predicate Wants(w: World, k: Key, source: Key, revision: string) {
    k in w.instances && source in IndexKeys(k, w.instances[k].spec) && w.instances[k].status.lastAttempted != revision
  }

  /**
   A new revision. If the instances that point at the source and have not attempted it form no cycle, exactly
   they are woken; if they form one, nobody is. The graph alone decides, and whoever was queued stays queued.
   */
  lemma NewRevisionWakes(w: World, source: Key, revision: string, sorted: Option<seq<Key>>, k: Key)
    requires Offered(w, source) != Some(revision)
    requires SortsDependencies(w.instances, Requests(w.instances, source, revision), sorted)
    ensures var v := Step(w, SetSource(source, Some(revision), sorted));
      var requested := Requests(w.instances, source, revision);
      && Offered(v, source) == Some(revision)
      && (Acyclic(w.instances, requested) ==> (k in v.pending <==> k in w.pending || Wants(w, k, source, revision)))
      && (NoneDependsOnItself(w.instances, requested) && !Acyclic(w.instances, requested) ==> v.pending == w.pending)
  {
    RevisionChangedMeans(Offered(w, source), Some(revision));
    var requested := Requests(w.instances, source, revision);
    assert k in requested <==> Wants(w, k, source, revision);
    if NoneDependsOnItself(w.instances, requested) {
      SortsExactlyAcyclic(w.instances, requested, sorted);
    }
  }

  /** From `w` to `v` a source has moved, and `sorted` is what the dependency sort made of the requests. */
  ghost predicate SourceMoves(w: World, v: World, source: Key, artifact: Option<string>, sorted: Option<seq<Key>>) {
    && v == SetSourceStep(w, source, artifact, sorted)
    && (RevisionChanged(Offered(w, source), artifact) ==>
          SortsDependencies(w.instances, Requests(w.instances, source, artifact.value), sorted))
  }

  /** The printed form under which the index and the request handler meet. */
  function IndexString(source: Key): string {
    source.namespace + "/" + source.name
  }

  /** No two repositories share an index entry: a namespace contains no slash. */
  lemma IndexStringInjective(a: Key, b: Key)
    requires '/' !in a.namespace && '/' !in b.namespace && IndexString(a) == IndexString(b)
    ensures a == b
  {
    var s := IndexString(a);
    assert s[|a.namespace|] == '/' && s[|b.namespace|] == '/';
    assert a.namespace == s[..|a.namespace|] && b.namespace == s[..|b.namespace|];
    assert a.name == s[|a.namespace| + 1..] && b.name == s[|b.namespace| + 1..];
  }

  // ---------------------------------------------------------------- the requests

  /** What the indexed list call returns: every instance that points at the source, once. */
  ghost predicate AllPointing(instances: map<Key, Instance>, source: Key, items: seq<Key>) {
    && NoDuplicates(items)
    && forall k :: k in items <==> k in instances && source in IndexKeys(k, instances[k].spec)
  }

  /** The dependency sort, by contract, on lists that name each instance once. */
  ghost predicate IsDependencySort(instances: map<Key, Instance>, sort: seq<Key> -> Option<seq<Key>>) {
    forall list :: NoDuplicates(list) ==> SortsDependencies(instances, Elements(list), sort(list))
  }

  /**
   The requests are all the instances to wake, each once and dependencies first; or none, and then only
   because the sort has failed, which it does not without a cycle.
   */
  method RequestsForRevisionChange(instances: map<Key, Instance>, source: Key, artifact: Option<string>,
          items: seq<Key>, sort: seq<Key> -> Option<seq<Key>>)
    returns (reqs: seq<Key>)
    requires AllPointing(instances, source, items) && IsDependencySort(instances, sort)
    ensures artifact.None? ==> reqs == []
    ensures artifact.Some? ==>
      var requested := Requests(instances, source, artifact.value);
      || SortsDependencies(instances, requested, Some(reqs))
      || (reqs == [] && SortsDependencies(instances, requested, None))
    ensures artifact.Some? && Acyclic(instances, Requests(instances, source, artifact.value)) ==>
      Elements(reqs) == Requests(instances, source, artifact.value)
    ensures NoDuplicates(reqs) && DependenciesFirst(instances, reqs)
  {
    if artifact.None? {
      return [];
    }
    var dd: seq<Key> := [];
    for i := 0 to |items|
      invariant forall k :: k in dd <==> k in items[..i] && instances[k].status.lastAttempted != artifact.value
      invariant NoDuplicates(dd)
    {
      assert items[i] in items;
      if artifact.value == instances[items[i]].status.lastAttempted {
        continue;
      }
      assert items[i] !in items[..i];
      dd := dd + [items[i]];
    }
    assert items[..|items|] == items;
    var sorted := sort(dd);
    assert Elements(dd) == Requests(instances, source, artifact.value);
    if sorted.None? {
      return [];
    }
    reqs := [];
    for i := 0 to |sorted.value|
      invariant reqs == sorted.value[..i]
    {
      reqs := reqs + [sorted.value[i]];
    }
    assert reqs == sorted.value;
  }
}
