/**
 The two stages of an apply (controllers/cueinstance_controller.go, `apply`) over all interleavings: the
 definitions are applied and waited for before anything else is touched, and a change set, once there is
 one, covers everything that the build produced.
 */
module Staging {
  import opened Wrappers
  import opened ObjectIds
  import opened Sorting
  import opened Inventories
  import opened StaleObjects
  import opened Statuses
  import opened Machine
  import opened Driver

  /** Where the API server keeps these objects. */
  function Places(config: Config, objects: seq<Desired>): (r: seq<ObjMeta>)
    ensures |r| == |objects|
  {
    seq(|objects|, i requires 0 <= i < |objects| => Physical(config.clusterScoped, objects[i].meta))
  }

  /** The phases that hold the entries of an apply, and those entries. */
  predicate Carries(p: Phase) {
    p.Applying? || p.Pruning? || p.Assessing? || (p.Closing? && p.applied.Some?)
  }

  predicate Stages(e: Event, k: Key) {
    e.Of? && e.k == k && e.move.Build? && e.move.outcome.Staged? && IsStaging(e.move.outcome.one, e.move.outcome.two)
  }

  /** Event `b` ends the build of the reconciliation of `k` that is in flight then. */
  ghost predicate IsBuild(config: Config, es: seq<Event>, k: Key, b: nat) {
    && b < |es| && Stages(es[b], k)
    && var w := Run(config, es[..b]);
    k in w.flights && w.flights[k].phase.Building?
  }

  /** Ever since event `b` the same reconciliation of `k` has been in flight, past its build. */
  ghost predicate PastBuildSince(config: Config, es: seq<Event>, k: Key, b: nat) {
    forall j :: b < j <= |es| ==> PastBuild(Run(config, es[..j]), k)
  }

  predicate PastBuild(w: World, k: Key) {
    k in w.flights && Carries(w.flights[k].phase)
  }

  /** Event `c` ends the wait for the definitions `one`, all of them applied. */
  ghost predicate WaitsFor(config: Config, es: seq<Event>, k: Key, one: seq<Desired>, c: nat) {
    && c < |es| && es[c] == Of(k, WaitDone)
    && var w := Run(config, es[..c]);
    && k in w.flights
    && var p := w.flights[k].phase;
    && p.Applying? && p.stage.Definitions? && p.todo == [] && EntryMetas(p.entries) == Places(config, one)
  }

  ghost predicate WaitedFor(config: Config, es: seq<Event>, k: Key, one: seq<Desired>, b: nat) {
    one != [] ==> exists c :: b < c < |es| && WaitsFor(config, es, k, one, c)
  }

  /** The entries of this phase are those of the objects that event `b` staged, as far as the apply has come. */
  ghost predicate From(config: Config, es: seq<Event>, k: Key, p: Phase, b: nat) {
    && IsBuild(config, es, k, b) && PastBuildSince(config, es, k, b)
    && var one, two := es[b].move.outcome.one, es[b].move.outcome.two;
    && var all := Places(config, one) + Places(config, two);
    && match p
       case Applying(_, Definitions, todo, later, entries) =>
         EntryMetas(entries) + Places(config, todo) == Places(config, one) && later == two
       case Applying(_, Others, todo, _, entries) =>
         EntryMetas(entries) + Places(config, todo) == all && |entries| >= |one| && WaitedFor(config, es, k, one, b)
       case _ =>
         Carries(p) ==> EntryMetas(Unstored(p)) == all && WaitedFor(config, es, k, one, b)
  }

  ghost predicate Staged(config: Config, es: seq<Event>, k: Key) {
    var w := Run(config, es);
    k in w.flights && Carries(w.flights[k].phase) ==> exists b :: From(config, es, k, w.flights[k].phase, b)
  }

  lemma PastBuildLater(config: Config, es: seq<Event>, e: Event, k: Key, b: nat)
    requires PastBuildSince(config, es, k, b) && PastBuild(Run(config, es + [e]), k)
    ensures PastBuildSince(config, es + [e], k, b)
  {
    var fs := es + [e];
    forall j | b < j <= |fs|
      ensures PastBuild(Run(config, fs[..j]), k)
    {
      if j <= |es| {
        assert fs[..j] == es[..j];
      } else {
        assert fs[..j] == fs;
      }
    }
  }

  lemma FromLater(config: Config, es: seq<Event>, e: Event, k: Key, p: Phase, b: nat)
    requires From(config, es, k, p, b) && PastBuild(Run(config, es + [e]), k)
    ensures From(config, es + [e], k, p, b)
  {
    PastBuildLater(config, es, e, k, b);
    assert (es + [e])[..b] == es[..b];
    var one := es[b].move.outcome.one;
    if one != [] && WaitedFor(config, es, k, one, b) {
      var c :| b < c < |es| && WaitsFor(config, es, k, one, c);
      assert (es + [e])[..c] == es[..c];
      assert WaitsFor(config, es + [e], k, one, c);
    }
  }

  /** What one move makes of a phase that carries entries. */
  lemma CarriedOn(w: World, k: Key, move: Move)
    requires !move.ApplyNext? && !move.WaitDone? && !move.Build? && !move.Plan?
    ensures var s, t := w.At(k), TurnOf(w, k, move);
      t.slot.flight.Some? && Carries(t.slot.flight.value.phase) ==>
        && s.flight.Some? && Carries(s.flight.value.phase)
        && (t.slot.flight == s.flight
            || (!s.flight.value.phase.Applying? && !t.slot.flight.value.phase.Applying? &&
                Unstored(t.slot.flight.value.phase) == Unstored(s.flight.value.phase)))
  {
    if Opening(move) || Checks(move) || Applies(move) {
      CarriedEarly(w, k, move);
    } else {
      CarriedLate(w, k, move);
    }
  }

  lemma CarriedEarly(w: World, k: Key, move: Move)
    requires !move.ApplyNext? && !move.WaitDone? && !move.Build? && !move.Plan?
    requires Opening(move) || Checks(move) || Applies(move)
    ensures var s, t := w.At(k), TurnOf(w, k, move);
      t.slot.flight.Some? && Carries(t.slot.flight.value.phase) ==>
        && s.flight.Some? && Carries(s.flight.value.phase)
        && (t.slot.flight == s.flight
            || (!s.flight.value.phase.Applying? && !t.slot.flight.value.phase.Applying? &&
                Unstored(t.slot.flight.value.phase) == Unstored(s.flight.value.phase)))
  {
  }

  lemma CarriedLate(w: World, k: Key, move: Move)
    requires !move.ApplyNext? && !move.WaitDone? && !move.Build? && !move.Plan?
    requires !(Opening(move) || Checks(move) || Applies(move))
    ensures var s, t := w.At(k), TurnOf(w, k, move);
      t.slot.flight.Some? && Carries(t.slot.flight.value.phase) ==>
        && s.flight.Some? && Carries(s.flight.value.phase)
        && (t.slot.flight == s.flight
            || (!s.flight.value.phase.Applying? && !t.slot.flight.value.phase.Applying? &&
                Unstored(t.slot.flight.value.phase) == Unstored(s.flight.value.phase)))
  {
  }

  lemma FromCarriedOn(config: Config, es: seq<Event>, k: Key, p: Phase, q: Phase, b: nat)
    requires From(config, es, k, p, b) && Carries(p) && Carries(q)
    requires q == p || (!p.Applying? && !q.Applying? && Unstored(q) == Unstored(p))
      || (p.Applying? && p.stage.Others? && p.todo == [] && !q.Applying? && Unstored(q) == p.entries)
    ensures From(config, es, k, q, b)
  {
    if p.Applying? && q != p {
      assert EntryMetas(p.entries) + Places(config, p.todo) == EntryMetas(p.entries);
    }
  }

  lemma PlanCarries(w: World, k: Key, stale: seq<ObjMeta>)
    ensures var s, t := w.At(k), PlanTurn(w, k, stale);
      t.slot.flight.Some? && Carries(t.slot.flight.value.phase) ==>
        && s.flight.Some? && Carries(s.flight.value.phase)
        && var p, q := s.flight.value.phase, t.slot.flight.value.phase;
        q == p || (p.Applying? && p.stage.Others? && p.todo == [] && !q.Applying? && Unstored(q) == p.entries)
  {
  }

  lemma FromNextObject(config: Config, es: seq<Event>, k: Key, p: Phase, b: nat, entry: Entry)
    requires p.Applying? && p.todo != [] && From(config, es, k, p, b)
    requires entry.meta == Physical(config.clusterScoped, p.todo[0].meta)
    ensures From(config, es, k, p.(todo := p.todo[1..], entries := p.entries + [entry]), b)
  {
    var places := Places(config, p.todo);
    assert EntryMetas(p.entries + [entry]) == EntryMetas(p.entries) + [entry.meta];
    assert places == [entry.meta] + Places(config, p.todo[1..]);
    assert EntryMetas(p.entries) + places == EntryMetas(p.entries + [entry]) + Places(config, p.todo[1..]);
  }

  lemma FromWait(config: Config, es: seq<Event>, k: Key, p: Phase, b: nat)
    requires p.Applying? && p.stage.Definitions? && p.todo == [] && From(config, es, k, p, b)
    requires var w := Run(config, es); k in w.flights && w.flights[k].phase == p
    requires PastBuild(Run(config, es + [Of(k, WaitDone)]), k)
    ensures From(config, es + [Of(k, WaitDone)], k, Applying(p.revision, Others, p.later, [], p.entries), b)
  {
    var fs := es + [Of(k, WaitDone)];
    PastBuildLater(config, es, Of(k, WaitDone), k, b);
    assert fs[..b] == es[..b];
    var one := es[b].move.outcome.one;
    assert EntryMetas(p.entries) + Places(config, p.todo) == EntryMetas(p.entries);
    assert fs[..|es|] == es;
    assert WaitsFor(config, fs, k, one, |es|);
  }

  lemma FromBuild(config: Config, es: seq<Event>, k: Key, revision: string, one: seq<Desired>, two: seq<Desired>)
    requires IsStaging(one, two)
    requires var w := Run(config, es); k in w.flights && w.flights[k].phase.Building?
    requires PastBuild(Run(config, es + [Of(k, Build(BuildOutcome.Staged(one, two)))]), k)
    ensures From(config, es + [Of(k, Build(BuildOutcome.Staged(one, two)))], k,
      if one == [] then Applying(revision, Others, two, [], [])
        else Applying(revision, Definitions, one, two, []), |es|)
  {
    var fs := es + [Of(k, Build(BuildOutcome.Staged(one, two)))];
    assert fs[..|fs|] == fs && fs[..|es|] == es;
    assert EntryMetas([]) + Places(config, one) == Places(config, one);
    if one == [] {
      assert EntryMetas([]) + Places(config, two) == Places(config, one) + Places(config, two);
    }
  }

  lemma StagedStep(config: Config, es: seq<Event>, e: Event, k: Key)
    requires Staged(config, es, k)
    ensures Staged(config, es + [e], k)
  {
    var w, v := Run(config, es), Run(config, es + [e]);
    RunStep(config, es, e);
    ConfigKept(config, es);
    if k in v.flights && Carries(v.flights[k].phase) {
      if e.Of? && e.k == k {
        assert v.At(k) == TurnOf(w, k, e.move).slot by {
          WithAt(w, k, TurnOf(w, k, e.move), k);
        }
        assert v.At(k).flight == Some(v.flights[k]);
        StagedMove(config, es, k, e.move);
      } else {
        assert v.At(k).flight == w.At(k).flight by {
          if e.Of? {
            WithAt(w, e.k, TurnOf(w, e.k, e.move), k);
          }
        }
        assert v.flights[k] == w.flights[k];
        var b :| From(config, es, k, w.flights[k].phase, b);
        FromLater(config, es, e, k, w.flights[k].phase, b);
      }
    }
  }

  lemma StagedMove(config: Config, es: seq<Event>, k: Key, move: Move)
    requires Staged(config, es, k) && Run(config, es).config == config
    requires var t := TurnOf(Run(config, es), k, move); t.slot.flight.Some? && Carries(t.slot.flight.value.phase)
    requires PastBuild(Run(config, es + [Of(k, move)]), k)
    ensures exists b :: From(config, es + [Of(k, move)], k, TurnOf(Run(config, es), k, move).slot.flight.value.phase, b)
  {
    var w := Run(config, es);
    var e := Of(k, move);
    if move.ApplyNext? || move.WaitDone? {
      ApplyingMove(config, es, k, move);
    } else if move.Build? {
      BuildingMove(config, es, k, move.outcome);
    } else {
      if move.Plan? {
        PlanCarries(w, k, move.stale);
      } else {
        CarriedOn(w, k, move);
      }
      var p, q := w.At(k).flight.value.phase, TurnOf(w, k, move).slot.flight.value.phase;
      var b :| From(config, es, k, p, b);
      FromCarriedOn(config, es, k, p, q, b);
      FromLater(config, es, e, k, q, b);
    }
  }

  lemma ApplyingMove(config: Config, es: seq<Event>, k: Key, move: Move)
    requires Staged(config, es, k) && Run(config, es).config == config && (move.ApplyNext? || move.WaitDone?)
    requires var t := TurnOf(Run(config, es), k, move); t.slot.flight.Some? && Carries(t.slot.flight.value.phase)
    requires PastBuild(Run(config, es + [Of(k, move)]), k)
    ensures exists b :: From(config, es + [Of(k, move)], k, TurnOf(Run(config, es), k, move).slot.flight.value.phase, b)
  {
    var w := Run(config, es);
    var e := Of(k, move);
    var p, q := w.At(k).flight.value.phase, TurnOf(w, k, move).slot.flight.value.phase;
    var b :| From(config, es, k, p, b);
    if q == p {
      FromLater(config, es, e, k, p, b);
    } else if move.WaitDone? {
      FromWait(config, es, k, p, b);
    } else {
      FromNextObject(config, es, k, p, b, q.entries[|p.entries|]);
      FromLater(config, es, e, k, q, b);
    }
  }

  lemma BuildingMove(config: Config, es: seq<Event>, k: Key, outcome: BuildOutcome)
    requires Staged(config, es, k)
    requires var t := BuildTurn(Run(config, es), k, outcome); t.slot.flight.Some? && Carries(t.slot.flight.value.phase)
    requires PastBuild(Run(config, es + [Of(k, Build(outcome))]), k)
    ensures exists b ::
      From(config, es + [Of(k, Build(outcome))], k, BuildTurn(Run(config, es), k, outcome).slot.flight.value.phase, b)
  {
    var w := Run(config, es);
    var e := Of(k, Build(outcome));
    if w.At(k).flight.value.phase.Building? {
      FromBuild(config, es, k, w.At(k).flight.value.phase.revision, outcome.one, outcome.two);
    } else {
      var p := w.At(k).flight.value.phase;
      var b :| From(config, es, k, p, b);
      FromLater(config, es, e, k, p, b);
    }
  }

  /** In every state of every run, the entries of a reconciliation are those of the objects it staged. */
  lemma {:induction false} StagedRun(config: Config, es: seq<Event>, k: Key)
    ensures Staged(config, es, k)
  {
    if es != [] {
      StagedRun(config, es[..|es| - 1], k);
      StagedStep(config, es[..|es| - 1], es[|es| - 1], k);
      assert es == es[..|es| - 1] + [es[|es| - 1]];
    }
  }

  /**
   Definitions first. Whenever, in any run, an object of the second stage is applied, the same reconciliation
   had ended its build with event `b`, and had applied and waited for all definitions of this build since.
   */
  lemma DefinitionsFirst(config: Config, es: seq<Event>, k: Key, n: nat) returns (b: nat)
    requires n < |es| && es[n].Of? && es[n].k == k && es[n].move.ApplyNext?
    requires var w := Run(config, es[..n]);
      k in w.flights && w.flights[k].phase.Applying? && w.flights[k].phase.stage.Others? &&
          w.flights[k].phase.todo != []
    ensures b < n && IsBuild(config, es, k, b) && PastBuildSince(config, es[..n], k, b)
    ensures var one, two := es[b].move.outcome.one, es[b].move.outcome.two;
      && (forall o :: o in one ==> o.meta.kind == "CustomResourceDefinition" || o.meta.kind == "Namespace")
      && (forall o :: o in two ==> o.meta.kind != "CustomResourceDefinition" && o.meta.kind != "Namespace")
      && (one != [] ==> exists c :: b < c < n && WaitsFor(config, es, k, one, c))
      && var p := Run(config, es[..n]).flights[k].phase;
         EntryMetas(p.entries) + Places(config, p.todo) == Places(config, one) + Places(config, two) &&
             |p.entries| >= |one|
  {
    var fs := es[..n];
    StagedRun(config, fs, k);
    b :| From(config, fs, k, Run(config, fs).flights[k].phase, b);
    assert fs[..b] == es[..b];
    var one := es[b].move.outcome.one;
    if one != [] {
      WaitedBefore(config, es, n, k, one, b);
    }
  }

  lemma WaitedBefore(config: Config, es: seq<Event>, n: nat, k: Key, one: seq<Desired>, b: nat)
    requires n <= |es| && one != [] && WaitedFor(config, es[..n], k, one, b)
    ensures exists c :: b < c < n && WaitsFor(config, es, k, one, c)
  {
    var fs := es[..n];
    var c :| b < c < |fs| && WaitsFor(config, fs, k, one, c);
    assert fs[..c] == es[..c];
    assert WaitsFor(config, es, k, one, c);
  }

  /**
   A change set is complete. Whenever a reconciliation has one to prune, to check or to store, it covers
   exactly the objects that its own build staged, each as often as it was staged.
   */
  lemma ChangeSetIsComplete(config: Config, es: seq<Event>, k: Key) returns (b: nat)
    requires var w := Run(config, es);
      k in w.flights && Carries(w.flights[k].phase) && !w.flights[k].phase.Applying?
    ensures IsBuild(config, es, k, b) && PastBuildSince(config, es, k, b)
    ensures multiset(EntryMetas(Unstored(Run(config, es).flights[k].phase)))
         == multiset(Places(config, es[b].move.outcome.one)) + multiset(Places(config, es[b].move.outcome.two))
  {
    StagedRun(config, es, k);
    b :| From(config, es, k, Run(config, es).flights[k].phase, b);
  }

  /** An apply that fails yields no change set, and the stored inventory stays. */
  lemma FailedApplyKeepsInventory(w: World, k: Key)
    requires k in w.instances && k in w.flights && w.flights[k].phase.Applying?
    requires w.instances[k].status.inventory == w.flights[k].base.status.inventory
    ensures var v := w.With(k, ApplyFailTurn(w, k));
      && k in v.flights && v.flights[k].phase.Closing? && v.flights[k].phase.applied.None?
      && v.flights[k].phase.status.inventory == w.instances[k].status.inventory
      && !IsReady(v.flights[k].phase.status)
  {
    assert w.At(k).flight == Some(w.flights[k]);
  }

  lemma PlacesConcat(config: Config, xs: seq<Desired>, ys: seq<Desired>)
    ensures Places(config, xs + ys) == Places(config, xs) + Places(config, ys)
  {
  }

  /** Taking out one object takes out one place. */
  lemma Without(config: Config, xs: seq<Desired>, i: nat) returns (rest: seq<Desired>)
    requires i < |xs|
    ensures |rest| == |xs| - 1
    ensures multiset(xs) == multiset{xs[i]} + multiset(rest)
    ensures multiset(Places(config, xs)) ==
      multiset{Physical(config.clusterScoped, xs[i].meta)} + multiset(Places(config, rest))
  {
    rest := xs[..i] + xs[i + 1..];
    assert xs == xs[..i] + ([xs[i]] + xs[i + 1..]);
    PlacesConcat(config, xs[..i], [xs[i]] + xs[i + 1..]);
    PlacesConcat(config, [xs[i]], xs[i + 1..]);
    PlacesConcat(config, xs[..i], xs[i + 1..]);
    assert Places(config, [xs[i]]) == [Physical(config.clusterScoped, xs[i].meta)];
  }

  lemma {:induction false} PlacesPermute(config: Config, xs: seq<Desired>, ys: seq<Desired>)
    requires multiset(xs) == multiset(ys)
    ensures multiset(Places(config, xs)) == multiset(Places(config, ys))
    decreases |xs|
  {
    if xs == [] {
      assert |multiset(ys)| == 0;
      assert ys == [];
    } else {
      assert xs[0] in multiset(ys);
      var i :| 0 <= i < |ys| && ys[i] == xs[0];
      var xs' := Without(config, xs, 0);
      var ys' := Without(config, ys, i);
      assert multiset(xs') == multiset(xs) - multiset{xs[0]} == multiset(ys');
      PlacesPermute(config, xs', ys');
    }
  }

  lemma PlacesAdd(config: Config, xs: seq<Desired>, ys: seq<Desired>)
    ensures multiset(Places(config, xs + ys)) == multiset(Places(config, xs)) + multiset(Places(config, ys))
  {
    PlacesConcat(config, xs, ys);
  }

  /** The two stages of any input take up the same places as the input. */
  lemma StagesCoverInput(config: Config, less: Order, objects: seq<Desired>)
    ensures multiset(Places(config, StageOne(objects))) + multiset(Places(config, SortedStageTwo(less, objects)))
         == multiset(Places(config, objects))
  {
    var one, two := StageOne(objects), SortedStageTwo(less, objects);
    StagesPartition(less, objects);
    assert multiset(one + two) == multiset(objects);
    PlacesPermute(config, one + two, objects);
    PlacesAdd(config, one, two);
  }
}
