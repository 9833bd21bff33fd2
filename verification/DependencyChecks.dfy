/**
 What the dependency check of a reconciliation has seen, over all interleavings and however specs change
 meanwhile: each dependency of the spec in flight was ready when it was checked, and if it named the source
 by the same reference then, it had completed at this very revision.
 */
module DependencyChecks {
  import opened Wrappers
  import opened ObjectIds
  import opened Inventories
  import opened Statuses
  import opened Machine
  import opened Coherence
  import opened History
  import opened DependencyOrder

  /** Ever since event `c` the same reconciliation of `k` has been in flight. */
  ghost predicate InFlightSince(config: Config, es: seq<Event>, k: Key, c: nat) {
    forall j :: c <= j <= |es| ==> k in Run(config, es[..j]).flights
  }

  /** The dependency `d` as the check wants it; at the same reference, it has completed at the revision. */
  ghost predicate GoodDependency(u: World, d: Key, spec: Spec, revision: string) {
    && DependencyMet(u.instances, d, spec, revision)
    && (u.instances[d].spec.source == spec.source ==> HasCompleted(u.log, d, revision))
  }

  /** At event `c` the reconciliation in flight checked the dependency number `i` of this spec, and found it good. */
  ghost predicate CheckedAt(config: Config, es: seq<Event>, k: Key, spec: Spec, revision: string, i: nat, c: nat) {
    && c < |es| && es[c] == Of(k, CheckNext) && i < |spec.dependsOn|
    && InFlightSince(config, es, k, c)
    && GoodDependency(Run(config, es[..c]), DependencyKey(k, spec.dependsOn[i]), spec, revision)
  }

  ghost predicate Checked(config: Config, es: seq<Event>, k: Key, spec: Spec, revision: string, i: nat) {
    exists c :: CheckedAt(config, es, k, spec, revision, i, c)
  }

  /** The phases at and after the dependency check, their revision, and how many dependencies they have behind them. */
  predicate AtRevision(p: Phase) {
    p.Checking? || p.Building? || p.Applying? || p.Pruning? || p.Assessing?
  }

  function Passed(spec: Spec, p: Phase): nat {
    if p.Checking? then p.next else |spec.dependsOn|
  }

  ghost predicate FlightChecked(config: Config, es: seq<Event>, k: Key, spec: Spec, p: Phase) {
    AtRevision(p) ==>
      && Passed(spec, p) <= |spec.dependsOn|
      && forall i :: 0 <= i < Passed(spec, p) ==> Checked(config, es, k, spec, p.revision, i)
  }

  ghost predicate AllChecked(config: Config, es: seq<Event>, k: Key) {
    var s := Run(config, es).At(k);
    s.flight.Some? ==> FlightChecked(config, es, k, s.flight.value.base.spec, s.flight.value.phase)
  }

  lemma InFlightLater(config: Config, es: seq<Event>, e: Event, k: Key, c: nat)
    requires InFlightSince(config, es, k, c) && k in Run(config, es + [e]).flights
    ensures InFlightSince(config, es + [e], k, c)
  {
    var fs := es + [e];
    forall j | c <= j <= |fs|
      ensures k in Run(config, fs[..j]).flights
    {
      if j <= |es| {
        assert fs[..j] == es[..j];
      } else {
        assert fs[..j] == fs;
      }
    }
  }

  lemma CheckedLater(config: Config, es: seq<Event>, e: Event, k: Key, spec: Spec, revision: string, i: nat)
    requires Checked(config, es, k, spec, revision, i) && k in Run(config, es + [e]).flights
    ensures Checked(config, es + [e], k, spec, revision, i)
  {
    var c: nat :| CheckedAt(config, es, k, spec, revision, i, c);
    InFlightLater(config, es, e, k, c);
    assert (es + [e])[..c] == es[..c];
    assert CheckedAt(config, es + [e], k, spec, revision, i, c);
  }

  /** Every move but the start and the check itself leaves behind what has been checked. */
  lemma ChecksCarried(w: World, k: Key, move: Move)
    requires SlotCoherent(w.At(k)) && !move.CheckNext?
    ensures var s, t := w.At(k), TurnOf(w, k, move);
      t.slot.flight.Some? && AtRevision(t.slot.flight.value.phase) ==>
        && s.flight.Some?
        && var f, g := s.flight.value, t.slot.flight.value;
        && g.base.spec == f.base.spec
        && ((g.phase.Checking? && g.phase.next == 0)
            || (AtRevision(f.phase) && g.phase.revision == f.phase.revision
                && Passed(g.base.spec, g.phase) == Passed(f.base.spec, f.phase) <= |f.base.spec.dependsOn|))
  {
    match move
    case Fetch(_) =>
    case Resolve =>
    case Progress => assert TurnOf(w, k, move) == ProgressTurn(w, k);
    case Plan(stale) => PlanCarried(w, k, stale);
    case _ =>
      if Builds(move) || Applies(move) || move.PruneNext? {
        MiddleCarried(w, k, move);
      } else if Assesses(move) || Closes(move) {
        LateCarried(w, k, move);
      } else {
        LastCarried(w, k, move);
      }
  }

  lemma PlanCarried(w: World, k: Key, stale: seq<ObjMeta>)
    ensures StaysAtRevision(w.At(k), PlanTurn(w, k, stale).slot)
  {
  }

  /** A move from `s` to `t` stays at the revision and the spec. */
  predicate StaysAtRevision(s: Slot, t: Slot) {
    t.flight.Some? && AtRevision(t.flight.value.phase) ==>
      && s.flight.Some? && AtRevision(s.flight.value.phase)
      && t.flight.value.base.spec == s.flight.value.base.spec
      && t.flight.value.phase.revision == s.flight.value.phase.revision
      && (t.flight.value.phase.Checking? || s.flight.value.phase.Checking? ==> t.flight == s.flight)
  }

  lemma MiddleCarried(w: World, k: Key, move: Move)
    requires Builds(move) || Applies(move) || move.PruneNext?
    ensures StaysAtRevision(w.At(k), TurnOf(w, k, move).slot)
  {
  }

  lemma LateCarried(w: World, k: Key, move: Move)
    requires Assesses(move) || Closes(move)
    ensures StaysAtRevision(w.At(k), TurnOf(w, k, move).slot)
  {
  }

  lemma LastCarried(w: World, k: Key, move: Move)
    requires Leaves(move) || Outside(move)
    ensures StaysAtRevision(w.At(k), TurnOf(w, k, move).slot)
  {
  }

  /** A dependency that passes the check is good. */
  lemma MetIsGood(u: World, d: Key, spec: Spec, revision: string)
    requires Traceable(u) && DependencyMet(u.instances, d, spec, revision)
    ensures GoodDependency(u, d, spec, revision)
  {
    assert SlotTraced(u.config, u.log, d, u.At(d));
  }

  lemma CheckMoves(w: World, k: Key)
    requires SlotCoherent(w.At(k))
    ensures var s, t := w.At(k), CheckTurn(w, k);
      t.slot.flight.Some? && AtRevision(t.slot.flight.value.phase) ==>
        && s.flight.Some?
        && var f, g := s.flight.value, t.slot.flight.value;
        && AtRevision(f.phase) && g.base.spec == f.base.spec && g.phase.revision == f.phase.revision
        && (t.slot == s
            || (f.phase.Checking? && g.phase.Checking? && g.phase.next == f.phase.next + 1 <= |f.base.spec.dependsOn|
                && DependencyMet(w.instances, DependencyKey(k, f.base.spec.dependsOn[f.phase.next]), f.base.spec,
                    f.phase.revision)))
  {
  }

  lemma SinceNow(config: Config, es: seq<Event>, e: Event, k: Key)
    requires k in Run(config, es).flights && k in Run(config, es + [e]).flights
    ensures InFlightSince(config, es + [e], k, |es|)
  {
    var fs := es + [e];
    forall j | |es| <= j <= |fs|
      ensures k in Run(config, fs[..j]).flights
    {
      if j == |es| {
        assert fs[..j] == es;
      } else {
        assert fs[..j] == fs;
      }
    }
  }

  /** The check itself, as an event of the run. */
  lemma ChecksNow(config: Config, es: seq<Event>, k: Key, spec: Spec, revision: string, i: nat)
    requires i < |spec.dependsOn| && k in Run(config, es).flights && k in Run(config, es + [Of(k, CheckNext)]).flights
    requires DependencyMet(Run(config, es).instances, DependencyKey(k, spec.dependsOn[i]), spec, revision)
    ensures Checked(config, es + [Of(k, CheckNext)], k, spec, revision, i)
  {
    var fs := es + [Of(k, CheckNext)];
    TraceableRun(config, es);
    MetIsGood(Run(config, es), DependencyKey(k, spec.dependsOn[i]), spec, revision);
    SinceNow(config, es, Of(k, CheckNext), k);
    assert fs[..|es|] == es;
    assert CheckedAt(config, fs, k, spec, revision, i, |es|);
  }

  lemma CheckedStep(config: Config, es: seq<Event>, e: Event, k: Key)
    requires AllChecked(config, es, k)
    ensures AllChecked(config, es + [e], k)
  {
    var w, v := Run(config, es), Run(config, es + [e]);
    RunStep(config, es, e);
    if k in v.flights && AtRevision(v.flights[k].phase) {
      CoherentRun(config, es);
      assert SlotCoherent(w.At(k)) && v.At(k).flight == Some(v.flights[k]);
      var carried := Carried(w, v, k, e);
      var g := v.flights[k];
      forall i | 0 <= i < Passed(g.base.spec, g.phase)
        ensures Checked(config, es + [e], k, g.base.spec, g.phase.revision, i)
      {
        if i < carried {
          assert Checked(config, es, k, g.base.spec, g.phase.revision, i);
          CheckedLater(config, es, e, k, g.base.spec, g.phase.revision, i);
        } else {
          ChecksNow(config, es, k, g.base.spec, g.phase.revision, i);
        }
      }
    }
  }

  /** How many dependencies had been checked before this step; at most one is checked by it. */
  lemma Carried(w: World, v: World, k: Key, e: Event) returns (n: nat)
    requires SlotCoherent(w.At(k)) && v == Step(w, e)
    requires v.At(k).flight.Some? && AtRevision(v.At(k).flight.value.phase)
    ensures var g := v.At(k).flight.value;
      && n <= Passed(g.base.spec, g.phase) <= |g.base.spec.dependsOn|
      && (n > 0 || n < Passed(g.base.spec, g.phase) ==>
            && k in w.flights && AtRevision(w.flights[k].phase)
            && w.flights[k].base.spec == g.base.spec && w.flights[k].phase.revision == g.phase.revision
            && n == Passed(g.base.spec, w.flights[k].phase))
      && (n < Passed(g.base.spec, g.phase) ==>
            && n + 1 == Passed(g.base.spec, g.phase) && e == Of(k, CheckNext)
            && DependencyMet(w.instances, DependencyKey(k, g.base.spec.dependsOn[n]), g.base.spec, g.phase.revision))
  {
    var g := v.At(k).flight.value;
    if e.Of? {
      WithAt(w, e.k, TurnOf(w, e.k, e.move), k);
    }
    if e.Of? && e.k == k {
      if e.move.CheckNext? {
        CheckMoves(w, k);
        n := Passed(g.base.spec, w.At(k).flight.value.phase);
      } else {
        ChecksCarried(w, k, e.move);
        n := Passed(g.base.spec, g.phase);
      }
    } else {
      assert v.At(k).flight == w.At(k).flight;
      n := Passed(g.base.spec, g.phase);
    }
  }

  lemma {:induction false} CheckedRun(config: Config, es: seq<Event>, k: Key)
    ensures AllChecked(config, es, k)
  {
    if es != [] {
      CheckedRun(config, es[..|es| - 1], k);
      CheckedStep(config, es[..|es| - 1], es[|es| - 1], k);
      assert es == es[..|es| - 1] + [es[|es| - 1]];
    }
  }

  // ---------------------------------------------------------------- the beginning of a reconciliation

  /** Event `m` is where the record at position `b` of the log comes from. */
  ghost predicate BeginsAt(config: Config, es: seq<Event>, b: nat, m: nat) {
    && m < |es| && b < |Run(config, es).log|
    && var log := Run(config, es).log;
    && log[b].Began? && es[m] == Of(log[b].k, Progress)
    && var w := Run(config, es[..m]);
    && w.log == log[..b] && log[b].k in w.flights
    && var f := w.flights[log[b].k];
    && f.phase.Checking? && f.phase.next >= |f.base.spec.dependsOn|
    && f.base.spec == log[b].spec && f.phase.revision == log[b].revision
  }

  lemma ProgressBegins(w: World, e: Event)
    ensures var v := Step(w, e);
      && w.log <= v.log
      && forall b :: |w.log| <= b < |v.log| && v.log[b].Began? ==>
           && b == |w.log| && e == Of(v.log[b].k, Progress) && v.log[b].k in w.flights
           && var f := w.flights[v.log[b].k];
           && f.phase.Checking? && f.phase.next >= |f.base.spec.dependsOn|
           && f.base.spec == v.log[b].spec && f.phase.revision == v.log[b].revision
  {
    if e.Of? {
      if e.move.Progress? {
        assert TurnOf(w, e.k, e.move) == ProgressTurn(w, e.k);
      } else {
        OnlyProgressBegins(w, e.k, e.move);
      }
    }
  }

  lemma OnlyProgressBegins(w: World, k: Key, move: Move)
    requires !move.Progress?
    ensures forall r :: r in TurnOf(w, k, move).notes ==> !r.Began?
  {
  }

  lemma {:induction false} BegunByEvent(config: Config, es: seq<Event>, b: nat) returns (m: nat)
    requires b < |Run(config, es).log| && Run(config, es).log[b].Began?
    ensures BeginsAt(config, es, b, m)
  {
    m := 0;
    if es != [] {
      var init, e := es[..|es| - 1], es[|es| - 1];
      var w, v := Run(config, init), Run(config, es);
      assert es == init + [e];
      RunStep(config, init, e);
      ProgressBegins(w, e);
      if b < |w.log| {
        m := BegunByEvent(config, init, b);
        assert es[..m] == init[..m];
        assert v.log[..b] == w.log[..b];
      } else {
        m := |init|;
        assert es[..m] == init && v.log[..b] == w.log;
      }
    }
  }

  /**
   Dependency order, over all interleavings and whatever becomes of the specs. Take any reconciliation that got
   past its dependency check, and any dependency that the spec it works on names: at an event of the same
   reconciliation the dependency existed, was observed at its generation and ready; and if it named its source
   by the same reference then, it had completed at the revision before this reconciliation began.
   */
  lemma DependenciesHadCompleted(config: Config, es: seq<Event>, b: nat, i: nat) returns (m: nat, c: nat)
    requires b < |Run(config, es).log| && Run(config, es).log[b].Began?
    requires i < |Run(config, es).log[b].spec.dependsOn|
    ensures BeginsAt(config, es, b, m) && c < m
    ensures var log := Run(config, es).log;
      && CheckedAt(config, es[..m], log[b].k, log[b].spec, log[b].revision, i, c)
      && var d, u := DependencyKey(log[b].k, log[b].spec.dependsOn[i]), Run(config, es[..c]);
      && DependencyMet(u.instances, d, log[b].spec, log[b].revision)
      && (u.instances[d].spec.source == log[b].spec.source ==> HasCompleted(log[..b], d, log[b].revision))
  {
    m := BegunByEvent(config, es, b);
    var log := Run(config, es).log;
    var fs := es[..m];
    CheckedRun(config, fs, log[b].k);
    assert Run(config, fs).At(log[b].k).flight == Some(Run(config, fs).flights[log[b].k]);
    assert Checked(config, fs, log[b].k, log[b].spec, log[b].revision, i);
    c :| CheckedAt(config, fs, log[b].k, log[b].spec, log[b].revision, i, c);
    assert fs[..c] == es[..c];
    LogGrowsAlong(config, fs, c);
    var d := DependencyKey(log[b].k, log[b].spec.dependsOn[i]);
    if HasCompleted(Run(config, fs[..c]).log, d, log[b].revision) {
      var r :| r in Run(config, fs[..c]).log && r.Completed? && r.k == d && r.revision == log[b].revision;
      assert r in log[..b];
    }
  }

  lemma {:induction false} LogGrowsAlong(config: Config, es: seq<Event>, c: nat)
    requires c <= |es|
    ensures Run(config, es[..c]).log <= Run(config, es).log
    decreases |es|
  {
    if c == |es| {
      assert es[..c] == es;
    } else {
      var init := es[..|es| - 1];
      assert es == init + [es[|es| - 1]] && es[..c] == init[..c];
      LogGrowsAlong(config, init, c);
      RunStep(config, init, es[|es| - 1]);
      ProgressBegins(Run(config, init), es[|es| - 1]);
    }
  }

  /** The same for an instance in flight at a revision past its check, or that last applied it. */
  lemma DependenciesOfRunning(config: Config, es: seq<Event>, k: Key, revision: string, i: nat)
    returns (b: nat, m: nat, c: nat)
    requires var s := Run(config, es).At(k);
      || (s.flight.Some? && InFlightAt(s.flight.value.phase, revision) && i < |s.flight.value.base.spec.dependsOn|)
      || (s.instance.Some? && s.instance.value.status.lastApplied == revision != "")
    ensures var log := Run(config, es).log;
      && BeginsAt(config, es, b, m) && log[b].k == k && log[b].revision == revision
      && var s := Run(config, es).At(k);
      && (s.flight.Some? && InFlightAt(s.flight.value.phase, revision) ==> log[b].spec == s.flight.value.base.spec)
      && (i < |log[b].spec.dependsOn| ==>
            && c < m
            && var d, u := DependencyKey(k, log[b].spec.dependsOn[i]), Run(config, es[..c]);
            && DependencyMet(u.instances, d, log[b].spec, revision)
            && (u.instances[d].spec.source == log[b].spec.source ==> HasCompleted(log[..b], d, revision)))
  {
    TraceableRun(config, es);
    var w := Run(config, es);
    b := RunningHasBegun(w, k, revision);
    c := 0;
    if i < |w.log[b].spec.dependsOn| {
      m, c := DependenciesHadCompleted(config, es, b, i);
    } else {
      m := BegunByEvent(config, es, b);
    }
  }
}
