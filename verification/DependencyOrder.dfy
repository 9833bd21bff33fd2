/**
 The dependency protocol over all interleavings: what has completed when an instance runs, and why a
 cycle never runs.
 */
module DependencyOrder {
  import opened Wrappers
  import opened ObjectIds
  import opened Inventories
  import opened Statuses
  import opened Machine
  import opened Coherence
  import opened History

  /** The dependencies of every instance, fixed for a whole run. */
  type Graph = Key -> set<Key>

  /** The source reference of every instance as written, fixed for a whole run. */
  type Sources = Key -> SourceRef

  /** Every spec written for an instance names its dependencies and its source. */
  predicate Follows(e: Event, graph: Graph, sources: Sources) {
    (e.Of? && (e.move.Create? || e.move.Edit?)) ==> SpecFollows(e.k, e.move.spec, graph, sources)
  }

  predicate SpecFollows(k: Key, spec: Spec, graph: Graph, sources: Sources) {
    Dependencies(k, spec) == graph(k) && spec.source == sources(k)
  }

  /** The dependencies already passed by the loop have been counted if they share the source. */
  predicate Counted(k: Key, spec: Spec, p: Phase, sources: Sources) {
    p.Checking? ==>
      && p.next <= |spec.dependsOn|
      && forall i :: 0 <= i < p.next ==> Noted(k, DependencyKey(k, spec.dependsOn[i]), p.same, sources)
  }

  predicate Noted(k: Key, d: Key, same: set<Key>, sources: Sources) {
    sources(d) == sources(k) ==> d in same
  }

  predicate SlotFollows(k: Key, s: Slot, graph: Graph, sources: Sources) {
    && (s.instance.Some? ==> SpecFollows(k, s.instance.value.spec, graph, sources))
    && (s.flight.Some? ==>
          && SpecFollows(k, s.flight.value.base.spec, graph, sources)
          && Counted(k, s.flight.value.base.spec, s.flight.value.phase, sources))
  }

  predicate NoteFollows(r: Record, graph: Graph, sources: Sources) {
    r.Began? ==> forall d :: d in graph(r.k) ==> Noted(r.k, d, r.same, sources)
  }

  ghost predicate GraphKept(w: World, graph: Graph, sources: Sources) {
    && (forall k :: SlotFollows(k, w.At(k), graph, sources))
    && (forall r :: r in w.log ==> NoteFollows(r, graph, sources))
  }

  lemma TurnFollows(w: World, k: Key, move: Move, graph: Graph, sources: Sources)
    requires GraphKept(w, graph, sources) && Follows(Of(k, move), graph, sources)
    ensures SlotFollows(k, TurnOf(w, k, move).slot, graph, sources)
    ensures forall r :: r in TurnOf(w, k, move).notes ==> NoteFollows(r, graph, sources)
  {
    assert SlotFollows(k, w.At(k), graph, sources);
    if move.CheckNext? {
      CheckFollows(w, k, graph, sources);
    } else if move.Progress? {
      ProgressFollows(w, k, graph, sources);
    } else if Opening(move) {
      OpeningFollows(w, k, move, graph, sources);
    } else if Builds(move) {
      BuildFollows(w, k, move, graph, sources);
    } else if Applies(move) {
      ApplyFollows(w, k, move, graph, sources);
    } else if Prunes(move) {
      PruneFollows(w, k, move, graph, sources);
    } else if Assesses(move) {
      AssessFollows(w, k, move, graph, sources);
    } else if Closes(move) {
      CloseFollows(w, k, move, graph, sources);
    } else {
      OthersFollowLast(w, k, move, graph, sources);
    }
  }

  lemma CheckFollows(w: World, k: Key, graph: Graph, sources: Sources)
    requires GraphKept(w, graph, sources)
    ensures SlotFollows(k, CheckTurn(w, k).slot, graph, sources)
    ensures CheckTurn(w, k).notes == []
  {
    var s := w.At(k);
    assert SlotFollows(k, s, graph, sources);
    if CheckTurn(w, k) != Idle(w, k) && CheckTurn(w, k).slot.flight.value.phase.Checking? {
      var f := s.flight.value;
      var d := DependencyKey(k, f.base.spec.dependsOn[f.phase.next]);
      assert SlotFollows(d, w.At(d), graph, sources);
    }
  }

  lemma ProgressFollows(w: World, k: Key, graph: Graph, sources: Sources)
    requires GraphKept(w, graph, sources)
    ensures SlotFollows(k, ProgressTurn(w, k).slot, graph, sources)
    ensures forall r :: r in ProgressTurn(w, k).notes ==> NoteFollows(r, graph, sources)
  {
    var s := w.At(k);
    assert SlotFollows(k, s, graph, sources);
    if ProgressTurn(w, k) != Idle(w, k) {
      var f := s.flight.value;
      forall d | d in graph(k)
        ensures Noted(k, d, f.phase.same, sources)
      {
        assert d in Dependencies(k, f.base.spec);
      }
    }
  }

  lemma OpeningFollows(w: World, k: Key, move: Move, graph: Graph, sources: Sources)
    requires SlotFollows(k, w.At(k), graph, sources) && Follows(Of(k, move), graph, sources)
    requires Opening(move)
    ensures SlotFollows(k, TurnOf(w, k, move).slot, graph, sources)
    ensures forall r :: r in TurnOf(w, k, move).notes ==> !r.Began?
  {
  }

  lemma BuildFollows(w: World, k: Key, move: Move, graph: Graph, sources: Sources)
    requires SlotFollows(k, w.At(k), graph, sources) && Follows(Of(k, move), graph, sources)
    requires Builds(move)
    ensures SlotFollows(k, TurnOf(w, k, move).slot, graph, sources)
    ensures forall r :: r in TurnOf(w, k, move).notes ==> !r.Began?
  {
  }

  lemma ApplyFollows(w: World, k: Key, move: Move, graph: Graph, sources: Sources)
    requires SlotFollows(k, w.At(k), graph, sources) && Follows(Of(k, move), graph, sources)
    requires Applies(move)
    ensures SlotFollows(k, TurnOf(w, k, move).slot, graph, sources)
    ensures forall r :: r in TurnOf(w, k, move).notes ==> !r.Began?
  {
  }

  lemma PruneFollows(w: World, k: Key, move: Move, graph: Graph, sources: Sources)
    requires SlotFollows(k, w.At(k), graph, sources) && Follows(Of(k, move), graph, sources)
    requires Prunes(move)
    ensures SlotFollows(k, TurnOf(w, k, move).slot, graph, sources)
    ensures forall r :: r in TurnOf(w, k, move).notes ==> !r.Began?
  {
  }

  lemma AssessFollows(w: World, k: Key, move: Move, graph: Graph, sources: Sources)
    requires SlotFollows(k, w.At(k), graph, sources) && Follows(Of(k, move), graph, sources)
    requires Assesses(move)
    ensures SlotFollows(k, TurnOf(w, k, move).slot, graph, sources)
    ensures forall r :: r in TurnOf(w, k, move).notes ==> !r.Began?
  {
  }

  lemma CloseFollows(w: World, k: Key, move: Move, graph: Graph, sources: Sources)
    requires SlotFollows(k, w.At(k), graph, sources) && Follows(Of(k, move), graph, sources)
    requires Closes(move)
    ensures SlotFollows(k, TurnOf(w, k, move).slot, graph, sources)
    ensures forall r :: r in TurnOf(w, k, move).notes ==> !r.Began?
  {
  }

  lemma OthersFollowLast(w: World, k: Key, move: Move, graph: Graph, sources: Sources)
    requires SlotFollows(k, w.At(k), graph, sources) && Follows(Of(k, move), graph, sources)
    requires Leaves(move) || Outside(move)
    ensures SlotFollows(k, TurnOf(w, k, move).slot, graph, sources)
    ensures forall r :: r in TurnOf(w, k, move).notes ==> !r.Began?
  {
  }

  lemma GraphKeptStep(w: World, e: Event, graph: Graph, sources: Sources)
    requires GraphKept(w, graph, sources) && Follows(e, graph, sources)
    ensures GraphKept(Step(w, e), graph, sources)
  {
    if e.Of? {
      TurnFollows(w, e.k, e.move, graph, sources);
    }
    NotesAdded(w, e);
    forall k
      ensures SlotFollows(k, Step(w, e).At(k), graph, sources)
    {
      assert SlotFollows(k, w.At(k), graph, sources);
      StepSlot(w, e, k);
    }
  }

  lemma {:induction false} GraphKeptRun(config: Config, es: seq<Event>, graph: Graph, sources: Sources)
    requires forall e :: e in es ==> Follows(e, graph, sources)
    ensures GraphKept(Run(config, es), graph, sources)
  {
    if es != [] {
      assert es == es[..|es| - 1] + [es[|es| - 1]];
      GraphKeptRun(config, es[..|es| - 1], graph, sources);
      GraphKeptStep(Run(config, es[..|es| - 1]), es[|es| - 1], graph, sources);
    }
  }

  /** A path of dependencies that share the source: each key depends on the next. */
  predicate Path(graph: Graph, sources: Sources, path: seq<Key>) {
    && |path| > 0
    && forall i :: 0 <= i < |path| - 1 ==> path[i + 1] in graph(path[i]) && sources(path[i + 1]) == sources(path[i])
  }

  /** What completed had begun. */
  lemma CompletedHasBegun(config: Config, log: seq<Record>, n: nat) returns (j: nat)
    requires LogOk(config, log) && n < |log| && log[n].Completed?
    ensures j < n && BeganFor(log[j], log[n].k) && log[j].revision == log[n].revision && log[j].spec == log[n].spec
  {
    var r := log[n];
    assert RecordOk(config, log[..n], r);
    var objs :| Lists(r.inventory, objs) && CurrentApplied(log[..n], r.k, r.revision, r.spec, objs);
    var i: nat, a: nat :| IsApplied(log[..n], r.k, r.revision, r.spec, objs, i, a);
    j := i;
  }

  /** What began had its dependencies on the same source completed. */
  lemma SharedHasCompleted(config: Config, log: seq<Record>, n: nat, graph: Graph, sources: Sources, d: Key)
    returns (j: nat)
    requires LogOk(config, log) && n < |log| && log[n].Began? && NoteFollows(log[n], graph, sources)
    requires d in graph(log[n].k) && sources(d) == sources(log[n].k)
    ensures j < n && log[j].Completed? && log[j].k == d && log[j].revision == log[n].revision
  {
    assert RecordOk(config, log[..n], log[n]);
    assert Noted(log[n].k, d, log[n].same, sources);
    var c :| c in log[..n] && c.Completed? && c.k == d && c.revision == log[n].revision;
    j :| 0 <= j < n && log[j] == c;
  }

  /** A reconciliation that began, or completed, at position `n` had every ancestor completed at its revision before. */
  lemma {:induction false} AncestorsInLog(config: Config, log: seq<Record>, n: nat, graph: Graph, sources: Sources,
          path: seq<Key>)
    requires LogOk(config, log) && (forall r :: r in log ==> NoteFollows(r, graph, sources))
    requires n < |log| && (log[n].Began? || log[n].Completed?)
    requires Path(graph, sources, path) && |path| > 1 && path[0] == log[n].k
    ensures HasCompleted(log[..n], path[|path| - 1], log[n].revision)
    decreases |path|, if log[n].Completed? then 1 else 0
  {
    if log[n].Completed? {
      var j := CompletedHasBegun(config, log, n);
      AncestorsInLog(config, log, j, graph, sources, path);
      Widen(log, j, n, path[|path| - 1], log[n].revision);
    } else {
      var j := SharedHasCompleted(config, log, n, graph, sources, path[1]);
      if |path| > 2 {
        assert Path(graph, sources, path[1..]);
        AncestorsInLog(config, log, j, graph, sources, path[1..]);
        Widen(log, j, n, path[|path| - 1], log[n].revision);
      } else {
        assert log[j] in log[..n];
      }
    }
  }

  lemma Widen(log: seq<Record>, j: nat, n: nat, k: Key, revision: string)
    requires j <= n <= |log| && HasCompleted(log[..j], k, revision)
    ensures HasCompleted(log[..n], k, revision)
  {
    assert log[..n] == log[..j] + log[j..n];
  }

  /**
   With dependencies and sources fixed, over all interleavings: whenever a reconciliation gets past its
   dependency check at a revision, or completes at it, every ancestor reached through instances that share the
   source had completed at that revision before.
   */
  lemma AncestorsFirst(config: Config, es: seq<Event>, graph: Graph, sources: Sources, n: nat, path: seq<Key>)
    requires forall e :: e in es ==> Follows(e, graph, sources)
    requires n < |Run(config, es).log| && (Run(config, es).log[n].Began? || Run(config, es).log[n].Completed?)
    requires Path(graph, sources, path) && |path| > 1 && path[0] == Run(config, es).log[n].k
    ensures var log := Run(config, es).log;
      HasCompleted(log[..n], path[|path| - 1], log[n].revision)
  {
    TraceableRun(config, es);
    GraphKeptRun(config, es, graph, sources);
    AncestorsInLog(Run(config, es).config, Run(config, es).log, n, graph, sources, path);
  }

  predicate InFlightAt(p: Phase, revision: string) {
    (p.Building? || p.Applying? || p.Pruning? || p.Assessing?) && p.revision == revision
  }

  /**
   The same, read off the state: an instance in flight at a revision, or that last applied it, has its
   ancestors behind it.
   */
  lemma AncestorsOfRunning(config: Config, es: seq<Event>, graph: Graph, sources: Sources, k: Key, revision: string,
          path: seq<Key>)
    requires forall e :: e in es ==> Follows(e, graph, sources)
    requires Path(graph, sources, path) && |path| > 1 && path[0] == k
    requires var s := Run(config, es).At(k);
      || (s.flight.Some? && InFlightAt(s.flight.value.phase, revision))
      || (s.instance.Some? && s.instance.value.status.lastApplied == revision != "")
    ensures HasCompleted(Run(config, es).log, path[|path| - 1], revision)
  {
    TraceableRun(config, es);
    GraphKeptRun(config, es, graph, sources);
    var w := Run(config, es);
    var n := RunningHasBegun(w, k, revision);
    AncestorsInLog(w.config, w.log, n, graph, sources, path);
    assert w.log[..|w.log|] == w.log;
    Widen(w.log, n, |w.log|, path[|path| - 1], revision);
  }

  /** Where the reconciliation began that is in flight at a revision, or that last applied it. */
  lemma RunningHasBegun(w: World, k: Key, revision: string) returns (b: nat)
    requires Traceable(w)
    requires var s := w.At(k);
      || (s.flight.Some? && InFlightAt(s.flight.value.phase, revision))
      || (s.instance.Some? && s.instance.value.status.lastApplied == revision != "")
    ensures b < |w.log| && BeganFor(w.log[b], k) && w.log[b].revision == revision
    ensures var s := w.At(k);
      s.flight.Some? && InFlightAt(s.flight.value.phase, revision) ==> w.log[b].spec == s.flight.value.base.spec
  {
    var s := w.At(k);
    assert SlotTraced(w.config, w.log, k, s);
    if s.flight.Some? && InFlightAt(s.flight.value.phase, revision) {
      b := FlightHasBegun(w.config, w.log, k, s.flight.value.base, s.flight.value.phase);
    } else {
      var c :| c in w.log && c.Completed? && c.k == k && c.revision == revision;
      var n := RecordHolds(w.config, w.log, c);
      b := CompletedHasBegun(w.config, w.log, n);
    }
  }

  lemma FlightHasBegun(config: Config, log: seq<Record>, k: Key, base: Instance, p: Phase) returns (b: nat)
    requires FlightTraced(config, log, k, base, p) && (p.Building? || p.Applying? || p.Pruning? || p.Assessing?)
    ensures IsCurrent(log, k, p.revision, base.spec, b)
  {
    if p.Pruning? || p.Assessing? {
      var i: nat, a: nat :| IsApplied(log, k, p.revision, base.spec, EntrySet(p.entries), i, a);
      b := i;
    } else {
      b :| IsCurrent(log, k, p.revision, base.spec, b);
    }
  }

  // ---------------------------------------------------------------- cycles

  /** Some dependency of `k` is in the group: each member waits for a member. */
  predicate WaitsIn(group: set<Key>, k: Key, spec: Spec) {
    Dependencies(k, spec) * group != {}
  }

  predicate KeepsWaiting(e: Event, group: set<Key>) {
    (e.Of? && e.k in group && (e.move.Create? || e.move.Edit?)) ==> WaitsIn(group, e.k, e.move.spec)
  }

  /** A member that has never got past its dependency check. */
  predicate Stuck(group: set<Key>, k: Key, s: Slot) {
    && (s.instance.Some? ==> !IsReady(s.instance.value.status) && WaitsIn(group, k, s.instance.value.spec))
    && (s.flight.Some? ==>
          var base, p := s.flight.value.base, s.flight.value.phase;
          && WaitsIn(group, k, base.spec)
          && (p.Resolving? || p.Finalizing? || (p.Checking? && Outsiders(group, k, base.spec, p.next))
              || (p.Closing? && p.applied.None? && !IsReady(p.status))))
  }

  /** The dependencies already passed are not in the group. */
  predicate Outsiders(group: set<Key>, k: Key, spec: Spec, next: nat) {
    forall i :: 0 <= i < next && i < |spec.dependsOn| ==> DependencyKey(k, spec.dependsOn[i]) !in group
  }

  /** The record that a reconciliation of the group got anywhere. */
  predicate Ran(r: Record, group: set<Key>) {
    (r.Began? || r.Touched? || r.Applied? || r.Completed?) && r.k in group
  }

  lemma StuckTurn(w: World, group: set<Key>, k: Key, move: Move)
    requires forall j :: j in group ==> Stuck(group, j, w.At(j))
    requires k in group && KeepsWaiting(Of(k, move), group)
    ensures Stuck(group, k, TurnOf(w, k, move).slot)
    ensures forall r :: r in TurnOf(w, k, move).notes ==> !Ran(r, group)
  {
    assert Stuck(group, k, w.At(k));
    if move.CheckNext? {
      StuckCheck(w, group, k);
    } else if move.Progress? {
      StuckProgress(w, group, k);
    } else if Opening(move) || Builds(move) || Applies(move) {
      StuckOtherwiseEarly(w, group, k, move);
    } else if Leaves(move) || Outside(move) {
      StuckOtherwiseLast(w, group, k, move);
    } else {
      StuckOtherwiseLate(w, group, k, move);
    }
  }

  lemma StuckCheck(w: World, group: set<Key>, k: Key)
    requires forall j :: j in group ==> Stuck(group, j, w.At(j))
    requires k in group
    ensures Stuck(group, k, CheckTurn(w, k).slot) && CheckTurn(w, k).notes == []
  {
    var s := w.At(k);
    if CheckTurn(w, k) != Idle(w, k) {
      var f := s.flight.value;
      var d := DependencyKey(k, f.base.spec.dependsOn[f.phase.next]);
      assert d in group ==> Stuck(group, d, w.At(d));
    }
  }

  /** A member never passes the loop: one of its dependencies is a member, and that one is not ready. */
  lemma StuckProgress(w: World, group: set<Key>, k: Key)
    requires Stuck(group, k, w.At(k))
    ensures ProgressTurn(w, k) == Idle(w, k)
  {
    var s := w.At(k);
    if s.flight.Some? {
      var spec := s.flight.value.base.spec;
      var d :| d in Dependencies(k, spec) * group;
      var i :| 0 <= i < |spec.dependsOn| && DependencyKey(k, spec.dependsOn[i]) == d;
      assert s.flight.value.phase.Checking? ==> i >= s.flight.value.phase.next;
    }
  }

  lemma StuckOtherwiseEarly(w: World, group: set<Key>, k: Key, move: Move)
    requires Stuck(group, k, w.At(k)) && k in group && KeepsWaiting(Of(k, move), group)
    requires Opening(move) || Builds(move) || Applies(move)
    ensures Stuck(group, k, TurnOf(w, k, move).slot)
    ensures forall r :: r in TurnOf(w, k, move).notes ==> !Ran(r, group)
  {
  }

  lemma StuckOtherwiseLate(w: World, group: set<Key>, k: Key, move: Move)
    requires Stuck(group, k, w.At(k)) && k in group && KeepsWaiting(Of(k, move), group)
    requires Prunes(move) || Assesses(move) || Closes(move)
    ensures Stuck(group, k, TurnOf(w, k, move).slot)
    ensures forall r :: r in TurnOf(w, k, move).notes ==> !Ran(r, group)
  {
  }

  lemma StuckOtherwiseLast(w: World, group: set<Key>, k: Key, move: Move)
    requires Stuck(group, k, w.At(k)) && k in group && KeepsWaiting(Of(k, move), group)
    requires Leaves(move) || Outside(move)
    ensures Stuck(group, k, TurnOf(w, k, move).slot)
    ensures forall r :: r in TurnOf(w, k, move).notes ==> !Ran(r, group)
  {
  }

  lemma StuckStep(w: World, group: set<Key>, e: Event)
    requires forall j :: j in group ==> Stuck(group, j, w.At(j))
    requires KeepsWaiting(e, group)
    ensures forall j :: j in group ==> Stuck(group, j, Step(w, e).At(j))
    ensures forall r :: r in Step(w, e).log && Ran(r, group) ==> r in w.log
  {
    if e.Of? {
      if e.k in group {
        StuckTurn(w, group, e.k, e.move);
      } else {
        NotesAreOwn(w, e.k, e.move);
      }
    }
    NotesAdded(w, e);
    forall j | j in group
      ensures Stuck(group, j, Step(w, e).At(j))
    {
      assert Stuck(group, j, w.At(j));
      StepSlot(w, e, j);
    }
  }

  lemma NotesAreOwn(w: World, k: Key, move: Move)
    ensures forall r :: r in TurnOf(w, k, move).notes ==> r.k == k
  {
    if Opening(move) || Checks(move) || Builds(move) || Applies(move) {
      EarlyNotesAreOwn(w, k, move);
    } else {
      LateNotesAreOwn(w, k, move);
    }
  }

  lemma EarlyNotesAreOwn(w: World, k: Key, move: Move)
    requires Opening(move) || Checks(move) || Builds(move) || Applies(move)
    ensures forall r :: r in TurnOf(w, k, move).notes ==> r.k == k
  {
  }

  lemma LateNotesAreOwn(w: World, k: Key, move: Move)
    requires !(Opening(move) || Checks(move) || Builds(move) || Applies(move))
    ensures forall r :: r in TurnOf(w, k, move).notes ==> r.k == k
  {
  }

  /**
   A dependency cycle never runs. Take any group of instances in which everyone depends on someone in the
   group, none of them ready or past its dependency check, and let their specs keep naming such a dependency.
   In any run from there no member gets past its dependency check, becomes ready, or applies anything.
   */
  lemma {:induction false} CycleNeverRuns(w: World, group: set<Key>, es: seq<Event>)
    requires forall j :: j in group ==> Stuck(group, j, w.At(j))
    requires forall e :: e in es ==> KeepsWaiting(e, group)
    ensures forall j :: j in group ==> Stuck(group, j, Exec(w, es).At(j))
    ensures forall r :: r in Exec(w, es).log && Ran(r, group) ==> r in w.log
  {
    if es != [] {
      assert es == es[..|es| - 1] + [es[|es| - 1]];
      CycleNeverRuns(w, group, es[..|es| - 1]);
      StuckStep(Exec(w, es[..|es| - 1]), group, es[|es| - 1]);
    }
  }

  // ---------------------------------------------------------------- the raw comparison of sources

  /**
   The check compares references as written, the lookup fills in the namespace. A dependency at the wrong
   revision of the very same repository passes exactly when one of the two references leaves its own
   namespace out and the other spells it.
   */
  lemma SameSourceBlindSpot(instances: map<Key, Instance>, k: Key, spec: Spec, d: Key, revision: string)
    requires d in instances
    requires var i := instances[d];
      && i.status.conditions != [] && i.Generation() == i.status.observedGeneration && IsReady(i.status)
      && i.spec.source.kind == spec.source.kind
      && SourceKey(d, i.spec.source) == SourceKey(k, spec.source)
      && i.status.lastApplied != revision
    ensures DependencyMet(instances, d, spec, revision) <==>
      ((spec.source.namespace == "") != (instances[d].spec.source.namespace == ""))
  {
  }

  /**
   Two instances of one namespace, one reference defaulted: the dependent runs although its dependency is a
   revision behind.
   */
  ghost predicate SlipsThrough(instances: map<Key, Instance>, k: Key, spec: Spec, d: Key, revision: string) {
    && d in instances && instances[d].status.lastApplied != revision
    && SourceKey(d, instances[d].spec.source) == SourceKey(k, spec.source)
    && DependencyMet(instances, d, spec, revision)
  }

  lemma StaleDependencyPasses()
    ensures exists instances, k, spec, d, revision :: SlipsThrough(instances, k, spec, d, revision)
  {
    var d := Key("n", "d");
    var k := Key("n", "k");
    var theirs := Spec(SourceRef(GIT_REPOSITORY, "repo", "n"), [], true, false, false, [], 1, None);
    var ours := theirs.(source := SourceRef(GIT_REPOSITORY, "repo", ""), dependsOn := [d]);
    var status := ReadyInventory(EMPTY_STATUS, 1, [], "a", SUCCEEDED);
    var instances := map[d := Instance(theirs, [], false, true, status)];
    assert "a"[0] != "b"[0];
    SameSourceBlindSpot(instances, k, ours, d, "b");
    assert SlipsThrough(instances, k, ours, d, "b");
  }
}
