/**
 What the source of an instance means for a reconciliation, read off the stored sources and the reference as it
 is written; and when a reconciliation that closes asks to come back.
 */
module Sources {
  import opened Wrappers
  import opened ObjectIds
  import opened Inventories
  import opened Statuses
  import opened Machine
  import opened Coherence
  import opened Driver
  import opened Endings

  /** The repository that the reference means: without a namespace, in the namespace of the instance. */
  predicate Means(k: Key, ref: SourceRef, source: Key) {
    source.name == ref.name && source.namespace == if ref.namespace == "" then k.namespace else ref.namespace
  }

  /** The reference is one that the controller follows. */
  predicate Followed(config: Config, k: Key, ref: SourceRef) {
    && ref.kind == "GitRepository"
    && (config.noCrossNamespaceRefs ==> ref.namespace == "" || ref.namespace == k.namespace)
  }

  /** A reference that is not followed: nothing is stored, nothing changes, and the instance comes back. */
  lemma RefusedSource(w: World, k: Key, o: Oracle)
    requires k in w.instances && k !in w.flights && SlotCoherent(w.At(k))
    requires !w.instances[k].deleting && !w.instances[k].spec.suspend
    requires !Followed(w.config, k, w.instances[k].spec.source)
    ensures var v := Reconcile(w, k, o);
      && v.cluster == w.cluster && k in v.instances && v.instances[k].status == w.instances[k].status
      && k in v.pending && k !in v.flights
  {
    ReconcileEndsAs(w, k, o);
  }

  /** When the instance comes back after a failure: a retry interval that is set wins. */
  function RetryAfter(spec: Spec): int {
    match spec.retryInterval
    case Some(retry) => retry
    case None => spec.interval
  }

  /**
   A repository that does not exist or offers no artifact: the cluster is left alone, and the instance is stored
   as not ready for this reason, with its inventory, generation and both revisions as they were.
   */
  lemma MissingSource(w: World, k: Key, o: Oracle, source: Key)
    requires k in w.instances && k !in w.flights && SlotCoherent(w.At(k))
    requires !w.instances[k].deleting && !w.instances[k].spec.suspend
    requires Followed(w.config, k, w.instances[k].spec.source) && Means(k, w.instances[k].spec.source, source)
    requires source in w.sources ==> w.sources[source].None?
    requires o.sourceRead && o.finished
    ensures var i, v := w.instances[k], Reconcile(w, k, o);
      && v.cluster == w.cluster && k in v.instances
      && var status := v.instances[k].status;
      && FindCondition(status.conditions, READY) == Some(Condition(READY, False, ARTIFACT_FAILED))
      && SameRecord(status, i.status)
      && (k in v.pending <==> RetryAfter(i.spec) > 0)
  {
    assert SourceKey(k, w.instances[k].spec.source) == source;
    ReconcileEndsAs(w, k, o);
  }

  /** A repository that offers an artifact: whatever is attempted is attempted at its revision. */
  lemma OfferedSource(w: World, k: Key, o: Oracle, source: Key, revision: string)
    requires k in w.instances && k !in w.flights && SlotCoherent(w.At(k))
    requires !w.instances[k].deleting && !w.instances[k].spec.suspend
    requires Followed(w.config, k, w.instances[k].spec.source) && Means(k, w.instances[k].spec.source, source)
    requires source in w.sources && w.sources[source] == Some(revision)
    requires o.sourceRead && o.finished && o.statusPatched && revision != ""
    ensures var v := Reconcile(w, k, o);
      k in v.instances && v.instances[k].status.lastAttempted == revision
  {
    assert SourceKey(k, w.instances[k].spec.source) == source;
    assert GetSource(w, k, w.instances[k].spec.source) == Artifact(revision);
    ReconcileEndsAs(w, k, o);
    EndsAtRevision(w, k, o, revision);
  }

  lemma EndsAtRevision(w: World, k: Key, o: Oracle, revision: string)
    requires k in w.instances && !w.instances[k].spec.suspend && o.sourceRead && o.statusPatched
    requires GetSource(w, k, w.instances[k].spec.source) == Artifact(revision)
    ensures AttemptsAt(EndingOf(w, k, o).ending, revision)
  {
    BuildAtRevision(w.config, k, o, w.instances[k], revision, w.cluster);
  }

  predicate AttemptsAt(e: Ending, revision: string) {
    HasStatus(e) && !e.SourceMissing? && e.revision == revision
  }

  lemma ApplyAtRevision(config: Config, k: Key, o: Oracle, i: Instance, revision: string, cluster: Cluster,
          entries: seq<Entry>)
    ensures AttemptsAt(AfterApply(config, k, o, i, revision, cluster, entries).ending, revision)
  {
    var e := AfterApply(config, k, o, i, revision, cluster, entries).ending;
    assert e in {NotApplied(revision), NotPruned(revision, entries), NotHealthy(revision, entries),
                 Succeeds(revision, entries)};
  }

  lemma BuildAtRevision(config: Config, k: Key, o: Oracle, i: Instance, revision: string, cluster: Cluster)
    ensures AttemptsAt(AfterBuild(config, k, o, i, revision, cluster).ending, revision)
  {
    if o.built.Objects? {
      var r := ApplyStages(config, k, o, cluster, o.built.objects);
      ApplyAtRevision(config, k, o, i, revision, r.cluster, r.entries);
    }
  }

  // ---------------------------------------------------------------- when to come back

  /**
   The delay with which a reconciliation closes: the interval after success and after closed gates, the
   delay for dependencies when one is not met, and otherwise the retry interval, which is the interval unless it
   is set.
   */
  predicate Delayed(config: Config, s: Slot, move: Move, f: Flight)
    requires f.phase.Closing?
  {
    f.phase.after ==
      if IsReady(f.phase.status) || move == Build(GateClosed) then f.base.spec.interval
      else if s.flight.Some? && s.flight.value.phase.Checking? then config.requeueDependency
      else RetryAfter(f.base.spec)
  }

  ghost predicate ClosesInTime(w: World, k: Key, move: Move, t: Turn) {
    var s := w.At(k);
    t.slot.flight.Some? && t.slot.flight.value.phase.Closing? && t.slot.flight != s.flight ==>
      Delayed(w.config, s, move, t.slot.flight.value)
  }

  lemma EarlyClosesInTime(w: World, k: Key, move: Move)
    requires Opening(move) || Checks(move) || Builds(move)
    ensures ClosesInTime(w, k, move, TurnOf(w, k, move))
  {
  }

  lemma MiddleClosesInTime(w: World, k: Key, move: Move)
    requires Applies(move) || Prunes(move) || Assesses(move)
    ensures ClosesInTime(w, k, move, TurnOf(w, k, move))
  {
  }

  lemma LateClosesInTime(w: World, k: Key, move: Move)
    requires Closes(move) || Leaves(move) || Outside(move)
    ensures ClosesInTime(w, k, move, TurnOf(w, k, move))
  {
  }

  /** Every move that makes a reconciliation ready to close, in any state, sets this delay. */
  lemma ComesBackInTime(w: World, k: Key, move: Move)
    requires var t := TurnOf(w, k, move).slot;
      t.flight.Some? && t.flight.value.phase.Closing? && t.flight != w.At(k).flight
    ensures Delayed(w.config, w.At(k), move, TurnOf(w, k, move).slot.flight.value)
  {
    if Opening(move) || Checks(move) || Builds(move) {
      EarlyClosesInTime(w, k, move);
    } else if Applies(move) || Prunes(move) || Assesses(move) {
      MiddleClosesInTime(w, k, move);
    } else {
      LateClosesInTime(w, k, move);
    }
  }
}
