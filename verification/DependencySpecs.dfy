/**
 What the dependency check guarantees about the specs of the dependencies: each dependency had completed at its
 current spec when it was checked, over all interleavings and whatever is edited meanwhile.
 */
module DependencySpecs {
  import opened Wrappers
  import opened ObjectIds
  import opened Inventories
  import opened Statuses
  import opened Machine
  import opened Coherence
  import opened History
  import opened Guarantees
  import opened DependencyOrder
  import opened DependencyChecks

  /** A reconciliation of this very spec, the current one of its generation, has completed, and the status shows it. */
  ghost predicate CompletedAsIs(log: seq<Record>, d: Key, i: Instance) {
    && i.status.observedGeneration == |i.past| + 1
    && FindCondition(i.status.conditions, READY).Some?
    && FindCondition(i.status.conditions, READY).value.status == True
    && i.status.lastApplied == i.status.lastAttempted
    && i.status.inventory.Some?
    && Completed(d, i.status.lastApplied, |i.past| + 1, i.spec, i.status.inventory.value) in log
  }

  lemma CurrentMeansCompleted(config: Config, es: seq<Event>, d: Key)
    requires d in Run(config, es).instances
    requires var i := Run(config, es).instances[d];
      IsReady(i.status) && i.status.observedGeneration == i.Generation()
    ensures CompletedAsIs(Run(config, es).log, d, Run(config, es).instances[d])
  {
    ReadyMeansApplied(config, es, d);
    var w := Run(config, es);
    var i := w.instances[d];
    var b: nat, a: nat, n: nat :| BackedAt(w.log, d, i.status, i.spec, b, a, n);
    assert w.log[n] in w.log;
  }

  /**
   Take any reconciliation that got past its dependency check, and any dependency written in the spec it works on;
   without a namespace it is one in the namespace of the instance. At an event `c` of the same reconciliation the
   dependency existed, was ready, and had completed a reconciliation of the spec that it had then, at its current
   generation; and if it named its source by the same reference, it had done so at the revision.
   */
  lemma DependenciesWereCurrent(config: Config, es: seq<Event>, b: nat, n: nat) returns (m: nat, c: nat)
    requires b < |Run(config, es).log| && Run(config, es).log[b].Began?
    requires n < |Run(config, es).log[b].spec.dependsOn|
    ensures BeginsAt(config, es, b, m) && c < m
    ensures var r := Run(config, es).log[b];
      && es[c] == Of(r.k, CheckNext) && InFlightSince(config, es[..m], r.k, c)
      && var written := r.spec.dependsOn[n];
      && var d := Key(if written.namespace == "" then r.k.namespace else written.namespace, written.name);
      && var u := Run(config, es[..c]);
      && d in u.instances
      && CompletedAsIs(Run(config, es).log[..b], d, u.instances[d])
      && (u.instances[d].spec.source == r.spec.source ==> u.instances[d].status.lastApplied == r.revision)
  {
    m, c := DependenciesHadCompleted(config, es, b, n);
    var r := Run(config, es).log[b];
    var fs := es[..m];
    assert CheckedAt(config, fs, r.k, r.spec, r.revision, n, c);
    assert fs[..c] == es[..c];
    var d := DependencyKey(r.k, r.spec.dependsOn[n]);
    CurrentMeansCompleted(config, es[..c], d);
    LogGrowsAlong(config, fs, c);
    assert Run(config, fs).log == Run(config, es).log[..b];
  }
}
