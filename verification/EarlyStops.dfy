/**
 Reconciliations that end before they apply anything leave no trace but their conditions.
 */
module EarlyStops {
  import opened Wrappers
  import opened Validation
  import opened Inventories
  import opened Statuses
  import opened Machine
  import opened Coherence
  import opened Driver
  import opened Pipeline
  import opened Preparation
  import opened Controllers

  /** `b` has the inventory, the applied revision and the generation of `a`. */
  predicate SameAchievement(a: Status, b: Status) {
    a.inventory == b.inventory && a.lastApplied == b.lastApplied && a.observedGeneration == b.observedGeneration
  }

  ghost predicate Untouched(w: World, v: World, k: Key) {
    && v.cluster == w.cluster
    && k in w.instances && k in v.instances
    && SameAchievement(w.instances[k].status, v.instances[k].status)
  }

  /** The reconciliation gets as far as applying something. */
  ghost predicate ReachesApply(w: World, k: Key, o: Oracle)
    requires k in w.instances
  {
    var spec := w.instances[k].spec;
    var source := GetSource(w, k, spec.source);
    && !spec.suspend && o.sourceRead && source.Artifact?
    && AllMet(w.instances, k, spec, source.revision)
    && o.statusPatched && o.built.Objects?
  }

  lemma ClosingIsInert(w: World, k: Key, o: Oracle, base: Instance, status: Status, after: int)
    requires In(w, k, base, Closing(status, after, None))
    ensures Untouched(w, Drive(w, k, o), k)
  {
    InPhase(w, k, base, Closing(status, after, None));
    if o.finished {
      CloseMove(w, k, o, base, status, after, None);
    } else {
      AbortMove(w, k, o, base, Closing(status, after, None));
    }
  }

  lemma BuildingIsInert(w: World, k: Key, o: Oracle, base: Instance, revision: string)
    requires In(w, k, base, Building(revision)) && !o.built.Objects?
    ensures Untouched(w, Drive(w, k, o), k)
  {
    var v := BuildMove(w, k, o, base, revision);
    var p := v.flights[k].phase;
    ClosingIsInert(v, k, o, base, p.status, p.after);
  }

  lemma CheckingIsInert(w: World, k: Key, o: Oracle, base: Instance, revision: string)
    requires In(w, k, base, Checking(revision, 0, {}))
    requires !AllMet(w.instances, k, base.spec, revision) || !o.statusPatched || !o.built.Objects?
    ensures Untouched(w, Drive(w, k, o), k)
  {
    var v, same := ChecksRun(w, k, o, base, revision, 0, {});
    if !AllMet(w.instances, k, base.spec, revision) {
      var p := v.flights[k].phase;
      ClosingIsInert(v, k, o, base, p.status, p.after);
    } else if !o.statusPatched {
      AbortMove(v, k, o, base, Checking(revision, |base.spec.dependsOn|, same));
    } else {
      ProgressIsInert(v, k, o, base, revision, same);
    }
  }

  lemma ProgressIsInert(w: World, k: Key, o: Oracle, base: Instance, revision: string, same: set<Key>)
    requires In(w, k, base, Checking(revision, |base.spec.dependsOn|, same)) && o.statusPatched && !o.built.Objects?
    ensures Untouched(w, Drive(w, k, o), k)
  {
    InPhase(w, k, base, Checking(revision, |base.spec.dependsOn|, same));
    var v := ProgressMove(w, k, o, base, revision, same);
    BuildingIsInert(v, k, o, base.(status := Progressing(base.status)), revision);
  }

  lemma ResolvingIsInert(w: World, k: Key, o: Oracle, base: Instance)
    requires In(w, k, base, Resolving)
    requires var source := GetSource(w, k, base.spec.source);
      !(o.sourceRead && source.Artifact? && AllMet(w.instances, k, base.spec, source.revision) && o.statusPatched &&
          o.built.Objects?)
    ensures Untouched(w, Drive(w, k, o), k)
  {
    if !o.sourceRead {
      AbortMove(w, k, o, base, Resolving);
    } else {
      var v := ResolveMove(w, k, o, base);
      var source := GetSource(w, k, base.spec.source);
      if source.Artifact? {
        CheckingIsInert(v, k, o, base, source.revision);
      } else if k in v.flights {
        var p := v.flights[k].phase;
        ClosingIsInert(v, k, o, base, p.status, p.after);
      } else {
        DriveDone(v, k, o);
      }
    }
  }

  /**
   A reconciliation that stops before the apply, for whatever reason, changes no cluster object and leaves
   the inventory, the applied revision and the observed generation as they were.
   */
  lemma EarlyStopIsInert(w: World, k: Key, o: Oracle)
    requires k in w.instances && k !in w.flights && SlotCoherent(w.At(k))
    requires !w.instances[k].deleting && !ReachesApply(w, k, o)
    ensures Untouched(w, Reconcile(w, k, o), k)
  {
    var v := FetchMove(w, k, o);
    var i := w.instances[k].(finalizer := true);
    if i.spec.suspend {
      DriveDone(v, k, o);
    } else {
      SameDependencies(w, v, k, i);
      ResolvingIsInert(v, k, o, i);
    }
  }

  /** Registering the finalizer does not change what anybody depends on. */
  lemma SameDependencies(w: World, v: World, k: Key, i: Instance)
    requires k in w.instances && i == w.instances[k].(finalizer := true) && v.instances == w.instances[k := i]
    requires v.config == w.config && v.sources == w.sources
    ensures GetSource(v, k, i.spec.source) == GetSource(w, k, i.spec.source)
    ensures forall revision :: AllMet(v.instances, k, i.spec, revision) <==> AllMet(w.instances, k, i.spec, revision)
  {
    assert forall d, revision :: DependencyMet(v.instances, d, i.spec, revision) <==>
      DependencyMet(w.instances, d, i.spec, revision);
  }

  // ---------------------------------------------------------------- what stops a reconciliation

  /** A gate that is not valid or not true keeps the cluster as it is, whatever else the outside answers. */
  lemma ClosedGateHoldsBack(w: World, k: Key, o: Oracle, v: Option<Validate>, a: Answers, g: Gate)
    requires k in w.instances && k !in w.flights && SlotCoherent(w.At(k)) && !w.instances[k].deleting
    requires o.built == Prepared(v, a)
    requires a.gates.Some? && g in a.gates.value && !(g.valid && g.result == Some(true))
    ensures Untouched(w, Reconcile(w, k, o), k)
  {
    ApplyNeedsOpenGates(v, a);
    EarlyStopIsInert(w, k, o);
  }

  /** In `Fail` mode one invalid document keeps all of them out of the cluster. */
  lemma InvalidDocumentHoldsBack(w: World, k: Key, o: Oracle, kind: string, a: Answers, p: Piece)
    requires k in w.instances && k !in w.flights && SlotCoherent(w.At(k)) && !w.instances[k].deleting
    requires o.built == Prepared(Some(Validate(kind, Fail)), a)
    requires a.input.Some? && p in Pieces(a.input.value) && p.kind == kind && !p.document.valid
    ensures Untouched(w, Reconcile(w, k, o), k)
  {
    var v := Some(Validate(kind, Fail));
    Policies(Fail, kind, Pieces(a.input.value));
    assert Failing(v, p) && SomeFails(v, Pieces(a.input.value));
    assert Output(v, a).None?;
    ApplyNeedsOpenGates(v, a);
    EarlyStopIsInert(w, k, o);
  }

  /** So does a document that does not encode, a file that cannot be read, or a list that is broken. */
  lemma BrokenInputHoldsBack(w: World, k: Key, o: Oracle, v: Option<Validate>, a: Answers)
    requires k in w.instances && k !in w.flights && SlotCoherent(w.At(k)) && !w.instances[k].deleting
    requires o.built == Prepared(v, a)
    requires a.input.Some? && InputBreaks(v, a.input.value)
    ensures Untouched(w, Reconcile(w, k, o), k)
  {
    ReadsWhatIsWritten(v, a);
    EarlyStopIsInert(w, k, o);
  }
}
