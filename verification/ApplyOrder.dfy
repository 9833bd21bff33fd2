/** In which order a reconciliation applies its objects: definitions as built, everything else sorted. */
module ApplyOrder {
  import opened Wrappers
  import opened ObjectIds
  import opened Sorting
  import opened Inventories
  import opened StaleObjects
  import opened Machine
  import opened Coherence
  import opened Driver
  import opened Pipeline
  import opened Staging
  import opened Controllers
  import opened Batches
  import opened EarlyStops
  import opened Endings

  /** A stage that does not fail has applied its list, in its order. */
  lemma WholeList(config: Config, k: Key, o: Oracle, cluster: Cluster, todo: seq<Desired>, entries: seq<Entry>)
    ensures var r := ApplyRest(config, k, o, cluster, todo, entries);
      !r.failed ==> EntryMetas(r.entries) == EntryMetas(entries) + Places(config, todo)
  {
    var n := AppliesPrefix(config, k, o, cluster, todo, entries);
    if n == |todo| {
      assert todo[..n] == todo;
    }
  }

  lemma StagesInOrder(config: Config, k: Key, o: Oracle, cluster: Cluster, objects: seq<Desired>)
    ensures var r := ApplyStages(config, k, o, cluster, objects);
      !r.failed ==>
        EntryMetas(r.entries) == Places(config, StageOne(objects)) + Places(config, SortedStageTwo(o.less, objects))
  {
    var one, two := StageOne(objects), SortedStageTwo(o.less, objects);
    assert EntryMetas([]) == [];
    if one == [] {
      WholeList(config, k, o, cluster, two, []);
      assert Places(config, one) == [];
    } else {
      var first := ApplyRest(config, k, o, cluster, one, []);
      WholeList(config, k, o, cluster, one, []);
      assert !first.failed ==> EntryMetas(first.entries) == Places(config, one);
      WholeList(config, k, o, first.cluster, two, first.entries);
    }
  }

  lemma RecordsApplied(config: Config, k: Key, o: Oracle, i: Instance, revision: string, cluster: Cluster,
          entries: seq<Entry>)
    ensures var e := AfterApply(config, k, o, i, revision, cluster, entries).ending;
      Records(e) ==> e.entries == entries
  {
  }

  lemma BuildRecords(config: Config, k: Key, o: Oracle, i: Instance, revision: string, cluster: Cluster,
          objects: seq<Desired>)
    requires o.built == Objects(objects)
    ensures var e, r := AfterBuild(config, k, o, i, revision, cluster).ending,
        ApplyStages(config, k, o, cluster, objects);
      Records(e) ==> !r.failed && e.entries == r.entries
  {
    var r := ApplyStages(config, k, o, cluster, objects);
    RecordsApplied(config, k, o, i, revision, r.cluster, r.entries);
  }

  lemma EndsWithApplied(w: World, k: Key, o: Oracle, objects: seq<Desired>)
    requires k in w.instances && o.built == Objects(objects) && Records(EndingOf(w, k, o).ending)
    ensures var r := ApplyStages(w.config, k, o, w.cluster, objects);
      !r.failed && EndingOf(w, k, o).ending.entries == r.entries
  {
    var i := w.instances[k];
    BuildRecords(w.config, k, o, i, GetRevision(w, k, i.spec.source), w.cluster, objects);
  }

  function GetRevision(w: World, k: Key, ref: SourceRef): string {
    var source := GetSource(w, k, ref);
    if source.Artifact? then source.revision else ""
  }

  predicate IsDefinitionObject(o: Desired) {
    o.meta.kind == "CustomResourceDefinition" || o.meta.kind == "Namespace"
  }

  /**
   The change set of a reconciliation that applied everything: first the custom resource definitions and
   namespaces, in the order of the build; then all other objects, sorted. Together they are the objects of
   the build, each as often as it was built.
   */
  lemma ChangeSetInOrder(w: World, k: Key, o: Oracle, objects: seq<Desired>)
    returns (one: seq<Desired>, two: seq<Desired>)
    requires k in w.instances && o.built == Objects(objects) && StrictTotal(o.less)
    requires Records(EndingOf(w, k, o).ending)
    ensures EntryMetas(EndingOf(w, k, o).ending.entries) == Places(w.config, one) + Places(w.config, two)
    ensures multiset(one) + multiset(two) == multiset(objects)
    ensures forall x :: x in one ==> IsDefinitionObject(x)
    ensures forall x :: x in two ==> !IsDefinitionObject(x)
    ensures Sorted(o.less, DesiredMeta, two)
  {
    one, two := StageOne(objects), SortedStageTwo(o.less, objects);
    EndsWithApplied(w, k, o, objects);
    StagesInOrder(w.config, k, o, w.cluster, objects);
    StagesAre(o.less, objects);
  }

  lemma StagesAre(less: Order, objects: seq<Desired>)
    requires StrictTotal(less)
    ensures var one, two := StageOne(objects), SortedStageTwo(less, objects);
      && multiset(one) + multiset(two) == multiset(objects)
      && (forall x :: x in one ==> IsDefinitionObject(x))
      && (forall x :: x in two ==> !IsDefinitionObject(x))
      && Sorted(less, DesiredMeta, two)
  {
    StagesPartition(less, objects);
    SortSorts(less, DesiredMeta, StageTwo(objects));
  }

  // ---------------------------------------------------------------- the wait between the stages

  lemma StageSpares(config: Config, k: Key, o: Oracle, cluster: Cluster, todo: seq<Desired>, m: ObjMeta)
    requires forall x :: x in todo ==> Physical(config.clusterScoped, x.meta) != m
    ensures SameAt(cluster, ApplyRest(config, k, o, cluster, todo, []).cluster, m)
  {
    var n := AppliesPrefix(config, k, o, cluster, todo, []);
  }

  lemma UnwaitedStages(config: Config, k: Key, o: Oracle, cluster: Cluster, objects: seq<Desired>, m: ObjMeta)
    requires !o.waited && exists x :: x in objects && IsDefinitionObject(x)
    requires forall x :: x in objects && IsDefinitionObject(x) ==> Physical(config.clusterScoped, x.meta) != m
    ensures var r := ApplyStages(config, k, o, cluster, objects); r.failed && SameAt(cluster, r.cluster, m)
  {
    var one := StageOne(objects);
    assert forall x :: x in one ==> x in objects && IsDefinitionObject(x);
    var x :| x in objects && IsDefinitionObject(x);
    assert x in one;
    StageSpares(config, k, o, cluster, one, m);
  }

  lemma UnwaitedBuild(config: Config, k: Key, o: Oracle, i: Instance, revision: string, cluster: Cluster,
          objects: seq<Desired>, m: ObjMeta)
    requires o.built == Objects(objects) && !o.waited && exists x :: x in objects && IsDefinitionObject(x)
    requires forall x :: x in objects && IsDefinitionObject(x) ==> Physical(config.clusterScoped, x.meta) != m
    ensures var r := AfterBuild(config, k, o, i, revision, cluster);
      r.ending == NotApplied(revision) && SameAt(cluster, r.cluster, m)
  {
    UnwaitedStages(config, k, o, cluster, objects, m);
  }

  /**
   When the wait for the definitions fails, nothing but definitions has been applied, nothing is deleted, and the
   instance keeps its inventory, applied revision and observed generation.
   */
  lemma FailedWaitStops(w: World, k: Key, o: Oracle, objects: seq<Desired>, m: ObjMeta)
    requires k in w.instances && k !in w.flights && SlotCoherent(w.At(k)) && !w.instances[k].deleting
    requires o.built == Objects(objects) && !o.waited && exists x :: x in objects && IsDefinitionObject(x)
    requires forall x :: x in objects && IsDefinitionObject(x) ==> Physical(w.config.clusterScoped, x.meta) != m
    ensures var v := Reconcile(w, k, o);
      && SameAt(w.cluster, v.cluster, m)
      && k in v.instances && SameAchievement(w.instances[k].status, v.instances[k].status)
  {
    ReconcileEndsAs(w, k, o);
    UnwaitedEnds(w, k, o, objects, m);
  }

  lemma UnwaitedEnds(w: World, k: Key, o: Oracle, objects: seq<Desired>, m: ObjMeta)
    requires k in w.instances && o.built == Objects(objects) && !o.waited
    requires exists x :: x in objects && IsDefinitionObject(x)
    requires forall x :: x in objects && IsDefinitionObject(x) ==> Physical(w.config.clusterScoped, x.meta) != m
    ensures !Records(EndingOf(w, k, o).ending) && SameAt(w.cluster, EndingOf(w, k, o).cluster, m)
  {
    var i := w.instances[k];
    UnwaitedBuild(w.config, k, o, i, GetRevision(w, k, i.spec.source), w.cluster, objects, m);
  }
}
