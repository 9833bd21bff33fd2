/**
 The controller as a transition system.

 A `World` holds the stored CueInstances, the sources, the cluster objects, the work queue and the
 reconciliations in flight. An `Event` is one API call of one reconciliation, or one move of the
 outside world; reconciliations of different keys interleave freely, those of one key are sequential.
 An event that does not fit the state changes nothing. `log` records what happened; no step reads it.

 A move of the reconciliation of `k` is a `Turn`: what becomes of the slot of `k` (its stored instance,
 its reconciliation in flight, its place in the queue), of the cluster, and what is noted in the log.
 */
module Machine {
  import opened Wrappers
  import opened ObjectIds
  import opened Inventories
  import opened StaleObjects
  import opened Statuses

  datatype Key = Key(namespace: string, name: string)

  datatype SourceRef = SourceRef(kind: string, name: string, namespace: string)

  const GIT_REPOSITORY := "GitRepository"

  datatype Spec = Spec(
    source: SourceRef,
    dependsOn: seq<Key>,
    prune: bool,
    suspend: bool,
    wait: bool,
    healthChecks: seq<ObjMeta>,
    interval: int,
    retryInterval: Option<int>)
  {
    function RetryInterval(): int {
      if retryInterval.Some? then retryInterval.value else interval
    }

    predicate Assessed() {
      wait || |healthChecks| > 0
    }
  }

  /** A stored CueInstance; `past` holds the specs of its earlier generations. */
  datatype Instance = Instance(spec: Spec, past: seq<Spec>, deleting: bool, finalizer: bool, status: Status) {
    function Generation(): nat {
      |past| + 1
    }

    function Specs(): seq<Spec> {
      past + [spec]
    }

    function Edited(s: Spec): Instance {
      this.(spec := s, past := Specs())
    }
  }

  /** The two annotations that switch the controller off for an object. */
  datatype Switches = Switches(pruneDisabled: bool, reconcileDisabled: bool)

  /** An object in the cluster; the owner labels name at most one instance. */
  datatype Live = Live(owner: Option<Key>, content: string, switches: Switches) {
    predicate Disabled() {
      switches.pruneDisabled || switches.reconcileDisabled
    }
  }

  /** An object that a build produced. */
  datatype Desired = Desired(meta: ObjMeta, version: string, content: string)

  type Cluster = map<ObjMeta, Live>

  predicate SameAt(a: Cluster, b: Cluster, m: ObjMeta) {
    (m in a <==> m in b) && (m in a ==> a[m] == b[m])
  }

  datatype Stage = Definitions | Others

  datatype Phase =
    | Resolving
    | Checking(revision: string, next: nat, same: set<Key>)
    | Building(revision: string)
    | Applying(revision: string, stage: Stage, todo: seq<Desired>, later: seq<Desired>, entries: seq<Entry>)
    | Pruning(revision: string, stale: seq<ObjMeta>, entries: seq<Entry>, failed: bool)
    | Assessing(revision: string, entries: seq<Entry>, announced: bool)
    | Closing(status: Status, after: int, applied: Option<seq<Entry>>)
    | Finalizing(remaining: seq<ObjMeta>, failed: bool)

  /** A reconciliation between two API calls: the copy of the instance it works on, and where it stands. */
  datatype Flight = Flight(base: Instance, phase: Phase)

  datatype Cause = ApplyFailed | DiffFailed | Kept | PruneFailed | PruneOff | Disabled | Aborted | Unfinalized | Foreign

  datatype Record =
    | Began(k: Key, revision: string, spec: Spec, same: set<Key>)
    | Touched(k: Key, obj: ObjMeta)
    | Applied(k: Key, revision: string, spec: Spec, objs: set<ObjMeta>)
    | Completed(k: Key, revision: string, generation: nat, spec: Spec, inventory: seq<ResourceRef>)
    | Deleted(k: Key, obj: ObjMeta)
    | LeftBehind(k: Key, objs: set<ObjMeta>, cause: Cause)

  datatype Config = Config(clusterScoped: set<GroupKind>, noCrossNamespaceRefs: bool, requeueDependency: int)

  datatype Slot = Slot(instance: Option<Instance>, flight: Option<Flight>, queued: bool)

  datatype Turn = Turn(slot: Slot, cluster: Cluster, notes: seq<Record>) {
    function Noting(r: Record): Turn {
      this.(notes := notes + [r])
    }
  }

  function Put<V>(m: map<Key, V>, k: Key, v: Option<V>): map<Key, V> {
    if v.Some? then m[k := v.value] else m - {k}
  }

  datatype World = World(
    config: Config,
    instances: map<Key, Instance>,
    sources: map<Key, Option<string>>,
    cluster: Cluster,
    flights: map<Key, Flight>,
    pending: set<Key>,
    log: seq<Record>)
  {
    function At(k: Key): Slot {
      Slot(if k in instances then Some(instances[k]) else None,
           if k in flights then Some(flights[k]) else None,
           k in pending)
    }

    function With(k: Key, t: Turn): World {
      this.(instances := Put(instances, k, t.slot.instance),
            flights := Put(flights, k, t.slot.flight),
            pending := if t.slot.queued then pending + {k} else pending - {k},
            cluster := t.cluster,
            log := log + t.notes)
    }
  }

  function EmptyWorld(config: Config): World {
    World(config, map[], map[], map[], map[], {}, [])
  }

  datatype BuildOutcome = BuildError(reason: string) | GateClosed | Staged(one: seq<Desired>, two: seq<Desired>)

  datatype Move =
    | Fetch(canFinalize: bool)
    | Resolve
    | CheckNext
    | Progress
    | Build(outcome: BuildOutcome)
    | ApplyNext(switches: Switches)
    | ApplyFail
    | WaitDone
    | Plan(stale: seq<ObjMeta>)
    | PruneNext(ok: bool)
    | PruneDone
    | Announce
    | Assess(ok: bool)
    | Close
    | FinalizeNext(ok: bool)
    | Release
    | Abort
    // the users of the API
    | Create(spec: Spec)
    | Edit(spec: Spec)
    | Delete

  // The moves by part of the reconciliation, for proofs by cases.

  predicate Opening(m: Move) {
    m.Fetch? || m.Resolve?
  }

  predicate Checks(m: Move) {
    m.CheckNext? || m.Progress?
  }

  predicate Builds(m: Move) {
    m.Build? || m.WaitDone?
  }

  predicate Applies(m: Move) {
    m.ApplyNext? || m.ApplyFail?
  }

  predicate Prunes(m: Move) {
    m.Plan? || m.PruneNext?
  }

  predicate Assesses(m: Move) {
    m.PruneDone? || m.Announce?
  }

  predicate Closes(m: Move) {
    m.Assess? || m.Close?
  }

  predicate Leaves(m: Move) {
    m.FinalizeNext? || m.Release? || m.Abort?
  }

  predicate Outside(m: Move) {
    m.Create? || m.Edit? || m.Delete?
  }

  datatype Event =
    | Of(k: Key, move: Move)
    | SetSource(source: Key, artifact: Option<string>, sorted: Option<seq<Key>>)
    | Write(obj: ObjMeta, after: Option<Live>)

  // ---------------------------------------------------------------- sources and dependencies

  /** The repository a reference means: its namespace defaults to the instance's own. */
  function SourceKey(k: Key, ref: SourceRef): Key {
    Key(if ref.namespace != "" then ref.namespace else k.namespace, ref.name)
  }

  datatype Lookup = Denied | Unsupported | Missing | NoArtifact | Artifact(revision: string)

  function GetSource(w: World, k: Key, ref: SourceRef): Lookup {
    var s := SourceKey(k, ref);
    if w.config.noCrossNamespaceRefs && s.namespace != k.namespace then Denied
    else if ref.kind != GIT_REPOSITORY then Unsupported
    else if s !in w.sources then Missing
    else if w.sources[s].None? then NoArtifact
    else Artifact(w.sources[s].value)
  }

  function DependencyKey(k: Key, d: Key): Key {
    if d.namespace == "" then Key(k.namespace, d.name) else d
  }

  function Dependencies(k: Key, spec: Spec): (r: set<Key>)
    ensures forall i :: 0 <= i < |spec.dependsOn| ==> DependencyKey(k, spec.dependsOn[i]) in r
  {
    set d | d in spec.dependsOn :: DependencyKey(k, d)
  }

  /** One turn of the dependency loop: is this dependency ready, and at this revision if it shares the source? */
  predicate DependencyMet(instances: map<Key, Instance>, d: Key, spec: Spec, revision: string) {
    && d in instances
    && var i := instances[d];
    && i.status.conditions != []
    && i.Generation() == i.status.observedGeneration
    && IsReady(i.status)
    && (i.spec.source == spec.source ==> revision == i.status.lastApplied)
  }

  // ---------------------------------------------------------------- the contracts of the apply library

  predicate IsClusterDefinition(m: ObjMeta) {
    m.kind == "CustomResourceDefinition" || m.kind == "Namespace"
  }

  /** The API server refuses a namespaced object without a namespace. */
  predicate CanApply(clusterScoped: set<GroupKind>, m: ObjMeta) {
    m.namespace == "" ==> KindOf(m) in clusterScoped
  }

  /** What applying `o` for `k` does to the object at `m`; objects excluded from reconciliation are left alone. */
  function ApplyAction(cluster: Cluster, k: Key, m: ObjMeta, o: Desired): Action {
    if m !in cluster then Created
    else if cluster[m].switches.reconcileDisabled then Unchanged
    else if cluster[m].owner == Some(k) && cluster[m].content == o.content then Unchanged
    else Configured
  }

  function ApplyObject(cluster: Cluster, k: Key, m: ObjMeta, o: Desired, switches: Switches): Cluster {
    if ApplyAction(cluster, k, m, o).Unchanged? then cluster else cluster[m := Live(Some(k), o.content, switches)]
  }

  predicate Deletable(cluster: Cluster, k: Key, m: ObjMeta) {
    m in cluster && cluster[m].owner == Some(k) && !cluster[m].Disabled()
  }

  /** Delete one object: only if it carries the owner labels of `k` and neither switch. */
  function DeleteObject(cluster: Cluster, k: Key, m: ObjMeta): Cluster {
    if Deletable(cluster, k, m) then cluster - {m} else cluster
  }

  /** What a deletion attempt leaves in the log. */
  function DeleteNotes(cluster: Cluster, k: Key, m: ObjMeta, ok: bool): seq<Record> {
    if !ok then [LeftBehind(k, {m}, PruneFailed)]
    else if Deletable(cluster, k, m) then [Deleted(k, m)]
    else if m in cluster && cluster[m].owner == Some(k) then [LeftBehind(k, {m}, Disabled)]
    else []
  }

  // ---------------------------------------------------------------- inventories

  predicate Covers(inventory: Option<seq<ResourceRef>>, m: ObjMeta) {
    inventory.Some? && exists r :: r in inventory.value && r.id == Print(m)
  }

  function CoveredObjects(cluster: Cluster, inventory: Option<seq<ResourceRef>>): set<ObjMeta> {
    set m | m in cluster && Covers(inventory, m)
  }

  function EntrySet(entries: seq<Entry>): set<ObjMeta> {
    set e | e in entries :: e.meta
  }

  // ---------------------------------------------------------------- the moves of a reconciliation

  function Idle(w: World, k: Key): Turn {
    Turn(w.At(k), w.cluster, [])
  }

  /** The reconciliation goes on to another phase. */
  function Fly(w: World, k: Key, base: Instance, phase: Phase): Turn {
    Turn(w.At(k).(flight := Some(Flight(base, phase))), w.cluster, [])
  }

  /** The reconciliation returns; it comes back by itself if it asks for it. */
  function Land(w: World, k: Key, again: bool): Turn {
    Turn(w.At(k).(flight := None, queued := again || k in w.pending), w.cluster, [])
  }

  predicate Flying(s: Slot) {
    s.instance.Some? && s.flight.Some?
  }

  /** Finalization deletes something; an inventory that does not parse lists nothing. */
  predicate Finalizes(i: Instance, canFinalize: bool) {
    i.spec.prune && !i.spec.suspend && i.status.inventory.Some? && Parses(i.status.inventory.value) && canFinalize
  }

  function FetchTurn(w: World, k: Key, canFinalize: bool): Turn {
    var s := w.At(k);
    if s.flight.Some? then Idle(w, k)
    else if s.instance.None? then Turn(s.(queued := false), w.cluster, [])
    else
      var i := s.instance.value.(finalizer := true);
      var s1 := Slot(Some(i), None, false);
      if i.deleting then
        if Finalizes(i, canFinalize) then
          Turn(s1.(flight := Some(Flight(i, Finalizing(Metas(i.status.inventory.value), false)))), w.cluster, [])
        else
          Turn(s1.(flight := Some(Flight(i, Finalizing([], false)))), w.cluster,
               [LeftBehind(k, CoveredObjects(w.cluster, i.status.inventory), Unfinalized)])
      else if i.spec.suspend then Turn(s1, w.cluster, [])
      else Turn(s1.(flight := Some(Flight(i, Resolving))), w.cluster, [])
  }

  /** The reconciliation gives up without a new inventory. */
  function Fail(w: World, k: Key, f: Flight, revision: string, reason: string, after: int): Turn {
    Fly(w, k, f.base, Closing(NotReady(f.base.status, revision, reason), after, None))
  }

  function ResolveTurn(w: World, k: Key): Turn {
    var s := w.At(k);
    if !(Flying(s) && s.flight.value.phase.Resolving?) then Idle(w, k)
    else
      var f := s.flight.value;
      match GetSource(w, k, f.base.spec.source)
      case Denied => Land(w, k, true)
      case Unsupported => Land(w, k, true)
      case Missing => Fail(w, k, f, "", ARTIFACT_FAILED, f.base.spec.RetryInterval())
      case NoArtifact => Fail(w, k, f, "", ARTIFACT_FAILED, f.base.spec.RetryInterval())
      case Artifact(revision) => Fly(w, k, f.base, Checking(revision, 0, {}))
  }

  function CheckTurn(w: World, k: Key): Turn {
    var s := w.At(k);
    if !(Flying(s) && s.flight.value.phase.Checking?) then Idle(w, k)
    else if s.flight.value.phase.next >= |s.flight.value.base.spec.dependsOn| then Idle(w, k)
    else
      var f := s.flight.value;
      var d := DependencyKey(k, f.base.spec.dependsOn[f.phase.next]);
      if DependencyMet(w.instances, d, f.base.spec, f.phase.revision) then
        var same := if w.instances[d].spec.source == f.base.spec.source then {d} else {};
        Fly(w, k, f.base, Checking(f.phase.revision, f.phase.next + 1, f.phase.same + same))
      else
        Fail(w, k, f, f.phase.revision, FAILED, w.config.requeueDependency)
  }

  function ProgressTurn(w: World, k: Key): Turn {
    var s := w.At(k);
    if !(Flying(s) && s.flight.value.phase.Checking?) then Idle(w, k)
    else if s.flight.value.phase.next < |s.flight.value.base.spec.dependsOn| then Idle(w, k)
    else
      var f := s.flight.value;
      var status := Progressing(f.base.status);
      Turn(s.(instance := Some(s.instance.value.(status := status)),
              flight := Some(Flight(f.base.(status := status), Building(f.phase.revision)))),
           w.cluster,
           [Began(k, f.phase.revision, f.base.spec, f.phase.same)])
  }

  predicate IsStaging(one: seq<Desired>, two: seq<Desired>) {
    && (forall o :: o in one ==> IsClusterDefinition(o.meta))
    && (forall o :: o in two ==> !IsClusterDefinition(o.meta))
  }

  function BuildTurn(w: World, k: Key, outcome: BuildOutcome): Turn {
    var s := w.At(k);
    if !(Flying(s) && s.flight.value.phase.Building?) then Idle(w, k)
    else
      var f := s.flight.value;
      var revision := f.phase.revision;
      match outcome
      case BuildError(reason) => Fail(w, k, f, revision, reason, f.base.spec.RetryInterval())
      case GateClosed => Fail(w, k, f, revision, GATE_FAILED, f.base.spec.interval)
      case Staged(one, two) =>
        if !IsStaging(one, two) then Idle(w, k)
        else if one == [] then Fly(w, k, f.base, Applying(revision, Others, two, [], []))
        else Fly(w, k, f.base, Applying(revision, Definitions, one, two, []))
  }

  function ApplyFailTurn(w: World, k: Key): Turn {
    var s := w.At(k);
    if !(Flying(s) && s.flight.value.phase.Applying?) then Idle(w, k)
    else
      var f := s.flight.value;
      Fail(w, k, f, f.phase.revision, FAILED, f.base.spec.RetryInterval())
        .Noting(LeftBehind(k, EntrySet(f.phase.entries), ApplyFailed))
  }

  function ApplyNextTurn(w: World, k: Key, switches: Switches): Turn {
    var s := w.At(k);
    if !(Flying(s) && s.flight.value.phase.Applying?) || s.flight.value.phase.todo == [] then Idle(w, k)
    else
      var f := s.flight.value;
      var o := f.phase.todo[0];
      if !CanApply(w.config.clusterScoped, o.meta) then ApplyFailTurn(w, k)
      else
        var m := Physical(w.config.clusterScoped, o.meta);
        var action := ApplyAction(w.cluster, k, m, o);
        var entries := f.phase.entries + [Entry(m, o.version, action)];
        Turn(s.(flight := Some(Flight(f.base, f.phase.(todo := f.phase.todo[1..], entries := entries)))),
             ApplyObject(w.cluster, k, m, o, switches),
             if action.Unchanged? then [] else [Touched(k, m)])
  }

  /** The apply has worked off the objects of this stage. */
  predicate AppliedAll(p: Phase, stage: Stage) {
    p.Applying? && p.todo == [] && p.stage == stage
  }

  function WaitTurn(w: World, k: Key): Turn {
    var s := w.At(k);
    if !(Flying(s) && AppliedAll(s.flight.value.phase, Definitions)) then Idle(w, k)
    else
      var f := s.flight.value;
      Fly(w, k, f.base, Applying(f.phase.revision, Others, f.phase.later, [], f.phase.entries))
  }

  predicate Diffable(i: Instance, entries: seq<Entry>) {
    i.status.inventory.Some? ==> Parses(i.status.inventory.value) && Parses(Refs(entries))
  }

  /** A list of the garbage left by an apply, in some order; there is none on the first apply. */
  ghost predicate IsPlan(i: Instance, entries: seq<Entry>, stale: seq<ObjMeta>) {
    && Diffable(i, entries)
    && (if i.status.inventory.Some? then ListsStale(i.status.inventory.value, Refs(entries), stale) else stale == [])
  }

  /** The recorded objects that the namespace workaround keeps out of the garbage. */
  function KeptObjects(i: Instance, entries: seq<Entry>): set<ObjMeta>
    requires Diffable(i, entries)
  {
    if i.status.inventory.None? then {}
    else
      var older, newer := i.status.inventory.value, Refs(entries);
      set m | m in Metas(older) && m !in Metas(newer) && Preserved(HandleIn(older, m), Handles(newer))
  }

  ghost function PlanTurn(w: World, k: Key, stale: seq<ObjMeta>): Turn {
    var s := w.At(k);
    if !(Flying(s) && AppliedAll(s.flight.value.phase, Others)) then Idle(w, k)
    else
      var f := s.flight.value;
      var entries := f.phase.entries;
      var done := Applied(k, f.phase.revision, f.base.spec, EntrySet(entries));
      if !Diffable(f.base, entries) then
        Fail(w, k, f, f.phase.revision, FAILED, f.base.spec.RetryInterval())
          .Noting(done).Noting(LeftBehind(k, EntrySet(entries), DiffFailed))
      else if !IsPlan(f.base, entries, stale) then Idle(w, k)
      else
        var next := if f.base.spec.prune then
            Fly(w, k, f.base, Pruning(f.phase.revision, stale, entries, false)).Noting(done)
          else
            Fly(w, k, f.base, Assessing(f.phase.revision, entries, false))
              .Noting(done).Noting(LeftBehind(k, Elements(stale), PruneOff));
        next.Noting(LeftBehind(k, KeptObjects(f.base, entries), Kept))
  }

  function PruneNextTurn(w: World, k: Key, ok: bool): Turn {
    var s := w.At(k);
    if !(Flying(s) && s.flight.value.phase.Pruning? && s.flight.value.phase.stale != []) then Idle(w, k)
    else
      var f := s.flight.value;
      var m := Physical(w.config.clusterScoped, f.phase.stale[0]);
      Turn(s.(flight := Some(Flight(f.base, f.phase.(stale := f.phase.stale[1..], failed := f.phase.failed || !ok)))),
           if ok then DeleteObject(w.cluster, k, m) else w.cluster,
           DeleteNotes(w.cluster, k, m, ok))
  }

  function PruneDoneTurn(w: World, k: Key): Turn {
    var s := w.At(k);
    if !(Flying(s) && s.flight.value.phase.Pruning? && s.flight.value.phase.stale == []) then Idle(w, k)
    else
      var f := s.flight.value;
      var entries := f.phase.entries;
      if f.phase.failed then
        Fly(w, k, f.base, Closing(
          NotReadyInventory(f.base.status, f.base.Generation(), Refs(entries), f.phase.revision, PRUNE_FAILED),
          f.base.spec.RetryInterval(), Some(entries)))
      else
        Fly(w, k, f.base, Assessing(f.phase.revision, entries, false))
  }

  predicate AwaitsHealth(spec: Spec, entries: seq<Entry>) {
    if spec.wait then entries != [] else |spec.healthChecks| > 0
  }

  function AnnounceTurn(w: World, k: Key): Turn {
    var s := w.At(k);
    if !(Flying(s) && s.flight.value.phase.Assessing?) then Idle(w, k)
    else if !AwaitsHealth(s.flight.value.base.spec, s.flight.value.phase.entries) then Idle(w, k)
    else
      var f := s.flight.value;
      var status := Healthiness(Progressing(f.base.status), f.base.spec.Assessed(), Unknown, PROGRESSING);
      Turn(s.(instance := Some(s.instance.value.(status := status)),
              flight := Some(Flight(f.base, f.phase.(announced := true)))),
           w.cluster, [])
  }

  function AssessTurn(w: World, k: Key, ok: bool): Turn {
    var s := w.At(k);
    if !(Flying(s) && s.flight.value.phase.Assessing?) then Idle(w, k)
    else
      var f := s.flight.value;
      var entries := f.phase.entries;
      if AwaitsHealth(f.base.spec, entries) && !(ok && f.phase.announced) then
        Fly(w, k, f.base, Closing(
          NotReadyInventory(f.base.status, f.base.Generation(), Refs(entries), f.phase.revision, HEALTH_CHECK_FAILED),
          f.base.spec.RetryInterval(), Some(entries)))
      else
        Fly(w, k, f.base, Closing(
          ReadyInventory(f.base.status, f.base.Generation(), Refs(entries), f.phase.revision, SUCCEEDED),
          f.base.spec.interval, Some(entries)))
  }

  function CloseTurn(w: World, k: Key): Turn {
    var s := w.At(k);
    if !(Flying(s) && s.flight.value.phase.Closing?) then Idle(w, k)
    else
      var f := s.flight.value;
      var status := f.phase.status;
      Turn(Slot(Some(s.instance.value.(status := status)), None, f.phase.after > 0 || s.queued),
           w.cluster,
           if IsReady(status) && status.inventory.Some? then
             [Completed(k, status.lastApplied, f.base.Generation(), f.base.spec, status.inventory.value)]
           else [])
  }

  function FinalizeNextTurn(w: World, k: Key, ok: bool): Turn {
    var s := w.At(k);
    if !(Flying(s) && s.flight.value.phase.Finalizing? && s.flight.value.phase.remaining != []) then Idle(w, k)
    else
      var f := s.flight.value;
      var m := Physical(w.config.clusterScoped, f.phase.remaining[0]);
      Turn(s.(flight := Some(Flight(f.base, Finalizing(f.phase.remaining[1..], f.phase.failed || !ok)))),
           if ok then DeleteObject(w.cluster, k, m) else w.cluster,
           DeleteNotes(w.cluster, k, m, ok))
  }

  /** Remove the finalizer; the update is refused when the stored object is no longer the copy read. */
  function ReleaseTurn(w: World, k: Key): Turn {
    var s := w.At(k);
    if !(Flying(s) && s.flight.value.phase.Finalizing? && s.flight.value.phase.remaining == []) then Idle(w, k)
    else if s.flight.value.phase.failed || s.instance.value != s.flight.value.base then Land(w, k, true)
    else Turn(s.(instance := None, flight := None), w.cluster, [])
  }

  /** What a reconciliation has applied and not yet stored. */
  function Unstored(p: Phase): seq<Entry> {
    match p
    case Applying(_, _, _, _, entries) => entries
    case Pruning(_, _, entries, _) => entries
    case Assessing(_, entries, _) => entries
    case Closing(_, _, applied) => if applied.Some? then applied.value else []
    case _ => []
  }

  /** The process dies, or an API call fails and the reconciliation returns that error. */
  function AbortTurn(w: World, k: Key): Turn {
    var s := w.At(k);
    if s.flight.None? then Idle(w, k)
    else Land(w, k, true).Noting(LeftBehind(k, EntrySet(Unstored(s.flight.value.phase)), Aborted))
  }

  // ---------------------------------------------------------------- the outside world

  function CreateTurn(w: World, k: Key, spec: Spec): Turn {
    var s := w.At(k);
    if s.instance.Some? || s.flight.Some? then Idle(w, k)
    else Turn(Slot(Some(Instance(spec, [], false, false, EMPTY_STATUS)), None, true), w.cluster, [])
  }

  /** A change of the spec is a new generation, and wakes the controller. */
  function EditTurn(w: World, k: Key, spec: Spec): Turn {
    var s := w.At(k);
    if s.instance.None? || s.instance.value.spec == spec then Idle(w, k)
    else Turn(s.(instance := Some(s.instance.value.Edited(spec)), queued := true), w.cluster, [])
  }

  /** A deletion waits for the finalizer, and marks the object with a new generation. */
  function DeleteTurn(w: World, k: Key): Turn {
    var s := w.At(k);
    if s.instance.None? || s.instance.value.deleting then Idle(w, k)
    else
      var i := s.instance.value;
      if i.finalizer then
        Turn(s.(instance := Some(i.Edited(i.spec).(deleting := true)), queued := true), w.cluster, [])
      else if s.flight.Some? then Idle(w, k)
      else
        Turn(s.(instance := None), w.cluster,
            [LeftBehind(k, CoveredObjects(w.cluster, i.status.inventory), Unfinalized)])
  }

  /** Does an update of a source change what it offers? (`SourceRevisionChangePredicate`) */
  predicate RevisionChanged(before: Option<string>, after: Option<string>) {
    || (before.None? && after.Some?)
    || (before.Some? && after.Some? && before.value != after.value)
  }

  /** The index entries of an instance: the repository it points at (`indexBy`). */
  function IndexKeys(k: Key, spec: Spec): set<Key> {
    if spec.source.kind == GIT_REPOSITORY then {SourceKey(k, spec.source)} else {}
  }

  /** The instances to wake for a revision (`requestsForRevisionChangeOf`). */
  function Requests(instances: map<Key, Instance>, source: Key, revision: string): set<Key> {
    set k | k in instances && source in IndexKeys(k, instances[k].spec) && revision != instances[k].status.lastAttempted
  }

  function Offered(w: World, source: Key): Option<string> {
    if source in w.sources then w.sources[source] else None
  }

  predicate DependsOn(instances: map<Key, Instance>, k: Key, d: Key) {
    k in instances && d in Dependencies(k, instances[k].spec)
  }

  /** In this list no instance comes before one of its dependencies. */
  predicate DependenciesFirst(instances: map<Key, Instance>, s: seq<Key>) {
    forall i, j :: 0 <= i < |s| && 0 <= j < |s| && s[i] != s[j] && DependsOn(instances, s[i], s[j]) ==> j < i
  }

  /** Among these instances every dependency is lower: there is no cycle. */
  ghost predicate Acyclic(instances: map<Key, Instance>, keys: set<Key>) {
    exists height: Key -> nat :: Descending(instances, keys, height)
  }

  ghost predicate Descending(instances: map<Key, Instance>, keys: set<Key>, height: Key -> nat) {
    forall k, d :: k in keys && d in keys && DependsOn(instances, k, d) ==> height(d) < height(k)
  }

  /**
   Contract of the dependency sort: without a cycle it gives the instances in dependency order. A list in
   dependency order shows that there is no cycle of several instances, so then it is an error; whether one
   that depends on itself is one too is left open.
   */
  ghost predicate SortsDependencies(instances: map<Key, Instance>, keys: set<Key>, sorted: Option<seq<Key>>) {
    && (sorted.Some? ==>
          Elements(sorted.value) == keys && NoDuplicates(sorted.value) && DependenciesFirst(instances, sorted.value))
    && (Acyclic(instances, keys) ==> sorted.Some?)
  }

  /**
   A source gets or loses an artifact. A new revision wakes the instances to wake, if they can be sorted;
   `sorted` is what the sort returns.
   */
  ghost function SetSourceStep(w: World, source: Key, artifact: Option<string>, sorted: Option<seq<Key>>): World {
    if !RevisionChanged(Offered(w, source), artifact) then w.(sources := w.sources[source := artifact])
    else if !SortsDependencies(w.instances, Requests(w.instances, source, artifact.value), sorted) then w
    else
      w.(sources := w.sources[source := artifact],
         pending := w.pending + if sorted.Some? then Elements(sorted.value) else {})
  }

  /** Somebody else writes or deletes a cluster object. */
  function WriteStep(w: World, m: ObjMeta, after: Option<Live>): World {
    if after.None? then w.(cluster := w.cluster - {m})
    else
      var kept := m in w.cluster && w.cluster[m].owner == after.value.owner;
      w.(cluster := w.cluster[m := after.value],
         log := w.log + if after.value.owner.Some? && !kept then [LeftBehind(after.value.owner.value, {m}, Foreign)]
             else [])
  }

  // ---------------------------------------------------------------- the machine

  ghost function TurnOf(w: World, k: Key, move: Move): Turn {
    match move
    case Fetch(canFinalize) => FetchTurn(w, k, canFinalize)
    case Resolve => ResolveTurn(w, k)
    case CheckNext => CheckTurn(w, k)
    case Progress => ProgressTurn(w, k)
    case Build(outcome) => BuildTurn(w, k, outcome)
    case ApplyNext(switches) => ApplyNextTurn(w, k, switches)
    case ApplyFail => ApplyFailTurn(w, k)
    case WaitDone => WaitTurn(w, k)
    case Plan(stale) => PlanTurn(w, k, stale)
    case PruneNext(ok) => PruneNextTurn(w, k, ok)
    case PruneDone => PruneDoneTurn(w, k)
    case Announce => AnnounceTurn(w, k)
    case Assess(ok) => AssessTurn(w, k, ok)
    case Close => CloseTurn(w, k)
    case FinalizeNext(ok) => FinalizeNextTurn(w, k, ok)
    case Release => ReleaseTurn(w, k)
    case Abort => AbortTurn(w, k)
    case Create(spec) => CreateTurn(w, k, spec)
    case Edit(spec) => EditTurn(w, k, spec)
    case Delete => DeleteTurn(w, k)
  }

  ghost function Step(w: World, e: Event): World {
    match e
    case Of(k, move) => w.With(k, TurnOf(w, k, move))
    case SetSource(source, artifact, sorted) => SetSourceStep(w, source, artifact, sorted)
    case Write(m, after) => WriteStep(w, m, after)
  }

  ghost function Exec(w: World, es: seq<Event>): World
    decreases |es|
  {
    if es == [] then w else Step(Exec(w, es[..|es| - 1]), es[|es| - 1])
  }

  /** The states the system can reach: some events, from a world that holds no instances yet. */
  ghost function Run(config: Config, es: seq<Event>): World {
    Exec(EmptyWorld(config), es)
  }

  /** A turn of `k` changes the slot of `k` and no other. */
  lemma WithAt(w: World, k: Key, t: Turn, j: Key)
    ensures w.With(k, t).At(j) == if j == k then t.slot else w.At(j)
  {
  }

  /** What a step adds to the log. */
  ghost function Notes(w: World, e: Event): seq<Record> {
    match e
    case Of(k, move) => TurnOf(w, k, move).notes
    case SetSource(_, _, _) => []
    case Write(m, after) =>
      if after.Some? && after.value.owner.Some? && !(m in w.cluster && w.cluster[m].owner == after.value.owner)
      then [LeftBehind(after.value.owner.value, {m}, Foreign)] else []
  }

  /** Only reconciliations note more than objects that somebody else has labelled. */
  lemma NotesAdded(w: World, e: Event)
    ensures Step(w, e).log == w.log + Notes(w, e)
    ensures !e.Of? ==> forall r :: r in Notes(w, e) ==> r.LeftBehind?
  {
  }

  /** A step changes the slots of nobody but the one who moves, except that it may queue them. */
  lemma StepSlot(w: World, e: Event, k: Key)
    ensures var v := Step(w, e);
      && v.config == w.config
      && if e.Of? && e.k == k then v.At(k) == TurnOf(w, k, e.move).slot
         else v.At(k).instance == w.At(k).instance && v.At(k).flight == w.At(k).flight
  {
    if e.Of? {
      WithAt(w, e.k, TurnOf(w, e.k, e.move), k);
    }
  }

  lemma RunStep(config: Config, es: seq<Event>, e: Event)
    ensures Run(config, es + [e]) == Step(Run(config, es), e)
  {
    assert (es + [e])[..|es|] == es;
  }

  lemma {:induction false} ConfigKept(config: Config, es: seq<Event>)
    ensures Run(config, es).config == config
  {
    if es != [] {
      ConfigKept(config, es[..|es| - 1]);
    }
  }

  /** Taking events in two goes is taking them in one. */
  lemma {:induction false} ExecConcat(w: World, es: seq<Event>, fs: seq<Event>)
    ensures Exec(w, es + fs) == Exec(Exec(w, es), fs)
    decreases |fs|
  {
    if fs == [] {
      assert es + fs == es;
    } else {
      var init := fs[..|fs| - 1];
      assert (es + fs)[..|es + fs| - 1] == es + init;
      ExecConcat(w, es, init);
    }
  }
}
