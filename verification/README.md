# Verification of the CueInstance reconciler

A Dafny model of the controller that reconciles `CueInstance` objects: it resolves a source, waits for
dependencies, builds and validates objects, applies them in two stages, records them in an inventory,
collects garbage, checks health, and cleans up when the instance is deleted. `dafny verify dfyconfig.toml`
checks the whole project.

## How it is put together

The centre is a transition system (`Machine.dfy`). A `World` holds the stored instances with their status,
the sources, the cluster objects, the work queue and the reconciliations in flight. One event is one API call
of one reconciliation or one act of the outside: a spec edit, a deletion, a new source revision, somebody
else writing a cluster object, a crash. Reconciliations of different keys interleave freely; those of one key
are sequential. `Run` is any finite list of events from an empty world, so a statement about `Run` holds in
every reachable state. The `log` of a world records what happened; no step reads it.

The same code appears in three forms, each proved to agree with the next:

- `Controllers.dfy` has the form of the source: a class whose methods loop over dependencies, stages, objects
  and garbage, write to the cluster in place, patch the stored status and put the instance back on the queue.
  `Controllers.CueInstanceReconciler.Reconcile` ends in exactly the state to which the machine can be driven.
- `Driver.dfy` drives the machine: one reconciliation from start to end, given what the outside answers
  (`Oracle`). `Driver.ReconcileIsRun` says that this is a run of the machine, so everything proved of all runs
  holds of it.
- `Endings.dfy` computes how a reconciliation will end, and which cluster it leaves, from the state at its
  start, by recursion over lists; `Endings.ReconcileEndsAs` says that the driven machine agrees.

The other modules prove properties: `Coherence`, `History` and `Guarantees` (what every run keeps, what the log
can say, and what this means for the users), `Ownership`, `Orphans`, `Collection`, `Staging`, `Handover`,
`Permissions` and `Health` (safety over all interleavings), `SmoothRuns`, `Pipeline`, `Repetition`,
`Convergence` and `Chains` (what fault-free runs achieve), `DependencyOrder`, `DependencyChecks` and
`DependencySpecs` (the dependency protocol), `Wakeups`, `Sources`, `Preparation`, `EarlyStops`, `ApplyOrder` and
`Batches`. `ObjectIds`, `Sorting`, `Inventories`, `StaleObjects`, `Statuses` and `Validation` are the
self-contained parts of the controller: identifiers, inventories with their in-place methods, the status
constructors, the validation policies of the build.

Which move of the machine stands for which lines of `controllers/cueinstance_controller.go`:

| turn | lines | what the code does there |
|---|---|---|
| `FetchTurn` | 146-177 | read the instance, register the finalizer, branch to deletion, return if suspended |
| `ResolveTurn` | 179-210, 1059-1093 | look the source up; not found, no artifact, refused |
| `CheckTurn`, `ProgressTurn` | 212-247, 876-905 | one dependency at a time; then mark the instance as progressing |
| `BuildTurn` | 289-399, 501-763 | obstacles before the build, the build, the gates, reading the objects |
| `ApplyNextTurn`, `ApplyFailTurn`, `WaitTurn` | 412-420, 792-874 | the two stages, one object at a time |
| `PlanTurn` | 422-468 | new inventory, difference, the namespace workaround |
| `PruneNextTurn`, `PruneDoneTurn` | 471-479, 971-1000 | garbage collection, one object at a time |
| `AnnounceTurn`, `AssessTurn` | 482-498, 1002-1057 | health |
| `CloseTurn` | 250-276, 1218-1228 | the final status patch, and when to come back |
| `FinalizeNextTurn`, `ReleaseTurn` | 1095-1153 | deletion, one object at a time; then the finalizer |
| `AbortTurn` | 180-196, 217-219, 243-252 | an error is returned, or the process dies |

What the libraries and the API server do is stated once, as contracts in `Machine.dfy`: applying leaves
objects alone that are excluded from reconciliation, fails for a namespaced object without a namespace, and
reports metadata as the server keeps it (no namespace for cluster-scoped kinds); it may fail after any prefix
of its list. Deleting acts per object and atomically: only if the object carries the owner labels and neither
switch; it may fail for any of them. Reads see the latest stored object. The dependency sort gives the
instances in dependency order when there is no cycle among them; a list so ordered shows that there is none
but for self-dependencies, and whether those are an error is left open. The order of the apply library is a
parameter.

## Where the code and what is written about it differ

The model follows the code.

- Without expressions the evaluated whole is encoded and validated, and never written
  (`controllers/cueinstance_controller.go:598-624`): `Validation.WholeValueIsLost`.
- The dependency check compares source references as written, although the lookup fills in a namespace that
  is left out (`controllers/cueinstance_controller.go:899`, `1061-1064`). A dependency at the wrong revision of the very
  same repository passes exactly when one of the two references leaves the namespace out:
  `DependencyOrder.SameSourceBlindSpot`, with an example in `DependencyOrder.StaleDependencyPasses`.
- The workaround for wrongly recorded namespaces compares API versions too. After a version bump, an entry
  that an old release recorded under a namespace is garbage that addresses the object just applied:
  `StaleObjects.StaleHitsApplied` gives the exact condition, `StaleObjects.VersionBumpHitsApplied` an example.
  For inventories that this controller wrote it cannot happen: `Collection.CollectionSparesApplied`.
- An inventory that does not parse is finalized without deleting anything, since the error is ignored:
  `Handover.UnreadableIsAbandoned`. Where builds produce names without `_` every inventory parses.
- The comment on `CueInstanceProgressing` says that it resets the conditions to a single one; the code updates
  the Ready condition and keeps the others: `Statuses.SetThenFind`.

## Model

| member | source | states |
|---|---|---|
| `Controllers.CueInstanceReconciler.Reconcile` | controllers/cueinstance_controller.go:146-276 | one call, whatever the outside answers and whatever documents, validation and gates there are, leaves stored instances, cluster and queue exactly where the machine driven to its end leaves them |
| `Controllers.CueInstanceReconciler.ReconcileLive` | controllers/cueinstance_controller.go:179-210 | source resolution: refused and unsupported references requeue, a missing source or artifact stores a not-ready status, a revision goes on; the end is the machine's |
| `Controllers.CueInstanceReconciler.ReconcileAt` | controllers/cueinstance_controller.go:212-230 | the dependency check decides between a stored refusal and the build; the end is the machine's |
| `Controllers.CueInstanceReconciler.Proceed` | controllers/cueinstance_controller.go:241-276 | the progressing patch, one revision and the final patch end where the machine ends, also when the first patch fails |
| `Controllers.CueInstanceReconciler.ReconcileRevision` | controllers/cueinstance_controller.go:278-420 | obstacles, build, gates and objects are worked out from the documents in their order; the status and requeue time returned are those with which the machine is about to close, for broken builds, closed gates, failed and successful applies |
| `Controllers.CueInstanceReconciler.Collect` | controllers/cueinstance_controller.go:422-498 | inventory, garbage, pruning and health after an apply; a failed difference gives no inventory, failed pruning or health stores the new one |
| `Controllers.CueInstanceReconciler.Apply` | controllers/cueinstance_controller.go:792-874 | the two-stage apply: on failure the machine has given up without a change set, on success both stages are done and the entries are the machine's |
| `Controllers.CueInstanceReconciler.ApplyDefinitions` | controllers/cueinstance_controller.go:823-846 | definitions are applied and waited for before the second stage starts; a failed wait gives up |
| `Controllers.CueInstanceReconciler.SplitStages` | controllers/cueinstance_controller.go:813-819 | one stage holds exactly the custom resource definitions and namespaces, the other all else, sorted under any strict total order |
| `Controllers.CueInstanceReconciler.ApplyAll` | controllers/cueinstance_controller.go:850-855 | the new cluster and the change set are the recursive specification of applying a list with an error after any prefix |
| `Controllers.CueInstanceReconciler.CheckDependencies` | controllers/cueinstance_controller.go:876-905 | true exactly when every dependency exists, has conditions, is observed at its generation, is ready, and is at this revision if its source reference is equal |
| `Controllers.CueInstanceReconciler.FindStale` | controllers/cueinstance_controller.go:432-468 | no old inventory gives no garbage; otherwise fails exactly when an inventory does not parse and else lists the difference without the preserved entries |
| `Controllers.CueInstanceReconciler.Prune` | controllers/cueinstance_controller.go:971-1000 | nothing when pruning is off; otherwise the list is swept and a failure closes with the new inventory |
| `Controllers.CueInstanceReconciler.DeleteAll` | controllers/cueinstance_controller.go:978-990 | the new cluster and the failure flag are the recursive specification of conditional deletion, one failure does not stop the rest; whatever is not owned or carries either switch is still there |
| `Controllers.CueInstanceReconciler.CheckHealth` | controllers/cueinstance_controller.go:1002-1057 | healthy exactly when there is nothing to wait for (an empty change set with `wait`, no listed health checks without), or progress was announced and the wait succeeded; the stored status shows progress meanwhile |
| `Controllers.CueInstanceReconciler.Finish` | controllers/cueinstance_controller.go:250-276 | the final patch and the requeue end the reconciliation as the machine does |
| `Controllers.CueInstanceReconciler.Finalize` | controllers/cueinstance_controller.go:1095-1153 | the deletion of recorded objects and the removal of the finalizer end as the machine does, for failed deletions, conflicts and unreadable inventories; with pruning off, suspended or without the account the cluster stays as it is |
| `Controllers.CueInstanceReconciler.SourceChanged` | controllers/cueinstance_indexers.go:28-68 | a new revision queues exactly the instances that want it when the sort gives them, as it does without a cycle, and none when the sort fails |
| `Controllers.ChecksRun` | controllers/cueinstance_controller.go:876-905 | the machine's dependency loop passes all dependencies exactly when all are met, and otherwise closes without touching the cluster |
| `Controllers.ApplyRuns` | controllers/cueinstance_controller.go:824-855 | the machine's apply moves over a list leave the cluster, entries and failure of the recursive specification |
| `Controllers.SweepRuns` | controllers/cueinstance_controller.go:978-990 | the machine's deletion moves, in garbage collection and in finalization, leave the cluster and failure of the recursive specification |
| `Batches.DeletesExactly` | controllers/cueinstance_controller.go:978-990 | deleting a list removes exactly the objects it names that carry the owner labels and neither of the two switches, leaves all others as they are, and fails exactly when some deletion is refused |
| `Batches.AppliesPrefix` | controllers/cueinstance_controller.go:824-855 | applying a list works off a prefix, all of it unless it fails; the change set names its places in order, each object there belongs to the instance with content that the list asks for or was excluded and is as before, all others are as before |
| `Batches.StopsAtFirstFailure` | controllers/cueinstance_controller.go:824-855 | the prefix ends at the first object that the server refuses for want of a namespace, or where it gives up; the apply fails exactly then |
| `Batches.RecordsVersions` | controllers/cueinstance_inventory.go:38-51 | each line of the change set carries the version of the object applied |
| `Batches.FinalizationCleansUp` | controllers/cueinstance_controller.go:1095-1153 | a finalization without failures removes the instance and everything it owned that is not switched off, and touches nobody else's objects |
| `Batches.FinalizationSpares` | controllers/cueinstance_controller.go:1095-1153 | a deleted instance with pruning off, suspended, without the account for finalization or without an inventory that parses is let go with the cluster unchanged, whatever else the outside answers |
| `Endings.ReconcileEndsAs` | controllers/cueinstance_controller.go:146-276 | the whole reconciliation of any live instance in one step, suspended, refused or with failing patches as well: the ending computed from the starting state, its cluster, the stored Ready condition with reason, inventory, generation and both revisions, and whether the instance comes back |
| `Endings.StatusTells` | api/v1alpha1/cueinstance_types.go:250-294 | the status constructors give for each ending the field table that `Tells` spells out |
| `Driver.ReconcileIsRun` | controllers/cueinstance_controller.go:146-276 | a driven reconciliation is a list of moves of this instance and always ends |
| `Driver.MovesOn` | controllers/cueinstance_controller.go:146-276 | every move brings a reconciliation nearer its end, in every coherent state |
| `Driver.StagesPartition` | controllers/cueinstance_controller.go:804-819 | the two stages are together the input as a multiset; one holds only definitions, the other none |
| `Coherence.CoherentRun` | controllers/cueinstance_controller.go:241-253 | in every state, the copy in flight agrees with the stored object up to later edits and conditions, and no observed generation is ahead of its object |
| `History.TraceableRun` | controllers/cueinstance_controller.go:146-499 | in every run each log record is justified by earlier ones, a completion by the beginning and the apply of the very reconciliation that completes, and every slot by the log |
| `Guarantees.ReadyMeansApplied` | api/v1alpha1/cueinstance_types.go:288-294 | ready means: applied equals attempted revision, and one single reconciliation, at this revision and with the spec of the observed generation, began, applied exactly what the inventory lists and completed; at the current generation, with the current spec |
| `Guarantees.ObservedGenerationGrows` | api/v1alpha1/cueinstance_types.go:250-261 | the observed generation never decreases and never passes the generation |
| `Guarantees.DeletionsAccounted` | controllers/cueinstance_controller.go:971-1000 | whatever any prune or finalize deletes carried the owner labels and no switch, was in the stored inventory, and had been applied by a completed apply of the same instance |
| `Guarantees.OnlyDeleters` | controllers/cueinstance_controller.go:971-1000 | an object disappears only by pruning or finalization, and it is the one at hand |
| `Permissions.ChangesWarranted` | controllers/cueinstance_controller.go:965-1000 | in every run, whatever a move changes in the cluster was changed under a spec that is not suspended; an object that disappears was owned and pruning was on in that spec; an object written is the one at hand with its content, under the owner labels, with a namespace exactly when its kind asks for one |
| `Permissions.SwitchesProtect` | controllers/cueinstance_controller.go:978-987 | no move of any reconciliation in any state removes an object annotated against pruning or against reconciliation, and one annotated against reconciliation is left exactly as it is |
| `Permissions.ExcludedStays` | controllers/cueinstance_controller.go:799-802 | an object excluded from reconciliation is the same after any run in which nobody else writes it |
| `Health.CompletedInHealth` | controllers/cueinstance_controller.go:471-498 | in every run a completion comes from one reconciliation that applied what the inventory lists; between its apply and its completion no deletion of garbage failed, and if the spec asks to wait for something, progress was announced and then everything found healthy |
| `Health.HealthDecides` | controllers/cueinstance_controller.go:481-498 | once all is applied and pruned, the instance is stored as failing its health check exactly when there is something to wait for and it was not announced or not healthy, and otherwise as ready; with the new inventory either way |
| `Health.PruningDecides` | controllers/cueinstance_controller.go:471-479 | once all is applied, the instance is stored as failing to prune exactly when pruning is on and an object that is stale by the two inventories cannot be deleted; the new inventory is stored all the same |
| `Health.ProgressShows` | controllers/cueinstance_controller.go:241-247 | past its dependency check, the stored Ready condition is unknown and progressing |
| `Health.AnnounceShows` | controllers/cueinstance_controller.go:1033-1039 | while it waits, the stored Ready and Healthy conditions are unknown and progressing |
| `Ownership.OrphansAccounted` | controllers/cueinstance_controller.go:412-420 | with no assumption on the run: if an owned object is neither in the stored inventory nor in the hands of the reconciliation in flight, then one event of the run left it behind and reported it with a cause, and it has been in neither ever since that event |
| `Orphans.OrphansComeFromFailures` | controllers/cueinstance_controller.go:412-479 | with pruning on and no owned object switched off, over any interleaving with suspensions, for such an object that event is a failed apply, a failed deletion or an interruption; builds may even stage objects that the server refuses |
| `Orphans.FailedApplyOrphans` | controllers/cueinstance_controller.go:412-420 | an object applied for the first time is orphaned by the event in which the apply fails after it |
| `Orphans.InterruptionOrphans` | controllers/cueinstance_controller.go:248-252 | so is one whose reconciliation is cut off before its result is stored |
| `Orphans.FailedPruneOrphans` | controllers/cueinstance_controller.go:471-479 | so is garbage that cannot be deleted, since the new inventory is stored without it |
| `SmoothRuns.NoOrphans` | controllers/cueinstance_controller.go:248-252 | without failures in apply, prune and the final patch, pruning on, no owned object switched off and no instance finalized while suspended, there are no orphans over any interleaving |
| `SmoothRuns.NothingKept` | controllers/cueinstance_controller.go:446-468 | between inventories written by applies the namespace workaround keeps nothing |
| `Collection.CollectionSparesApplied` | controllers/cueinstance_controller.go:434-471 | in any run, garbage collection leaves every object alone that the same reconciliation applied, by physical identity |
| `Staging.DefinitionsFirst` | controllers/cueinstance_controller.go:823-850 | in any run, when a reconciliation applies an object of the second stage, it has applied and waited for all definitions of its own build since the event that ended that build |
| `Staging.ChangeSetIsComplete` | controllers/cueinstance_controller.go:829-873 | in any run, a change set that is pruned with, checked or stored covers as a multiset what the same reconciliation had staged |
| `Staging.StagesCoverInput` | controllers/cueinstance_controller.go:813-849 | both stages take up the places of the whole input, as a multiset |
| `Staging.FailedApplyKeepsInventory` | controllers/cueinstance_controller.go:412-420 | a failed apply yields no change set, and the status to store keeps the old inventory and is not ready |
| `ApplyOrder.ChangeSetInOrder` | controllers/cueinstance_controller.go:804-855 | the change set of a reconciliation that applied everything lists the custom resource definitions and namespaces first and then all other objects, sorted; together they are the objects of the build as a multiset |
| `ApplyOrder.FailedWaitStops` | controllers/cueinstance_controller.go:841-846 | when the wait for the definitions fails, nothing but definitions was touched, nothing was deleted, and inventory, applied revision and observed generation stay |
| `Handover.HandoverIsSafe` | controllers/cueinstance_controller.go:978-987 | once an object is not A's, no reconciliation or finalization of A deletes it in any interleaving until A applies it again: every move of A leaves it in the cluster exactly as it is |
| `Handover.FinalizerGoesLast` | controllers/cueinstance_controller.go:1095-1153 | when an instance with pruning on, not suspended, is released, every recorded object is absent, not its own or switched off, after any number of failed attempts |
| `Handover.InventoriesParse` | controllers/cueinstance_inventory.go:38-80 | if builds produce only clean names, every stored inventory of every run parses |
| `Handover.UnreadableIsAbandoned` | controllers/cueinstance_controller.go:1101-1101 | an inventory that does not parse is finalized with the cluster unchanged |
| `Pipeline.PipelineRefines` | controllers/cueinstance_controller.go:390-499 | a fault-free reconciliation with no owned or desired object switched off makes owned objects, stored inventory and desired objects the same set, each with its content, ready at revision and generation, everything else untouched |
| `Repetition.SecondRunIsStill` | controllers/cueinstance_controller.go:390-499 | a second one with the same objects deletes nothing, writes nothing, reports no drift |
| `Repetition.LastDesiredIsOwned` | controllers/cueinstance_controller.go:390-499 | after any series of them, with edits, new revisions and other reconciliations in between, the owned objects are the last desired ones |
| `Repetition.SmoothIsInGoodOrder` | controllers/cueinstance_controller.go:390-499 | every smooth run from the empty cluster leads to a state from which such a series can go on |
| `Repetition.FreshIsServed` | controllers/cueinstance_controller.go:390-499 | such a series can start with the creation of an instance and the first revision of its source |
| `Convergence.RoundsConverge` | controllers/cueinstance_controller.go:876-905 | source at rest, acyclic dependencies, no failures, inventories that parse, anything else in the cluster: after as many rounds in any orders as dependencies are deep, every instance is ready at the revision |
| `Chains.LongestChainSuffices` | controllers/cueinstance_controller.go:876-905 | so that as many rounds are enough as the longest chain of dependencies has members |
| `Chains.DeepestChain` | controllers/cueinstance_controller.go:876-905 | from each instance of an acyclic graph there is a chain of dependencies exactly as long as its depth |
| `Chains.NoDeeperChain` | controllers/cueinstance_controller.go:876-905 | and no chain from it is longer |
| `Chains.DepthIsHeight` | controllers/cueinstance_controller.go:876-905 | the depth is itself a height of the graph, so that it may serve for the one that `RoundsConverge` counts in |
| `Convergence.SortedRoundSuffices` | controllers/cueinstance_indexers.go:48-66 | in dependency order one round is enough, if what is needed and not tried is ready |
| `Convergence.RevisionSpreads` | controllers/cueinstance_indexers.go:28-68 | the dependency sort of the requests for a new revision succeeds, and one round in its order makes every instance ready |
| `Convergence.UnreadableNeverReady` | controllers/cueinstance_controller.go:436-445 | an instance whose inventory does not parse is not ready after any such reconciliation, and keeps that inventory |
| `Convergence.RunInFleet` | controllers/cueinstance_controller.go:212-230 | one reconciliation in such a fleet leaves everybody else as they were, keeps the fleet at rest, and makes its instance ready if its dependencies are met |
| `DependencyChecks.DependenciesHadCompleted` | controllers/cueinstance_controller.go:876-905 | over all interleavings, also when specs change: for each dependency in the spec of a reconciliation that got past its check, at an event of the same reconciliation the dependency was met, and if it named the source by the same reference, it had completed at the revision before |
| `DependencyChecks.DependenciesOfRunning` | controllers/cueinstance_controller.go:212-230 | the same for an instance in flight at a revision, or that last applied it |
| `DependencySpecs.DependenciesWereCurrent` | controllers/cueinstance_controller.go:876-905 | over all interleavings, for each dependency as written in the spec of a reconciliation that began: at an event of the same reconciliation it was observed at its generation and ready, a reconciliation of the spec it had then had completed before, and at the revision if it named the source by the same reference |
| `DependencyOrder.AncestorsFirst` | controllers/cueinstance_controller.go:876-905 | with every instance's dependencies and source fixed, so had all ancestors reached through instances that share the source |
| `DependencyOrder.AncestorsOfRunning` | controllers/cueinstance_controller.go:876-905 | the same read off the state of an instance in flight at a revision or that last applied it |
| `DependencyOrder.CycleNeverRuns` | controllers/cueinstance_controller.go:212-228 | a group in which everyone depends on a member never gets past the check, becomes ready or applies anything |
| `DependencyOrder.SameSourceBlindSpot` | controllers/cueinstance_controller.go:899-899 | a dependency at another revision of the same repository passes exactly when one of the two references leaves out its namespace |
| `DependencyOrder.StaleDependencyPasses` | controllers/cueinstance_controller.go:899-899 | a concrete dependent that passes although its dependency is a revision behind |
| `Wakeups.NothingForgotten` | controllers/cueinstance_controller.go:132-142 | with positive intervals, every live unsuspended or deleted instance is queued or in flight in every state of every run, crashes included |
| `Wakeups.IndexAgrees` | controllers/cueinstance_indexers.go:70-86 | the index names the repository that the lookup resolves to, except for references it refuses to follow |
| `Sources.RefusedSource` | controllers/cueinstance_controller.go:1059-1093 | a reference to another kind, or across namespaces where this is forbidden, changes nothing and brings the instance back |
| `Sources.MissingSource` | controllers/cueinstance_controller.go:179-210 | a repository that is not there or offers no artifact, in the namespace written or else in that of the instance, is stored as the reason, with inventory, generation and revisions as before; the instance comes back if the retry interval, or else the interval, is positive |
| `Sources.OfferedSource` | controllers/cueinstance_controller.go:212-260 | with an artifact there, its revision is what the reconciliation attempts |
| `Sources.ComesBackInTime` | api/v1alpha1/cueinstance_types.go:205-210 | every move that makes a reconciliation ready to close sets the delay that its outcome asks for; a retry interval that is set wins over the interval |
| `Wakeups.IndexStringInjective` | controllers/cueinstance_indexers.go:77-81 | two repositories never share an index entry |
| `Wakeups.RevisionChangedMeans` | controllers/cueinstance_source_predicate.go:28-53 | an update counts exactly when there is an artifact now and it differs from the one before |
| `Wakeups.NewRevisionWakes` | controllers/cueinstance_indexers.go:28-68 | the graph decides: without a cycle among them, exactly the instances that point at the source and have not attempted the revision are queued besides those already queued; with one (self-dependencies aside), nobody is |
| `Wakeups.SortsExactlyAcyclic` | controllers/cueinstance_indexers.go:57-60 | by its contract the sort succeeds exactly when there is no cycle, self-dependencies aside |
| `Wakeups.RequestsForRevisionChange` | controllers/cueinstance_indexers.go:28-68 | the loops return each such instance once, dependencies first, always so without a cycle; otherwise nothing, and only because the sort failed |
| `Preparation.ApplyNeedsOpenGates` | controllers/cueinstance_controller.go:379-388 | objects reach the apply exactly when nothing failed before and every gate is valid and true |
| `EarlyStops.EarlyStopIsInert` | controllers/cueinstance_controller.go:287-399 | a reconciliation that stops before the apply changes no cluster object and keeps inventory, applied revision and observed generation |
| `EarlyStops.ClosedGateHoldsBack` | controllers/cueinstance_controller.go:379-388 | one gate that is not valid or not true keeps cluster, inventory, applied revision and observed generation as they are |
| `EarlyStops.InvalidDocumentHoldsBack` | controllers/cueinstance_controller.go:571-573 | in Fail mode one invalid document of the validated type does the same |
| `EarlyStops.BrokenInputHoldsBack` | controllers/cueinstance_controller.go:553-696 | so does a document that does not encode, a file that cannot be read, or a broken list |
| `Preparation.StopsFor` | controllers/cueinstance_controller.go:287-399 | which of several obstacles decides the ending: fetching first, then the build, then the gates, then reading the objects |
| `Preparation.ReadsWhatIsWritten` | controllers/cueinstance_controller.go:390-399 | the objects are read from the text of the surviving documents, in order; there is none if one breaks the build |
| `Preparation.DroppedDocumentsStayOut` | controllers/cueinstance_controller.go:574-576 | in Drop mode the objects to apply are read from the valid documents alone, in their order |
| `Validation.Builder.Build` | controllers/cueinstance_controller.go:553-696 | the nested loops with their early returns compute the fold over the documents in order; they fail exactly when some document or file breaks the build, and otherwise have written the text of the expressions and YAML documents |
| `Validation.Builder.BuildFile` | controllers/cueinstance_controller.go:626-694 | one orphaned file: other encodings and kinds add nothing, one that cannot be read or a broken list fails the build, lists and structs add the encoding and the separator of each document that is not dropped |
| `Validation.Builder.ExamineAll` | controllers/cueinstance_controller.go:557-596 | a list of documents is examined until one fails the build |
| `Validation.OutputIs` | controllers/cueinstance_controller.go:553-696 | a build fails exactly when an expression, the whole value or a YAML document does not encode or is invalid in Fail mode, or a YAML file cannot be read; otherwise its output is the encodings in order, with the separator after each YAML document, without those dropped as invalid |
| `Validation.FileInPlace` | controllers/cueinstance_controller.go:626-694 | each file has its place in the output, after the files before it |
| `Validation.Policies` | controllers/cueinstance_controller.go:566-594 | when a build succeeds in each mode, which documents it has written in which order, and how many events it has sent |
| `Validation.StrictPassMeansAll` | api/v1alpha1/cueinstance_types.go:31-38 | a build that passes in Fail mode gives the same bytes and no event in every mode and without validation |
| `Validation.FailsAtTheFirst` | controllers/cueinstance_controller.go:571-573 | Fail stops at the first invalid document with one event, whatever follows |
| `Validation.OthersSurvive` | controllers/cueinstance_controller.go:565-566 | documents of the other type are never dropped and keep their order |
| `Validation.WholeValueIsLost` | controllers/cueinstance_controller.go:598-624 | the output is the promised one exactly when there are expressions or the whole encodes to nothing |
| `Validation.CheckGates` | controllers/cueinstance_controller.go:751-762 | no error exactly when every gate is valid and true; the errors name the closed ones |
| `Inventories.ResourceInventory.AddObjects` | controllers/cueinstance_inventory.go:38-51 | appends one entry for each line of the change set, in place |
| `Inventories.ResourceInventory.ListObjects` | controllers/cueinstance_inventory.go:54-80 | fails exactly when an entry does not parse; otherwise the sorted handles |
| `Inventories.ResourceInventory.ListMeta` | controllers/cueinstance_inventory.go:83-94 | fails exactly when an entry does not parse; otherwise the metadata in order |
| `Inventories.ResourceInventory.VersionOf` | controllers/cueinstance_inventory.go:98-105 | the search loop returns the version first recorded, or nothing |
| `Inventories.ResourceInventory.Diff` | controllers/cueinstance_inventory.go:97-137 | fails exactly when either inventory does not parse; otherwise the sorted difference with versions |
| `Inventories.InventoryRoundTrip` | controllers/cueinstance_inventory.go:38-94 | recording and listing gives back the metadata, exactly for change sets without the separator in any field |
| `Inventories.ListingKeepsObjects` | controllers/cueinstance_inventory.go:54-80 | listing is a sorted permutation that keeps versions |
| `Inventories.DiffIsExact` | controllers/cueinstance_inventory.go:97-137 | for recorded inventories: sorted, without duplicates, exactly the objects in the first and not in the second, with the version first recorded |
| `Inventories.DiffNames` | controllers/cueinstance_inventory.go:118-133 | what the difference names, for any two inventories that parse |
| `ObjectIds.RoundTrip` | api/v1alpha1/inventory_types.go:11-13 | a printed identifier parses exactly when no field holds the separator, and then gives back the metadata |
| `ObjectIds.ParseInverse` | api/v1alpha1/inventory_types.go:11-13 | whatever parses prints back to the same text |
| `ObjectIds.PrintInjective` | api/v1alpha1/inventory_types.go:11-13 | clean metadata with the same identifier is the same |
| `ObjectIds.PrintCollides` | api/v1alpha1/inventory_types.go:11-13 | with a separator in a field two objects can share an identifier |
| `StaleObjects.FilterPreserved` | controllers/cueinstance_controller.go:450-467 | the nested loops with their break keep exactly the unpreserved entries, in order |
| `StaleObjects.DetectStale` | controllers/cueinstance_controller.go:436-468 | difference, listing and filter together give the stale list, or fail when an inventory does not parse |
| `StaleObjects.StaleListIsExact` | controllers/cueinstance_controller.go:434-468 | the list handed to garbage collection is one set equation over the two inventories |
| `StaleObjects.PreservedMeans` | controllers/cueinstance_controller.go:453-462 | an entry is preserved exactly when its twin without a namespace is recorded under the same version |
| `StaleObjects.StaleHitsApplied` | controllers/cueinstance_controller.go:434-468 | for any old inventory, the exact condition under which garbage addresses an object just applied |
| `StaleObjects.VersionBumpHitsApplied` | controllers/cueinstance_controller.go:457-457 | that condition can be met |
| `Statuses.SetThenFind` | api/v1alpha1/cueinstance_types.go:224-233 | a condition just set is the one found, the others are undisturbed |
| `Statuses.RemoveThenFind` | api/v1alpha1/cueinstance_types.go:237-238 | a removed condition is not found, the others are undisturbed |
| `Statuses.CueInstanceStatus.SetProgressing` | api/v1alpha1/cueinstance_types.go:224-233 | only the Ready condition changes, to unknown |
| `Statuses.CueInstanceStatus.SetHealthiness` | api/v1alpha1/cueinstance_types.go:236-248 | sets the Healthy condition, or removes it when nothing is assessed |
| `Statuses.CueInstanceStatus.SetReadiness` | api/v1alpha1/cueinstance_types.go:251-261 | Ready condition, observed generation and attempted revision together |
| `Statuses.CueInstanceStatus.SetNotReady` | api/v1alpha1/cueinstance_types.go:264-276 | neither the generation nor the inventory is touched; an empty revision leaves the attempted one |
| `Statuses.CueInstanceStatus.SetNotReadyInventory` | api/v1alpha1/cueinstance_types.go:279-286 | not ready, with the new inventory and generation |
| `Statuses.CueInstanceStatus.SetReadyInventory` | api/v1alpha1/cueinstance_types.go:289-294 | ready, with inventory, generation, applied and attempted revision |
| `Statuses.CueInstanceStatus.SetStatusCondition` | api/v1alpha1/cueinstance_types.go:231-231 | the in-place update loop of the library is update-or-append by type |
| `Sorting.SortSorts` | controllers/cueinstance_inventory.go:78-78 | the sort contract: an ordered permutation under a strict total order |

## Left out

- CUE evaluation, YAML encoding and parsing: a document is a text with a verdict, a gate a validity and a boolean.
- Tags and tag variables: the closures of the source capture their loop variable, so the values are not a function of the names.
- Download, checksum, unpacking, paths and temporary directories: kept as success or a reason for failure.
- Impersonation and kubeconfig clients: kept as one boolean, whether the account for finalization is there.
- Metrics, logging, event texts, durations in messages, message trimming, GetTimeout: no state depends on them. Events are counted in the build only.
- The condition Healthy beyond its being set or removed: the controller only ever writes it as unknown, and the final patch restores what was read before.
- The last handled reconcile request of the status, and the annotation that triggers it.
- The aliasing of condition slices between copies of an instance: every status that is stored sets the Ready condition itself.
- ObjectIds.Print: does not transcode colons in the names of role objects; identifiers have the documented format.
- Controllers.CueInstanceReconciler.ApplyAll: takes a list in the order given; the library sorts a batch again, and validates all of it before it writes.
- Controllers.CueInstanceReconciler.DeleteAll: takes a list in the order given, while the library reverses it; checking the labels and deleting is one atomic step per object.
- Controllers.CueInstanceReconciler.CheckHealth: what the wait finds is one boolean; leaving the instance itself out of the wait is part of that.
- Handover.FinalizerGoesLast: assumes that nobody outside writes the owner labels while it runs, and that the account is present whenever the instance is fetched.
- Wakeups.NewRevisionWakes: speaks of the requests for the new object; that the watch also asks for the old object of an update, and so may queue more, is not modelled. A reconciliation of the machine may start without being queued.
- Wakeups.RequestsForRevisionChange: takes the indexed list as given; a failing list call makes no requests.
- Convergence.RoundsConverge: assumes runs one after the other, as the rounds do; interleaved runs are covered by the safety results only.
- Stale cache reads, and a finalizer that somebody else strips or an object that is recreated under the same name while a reconciliation is in flight.
- The recreation of immutable objects (`force`), which the controller accepts in its spec and never reads.
