# Chantico: a verified model

Chantico is a Kubernetes operator that attributes energy to the resources of a data centre. Users
store DataCenterResources that name their parents and the share of each parent's energy that is
theirs; the operator checks that the parent relation is an acyclic graph, compiles every resource to
Prometheus recording rules and keeps one rule file per resource. MeasurementDevices describe how a
kind of device is read over SNMP: a generator job turns each into one SNMP file, and all of them are
merged into the one configuration the SNMP exporter loads. PhysicalMeasurements become target files
that tell Prometheus what to scrape.

The project has five parts. Code that changes state step by step in Go is a method here, proved
equal to a specification function; the main results are lemmas about those functions.

**The parent graph** (`ParentGraph`, `GraphValidation`). The validator's self-editing queue is
proved to compute a textbook breadth-first search, and that search to be exact: it accepts a resource
if and only if every reachable name is live and none closes a cycle, and otherwise reports a nearest
obstacle. Validating every resource against one snapshot succeeds if and only if the whole graph is
closed and acyclic.

**From graph to power** (`PromQL`, `RecordingRules`, `RuleSemantics`, `PowerEquations`,
`Conservation`, `Evaluation`, `RuleScheduling`). The emitted fragment of PromQL has a denotation over label maps, with
absent series and with operations that fail when a join is ambiguous. Evaluating the emitted rules
is proved to compute, round for round, the equations "power is the weighted sum of the parents'
power", for every snapshot, cyclic or not. On an accepted snapshot these have exactly one solution,
the sum over all root paths of coefficient products times root power, reached after one round more
than the longest chain of ancestors; energy is conserved. Rule groups run on their own timers:
evaluating single rules in any order, over labelled series, settles on the same solution.

**Measurement devices** (`SnmpMerge`, `DeviceFiles`, `DeviceProtocol` and the modules that follow
it). The reconciler is a transition system. Between passes users create, edit and delete devices and
jobs start, succeed, fail or vanish, in any order; each pass comes with the set of its operations
that fail, the final status patch among them, so a pass may die anywhere. Convergence is exact: it
fails precisely when the generator job of a device's present generation has failed. The whole cluster,
half-done deletions included, heals to the files and the annotation of a cluster in which nothing ever
failed. `DeviceExport` shows that not only the merged file but also the configuration the exporter was
told to load always serves every Ready device. `DeviceReports` reads what a pass leaves and reports,
whatever fails in it, off a table. `DeviceController` is the reconciler as it executes.

**Rule files and target files** (`RuleFile*`, `TargetFile*`, `ScrapeRouting`) treat the other two
reconcilers in the same way, with ConfigMap and Secret edits that change what templates render to
among the events. One invalid specification holds up nobody else. `RuleFileReports` and
`TargetFileSafety` have the tables of their passes. `RuleFileConvergence` joins them to the second
part: from any state a run can leave, passes without failures end with rules loaded whose evaluation,
in any order, records the path sums. `ScrapeRouting` joins target files to the merged SNMP
configuration.

**The stress-test generator** (`StressTest`, `StressTheorems`): its round robin is even, its output
is accepted, and it hands out more power than there is exactly when the rate times the printed
coefficient exceeds 1.

`Options`, `Strings`, `Sums`, `Conditions` and `Steps` are shared.

Assumptions, throughout: names are unique among stored objects of one kind and no two namespaces
share a rules directory; a pass is not interleaved with another pass of the same reconciler, and
reads what is stored; the object store is an atomic map; hashing is injective and marshalling
deterministic; the resolved secret of a device is fixed per generation; a generator job writes its
output in one step, and a deleted job takes no more steps; no Job that the operator did not create
bears a device's name, for then creating the device's own would fail for ever; the volume is empty at
the start. For the meaning of rules: the parents of a resource have
distinct names, every user-supplied expression yields at most one series, the same in every round,
and arithmetic is exact.

## What the proofs found

- `BuildRuleFile` never returns nil, so the branch that removes a rule file during reconciliation
  (`internal/controller/datacenterresource_controller.go:258-270`) cannot run.
- A generator job that failed for the present generation is never retried: in a run without further
  edits, deletions and failures, a device becomes Ready if and only if its job had not failed before
  (`DeviceConvergence.DeviceConverges`). Such a job can occur (`JobCanFail`); once it is taken away,
  the device can become Ready (`ReadyStaysPossible`).
- Ready=True for the present specification of a DataCenterResource does not always mean that its file
  is in force. `RuleFileSafety.ReadyMeansCurrent` gives the exact condition for whole runs: rule files
  are written in place, so a write that tears together with a lost status patch misleads, and so does
  an edit of a ConfigMap or Secret that a template refers to, which changes the compiled file and not
  the generation. Both can happen (`RuleFileConvergence.ReadyCanMislead`), and the next failure-free
  pass repairs either. A ConfigMap edit triggers that pass; for Secrets there is no watch
  (`internal/controller/datacenterresource_controller.go:72`), so the resource stays misleading until
  something else does.
- Editing the type of a PhysicalMeasurement that has a target file leaves that file behind: passes
  only look where the present type's file lies. `TargetFileSafety.NoOrphanTargetFiles` proves that
  nothing else does, and `FilesCanBeStranded` that it happens.
- The stress-test generator gives every root k links of coefficient 1/(k-1), printed with six
  decimals, although a coefficient is documented as a fraction of the parent's energy. With two roots
  or more these go to k different children, and the fraction rule holds exactly when k times the
  printed value is at most 1 (`StressTheorems.GeneratedSharesExact`): never up to k = 1414, the default
  3 included, but for instance at k = 1443, where rounding hides the extra link. A single root serves
  only k - 1 children, one of them twice, and obeys the rule unless its coefficient is rounded up.

## Model

| member | source | states |
|---|---|---|
| Strings.LessExact | internal/snmp/merge.go:45-56 | The order names are sorted by is Go's: one string is below another if and only if at some position they agree before, the first ends or has the smaller character. |
| ParentGraph.LookupByName | internal/datacenterresource/validate.go:91-97 | Indexing a listing of live, uniquely named resources loses none and confuses none. |
| ParentGraph.LaterWins | internal/datacenterresource/validate.go:91-97 | Indexing any listing keeps exactly the names of live entries, each with its last live entry. |
| ParentGraph.PathOfReach | internal/datacenterresource/validate.go:98-116 | A name the search can reach after k steps comes with a real parent path of k edges to it. |
| ParentGraph.ReachOfPath | internal/datacenterresource/validate.go:98-116 | The converse: the end of a parent path is reached after as many steps as the path has edges. |
| ParentGraph.SearchCorrect | internal/datacenterresource/validate.go:98-116 | From any intermediate state in breadth-first order the search ends with each reachable name visited once, in non-decreasing distance, or with a nearest obstacle. |
| ParentGraph.ValidationExact | internal/datacenterresource/validate.go:86-119 | A resource is accepted if and only if every name reachable through parents is live and none lists it as a parent; the visited list then is the set of proper ancestors, each once, nearest first; a reported name is a missing or cycle-closing one at minimal distance, with the right kind of error. |
| GraphValidation.GetFromMap | internal/datacenterresource/validate.go:60-69 | Looks the names up one for one and in order; a missing name yields the zero value. |
| GraphValidation.CollectLive | internal/datacenterresource/validate.go:91-97 | The loop builds the index that ParentGraph.LaterWins characterises. |
| GraphValidation.ValidateGraph | internal/datacenterresource/validate.go:86-119 | The queue that deletes seen entries from its own middle terminates on every finite graph, cyclic or not, and returns the error, the involved name and the ancestors of the textbook search that never deletes. |
| GraphValidation.AcceptsAllExact | internal/datacenterresource/validate.go:83-119 | Checking only cycles through each resource itself is enough: all resources are accepted against one snapshot if and only if no parent is missing and the whole graph is acyclic. |
| GraphValidation.RankedIsAcyclic | internal/datacenterresource/validate.go:83-119 | A rank that falls from every resource to each of its parents rules out every cycle and every missing parent. |
| GraphValidation.AcceptedGraphIsRanked | internal/datacenterresource/validate.go:83-119 | If all are accepted, the length of the returned ancestor list is such a rank. |
| GraphValidation.ReplacementExact | internal/datacenterresource/validate.go:83-119 | In a closed acyclic snapshot a new or edited resource is accepted if and only if the snapshot with it is closed and acyclic again. |
| RecordingRules.ApplyAdditionalLabels | internal/datacenterresource/rules_pure.go:116-121 | Every base label keeps its value, every other additional label is kept with its own, and no label is added or lost. |
| RecordingRules.BuildSharedLabels | internal/datacenterresource/rules_pure.go:128-149 | Copying label maps over one another yields the labels that LabelPriority, PowerLabels and ParentsLabel characterise. |
| RecordingRules.BuildEnergyAliasRule | internal/datacenterresource/rules_pure.go:151-175 | There is an alias rule exactly for resources without parents, and it records the measured expression under the resource's labels. |
| RecordingRules.BuildCoefficientRules | internal/datacenterresource/rules_pure.go:177-212 | The filter and sort loops yield the coefficient rules that CoefficientRulesExact characterises. |
| RecordingRules.BuildEnergyRule | internal/datacenterresource/rules_pure.go:214-243 | There is a weighted-sum rule exactly for resources with parents. |
| RecordingRules.BuildRecordingRules | internal/datacenterresource/rules_pure.go:85-114 | A root's alias comes before its rules, a child's weighted sum after its coefficients. |
| RecordingRules.BuildRuleFile | internal/datacenterresource/rules_pure.go:245-261 | There always is a rule file: one group, named after the resource. |
| RecordingRules.ExactlyOnePowerRule | internal/datacenterresource/rules_pure.go:96-114 | Exactly one rule of a resource records chantico_power_watts, first at a root and last elsewhere, all others chantico_power_coefficient; it is an alias exactly at a root and a weighted sum exactly elsewhere. |
| RecordingRules.LabelPriority | internal/datacenterresource/rules_pure.go:128-149 | For every base map: fixed labels win over base labels, and those over additional ones; none is added or lost. |
| RecordingRules.PowerLabels | internal/datacenterresource/rules_pure.go:116-149 | No additional label can override resource, type or a child's parents; all others are kept; there are no further labels. |
| RecordingRules.ParentsLabel | internal/datacenterresource/rules_pure.go:123-139 | Cutting a child's parents label at its commas gives back exactly the parents' names, in order, if no name contains one. |
| RecordingRules.FileShape | internal/datacenterresource/rules_pure.go:245-261 | The file is one group with all rules, called chantico_ and the resource's name with every character that a metric name must not have replaced by an underscore. |
| RecordingRules.CoefficientRulesExact | internal/datacenterresource/rules_pure.go:181-212 | Coefficient rules are sorted by parent name and stand, with multiplicity, for exactly the parents that have a coefficient. |
| RecordingRules.CoefficientRulesIgnoreOrder | internal/datacenterresource/rules_pure.go:186-198 | With distinct parent names the order in which a specification lists its parents does not change the rules. |
| PowerEquations.ChainExact | internal/datacenterresource/rules_pure.go:214-243 | No chain of parents above a resource is longer than k if and only if no walk along parents has k + 1 edges. |
| PowerEquations.RoundsReachSolution | internal/datacenterresource/rules_pure.go:214-243 | Any solution of the rules agrees with the recorded power of a resource from the round after its longest ancestor chain on. |
| PowerEquations.RoundsStabilise | internal/datacenterresource/rules_pure.go:214-243 | From that round on the recorded power of a resource no longer changes. |
| PowerEquations.UniqueSolution | internal/datacenterresource/rules_pure.go:214-243 | Without cycles the rules have exactly one solution, and rounds from no series at all reach it within the longest chain plus one. |
| PowerEquations.AnyOrderConverges | internal/datacenterresource/rules_pure.go:245-261 | On names: from any recorded values and in any order, each pass over all power equations settles one more layer of the graph. |
| PowerEquations.RootPathsExact | internal/datacenterresource/rules_pure.go:214-243 | The enumerated paths are exactly the parent paths from a root down to the resource. |
| PowerEquations.PowerIsPathSum | internal/datacenterresource/rules_pure.go:214-243 | The power of a resource is the sum over all paths from a root of coefficient products times root power. |
| Conservation.LeafSharesNothing | internal/datacenterresource/rules_pure.go:177-212 | A resource without children shares out nothing. |
| Conservation.EnergyBalance | internal/datacenterresource/rules_pure.go:181-243 | Whatever the coefficients: the roots' power is the childless resources' power plus what each resource with children does not share out. |
| Conservation.PowerNonNegative | internal/datacenterresource/rules_pure.go:181-243 | Non-negative measurements and coefficients give non-negative power everywhere. |
| Conservation.EnergyConserved | api/v1alpha1/datacenterresource_types.go:26-29 | If coefficients are fractions, childless resources together record at most the roots' power, and exactly as much if and only if every powered resource with children shares out all of its power. |
| RuleSemantics.RecordingsApart | internal/datacenterresource/rules_pure.go:128-149 | Two rules never record different values under one series. |
| RuleSemantics.OneSideExact | internal/datacenterresource/rules_pure.go:232-236 | After label_replace the one side of the join holds exactly one series per resource with power, so the join never fails. |
| RuleSemantics.ManySideExact | internal/datacenterresource/rules_pure.go:181-212 | The child selector picks exactly the recorded coefficients of the child's own edges. |
| RuleSemantics.WeightedSumMeaning | internal/datacenterresource/rules_pure.go:232-236 | The emitted expression evaluates to the sum over the parents that have power and a coefficient of their product, and to no series when there is none. |
| Evaluation.CoefficientOutput | internal/datacenterresource/rules_pure.go:200-211 | A coefficient rule records its expression's value under parent and child labels, or nothing when the expression yields nothing. |
| Evaluation.PowerOutput | internal/datacenterresource/rules_pure.go:151-175 | The power rule of a root or a child records what the power equation of the resource gives, under the resource's labels. |
| Evaluation.AllRulesExact | internal/datacenterresource/rules_pure.go:85-114 | The rules of a snapshot are exactly the rules of its resources. |
| Evaluation.RoundIsStep | internal/datacenterresource/rules_pure.go:96-243 | Evaluating all rules once over labelled series is one step of the power equations over names. |
| Evaluation.CompilationFaithful | internal/datacenterresource/rules_pure.go:96-243 | Compilation preserves meaning on every snapshot, cyclic or not: after k rounds the store holds exactly the series of the k-th iterate of the equations. |
| Evaluation.AcceptedSnapshotRecordsPathSums | internal/datacenterresource/rules_pure.go:96-243 | If every listed resource validates, then from round number-of-resources plus one on the recorded power is the path sum, and no other values satisfy the rules. |
| Evaluation.AcceptedSnapshotConservesEnergy | api/v1alpha1/datacenterresource_types.go:26-29 | What is recorded over an accepted snapshot with fractional coefficients conserves energy, and all of it reaches the childless resources if and only if every powered resource with children shares out all it has. |
| RuleScheduling.PowerOutputShape | internal/datacenterresource/rules_pure.go:220-243 | Whatever is in the store, a power rule records at most its resource's own series. |
| RuleScheduling.EvaluatingKeepsPlausible | internal/datacenterresource/rules_pure.go:85-114 | Evaluating one rule of the snapshot leaves only power series of its resources and its coefficients with their right values. |
| RuleScheduling.EvaluatingUpdates | internal/datacenterresource/rules_pure.go:85-114 | Once all coefficients are recorded, evaluating one rule over labelled series updates the power of its resource by its equation, or nothing. |
| RuleScheduling.FirstPassRecords | internal/datacenterresource/rules_pure.go:181-212 | One pass over all rules in any order records every coefficient, from no series at all or from any that such rules have left. |
| RuleScheduling.OrderIsOrder | internal/datacenterresource/rules_pure.go:85-114 | Evaluating rules one after the other over series is evaluating the equations of their resources in that order. |
| RuleScheduling.AnyOrderRecordsSolution | internal/datacenterresource/rules_pure.go:245-261 | Groups run on their own timers: when every rule has run at least once in each of k + 2 stretches, in any order and any number of times, the recorded series are exactly those of the one solution, where k bounds the chains of ancestors. |
| SnmpMerge.GreatestUnique | internal/snmp/merge.go:45-56 | A set of file names has at most one lexicographically greatest member. |
| SnmpMerge.PerDeviceExact | internal/snmp/merge.go:69-72 | A path counts as a per-device file if and only if it is some directory, then snmp-, anything without a slash, and .yaml. |
| SnmpMerge.ReadPerDeviceSnmpConfigs | internal/snmp/merge.go:58-85 | Whatever the listing order, exactly the non-blank files named snmp-*.yaml contribute. |
| SnmpMerge.SortedConfigs | internal/snmp/merge.go:45-56 | The contents come in strictly ascending order of file name, each file once. |
| SnmpMerge.Merge | internal/snmp/merge.go:20-37 | Fragments overwrite one another left to right, blank ones are skipped, and one unparseable fragment fails the merge. |
| SnmpMerge.OverwritingIsLatest | internal/snmp/merge.go:20-56 | Copying the sorted fragments over one another gives every key its value in the greatest file that has it. |
| SnmpMerge.GetMergedSortedSNMPConfig | internal/snmp/merge.go:87-94 | The result depends on the files alone, not on the order they are listed in: each key has its value in the lexicographically greatest contributing file. |
| SnmpMerge.MergeFailsExactly | internal/snmp/merge.go:20-37 | The merge fails if and only if some per-device file in the directory is neither blank nor parseable. |
| SnmpMerge.MergeMeaning | internal/snmp/merge.go:20-94 | Told of the directory alone: a key is in the merge if and only if a per-device file has it, and its value is that of the last of these in the order of LessExact. |
| SnmpMerge.MergeIgnoresOtherFiles | internal/snmp/merge.go:69-72 | Writing any other file, the merged one included, never changes the merge. |
| DeviceFiles.SnmpFileIsPerDevice | internal/measurementdevice/paths.go:28-30 | Every device's SNMP file is one of the merge's inputs, and the identifier in its name is the device's. |
| DeviceFiles.MergedFileIsNotPerDevice | internal/measurementdevice/paths.go:18-20 | The merged file is never one of its own inputs. |
| DeviceFiles.TextInjective | internal/measurementdevice/paths.go:16-30 | Different devices and different purposes, generator files included, never share a path. |
| DeviceFiles.MergeDependsOnSnmpFiles | internal/snmp/merge.go:58-94 | Two volumes with the same SNMP files have the same merge. |
| DeviceFiles.MergeContents | internal/snmp/merge.go:87-94 | If each device's file holds one auth and one module under its own unique name, the merge holds exactly these. |
| Steps.RunStopsFirst | internal/steps/helpers.go:57-72 | A run continues to its end exactly if every step does; otherwise it ends with the action and the state of the first step that does not, and no later step has any effect. |
| DevicePass.PassEnds | internal/controller/measurementdevice_controller.go:84-120 | Whatever fails, a pass ends in one of four ways: all steps done and everything current, cut short with the finalizer kept, finalizer added and nothing else, or released and cleaned up. |
| DeviceReports.PassReports | internal/controller/measurementdevice_controller.go:84-402 | Whatever fails: a decision table over the cluster and the failures gives exactly the jobs, files and annotation a pass leaves, the finalizer, every condition and whether the pass is retried. An error is retried; a pass that waits for a job, found it failed or dropped it just ends. |
| DeviceReports.StoredReport | internal/controller/measurementdevice_controller.go:84-120 | A recorded pass stores exactly that object, unless it releases the device. |
| DeviceReports.OddJobs | internal/controller/measurementdevice_controller.go:243-281 | Outside the reachable states too: several owned jobs, or another owner's job under the device's name, are an error that changes no job. |
| DeviceReports.MissingFiles | internal/controller/measurementdevice_controller.go:311-376 | A missing SNMP file fails the pass; a missing merged file leaves the exporter alone. |
| DeviceReports.LeavesForeign | internal/controller/measurementdevice_controller.go:122-131 | A device under deletion without the operator's finalizer is left alone; only Ready becomes Unknown. |
| DeviceRuns.PassSafe | internal/controller/measurementdevice_controller.go:84-120 | A pass in which any operations fail keeps the invariant of the cluster, and keeps every undisturbed Ready device served. |
| DeviceRuns.EventSafe | internal/controller/measurementdevice_controller.go:84-120 | So does every user edit, deletion and job event. |
| DeviceRuns.RunSafe | internal/controller/measurementdevice_controller.go:84-120 | The invariant holds after every interleaving of events and passes. |
| DeviceTheorems.ReadyStaysMerged | internal/controller/measurementdevice_controller.go:332-357 | Once Ready at its current generation, a device keeps its auth and module in the merged configuration until its own specification changes or it is deleted, whatever the other devices, jobs and failures do. |
| DeviceTheorems.ReadyMeansConverged | internal/controller/measurementdevice_controller.go:311-402 | In every reachable state Ready=True for the present generation means Generated=True, Applied=True, ConfigHash is the hash of the device's file, the generator file is current and the merged file has the device's entries. |
| DeviceTheorems.NoOrphans | internal/controller/measurementdevice_controller.go:122-173 | Every job, generator file and SNMP file belongs to a stored device whose finalizer is persisted. |
| DeviceTheorems.ReleaseIsClean | internal/controller/measurementdevice_controller.go:122-165 | When a device is released, after any history of failed deletions, it owns no job and no file, the merged file is the merge of what remains and the exporter carries its hash. |
| DeviceTheorems.ReadyAfterPass | internal/controller/measurementdevice_controller.go:98-119 | A stored pass shows Ready=True exactly if all its steps continued, and then the merged file is current and the exporter carries its hash: the branch for a missing merged file never leads to Ready. |
| DeviceTheorems.SettledIsCanonical | internal/controller/measurementdevice_controller.go:175-219 | Two settled states with the same devices, at least one, agree on every file and on the annotation, however different the failures and orders that led to them. |
| DeviceConvergence.PassApproaches | internal/controller/measurementdevice_controller.go:167-309 | A failure-free pass never sets a device back, and brings it strictly closer to Ready unless it waits for its job, is there already, or its job of the present generation has failed. |
| DeviceConvergence.FailedJobBlocks | internal/controller/measurementdevice_controller.go:300-303 | A failure-free pass keeps a failed job of the present generation, leaves the device not Ready and stores Generated=False for this generation. |
| DeviceConvergence.WaitingIsReported | internal/controller/measurementdevice_controller.go:261-308 | While its job has yet to be created, to start or to finish, a failure-free pass over a held device stores Generated=Unknown. |
| DeviceConvergence.CalmStep | internal/controller/measurementdevice_controller.go:243-309 | No event of a calm run, other devices' failing passes included, takes a device further from Ready; an effective one takes it closer, and with a failed job of the present generation it stays where it is. |
| DeviceConvergence.CalmRunApproaches | internal/controller/measurementdevice_controller.go:167-309 | In a calm run every effective event is one step towards Ready, unless the job of the present generation had failed at the start: then the device stays where it is. |
| DeviceConvergence.StuckRun | internal/controller/measurementdevice_controller.go:295-303 | In a calm run that starts with a failed job of the present generation the job stays, and from the device's first pass on it is not Ready and says Generated=False. |
| DeviceConvergence.DeviceConverges | internal/controller/measurementdevice_controller.go:167-402 | Exactly when convergence holds: from any reachable state, however many failures led there, a calm run with six effective events makes a device Ready if and only if its job of the present generation had not failed at the start. |
| DeviceConvergence.ReadyStaysPossible | internal/controller/measurementdevice_controller.go:243-309 | There is no dead end: from every reachable state, a failed job included, seven further events can make an active device Ready. |
| DeviceConvergence.JobCanFail | internal/controller/measurementdevice_controller.go:295-303 | A failed job of a device's present generation does occur: two passes and a failing job reach it. |
| DeviceConvergence.QuietPassIsIdle | internal/controller/measurementdevice_controller.go:84-120 | In a settled cluster a failure-free pass over a device whose finished job is still stored changes no file, job, annotation or object. |
| DeviceConvergence.DeletionCompletes | internal/controller/measurementdevice_controller.go:122-165 | One failure-free pass releases a device under deletion, whatever failed before. |
| DeviceHealing.CalmKeepsObject | internal/controller/measurementdevice_controller.go:84-120 | Passes and job events never change an active device's name, specification or generation, nor remove it. |
| DeviceHealing.LeavingRun | internal/controller/measurementdevice_controller.go:122-165 | A device under deletion never comes back, and its first failure-free pass, whatever clean-ups failed before, releases it. |
| DeviceHealing.ClusterConverges | internal/controller/measurementdevice_controller.go:84-120 | From any reachable state, half-done deletions included, a calm run that serves every active device and gives each one under deletion a failure-free pass leaves exactly the active devices, all held, and the cluster settles if and only if no active device's job of its present generation had failed at the start. |
| DeviceHealing.ClusterHeals | internal/controller/measurementdevice_controller.go:175-219 | Self-healing: from any reachable state with an active device and no such failed job, whatever failed before, that run ends with the files and the annotation of every settled cluster that holds the same active devices, one in which nothing ever failed or was deleted included. |
| DeviceExport.PassAnnotation | internal/controller/measurementdevice_controller.go:359-397 | A pass with any failures leaves the annotation alone or makes it the hash of the merged file it leaves. |
| DeviceExport.ReadyIsExported | internal/controller/measurementdevice_controller.go:332-397 | In every reachable state the annotation is the hash of a configuration that has every Ready device's auth and module, even after another device's pass wrote the merged file and died before it patched the exporter. |
| DeviceExport.ReadyStaysExported | internal/controller/measurementdevice_controller.go:332-397 | Once Ready at its current generation, a device stays both in the merged file and in what the exporter is told to load until its own specification changes or it is deleted. |
| DeviceController.Reconciler.GetOwnedJobs | internal/controller/measurementdevice_controller.go:436-451 | Returns exactly the jobs whose owner reference names the device. |
| DeviceController.Reconciler.CollectSubFiles | internal/snmp/merge.go:59-67 | Lists exactly the files under the SNMP directory, in no particular order. |
| DeviceController.Reconciler.DeleteJobs | internal/controller/measurementdevice_controller.go:137-143 | Deletes all given jobs, or reports the failure that left them. |
| DeviceController.Reconciler.CleanUp | internal/controller/measurementdevice_controller.go:132-154 | Jobs go before files, and a failure leaves what comes after it. |
| DeviceController.Reconciler.ReconcileDeletion | internal/controller/measurementdevice_controller.go:122-165 | The finalizer goes only after clean-up, merge and reload. |
| DeviceController.Reconciler.EnsureFinalizerIsSet | internal/controller/measurementdevice_controller.go:167-173 | A pass that adds the finalizer stops there, so it is persisted before anything else happens. |
| DeviceController.Reconciler.ReconcileGeneratorFile | internal/controller/measurementdevice_controller.go:175-219 | Leaves the generator file as the specification desires it, or fails and leaves it as it was. |
| DeviceController.Reconciler.CreateGeneratorJob | internal/controller/measurementdevice_controller.go:261-281 | Creates one job of the present generation and stops, or fails without one. |
| DeviceController.Reconciler.EvaluateGeneratorJob | internal/controller/measurementdevice_controller.go:283-309 | A job of another generation is deleted; only a complete job of this one lets the pass continue; a failed one is reported as Generated=False (DeviceReports.PassReports). |
| DeviceController.Reconciler.ReconcileSNMPGeneratorJob | internal/controller/measurementdevice_controller.go:243-259 | No job leads to creation, one to evaluation, more to an error. |
| DeviceController.Reconciler.ReconcileSNMPFileContent | internal/controller/measurementdevice_controller.go:311-330 | ConfigHash becomes the hash of the device's SNMP file. |
| DeviceController.Reconciler.ReconcileMergedSNMPFile | internal/controller/measurementdevice_controller.go:332-357 | Leaves the merged file equal to the merge, or fails and leaves it as it was. |
| DeviceController.Reconciler.ReconcileExporterReload | internal/controller/measurementdevice_controller.go:359-397 | Leaves the annotation equal to the merged file's hash, or fails and leaves it as it was. |
| DeviceController.Reconciler.ReconcileReady | internal/controller/measurementdevice_controller.go:399-402 | Reports Ready=True for the generation in hand. |
| DeviceController.Reconciler.RunSteps | internal/steps/helpers.go:57-72 | The interpreter's loop over mutable state is the pipeline's run. |
| DeviceController.Reconciler.Reconcile | internal/controller/measurementdevice_controller.go:84-120 | The executing reconciler is the protocol's pass and keeps the cluster's invariant. |
| RuleFileSafety.PassEnds | internal/controller/datacenterresource_controller.go:142-149 | Whatever fails, a pass touches no other resource's file and ends completed, cut short with the finalizer kept, with just a finalizer added, or released; a pass cut short always ends with an error and so is retried, the last two just end. |
| RuleFileReports.ValidatesExact | internal/datacenterresource/validate.go:121-167 | A resource validates if and only if no name its parents lead to is missing or lists it as a parent, its type is one of the six known ones and no additional label is nameless. |
| RuleFileReports.PassReports | internal/controller/datacenterresource_controller.go:142-305 | Whatever fails: a decision table over the stored state and the failures gives exactly the files on disk and those loaded, the finalizer, every condition and whether the pass is retried. |
| RuleFileReports.LeavesForeign | internal/controller/datacenterresource_controller.go:170-178 | A resource under deletion without the operator's finalizer is left alone; only Ready becomes Unknown. |
| RuleFileSafety.EventSafe | internal/controller/datacenterresource_controller.go:115-150 | Every edit, deletion, reload and pass with any failures keeps all files, on disk and loaded, tied to held resources. |
| RuleFileSafety.NoOrphanRuleFiles | internal/controller/datacenterresource_controller.go:170-205 | In every run every rule file on disk, and every one Prometheus has loaded, belongs to a stored resource whose finalizer is persisted. |
| RuleFileSafety.ReleaseReloads | internal/controller/datacenterresource_controller.go:186-196 | A resource is released only after its file is gone and a reload has succeeded. |
| RuleFileSafety.OnlyValidatedIsWritten | internal/controller/datacenterresource_controller.go:207-222 | A pass that changes a live resource's rule file has validated the resource. |
| RuleFileSafety.ReadyAfterPass | internal/controller/datacenterresource_controller.go:132-149 | Stored Ready=True after a pass means every step continued, or that nothing was stored; after a completed pass the file on disk is the resource's compiled file and is loaded. |
| RuleFileSafety.ReadyPartsFromFile | internal/controller/datacenterresource_controller.go:285-296 | A pass leaves Ready=True over a file that is not current if and only if its write tears and its status patch is lost. |
| RuleFileSafety.TruthExactly | internal/controller/datacenterresource_controller.go:246-305 | Of all events, edits and failing passes included, exactly these two kinds make Ready=True stand over another file. |
| RuleFileSafety.ReadyMeansCurrent | internal/controller/datacenterresource_controller.go:246-305 | Throughout a run Ready=True for the present specification means that exactly the compiled file is on disk and loaded, if and only if no torn write over a Ready resource goes unrecorded and no edit of a ConfigMap or Secret changes the file of a Ready resource. |
| RuleFileConvergence.DonePassIsIdle | internal/controller/datacenterresource_controller.go:246-305 | A further failure-free pass over a finished resource changes nothing. |
| RuleFileConvergence.CalmPassAdvances | internal/controller/datacenterresource_controller.go:115-150 | A failure-free pass brings its resource one stage on and no other resource back, whatever is wrong with other specifications. |
| RuleFileConvergence.SweepAdvances | internal/controller/datacenterresource_controller.go:115-150 | So do many, in any order and with any repetitions. |
| RuleFileConvergence.RejectedPassIsIdle | internal/controller/datacenterresource_controller.go:217-222 | A further failure-free pass over a rejected resource changes nothing. |
| RuleFileConvergence.SweepsSettle | internal/controller/datacenterresource_controller.go:115-305 | Resource by resource: from any reachable state, once each stored resource has had two failure-free passes in any order, the deleted ones are gone, a live one is Ready with its compiled file on disk and loaded exactly if its specification validates against the others, a rejected one is held, Validated=False and not Ready, and further passes change nothing. |
| RuleFileConvergence.SweepsConverge | internal/controller/datacenterresource_controller.go:115-305 | When all live specifications validate, disk and Prometheus then hold exactly the compiled files. |
| RuleFileConvergence.ReadyCanMislead | internal/controller/datacenterresource_controller.go:57-60 | Both kinds of misleading event can follow a run in which a resource became Ready: a torn write that is not recorded and an edit of what a template refers to. |
| RuleFileConvergence.LoadedRulesExact | internal/datacenterresource/rules_pure.go:245-261 | The compiled files of a snapshot contain exactly its rules. |
| RuleFileConvergence.OperatorRecordsPathSums | internal/controller/datacenterresource_controller.go:207-305 | End to end: after such passes, evaluating the rules in the loaded files one at a time, in any order, records for every resource the path sum, the only solution of these rules. |
| RuleFileController.Reconciler.DeleteRuleFile | internal/controller/datacenterresource_controller.go:307-314 | Removes the resource's file or reports a failure that left it; a missing file is no failure. |
| RuleFileController.Reconciler.ReloadPrometheus | internal/controller/datacenterresource_controller.go:362-386 | After a success what is loaded is what is on disk. |
| RuleFileController.Reconciler.ReconcileDeletion | internal/controller/datacenterresource_controller.go:170-197 | The finalizer goes only after the file is gone and Prometheus has reloaded. |
| RuleFileController.Reconciler.EnsureFinalizerIsSet | internal/controller/datacenterresource_controller.go:199-205 | A pass that adds the finalizer stops there. |
| RuleFileController.Reconciler.List | internal/controller/datacenterresource_controller.go:210-212 | Whatever order the API lists resources in, indexing them gives the live graph; a failed listing reads as empty. |
| RuleFileController.Reconciler.ReconcileValidation | internal/controller/datacenterresource_controller.go:207-244 | The pass continues exactly if the graph validator and the validators of type and labels accept the resource. |
| RuleFileController.Reconciler.ReconcileWriteRuleFile | internal/controller/datacenterresource_controller.go:246-300 | The compiled file is written and then loaded; Applied=True is reported only after both, and a refused reload is an error (RuleFileReports.PassReports). |
| RuleFileController.Reconciler.ReconcileReady | internal/controller/datacenterresource_controller.go:302-305 | Reports Ready=True for the generation in hand. |
| RuleFileController.Reconciler.RunSteps | internal/steps/helpers.go:57-72 | The interpreter's loop over mutable state is the pipeline's run. |
| RuleFileController.Reconciler.Reconcile | internal/controller/datacenterresource_controller.go:115-150 | The executing reconciler is the protocol's pass and leaves no orphan file. |
| TargetFileProtocol.DefaultLabelsWin | internal/physicalmeasurement/config.go:22-54 | No additional label can redirect a scrape or rename its target; all others are kept, and there are no further labels. |
| TargetFileSafety.PassEnds | internal/controller/physicalmeasurement_controller.go:105-221 | What a pass does is settled by its failures: it completes exactly if the measurement is live and held, its device is found and no step fails, and it touches one file at most. A table gives finalizer, conditions and action: only a missing device asks for a retry, every other obstacle is an error. |
| TargetFileSafety.LeavesForeign | internal/controller/physicalmeasurement_controller.go:115-123 | A measurement under deletion without the operator's finalizer is left alone; only Ready becomes Unknown. |
| TargetFileSafety.ReadyMeansCurrent | internal/controller/physicalmeasurement_controller.go:172-221 | In every run, failures included, Ready=True for the present specification means the target file is exactly the one it asks for, in the directory of its type. |
| TargetFileSafety.ReadyIsScraped | internal/physicalmeasurement/config.go:22-54 | In every run a Ready measurement of either kind has one target, its address, in the file of its name under snmp or prometheus-exporter, with type, name and instance, for SNMP its device as job, auth and module, and all other additional labels. |
| TargetFileSafety.OrphansExactly | internal/controller/physicalmeasurement_controller.go:59-65 | Changing the type of a measurement that has a target file always strands that file, and no other event or failure ever strands one. |
| TargetFileSafety.NoOrphanTargetFiles | internal/controller/physicalmeasurement_controller.go:115-148 | A run never leaves a target file without a held measurement that will remove it if and only if no edit changes the type of one that has a file. |
| TargetFileSafety.FilesCanBeStranded | internal/controller/physicalmeasurement_controller.go:59-65 | Such an edit can happen: turning an exporter that has its target file into an SNMP measurement strands the file. |
| TargetFileSafety.ReleaseRemovesFile | internal/controller/physicalmeasurement_controller.go:115-140 | A measurement is released only when the file of its present type is gone, and no other file is touched. |
| TargetFileSafety.ReadyAfterPass | internal/controller/physicalmeasurement_controller.go:94-112 | A measurement leaves the store exactly when its release is recorded; if it stays, under deletion or not, stored Ready=True after a pass means the pass completed, or that nothing was stored and it was True before. |
| TargetFileSafety.TwoPassesSettle | internal/controller/physicalmeasurement_controller.go:142-221 | From any reachable state two failure-free passes make a live measurement whose device exists Ready, and a third changes nothing. |
| ScrapeRouting.ReadyScrapesAreRouted | internal/physicalmeasurement/config.go:34-54 | When an SNMP measurement and its device are both Ready, the auth and module its target file asks for are in the merged configuration and are the device's own. |
| TargetFileController.ApplyDefaultAndAdditionalLabels | internal/physicalmeasurement/config.go:22-32 | Name and instance are the measurement's own, routing labels come before additional ones, every other additional label is kept, and no label is added or lost. |
| TargetFileController.CreateFileSDTarget | internal/physicalmeasurement/config.go:34-54 | Builds the target that DefaultLabelsWin and ReadyIsScraped characterise. |
| TargetFileController.Reconciler.ReconcileDeletion | internal/controller/physicalmeasurement_controller.go:115-140 | The finalizer goes only after the target file is gone. |
| TargetFileController.Reconciler.EnsureFinalizerIsSet | internal/controller/physicalmeasurement_controller.go:142-148 | A pass that adds the finalizer stops there. |
| TargetFileController.Reconciler.ReconcileValidation | internal/controller/physicalmeasurement_controller.go:150-170 | A measurement without a device is valid; a missing device asks for a retry, another error fails the pass. |
| TargetFileController.Reconciler.ReconcileTargetFile | internal/controller/physicalmeasurement_controller.go:172-200 | Leaves the target file as the specification desires it, or fails and leaves it as it was. |
| TargetFileController.Reconciler.WriteTargetFile | internal/controller/physicalmeasurement_controller.go:202-216 | The file is replaced as a whole or not at all, and the condition says which. |
| TargetFileController.Reconciler.ReconcileReady | internal/controller/physicalmeasurement_controller.go:218-221 | Reports Ready=True for the generation in hand. |
| TargetFileController.Reconciler.RunSteps | internal/steps/helpers.go:57-72 | The interpreter's loop over mutable state is the pipeline's run. |
| TargetFileController.Reconciler.Reconcile | internal/controller/physicalmeasurement_controller.go:80-113 | The executing reconciler is the protocol's pass, and strands no file. |
| StressTest.GenerateDcFirstLayer | dev/stresstest/datacenterresource.go:95-130 | Advancing modulo the layer size over an array of builders gives child c link c and, the second time round, link c + m. |
| StressTheorems.ChildParents | dev/stresstest/datacenterresource.go:110-121 | The first n children get two parents and the others one; with two roots or more a child's parents differ. |
| StressTheorems.AllLinksHandedOut | dev/stresstest/datacenterresource.go:110-121 | Exactly n * k links are handed out. |
| StressTheorems.GeneratedIsAccepted | dev/stresstest/datacenterresource.go:132-136 | Every generated resource passes the graph validator against the generated list. |
| StressTheorems.RootSharesOut | dev/stresstest/datacenterresource.go:112-120 | Each root shares out its coefficient once for each child it serves: k of them, or k - 1 when it is the only root. |
| StressTheorems.GeneratedPower | dev/stresstest/datacenterresource.go:95-130 | In any solution of the rules of generated data the children record the roots' power times the coefficient and the number of children each root serves. |
| StressTheorems.GeneratedSharesExact | api/v1alpha1/datacenterresource_types.go:26-29 | Whatever value the printed coefficient has, generated data follow the fraction rule if and only if that value times the number of children each root serves is at most 1. |
| StressTheorems.OnlyRootShares | dev/stresstest/datacenterresource.go:110-121 | Data with a single root follow the fraction rule if and only if the coefficient is not rounded up. |
| StressTheorems.PrintedShares | dev/stresstest/datacenterresource.go:113-116 | Printing six decimals cannot make up for the extra link up to k = 1414. |
| StressTheorems.StressTestInflatesPower | dev/stresstest/datacenterresource.go:113-116 | With two roots or more and the coefficient as printed, at every rate up to 1414 the children record more than the roots do, if these record any power, and the fraction rule does not hold. |
| StressTheorems.PrintedExamples | dev/stresstest/datacenterresource.go:113-116 | At the default rate 3 the printed shares add up to 1.5; at rate 1443 they add up to 0.999999. |
| StressTheorems.DefaultExample | dev/stresstest/datacenterresource.go:95-130 | The smallest data of the default rate meet the hypotheses of these results and break the fraction rule. |

## Left out

- The Kubernetes client, cache, watches and patch helper, logging, and the HTTP call that reloads Prometheus: each is an effect that succeeds or fails.
- YAML and JSON text, SHA-256 and PromQL text: contents, digests and expressions are values; white-space-only and unparseable SNMP files are kept apart.
- Template rendering and `normalizeDataCenterResource`: resources carry their rendered expressions, and a failure to render is one of the effects.
- Character encodings: strings are compared by code points, which is the order of their UTF-8 bytes.
- Floating point: power is a real number. The generator's coefficient is any value within half a unit of its sixth decimal, and a little more for the quotient's own rounding; which of these it prints is not modelled.
- Prometheus refusing to load a file it cannot parse: a reload succeeds or fails as an effect, and a torn file may be loaded.
- Requeueing related resources after validation (`clearReferencedValidation`, `mergeUnique`, `InvolvedResource`): it ignores list errors, and its liveness rests on indexes that the repository does not register.
- A parent listed twice by one resource: the meaning of rules assumes distinct parent names, and `sort.Slice` leaves the order of equal names open. The graph results do not need this.
- Prometheus forgetting a series that no rule refreshes any more: evaluating a rule replaces what that rule recorded before, and nothing else disappears.
- Raw expressions that yield several series, labels that start with `__`, and one rules directory shared by several namespaces.
- Finalizers of others: an object under deletion leaves the store with the operator's own finalizer. What passes do with one that another finalizer keeps is the subject of the three `LeavesForeign`.
- Rotation of a secret within one generation, and pods that outlive a deleted job.
- Condition reasons and messages, the requeue delay, `observedGeneration` and the generation bump on deletion.
- The API server's admission rules, such as an SNMP measurement requiring a device: the reconcilers are proved without them.
- The metric type and label-name functions as results of their own: single-function facts. The label-name check is modelled as refusing the empty name.
- `generateDcRootLayer` and the builders' setters: roots and names are parameters, with the properties the builders give them. One root and expansion rate 1 makes the generator index an empty slice and is outside its precondition.
- DeviceController.Reconciler.DeleteJobs: a failing deletion fails for the first job; since a device owns at most one job in every reachable state, no deletion is left half done.
- TargetFileController.Reconciler.RunSteps: the generic `steps.Run` is written once per reconciler, because a method cannot be passed as a value; `Steps.RunStopsFirst` is proved once.
- The webapp, Mermaid output, postmortem and observability tools, environment validation, and Helm charts.
