# kubetest: a verified model

kubetest takes a list of distribution keys, spreads them over pods, containers and sequential groups
of concurrent subtasks, runs them with retries and folds the results into one report. This project
models that path, from a job specification to the report, and proves what holds of it for every key
list, every interleaving of goroutines, every error and every retry.

`dafny verify dfyconfig.toml` checks the whole project.

## Modules

| module | what it models |
|---|---|
| `Scheduler`, `SchedulerLoops` | the `uint32` loops that cut keys into tasks, and subtasks into groups |
| `KeySource` | reading keys from the output of a key task |
| `Results` | results of subtasks, their counts, the report |
| `Retry` | one task's retry loop |
| `Execution`, `Runs`, `RunTheorems`, `Liveness` | tasks, groups and subtasks running concurrently, as a transition system; its inductive invariant; theorems about whole runs; termination |
| `PodSpecs`, `Builder`, `BuilderHeap` | building a pod from a template: as functions of values, and over the shared arrays that the source rewrites in place |
| `PreInit`, `PreInitCopies`, `ResourceOrder` | merging per-container plans through maps walked in arbitrary order; the files the preinit container copies against the files the mount commands read |
| `Names`, `Pipeline` | printed container names and artifact paths; the composition from keys to the report |
| `Validation`, `Acceptance`, `Lookups` | the validator; what it accepts, as one condition; name lookups during a run; soundness of the one for the other |
| `ArtifactCopies`, `ArtifactPaths`, `RunArtifacts` | which artifacts the subtasks of a step leave behind for later steps; the paths looked up, copied to and read; what a successful run leaves behind |
| `Counterexamples` | jobs the validator accepts on which a property fails |
| `Masking`, `Logger`, `LogHistory` | replacing secrets; the logger objects; all interleavings of logging threads |
| `Wrappers`, `Seqs` | option and result types; facts about sequences |

## What the source's libraries are taken to do

* `RunWithExecutionHandler` calls its handler at most once, passes distinct containers of the job at
  hand, and returns only after the handler did. It may pass any of the containers, in any order, and
  return any error at any of these points (event `Call` and `Return` of `Execution`).
* `backoff` grants a finite budget of at least one attempt. `errors.As` looks through errors wrapped
  with `%w`; it is not taken to look into a `JobMultiError`.
* `strings.Replace`, `strings.Split`, `strings.Join`, `strings.TrimSpace` and `%d` are written out as
  functions. In `Masking` a character is a byte, in `KeySource` a code point of valid UTF-8.
* File paths are sequences of elements in `PodSpecs`, `PreInit` and `PreInitCopies`, so that
  `filepath.Join` appends; volume names are single clean elements. The finalizer's mount slice is not
  shared with another container of the template, as after decoding a job.
* A subtask is given which of its copies fail; a failed copy leaves no directory behind. In
  `ArtifactPaths` a temporary directory is one path element.
* Each build says how many temporary directories `os.MkdirTemp` could create; soundness is for runs in
  which none was missing.
* The list of volumes that the embedded Kubernetes pod spec already has is a parameter of
  `PreInit.PodSpecVolumes`; the other statements are about the volumes the program adds to it.

## Where the code does less than it promises

Each point is proved; where a condition is exact the member named first states it as an equivalence,
and the member in parentheses shows an input on which the property fails.

* A limit of 2^32 containers per pod passes validation, is truncated to zero and makes the schedule
  panic; so does a limit of 1 with 2^32 - 1 keys, where the loop counter wraps:
  `Scheduler.MaxContainersPanicsExactly`.
* From 2^32 keys on, a schedule drops the keys beyond the truncated count unless its last slice takes
  them: `Scheduler.MaxContainersSchedule`, `Scheduler.MaxPodsSchedule` (`Scheduler.AllKeysLost`).
* The finalizer container is not deep-copied, so one build rewrites it for the next, and the original
  paths it recorded are lost unless they were the staging paths: `Builder.RecordedPathsKept`,
  `BuilderHeap.BuildAll` (`Builder.FinalizerPathLost`).
* The pod spec leaves out volumes that only the finalizer mounts, although the preinit container
  mounts them: `PreInit.PreInitMountsNameVolumes` (`Counterexamples.FinalizerVolumeMissing`).
* Two volumes of one resource, mounted by two containers of a pod, leave one of them without its file:
  `PreInitCopies.PreInitCoverage`, `PreInitCopies.StagedAlikeExactly`
  (`Counterexamples.TwoVolumesUncovered`).
* A sidecar that declares the strategy's variable is counted and run as a subtask:
  `Builder.MainContainersAreKeys`, `Pipeline.ScheduleConfig`
  (`Counterexamples.SideCarRunsAsSubTask`). A main container that declares it names its subtasks, and so
  the report's details, by the declared value: `Builder.SubTaskNamedByKey`,
  `Pipeline.NamesAreKeysExactly` (`Counterexamples.MainNamesSubTask`).
* The validator does not look at a repository that has a cloned path, so an undeclared token is found
  only when the directory is missing: `Lookups.AcceptedReposClone` (`Counterexamples.ClonedPathFails`).
* With a pod limit and a key task that prints no key the main step is never built, and its artifacts
  are unknown to poststeps and exports: `Pipeline.ScheduledJobLookups`
  (`Counterexamples.NoMainBuildFails`).
* The validator accepts an artifact of any container, but only those of the main container are ever
  copied: `ArtifactCopies.ArtifactFoundIfMain` (`Counterexamples.SideCarArtifactLost`).
* The local executor copies an artifact to its staging path itself, not below it, when the volume has
  the base name of the artifact, and the mount command then reads a path that was not written:
  `ArtifactPaths.MountReadsCopy` (`Counterexamples.VolumeNamedLikeFile`).
* One mask that begins or ends with a star is not always removed: `Masking.SingleMaskSafeExactly`. Within
  a list a mask that does neither is removed from every text exactly when replacing its stars by other
  characters gives no text that is masked to it: `Masking.RemovedExactly`, `Masking.ListRemovesExactly`
  (`Masking.InnerStarUnsafe`).
* A delimiter with a border does not give back all lists of keys:
  `KeySource.DelimiterRoundTripsExactly` (`KeySource.BorderedFails`).

## Model

| member | source | states |
|---|---|---|
| `SchedulerLoops.MaxContainersBasedSchedule` | api/v1/scheduler.go:56-126 | the loop in uint32, panics, build failures and a truncated key count included, computes the specified outcome: full consecutive pieces or the exact failure |
| `Scheduler.MaxContainersSchedule` | api/v1/scheduler.go:86-125 | a successful schedule hands out every key once and in order to tasks numbered from 0, or exactly those below the truncated count under the stated condition; below 2^32 keys there are ceil(n/m) tasks, all but the last full, the last with 1 to m keys; no keys give one empty task |
| `Scheduler.MaxContainersPanicsExactly` | api/v1/scheduler.go:58-96 | for any number of keys, when every build succeeds the schedule panics exactly for a limit that is 0 modulo 2^32 with a truncated count above 0, or 1 modulo 2^32 with a truncated count of 2^32 - 1 |
| `SchedulerLoops.MaxPodNumBasedSchedule` | api/v1/scheduler.go:128-202 | both branches in uint32, a truncated key count included, compute the specified outcome; early break and mismatch error never happen |
| `Scheduler.MaxPodsSchedule` | api/v1/scheduler.go:128-202 | a successful schedule hands out every key once and in order to nonempty tasks numbered from 0, or exactly those below the truncated count under the stated condition; below 2^32 keys there are min(n, p) tasks, for n >= p all but the last with n/p keys and the last with n/p + n%p |
| `Scheduler.AllKeysLost` | api/v1/scheduler.go:128-159 | 2^32 keys under a pod limit: the schedule succeeds without a task |
| `Scheduler.NoTasksExactly` | api/v1/scheduler.go:33-54 | a successful schedule has no task exactly when there is a pod limit and the truncated key count is 0 |
| `Scheduler.UnspecifiedExactly` | api/v1/scheduler.go:33-54 | a schedule is refused exactly when neither limit is given |
| `Scheduler.BuildOutcome` | api/v1/scheduler.go:98-123 | the schedule succeeds exactly when every build does, and otherwise ends with the first build that fails |
| `SchedulerLoops.Schedule` | api/v1/scheduler.go:33-54 | the pod limit is looked at first, then the container limit; neither is an error |
| `Scheduler.SchedulePartition` | api/v1/scheduler.go:33-54 | whatever the limits, a successful schedule hands out the stated keys, all of them below 2^32, once and in order and numbers its tasks by position |
| `SchedulerLoops.ScheduleSubTasks` | api/v1/scheduler.go:288-306 | the loop cuts the subtasks into consecutive groups: with a limit below their number all groups but the last have exactly that many, otherwise there is one |
| `Scheduler.GroupsPartition` | api/v1/scheduler.go:288-317 | the groups concatenate to the subtasks; with a limit 0 < l < k there are ceil(k/l) of them, all but the last with exactly l members and the last with 1 to l; with no limit, a larger one or no subtask there is one group of all |
| `Scheduler.FewestGroups` | api/v1/scheduler.go:288-317 | no way to run all subtasks in groups within the limit has fewer groups |
| `KeySource.DynamicKeys` | api/v1/scheduler.go:246-258 | the loop returns the kept segments of the output, for any delimiter and filter, the empty delimiter meaning a line break |
| `KeySource.KeptInOrder` | api/v1/scheduler.go:247-255 | the keys are exactly the segments that have a character other than a space and match the filter, in their order |
| `KeySource.JoinOfSplit` | api/v1/scheduler.go:247-247 | rejoining all raw segments gives the output back and no segment contains the delimiter |
| `KeySource.NewlineRoundTrips` | api/v1/scheduler.go:247-276 | any list of nonblank keys without line breaks, joined by line breaks, is read back unchanged, the empty list included |
| `KeySource.DelimiterRoundTripsExactly` | api/v1/scheduler.go:247-276 | a configured delimiter gives back every list of nonblank keys free of it exactly when no proper prefix of it is a suffix |
| `KeySource.BorderedFails` | api/v1/scheduler.go:247-255 | for every bordered delimiter two keys that are not read back |
| `Results.ResultOf` | api/v1/subtask.go:69-97 | a result has status success exactly when neither the command nor the artifact copy failed, and status and error agree |
| `Results.SubTask.Run` | api/v1/subtask.go:53-98 | the result for every combination of errors, and the order of effects: command, artifact copy, termination log, log group, progress callback |
| `Results.TaskResultGroup.StatusNum` | api/v1/task.go:278-304 | the triple loops of SuccessNum and FailureNum count the status over all results of all groups of all tasks |
| `Results.TaskResultGroup.Status` | api/v1/task.go:306-317 | failure exactly when some result carries an error |
| `Results.TaskResultGroup.ToReportDetails` | api/v1/task.go:319-333 | one detail per result, in order, with its name, and success exactly when it carries no error, otherwise failure |
| `Results.RunResult.SetByTaskResult` | api/v1/runner.go:154-178 | the fields and the report made from them are those of the collected results, with a detail for each that says whether it failed; missing results make the status an error |
| `Results.MakeReport` | api/v1/runner.go:111-119 | the report of the tasks whose results were added in this order is that of all their subtask results, with a detail for each that says whether it failed |
| `Results.ReportMeaning` | api/v1/runner.go:154-166 | the total is the sum of the three counts, details number successes plus failures, success means all results are there without error |
| `Results.DetailsMeaning` | api/v1/task.go:319-333 | the details say each result's name and whether it failed; those that say success and failure number as the report's counts; the report is a success exactly when nothing is unknown and every detail says success |
| `Results.ErrorText` | api/v1/subtask.go:171-183 | a result has an error exactly when the command or the copy had one, and its text begins with the first and ends with the second |
| `Retry.Task.RunWithRetry` | api/v1/task.go:62-100 | the loop ends within the budget: every attempt before the last ended with an error that may pass and had its job recreated; such an error is returned only when the budget is used up; results are returned exactly for no error or a failed job, and a failed recreation exactly when the job of such an error could not be recreated; each job object is executed once |
| `Retry.RetryableExactly` | api/v1/task.go:43-60 | the errors retried are preinit failures, pending timeouts and unexpected ends of the job, alone or among the types of a multi error, and no other |
| `Retry.AnotherAttempt` | api/v1/task.go:77-99 | an attempt with such an error, its job recreated and budget left is followed by another, whose results are the outcome when it has no error |
| `Retry.FailedJobExactly` | api/v1/task.go:126-131 | a failed job is found behind any number of wrappings and nothing else is |
| `Retry.FailedJobNotRetried` | api/v1/task.go:43-60 | an error that run treats as a result is never one that is retried |
| `Retry.FateUnique` | api/v1/task.go:77-99 | the finished attempts of a task determine the outcome and the number of attempts of the retry loop |
| `Execution.KeepTaskInv` | api/v1/task.go:102-134 | every step of a task keeps the invariant on jobs, groups, barrier, results and counts |
| `Execution.ActiveIsCurrent` | api/v1/task.go:114-117 | a subtask that started and is not recorded belongs to the group at hand |
| `Runs.StepInv` | api/v1/task.go:221-246 | every step of a run keeps the invariant on all tasks, the progress counter, the collected results and the report |
| `Runs.RunInv` | api/v1/task.go:221-246 | every reachable state of every interleaving satisfies the invariant |
| `RunTheorems.WholeRunReport` | api/v1/runner.go:154-178 | for every run that ends in a report: total = number of keys = successes + failures + unknowns, all non-negative; details are distinct key occurrences, each saying success exactly when its result has no error, and are counted by successes and failures; the report is a success exactly when every key occurrence has one result in its task's last attempt and none has an error, that is, nothing is unknown and every detail says success |
| `RunTheorems.ReportedFromLastJob` | api/v1/task.go:62-134 | every reported result was produced by the last job its task executed |
| `RunTheorems.ReportNeedsEveryTask` | api/v1/task.go:231-245 | a report means that every task returned a result |
| `RunTheorems.BarrierAndConcurrency` | api/v1/subtask.go:110-125 | in every reachable state no subtask of a later group has started before all of an earlier group are recorded, and no more are in flight than the per-pod limit or the task's containers |
| `RunTheorems.GroupsAreFull` | api/v1/scheduler.go:288-306 | in every reachable state all groups of a task but the last have exactly as many subtasks as the limit |
| `RunTheorems.StartAfterEarlierGroups` | api/v1/task.go:114-117 | at the step that starts a subtask, every subtask of every earlier group is recorded |
| `RunTheorems.ProgressCounter` | api/v1/scheduler.go:71-79 | in every reachable state the printed values are 1, 2, 3, ... modulo 2^32, one per subtask completion of any attempt, at least as many log groups were flushed, and at most as many results recorded |
| `RunTheorems.ProgressCompletes` | api/v1/scheduler.go:106-114 | without retries and unknown results the counter ends at the number of keys |
| `RunTheorems.RetryDiscipline` | api/v1/task.go:62-100 | in every reachable state each job was executed at most once and within the budget; every attempt but the last ended with an error that may pass and had its job recreated; a task that ended returned results exactly for no error or a failed job, and failed with an error that may pass only when its budget was used up |
| `Liveness.NoDeadlock` | api/v1/task.go:221-246 | in every reachable state without report and failed task some step is possible |
| `Liveness.EveryRunEnds` | api/v1/task.go:62-134 | the length of every run is bounded by the budget and the number of containers |
| `Liveness.RunsComplete` | api/v1/task.go:221-246 | a run that cannot go on has made its report or has a failed task |
| `Liveness.WholeGroupRuns` | api/v1/subtask.go:110-125 | the limit is attained: from every reachable state in which a group is due the run can go on until all its subtasks are running at once |
| `PodSpecs.PlanKeys` | api/v1/task_builder.go:935-1019 | the staging and the original paths are known for exactly the mounted resources |
| `PodSpecs.PlanLast` | api/v1/task_builder.go:935-1019 | both paths of a resource are those of its last mount, which is redirected to the staging path |
| `PodSpecs.PlanFiles` | api/v1/task_builder.go:935-1019 | log and report are copied to exactly the paths their mounts ask for |
| `PodSpecs.PlanVolumes` | api/v1/task_builder.go:935-1019 | the pod volumes and preinit mounts of a container are exactly those of the volumes it mounts, and depend on the volume alone |
| `PodSpecs.RewriteIdempotent` | api/v1/task_builder.go:935-1019 | rewriting twice is rewriting once, with the same staging paths, volumes and preinit mounts |
| `Names.ContainerNameInjective` | api/v1/task_builder.go:350-350 | the printed name determines the task number and the key index |
| `Names.ContainerNameReads` | api/v1/task_builder.go:350-350 | the name reads as the main container's name, the task number in decimal, a dash and the key index in decimal |
| `Names.ContainerNameFresh` | api/v1/task_builder.go:348-355 | no key container is named like the main container |
| `Names.LocalPathInjective` | api/v1/artifact.go:84-84 | different containers copy an artifact to different paths |
| `Builder.RebuildSamePod` | api/v1/task_builder.go:61-63 | after any number of builds the next gives the same pod and plans for init and ordinary containers; the template is unchanged exactly when the finalizer's test mounts were at their staging paths |
| `Builder.RebuiltFinalizerPaths` | api/v1/task_builder.go:125-131 | from the second build on every original path the finalizer recorded, of resources, log and report, is the path the first build put in its place |
| `Builder.RecordedPathsKept` | api/v1/task_builder.go:935-1019 | building again records the same plan exactly when the last mount of each resource and every mount of log and report was at its staging path |
| `Builder.FinalizerPathLost` | api/v1/zz_generated.deepcopy.go:529-558 | a template whose finalizer loses the path its repository belongs to |
| `Builder.MainContainersAreKeys` | api/v1/task.go:157-183 | the main containers of a task are its key containers in key order exactly when no sidecar declares the strategy's variable |
| `Builder.SubTaskNamedByKey` | api/v1/task.go:185-196 | a subtask is named after its key exactly when the main container does not declare the variable or declares that value first |
| `Builder.SubTaskNum` | api/v1/task.go:29-37 | the loop counts the main containers |
| `Builder.ContainersBuilt` | api/v1/task_builder.go:343-364 | the pod of a task with keys has its sidecars and one container per key, which has the image and the rewritten mounts of the main container, its environment with the key added, and the printed name; without keys, and for init containers, nothing but the mounts changes |
| `PreInit.KeyContainerPlan` | api/v1/task_builder.go:343-364 | each key's container is planned like the main container: whatever that mounts is staged where the key's container mounts it, with the path the template asks for |
| `Builder.SideCarsInOrder` | api/v1/task_builder.go:356-363 | the sidecars are all containers not named like the main one, in the order of the template |
| `Builder.MainContainerExactly` | api/v1/util.go:21-34 | a template has a main container exactly when it names one of its containers or has a single, named one; it is the first of its name |
| `Builder.PlainStepRunsMain` | api/v1/task.go:181-209 | without a strategy the one subtask of a pod runs the main container under its own name |
| `BuilderHeap.DeepCopyAll` | api/v1/zz_generated.deepcopy.go:529-558 | the copies have the same values, fresh mounts and share none |
| `BuilderHeap.AddContainersByStrategyKey` | api/v1/task_builder.go:343-364 | the sidecars in order, followed by one named copy of the main container per key with the key in its environment, none sharing mounts |
| `BuilderHeap.NewTaskContainer` | api/v1/task_builder.go:917-1040 | the loop fills the plan from the original mounts and rewrites the shared mounts in place |
| `BuilderHeap.NewTaskContainerGroup` | api/v1/task_builder.go:888-896 | every container is planned and rewritten; of several with one name the last counts |
| `BuilderHeap.BuildPod` | api/v1/task_builder.go:125-130 | what a build does on its copies, changing nothing that existed before |
| `BuilderHeap.BuildJob` | api/v1/task_builder.go:124-133 | one build computes the specified pod and plans and changes nothing of the template but its finalizer's mounts |
| `BuilderHeap.BuildAll` | api/v1/task_builder.go:61-64 | any number of builds: number i is that of a template after i builds, with the pod of a first build, and only the finalizer changes |
| `PreInit.Merge` | api/v1/task_builder.go:832-850 | walking the container map in any order merges all entries, one of the values per key |
| `PreInit.MergeUnique` | api/v1/task_builder.go:832-850 | when the value depends on the key alone every order gives the same map |
| `PreInit.PodSpecVolumes` | api/v1/task_builder.go:676-699 | the pod's volume list is the one it was given followed by the merged volumes of init and ordinary containers, each once |
| `PreInit.PreInitVolumeMounts` | api/v1/task_builder.go:701-717 | the preinit mounts are the merged mounts of all three groups, each once |
| `PreInit.PodVolumesExact` | api/v1/task_builder.go:686-697 | the volumes added to the pod are exactly those some init or ordinary container mounts, with contents that depend on the volume alone |
| `PreInit.PreInitMountsNameVolumes` | api/v1/task_builder.go:675-717 | every preinit mount names a pod volume exactly when every test volume of the finalizer is mounted by another container |
| `PreInitCopies.PickStaging` | api/v1/task_builder.go:635-669 | the staging path of a name is that of some init container, failing that of an ordinary one, failing that of the finalizer |
| `PreInitCopies.PickOrder` | api/v1/task_builder.go:635-669 | a resource is copied to the path of an init container if one mounts it, failing that of an ordinary one |
| `PreInitCopies.PlanCopies` | api/v1/task_builder.go:380-413 | planning fails exactly when a mounted name is unknown, with the first one, and otherwise copies each mounted resource once, by kind and sorted by name, from its own file to the path picked for it, then log and report; a dry run leaves out artifacts, log and report |
| `ResourceOrder.Sorted` | api/v1/task_builder.go:578-633 | the names of a set in their order, each once |
| `ResourceOrder.OrderUnique` | api/v1/task_builder.go:593-593 | the order of the copies is determined by the names |
| `ResourceOrder.KindsInOrder` | api/v1/task_builder.go:380-413 | repositories are copied before tokens and tokens before artifacts, each kind sorted by name |
| `ResourceOrder.LessExactly` | api/v1/task_builder.go:593-593 | the order of names is that of the first characters that differ |
| `PreInitCopies.PreInitCoverage` | api/v1/task_builder.go:202-340 | whatever the order of the maps, every repository, token and artifact the mount commands read is copied to where they read it exactly when containers that mount a resource stage it alike; what is copied there is always that resource's own file; the log and the report are copied, each from its own file, exactly when some container reads them |
| `PreInitCopies.CopiesLandInMounts` | api/v1/task_builder.go:441-506 | every file is copied into a volume that the preinit container mounts |
| `PreInitCopies.StagedAlikeExactly` | api/v1/task_builder.go:935-1019 | containers stage alike exactly when in all containers of the template that mount a resource its last mount is of one volume |
| `PreInitCopies.CopiesConfluent` | api/v1/task_builder.go:635-669 | containers that stage alike get the same copies whatever the order of the maps |
| `PreInitCopies.OneVolumeStagesAlike` | api/v1/task_builder.go:802-830 | with at most one volume per resource all containers stage alike |
| `PreInitCopies.MountPlan` | api/v1/task_builder.go:515-523 | the plan found for a container by name is its own, except that an ordinary container named like the finalizer gets the finalizer's |
| `Pipeline.KeyPositions` | api/v1/scheduler.go:89-120 | positions of the keys handed out correspond one to one with pairs of task number and index, and carry the same key |
| `Pipeline.ContainersPerKey` | api/v1/task_builder.go:84-97 | after one build per task every artifact has the directory its last build registered, and different key positions have differently named containers and different paths below that directory |
| `Lookups.LastBuildRegisters` | api/v1/task_builder.go:73-73 | after several builds of one step each artifact name has the directory and file of the last build |
| `Pipeline.SubTasksRefineKeys` | api/v1/task.go:136-165 | keys to tasks to containers to groups of subtasks: flattened again they are the keys handed out exactly when the subtasks stand for them, with ceil(k/c) groups for k subtasks and one empty group for none |
| `Pipeline.NamesAreKeysExactly` | api/v1/task.go:181-209 | the subtasks of all tasks, by name, are the keys in order exactly when no sidecar declares the variable and the main container declares none but the key's own value first |
| `Pipeline.ScheduleConfig` | api/v1/task.go:226-230 | the containers counted over all pods share out the subtasks; they are as many as the keys exactly when no sidecar declares the variable, and named by the keys exactly when they stand for them |
| `Pipeline.ScheduledConcurrency` | api/v1/scheduler.go:288-306 | in every reachable state of a run of a schedule no pod has more subtasks in flight than maxConcurrentNumPerPod, and all its groups but the last have exactly that many |
| `Pipeline.KeysToReport` | api/v1/runner.go:111-119 | end to end, the report of any run of a schedule accounts for every subtask, with a detail for each result that says whether it failed; its total is the number of keys handed out exactly when no sidecar declares the variable, and its details are key occurrences when the subtasks stand for the keys |
| `Validation.Validator.ValidateTestJobSpec` | api/v1/validator.go:32-73 | the checks in order: tokens, repositories, presteps, strategy, main step, poststeps, exports; whether the job is accepted and the three name sets are those of the specification |
| `Validation.Validator.ValidateTestJobTemplateSpec` | api/v1/validator.go:205-259 | a step's volumes are checked against the names known before its own artifacts, which must be new and belong to a container |
| `Validation.Validator.ValidateVolumes` | api/v1/validator.go:306-379 | accepted exactly when every volume is named and its source known; log and report in poststeps only |
| `Validation.Validator.ValidateArtifacts` | api/v1/validator.go:237-257 | accepted exactly when the artifacts are complete, belong to a container of the step and have new names |
| `Validation.Validator.ValidateStrategy` | api/v1/validator.go:381-444 | exactly one key source, the key template as a main step, one positive limit and a positive concurrency |
| `Validation.Validator.ValidateTokens` | api/v1/validator.go:36-44 | distinct nonempty token names are collected |
| `Validation.Validator.ValidateRepos` | api/v1/validator.go:45-53 | distinct repositories are collected; without a cloned path they need a url, a declared token if any, and not both branch and rev |
| `Validation.Validator.ValidateExports` | api/v1/validator.go:67-71 | every export names a known artifact and a path |
| `Validation.ReposAdded` | api/v1/validator.go:157-173 | accepted repositories are all known and each without a cloned path has a declared token |
| `Validation.ArtifactsAdded` | api/v1/validator.go:237-257 | the artifacts of an accepted step are exactly added and were new |
| `Acceptance.AcceptedExactly` | api/v1/validator.go:32-457 | the whole validator as one condition on the job: distinct, complete tokens and repositories with declared tokens; steps that mount only declared resources and artifacts of earlier steps; artifacts that are new and of a container of their step; log and report in poststeps only; one key source and one positive limit; exports of known artifacts |
| `Lookups.ArtifactManager.AddArtifacts` | api/v1/artifact.go:27-37 | both maps get each artifact's directory and file in order, up to the first directory that cannot be created |
| `Lookups.RegisteredValue` | api/v1/artifact.go:27-37 | of several artifacts with one name the last counts and other names keep their value |
| `Lookups.ArtifactManager.LocalPathByNameAndContainerName` | api/v1/artifact.go:75-85 | fails exactly for an unknown name, and else gives the container's path in the artifact's directory |
| `Lookups.CloneAll` | api/v1/repo.go:57-92 | cloning fails a lookup exactly when a repository that is cloned asks for an unknown token, and else makes every repository known |
| `Lookups.AcceptedReposClone` | api/v1/validator.go:157-173 | for an accepted job that happens exactly for a repository with a cloned path, a missing directory and an undeclared token |
| `Lookups.TaskBuilder.BuildWithKey` | api/v1/task_builder.go:52-73 | the build looks up what it mounts first and registers the step's artifacts afterwards, up to the first directory that cannot be created; both maps afterwards |
| `Lookups.TaskBuilder.RunBuilds` | api/v1/runner.go:82-136 | the builds of a run in order, ending at the first failure, and both maps afterwards |
| `Lookups.TaskBuilder.ExportArtifacts` | api/v1/artifact.go:87-93 | exporting fails a lookup exactly when some export name is unknown |
| `Lookups.WantedDeclared` | api/v1/task_builder.go:441-477 | whatever a build looks up is the source of a volume its template declares |
| `Lookups.StepsSound` | api/v1/validator.go:54-66 | simulation: when the run knows all the validator does before some steps, none of their builds fails a lookup and the run knows all the validator does after them |
| `Lookups.BuildFailsExactly` | api/v1/task_builder.go:441-477 | a build fails a lookup exactly when one of its containers mounts a repository, token or, outside a dry run, artifact that is not known |
| `Lookups.StopEndsRun` | api/v1/runner.go:82-136 | a build that ends the run for another reason ends it there, whatever would come after |
| `Lookups.AcceptedJobFindsAll` | api/v1/runner.go:82-148 | soundness: an accepted job never fails to know the name of a repository, token, artifact or export, in any step and wherever the run ends, given one build of the main step |
| `Lookups.NoMainBuildExactly` | api/v1/runner.go:101-148 | without a build of the main step it fails exactly when a poststep mounts or an export names an artifact of the main step |
| `Pipeline.ScheduledJobLookups` | api/v1/runner.go:101-148 | an accepted job with one main build per task of its schedule fails a lookup exactly when a pod limit meets a truncated key count of 0 and a poststep mounts or an export names an artifact of the main step |
| `Lookups.BuildsStayKnown` | api/v1/task_builder.go:84-92 | what a build found and registered stays known, so rebuilding, mounting and copying artifacts find their names |
| `Lookups.LogAndReportLate` | api/v1/validator.go:362-379 | no prestep or main step copies the log or the report |
| `ArtifactCopies.StepCopies` | api/v1/task_builder.go:74-105 | after its step an artifact lies in its directory once per container whose subtask copied it |
| `ArtifactCopies.AcceptedChain` | api/v1/validator.go:237-257 | in an accepted job every step brings new artifact names and mounts artifacts of earlier steps only |
| `ArtifactCopies.ArtifactFoundIfMain` | api/v1/artifact.go:47-73 | once a main subtask of its step finished without a copy error, after any further steps of an accepted job, an artifact is found exactly when it belongs to the main container of its step |
| `ArtifactCopies.WantedArtifactIsEarlier` | api/v1/task_builder.go:465-478 | every artifact the next step of an accepted job wants belongs to an earlier step |
| `ArtifactPaths.ArtifactDirs.Register` | api/v1/artifact.go:27-37 | a build gives its artifacts new directories without copies, up to the first directory that cannot be created |
| `ArtifactPaths.ArtifactDirs.CopyArtifact` | api/v1/task_builder.go:74-105 | a subtask copies its artifacts in order up to the first that has no directory or fails, and reports an error exactly when one did |
| `ArtifactPaths.ArtifactDirs.RunStep` | api/v1/subtask.go:91-97 | all builds and then all main subtasks leave the specified directories, files and copies, and a result has no copy error exactly when its subtask copied everything |
| `ArtifactPaths.PathStays` | api/v1/artifact.go:47-73 | while a step is built and runs the path of an artifact of another step does not change |
| `ArtifactPaths.MountReadsCopy` | api/v1/task_builder.go:259-295 | the path looked up when a pod is built is the one looked up when it is mounted, whatever was built and copied meanwhile, so the mount command reads what the local executor wrote exactly when the artifact's base name is not the volume's name |
| `ArtifactPaths.PathFoundExactly` | api/v1/artifact.go:47-73 | the lookup of an artifact of an earlier step gives a path exactly when its directory holds a copy |
| `ArtifactPaths.PathLeadsToCopies` | api/v1/artifact.go:47-85 | the path found is where the one copy was written, and with several copies each was written to its container's directory below it |
| `RunArtifacts.SuccessCopied` | api/v1/subtask.go:91-97 | in every run that reports success each container's subtask ended, in some attempt, without an error of its command or its copies |
| `RunArtifacts.ReportedFromExecution` | api/v1/subtask.go:53-98 | every reported result was made by an execution of its own subtask and carries the errors this execution and its copies ended with |
| `RunArtifacts.SuccessfulRunCopiesAll` | api/v1/task_builder.go:74-105 | a run that reports success leaves every artifact of the main container once per container, so that it is found unless there was none |
| `RunArtifacts.ScheduledSuccessCopiesAll` | api/v1/scheduler.go:33-54 | for the run of a schedule whose sidecars do not declare the variable these are one copy per key handed out, each in its own container |
| `Counterexamples.SideCarArtifactLost` | api/v1/validator.go:243-252 | an accepted job whose poststep never finds the sidecar's artifact it mounts |
| `Counterexamples.VolumeNamedLikeFile` | api/v1/job.go:376-385 | an accepted job whose poststep, in local mode, reads its artifact from a path that was not written |
| `Counterexamples.FinalizerVolumeMissing` | api/v1/task_builder.go:688-694 | an accepted job whose preinit container mounts a volume the pod lacks |
| `Counterexamples.TwoVolumesUncovered` | api/v1/task_builder.go:635-645 | an accepted job in which one of two containers never finds its archive |
| `Counterexamples.SideCarRunsAsSubTask` | api/v1/task.go:181-183 | an accepted job with one key and more than one subtask |
| `Counterexamples.MainNamesSubTask` | api/v1/task.go:185-196 | an accepted job whose subtask is not named by its key |
| `Counterexamples.NoMainBuildFails` | api/v1/validator.go:446-457 | an accepted job with a pod limit and no keys whose export is unknown |
| `Counterexamples.ClonedPathFails` | api/v1/validator.go:158-160 | an accepted job whose repository asks for an unknown token |
| `Masking.MaskingRemovesSecrets` | api/v1/logger.go:179-188 | for star-free masks, overlapping or not: same length, every position original or a star, a starred one lay in an occurrence of a mask, no mask occurs any more |
| `Masking.MaskingIdempotent` | api/v1/logger.go:179-188 | masking a masked text changes nothing |
| `Masking.FirstReplaced` | api/v1/logger.go:184-187 | the first occurrence of a mask is replaced by as many stars and the text after it is masked on its own |
| `Masking.SingleMaskSafeExactly` | api/v1/logger.go:184-187 | one mask alone is removed from every text exactly when it is nonempty and neither begins nor ends with a star |
| `Masking.ListSafeRemoves` | api/v1/logger.go:179-188 | every mask is removed if no mask begins or ends with a star and none has a run of stars as long as a later mask |
| `Masking.MaskAllWindow` | api/v1/logger.go:179-188 | between two positions that stay unstarred a text is masked as if it were all there is |
| `Masking.RemovedExactly` | api/v1/logger.go:179-188 | a mask with neither first nor last character a star is removed from every text, among whatever masks, exactly when no replacement of its own stars gives a text that is masked to it |
| `Masking.ListRemovesExactly` | api/v1/logger.go:179-188 | a list of such masks removes all of them from every text exactly when that holds of none of them |
| `Masking.InnerStarUnsafe` | api/v1/logger.go:184-187 | two masks and a text in which the second replacement brings the first mask into being |
| `Logger.MainLogger.Mask` | api/v1/logger.go:179-188 | the loop applies every mask in order |
| `Logger.MainLogger.Log` | api/v1/logger.go:168-177 | output and buffer get the same masked line, nothing for the empty message |
| `Logger.MainLogger.LogGroup` | api/v1/logger.go:128-134 | the messages of a group are written as one masked text |
| `Logger.JoinedAt` | api/v1/logger.go:124-126 | every message of a group stands at its place in the joined text, separated by line breaks |
| `Logger.GroupWritten` | api/v1/logger.go:124-134 | whatever the masks, in the written text of a group every message stands at its place, original or starred |
| `LogHistory.InvKept` | api/v1/logger.go:168-188 | every step of every thread keeps the invariant on locks, outputs, texts and masks |
| `LogHistory.LoggedAfterMaskIsClean` | api/v1/logger.go:53-57 | in every interleaving a printed message is the original with some positions starred, and contains no mask whose AddMask had returned when its logging started, for masks whose stars do no harm |
| `LogHistory.CleanAfterReturn` | api/v1/logger.go:53-57 | every printed message was handed to a logging call, and contains no mask for which a call of AddMask had returned before that call began, for masks whose stars do no harm |
| `LogHistory.StarFreeLogIsClean` | api/v1/logger.go:53-57 | in every interleaving, when no mask has a star, a printed message contains no mask whose AddMask had returned when its logging started |
| `LogHistory.SameOutputs` | api/v1/logger.go:168-177 | in every interleaving output and buffer receive the same sequence of whole lines, equal whenever the lock is free |
| `LogHistory.EntryContiguous` | api/v1/logger.go:128-134 | every logged text, hence every group, is contiguous in the output |
| `LogHistory.SomeThreadCanGoOn` | api/v1/logger.go:168-188 | the two locks never deadlock |

## Left out

- Liveness.RunsComplete: fairness and real time are not modelled; a library call that never returns is a run that stops there.
- PreInitCopies.PlanCopies: the copying itself and its timeout are I/O; a dry run never calls the copies and mounts, so coverage is stated for the other run modes.
- Lookups.CloneAll: git itself, archives and temporary directories are I/O, so are errors other than an unknown token.
- Lookups.AcceptedJobFindsAll: knowing an artifact's name is not yet finding a copy of it, which is the matter of `ArtifactCopies`; a template whose main container does not exist ends the run with another error and is counted as such.
- Validation.Validator.ValidateTestJobSpec: error messages are not modelled, and checks of one field at a time are one boolean per entity.
- ArtifactPaths.MountReadsCopy: the files' contents, the Kubernetes executor's copy and the trimmed paths for containers with an agent are not modelled.
- Masking.ListRemovesExactly: for lists in which some mask begins or ends with a star no exact condition is given.
- Results.SubTask.Run: the text a subtask logs, elapsed times and the termination message are not modelled.
- LogHistory.LoggedAfterMaskIsClean: masks are applied to one message at a time, so a mask with a line break that spans two messages is not covered.
- Pods, containers and jobs carry only the fields named here; labels, annotations, agents, images of the preinit container and pull policies are not modelled.
- Sidecars run in the background without a recorded result and are not part of the transition system; the finalizer's own command is part of the error that the library returns.
- Presteps and poststeps appear in `Lookups` as builds; their runs use the same `Execution` as a step without a strategy.
- JSON and YAML encoding, regular expressions, percentages, log levels, the controller and the command line are not part of this model.
