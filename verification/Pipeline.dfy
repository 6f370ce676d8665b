/** From the key list of a step to its report: the tasks of a schedule, their containers, their
    subtask groups and a run of them (api/v1/scheduler.go, api/v1/task_builder.go, api/v1/task.go,
    api/v1/artifact.go). */
module Pipeline {
  import opened Wrappers
  import opened Seqs
  import opened Scheduler
  import opened PodSpecs
  import opened Names
  import opened Builder
  import opened Execution
  import opened Runs
  import opened RunTheorems
  import Lookups
  import Validation
  import Results

  /*** Key positions. ***/

  /** How many keys the tasks before task ci have. */
  function Offset(pieces: seq<seq<string>>, ci: nat): nat
    requires ci <= |pieces|
  {
    if ci == 0 then 0 else |pieces[0]| + Offset(pieces[1..], ci - 1)
  }

  /** The position in the key list of key idx of task ci. */
  function Position(ts: seq<StrategyKey>, ci: nat, idx: nat): nat
    requires ci < |ts|
  {
    Offset(KeysOf(ts), ci) + idx
  }

  predicate IsPair(ts: seq<StrategyKey>, ci: nat, idx: nat) {
    ci < |ts| && idx < |ts[ci].keys|
  }

  /** Key idx of task ci stands at position p. */
  predicate At(ts: seq<StrategyKey>, ci: nat, idx: nat, p: nat) {
    IsPair(ts, ci, idx) && Position(ts, ci, idx) == p
  }

  predicate Owned(ts: seq<StrategyKey>, p: nat) {
    exists ci, idx :: 0 <= ci < |ts| && 0 <= idx < |ts[ci].keys| && At(ts, ci, idx, p)
  }

  lemma {:induction false} FlattenAt(pieces: seq<seq<string>>, ci: nat, idx: nat)
    requires ci < |pieces| && idx < |pieces[ci]|
    ensures Offset(pieces, ci) + idx < |Flatten(pieces)|
    ensures Flatten(pieces)[Offset(pieces, ci) + idx] == pieces[ci][idx]
    decreases |pieces|
  {
    if ci > 0 {
      FlattenAt(pieces[1..], ci - 1, idx);
    }
  }

  lemma {:induction false} FlattenOwner(pieces: seq<seq<string>>, p: nat) returns (ci: nat, idx: nat)
    requires p < |Flatten(pieces)|
    ensures ci < |pieces| && idx < |pieces[ci]| && Offset(pieces, ci) + idx == p
  {
    if p < |pieces[0]| {
      ci, idx := 0, p;
    } else {
      ci, idx := FlattenOwner(pieces[1..], p - |pieces[0]|);
      ci := ci + 1;
    }
  }

  lemma {:induction false} OffsetsApart(pieces: seq<seq<string>>, ci: nat, ci': nat)
    requires ci < ci' < |pieces|
    ensures Offset(pieces, ci) + |pieces[ci]| <= Offset(pieces, ci')
    decreases |pieces|
  {
    if ci > 0 {
      OffsetsApart(pieces[1..], ci - 1, ci' - 1);
    }
  }

  /** The positions of the keys handed out, which are all keys below 2^32 of them, correspond one to one
      with the pairs of a task number and an index in it, and the key at a position is the key of its
      pair. */
  lemma KeyPositions(keys: seq<string>, params: SchedulerParams, fails: nat -> bool)
    requires ScheduleOutcome(keys, params, fails).Scheduled?
    ensures var ts := ScheduleOutcome(keys, params, fails).tasks; var handed := HandedOut(keys, params);
      && (forall ci: nat, idx: nat :: IsPair(ts, ci, idx) ==>
            && ts[ci].concurrentIdx == ci
            && Position(ts, ci, idx) < |handed| && handed[Position(ts, ci, idx)] == ts[ci].keys[idx])
      && (forall p: nat :: p < |handed| ==> Owned(ts, p))
      && (forall ci: nat, idx: nat, ci': nat, idx': nat, p: nat ::
            At(ts, ci, idx, p) && At(ts, ci', idx', p) ==> ci == ci' && idx == idx')
  {
    SchedulePartition(keys, params, fails);
    var ts, handed := ScheduleOutcome(keys, params, fails).tasks, HandedOut(keys, params);
    var pieces := KeysOf(ts);
    forall ci: nat, idx: nat | IsPair(ts, ci, idx)
      ensures Position(ts, ci, idx) < |handed| && handed[Position(ts, ci, idx)] == ts[ci].keys[idx]
    {
      FlattenAt(pieces, ci, idx);
    }
    forall p: nat | p < |handed| ensures Owned(ts, p) {
      var ci, idx := FlattenOwner(pieces, p);
      assert At(ts, ci, idx, p);
    }
    forall ci: nat, idx: nat, ci': nat, idx': nat, p: nat | At(ts, ci, idx, p) && At(ts, ci', idx', p)
      ensures ci == ci' && idx == idx'
    {
      PairsApart(ts, ci, idx, ci', idx', p);
    }
  }

  lemma PairsApart(ts: seq<StrategyKey>, ci: nat, idx: nat, ci': nat, idx': nat, p: nat)
    requires At(ts, ci, idx, p) && At(ts, ci', idx', p)
    ensures ci == ci' && idx == idx'
  {
    if ci < ci' {
      OffsetsApart(KeysOf(ts), ci, ci');
    } else if ci' < ci {
      OffsetsApart(KeysOf(ts), ci', ci);
    }
  }

  /** One build of the step per task of a schedule. */
  predicate BuildPerTask(qs: seq<Lookups.BuildRequest>, t: Template, ts: seq<StrategyKey>, env: string) {
    |qs| == |ts| && forall k :: 0 <= k < |qs| ==> qs[k].template == t && qs[k].key == Some(KeySpec(ts[k], env))
  }

  /** All tasks of a schedule are built before any subtask copies its artifacts, so every subtask finds
      an artifact in the directory that the last build registered, whatever the maps held before.
      Different key positions have differently named containers, none named like the main container,
      and their copies go to different paths below that directory. */
  lemma ContainersPerKey(keys: seq<string>, params: SchedulerParams, fails: nat -> bool, t: Template, main: Container,
                         env: string, qs: seq<Lookups.BuildRequest>, dirs: map<string, string>, files: map<string, string>,
                         a: nat, ci: nat, idx: nat, ci': nat, idx': nat)
    requires ScheduleOutcome(keys, params, fails).Scheduled?
    requires var ts := ScheduleOutcome(keys, params, fails).tasks;
      BuildPerTask(qs, t, ts, env) && IsPair(ts, ci, idx) && IsPair(ts, ci', idx')
    requires Lookups.AllCreated(qs) && Lookups.LastAt(Lookups.NameList(t.artifacts), a)
    ensures var artifact := t.artifacts[a].name;
      && artifact in Lookups.DirsAfter(dirs, qs) && artifact in Lookups.FilesAfter(files, qs)
      && Lookups.DirsAfter(dirs, qs)[artifact] == qs[|qs| - 1].dirs[a]
    ensures var ts := ScheduleOutcome(keys, params, fails).tasks;
      var dir, file := Lookups.DirsAfter(dirs, qs)[t.artifacts[a].name], Lookups.FilesAfter(files, qs)[t.artifacts[a].name];
      var name := KeyContainers(main, KeySpec(ts[ci], env))[idx].name;
      var name' := KeyContainers(main, KeySpec(ts[ci'], env))[idx'].name;
      && name != main.name
      && (name == name' <==> Position(ts, ci, idx) == Position(ts, ci', idx'))
      && (LocalPath(dir, name, file) == LocalPath(dir, name', file) <==> Position(ts, ci, idx) == Position(ts, ci', idx'))
  {
    Lookups.LastBuildRegisters(dirs, files, qs, t, a);
    var dir, file := Lookups.DirsAfter(dirs, qs)[t.artifacts[a].name], Lookups.FilesAfter(files, qs)[t.artifacts[a].name];
    PathsApart(keys, params, fails, main, env, dir, file, ci, idx, ci', idx');
  }

  lemma PathsApart(keys: seq<string>, params: SchedulerParams, fails: nat -> bool, main: Container, env: string,
                   dir: string, file: string, ci: nat, idx: nat, ci': nat, idx': nat)
    requires ScheduleOutcome(keys, params, fails).Scheduled?
    requires var ts := ScheduleOutcome(keys, params, fails).tasks; IsPair(ts, ci, idx) && IsPair(ts, ci', idx')
    ensures var ts := ScheduleOutcome(keys, params, fails).tasks;
      var name := KeyContainers(main, KeySpec(ts[ci], env))[idx].name;
      var name' := KeyContainers(main, KeySpec(ts[ci'], env))[idx'].name;
      && name != main.name
      && (name == name' <==> Position(ts, ci, idx) == Position(ts, ci', idx'))
      && (LocalPath(dir, name, file) == LocalPath(dir, name', file) <==> Position(ts, ci, idx) == Position(ts, ci', idx'))
  {
    SchedulePartition(keys, params, fails);
    var ts := ScheduleOutcome(keys, params, fails).tasks;
    if Position(ts, ci, idx) == Position(ts, ci', idx') {
      PairsApart(ts, ci, idx, ci', idx', Position(ts, ci, idx));
    }
    var name := ContainerName(main.name, ci, idx);
    var name' := ContainerName(main.name, ci', idx');
    assert KeyContainers(main, KeySpec(ts[ci], env))[idx].name == name;
    assert KeyContainers(main, KeySpec(ts[ci'], env))[idx'].name == name';
    ContainerNameFresh(main.name, ci, idx);
    if name == name' {
      ContainerNameInjective(main.name, ci, idx, ci', idx');
    }
    if LocalPath(dir, name, file) == LocalPath(dir, name', file) {
      LocalPathInjective(dir, name, name', file);
    }
  }

  /** The main step is built once without a strategy, and otherwise once per task of its schedule. */
  predicate MainBuilt(spec: Validation.JobSpec, run: Lookups.JobRun, keys: seq<string>, fails: nat -> bool) {
    match spec.strategy
    case None => |run.main| == 1
    case Some(strategy) =>
      var out := ScheduleOutcome(keys, strategy.scheduler, fails);
      out.Scheduled? && |run.main| == |out.tasks|
  }

  /** The lookups of an accepted job, whatever keys its schedule is for: an otherwise unhindered run fails
      one exactly when a pod limit meets a truncated key count of 0 and a poststep mounts or an export
      names an artifact of the main step. */
  lemma ScheduledJobLookups(spec: Validation.JobSpec, run: Lookups.JobRun, keys: seq<string>, fails: nat -> bool, dryRun: bool)
    requires Validation.Accepted(spec) && Lookups.RunOf(run, spec) && MainBuilt(spec, run, keys, fails)
    requires Lookups.Unhindered(Lookups.AllBuilds(run))
    ensures var missing := Validation.ArtifactNames(spec.mainStep.template.artifacts);
      Lookups.JobOutcome(spec, run, Lookups.SetUp(spec), dryRun) == Lookups.NotFound <==>
      && spec.strategy.Some? && spec.strategy.value.scheduler.maxPodNum != 0 && |keys| % WORD == 0
      && (Lookups.SomeWantsMissing(run.post, missing, dryRun)
          || exists i :: 0 <= i < |spec.exports| && spec.exports[i].name in missing)
  {
    if spec.strategy.Some? {
      NoTasksExactly(keys, spec.strategy.value.scheduler, fails);
    }
    if run.main == [] {
      Lookups.NoMainBuildExactly(spec, run, dryRun);
    } else {
      Lookups.AcceptedJobFindsAll(spec, run, dryRun);
    }
  }

  /*** Two levels of grouping. ***/

  /** The main containers of the pod built for a task, by the names of their subtasks. */
  function SubTaskNames(cs: seq<Container>, main: Container, env: string, t: StrategyKey): seq<string> {
    var mains := MainContainers(PodContainers(cs, main, Some(KeySpec(t, env))), main.name, Some(env));
    seq(|mains|, i requires 0 <= i < |mains| => KeyNameOf(mains[i], Some(env)))
  }

  /** The name a key's subtask gets is the key. */
  predicate NamedByKey(main: Container, env: string, key: string) {
    !HasEnv(main.env, env) || FirstEnv(main.env, env) == Some(key)
  }

  lemma SubTaskNameAt(cs: seq<Container>, main: Container, env: string, t: StrategyKey, idx: nat)
    requires SideCarsClean(cs, main.name, env) && idx < |t.keys|
    ensures |SubTaskNames(cs, main, env, t)| == |t.keys|
    ensures SubTaskNames(cs, main, env, t)[idx] == t.keys[idx] <==> NamedByKey(main, env, t.keys[idx])
  {
    var k := KeySpec(t, env);
    MainContainersAreKeys(cs, main, k);
    SubTaskNamedByKey(main, k, idx);
  }

  /** The subtask names of a task are its keys exactly when no sidecar declares the variable and every
      key names its own subtask. */
  lemma SubTasksAreKeys(cs: seq<Container>, main: Container, env: string, t: StrategyKey)
    ensures |SubTaskNames(cs, main, env, t)| >= |t.keys|
    ensures |SubTaskNames(cs, main, env, t)| == |t.keys| <==> SideCarsClean(cs, main.name, env)
    ensures SubTaskNames(cs, main, env, t) == t.keys <==>
            SideCarsClean(cs, main.name, env) && forall k :: k in t.keys ==> NamedByKey(main, env, k)
  {
    MainContainersAreKeys(cs, main, KeySpec(t, env));
    if SideCarsClean(cs, main.name, env) {
      forall idx | 0 <= idx < |t.keys|
        ensures SubTaskNames(cs, main, env, t)[idx] == t.keys[idx] <==> NamedByKey(main, env, t.keys[idx])
      {
        SubTaskNameAt(cs, main, env, t, idx);
      }
    }
  }

  /** The subtasks of each task of a schedule, by name. */
  function NamePieces(cs: seq<Container>, main: Container, env: string, ts: seq<StrategyKey>): (pieces: seq<seq<string>>)
    ensures |pieces| == |ts|
  {
    seq(|ts|, i requires 0 <= i < |ts| => SubTaskNames(cs, main, env, ts[i]))
  }

  /** Whether all subtasks of a schedule stand for its keys. */
  predicate StandForKeys(keys: seq<string>, ts: seq<StrategyKey>, cs: seq<Container>, main: Container, env: string) {
    ts == [] || (SideCarsClean(cs, main.name, env) && forall k :: k in keys ==> NamedByKey(main, env, k))
  }

  lemma {:induction false} FlattenPieces(a: seq<seq<string>>, b: seq<seq<string>>)
    requires |a| == |b| && forall i :: 0 <= i < |a| ==> |a[i]| == |b[i]|
    requires Flatten(a) == Flatten(b)
    ensures a == b
  {
    if a != [] {
      assert Flatten(a)[..|a[0]|] == a[0] && Flatten(b)[..|b[0]|] == b[0];
      assert Flatten(a)[|a[0]|..] == Flatten(a[1..]) && Flatten(b)[|b[0]|..] == Flatten(b[1..]);
      FlattenPieces(a[1..], b[1..]);
    }
  }

  lemma {:induction false} FlattenLength(a: seq<seq<string>>, b: seq<seq<string>>)
    requires |a| == |b| && forall i :: 0 <= i < |a| ==> |a[i]| >= |b[i]|
    ensures |Flatten(a)| >= |Flatten(b)|
    ensures (exists i :: 0 <= i < |a| && |a[i]| > |b[i]|) ==> |Flatten(a)| > |Flatten(b)|
  {
    if a != [] {
      FlattenLength(a[1..], b[1..]);
      if i :| 0 < i < |a| && |a[i]| > |b[i]| {
        assert |a[1..][i - 1]| > |b[1..][i - 1]|;
      }
    }
  }

  lemma PieceLengths(cs: seq<Container>, main: Container, env: string, ts: seq<StrategyKey>)
    ensures |Flatten(NamePieces(cs, main, env, ts))| == |Flatten(KeysOf(ts))| <==> ts == [] || SideCarsClean(cs, main.name, env)
    ensures SideCarsClean(cs, main.name, env) ==>
              forall i :: 0 <= i < |ts| ==> |NamePieces(cs, main, env, ts)[i]| == |KeysOf(ts)[i]|
  {
    var a, b := NamePieces(cs, main, env, ts), KeysOf(ts);
    forall i | 0 <= i < |ts| ensures |a[i]| >= |b[i]| && (|a[i]| == |b[i]| <==> SideCarsClean(cs, main.name, env)) {
      SubTasksAreKeys(cs, main, env, ts[i]);
    }
    FlattenLength(a, b);
    if SideCarsClean(cs, main.name, env) {
      FlattenLength(b, a);
    } else if ts != [] {
      assert |a[0]| > |b[0]|;
    }
  }

  /** The subtasks of all tasks, by name, are the keys in order exactly when they stand for them. */
  lemma NamesAreKeysExactly(keys: seq<string>, ts: seq<StrategyKey>, cs: seq<Container>, main: Container, env: string)
    requires Flatten(KeysOf(ts)) == keys
    ensures Flatten(NamePieces(cs, main, env, ts)) == keys <==> StandForKeys(keys, ts, cs, main, env)
  {
    var a, b := NamePieces(cs, main, env, ts), KeysOf(ts);
    PieceLengths(cs, main, env, ts);
    if Flatten(a) == keys && ts != [] {
      FlattenPieces(a, b);
      forall k | k in keys ensures NamedByKey(main, env, k) {
        var ci, idx := FlattenPosition(b, k);
        SubTasksAreKeys(cs, main, env, ts[ci]);
        assert a[ci] == b[ci] == ts[ci].keys;
      }
    }
    if StandForKeys(keys, ts, cs, main, env) {
      forall i | 0 <= i < |ts| ensures a[i] == b[i] {
        forall k | k in ts[i].keys ensures k in keys {
          InFlatten(b, i, k);
        }
        SubTasksAreKeys(cs, main, env, ts[i]);
      }
      assert a == b;
    }
  }

  /** Keys to tasks, tasks to containers, main containers to groups of subtasks: flattened again, the
      subtasks are the keys handed out, in order, exactly when they stand for them.  The groups of a task with k
      subtasks number ceil(k / c) for the effective concurrency c, and a task without subtasks has one
      empty group. */
  lemma SubTasksRefineKeys(keys: seq<string>, params: SchedulerParams, fails: nat -> bool,
                           cs: seq<Container>, main: Container, env: string)
    requires ScheduleOutcome(keys, params, fails).Scheduled?
    ensures var ts := ScheduleOutcome(keys, params, fails).tasks; var limit := params.maxConcurrentNumPerPod;
      Flatten(seq(|ts|, i requires 0 <= i < |ts| => Flatten(Groups(SubTaskNames(cs, main, env, ts[i]), limit))))
      == HandedOut(keys, params)
      <==> StandForKeys(HandedOut(keys, params), ts, cs, main, env)
    ensures var ts := ScheduleOutcome(keys, params, fails).tasks; var limit := params.maxConcurrentNumPerPod;
      forall i :: 0 <= i < |ts| ==>
        GroupCount(|SubTaskNames(cs, main, env, ts[i])|, limit, |Groups(SubTaskNames(cs, main, env, ts[i]), limit)|)
  {
    SchedulePartition(keys, params, fails);
    var ts := ScheduleOutcome(keys, params, fails).tasks;
    var limit := params.maxConcurrentNumPerPod;
    var pieces := NamePieces(cs, main, env, ts);
    NamesAreKeysExactly(HandedOut(keys, params), ts, cs, main, env);
    TwoLevelFlatten(pieces, limit);
    assert seq(|ts|, i requires 0 <= i < |ts| => Flatten(Groups(SubTaskNames(cs, main, env, ts[i]), limit)))
        == seq(|pieces|, i requires 0 <= i < |pieces| => Flatten(Groups(pieces[i], limit)));
    forall i | 0 <= i < |ts|
      ensures GroupCount(|SubTaskNames(cs, main, env, ts[i])|, limit, |Groups(SubTaskNames(cs, main, env, ts[i]), limit)|)
    {
      GroupsPartition(SubTaskNames(cs, main, env, ts[i]), limit);
    }
  }

  /** How many groups k subtasks make. */
  predicate GroupCount(k: nat, limit: int, groups: nat) {
    groups == if 0 < limit < k then CeilDiv(k, limit) else 1
  }

  /*** From keys to the report. ***/

  /** The stretch of positions of each task. */
  function Stretches(ns: seq<nat>, from: nat): (tasks: seq<TaskConfig>)
    ensures |tasks| == |ns|
    decreases |ns|
  {
    if ns == [] then [] else [TaskConfig(from, from + ns[0])] + Stretches(ns[1..], from + ns[0])
  }

  lemma {:induction false} StretchesContiguous(ns: seq<nat>, from: nat)
    ensures Contiguous(Stretches(ns, from), from, from + Sum(ns))
    decreases |ns|
  {
    if ns != [] {
      StretchesContiguous(ns[1..], from + ns[0]);
      assert Stretches(ns, from)[1..] == Stretches(ns[1..], from + ns[0]);
    }
  }

  lemma {:induction false} FlattenSum(pieces: seq<seq<string>>, ns: seq<nat>)
    requires |ns| == |pieces| && forall i :: 0 <= i < |ns| ==> ns[i] == |pieces[i]|
    ensures Sum(ns) == |Flatten(pieces)|
  {
    if ns != [] {
      FlattenSum(pieces[1..], ns[1..]);
    }
  }

  /** Task.SubTaskNum of every task of a schedule. */
  function SubTaskNums(cs: seq<Container>, main: Container, env: string, ts: seq<StrategyKey>): (ns: seq<nat>)
    ensures |ns| == |ts|
  {
    seq(|ts|, i requires 0 <= i < |ts| => |MainContainers(PodContainers(cs, main, Some(KeySpec(ts[i], env))), main.name, Some(env))|)
  }

  /** What a run of the tasks of a schedule executes: the main containers of each pod, named as
      getSubTasks names their subtasks. */
  function ConfigOf(ts: seq<StrategyKey>, params: SchedulerParams, cs: seq<Container>, main: Container, env: string,
                    budget: nat): Config {
    Config(Flatten(NamePieces(cs, main, env, ts)), Stretches(SubTaskNums(cs, main, env, ts), 0),
           Some(params.maxConcurrentNumPerPod), budget)
  }

  lemma {:induction false} StretchesTotal(ns: seq<nat>, from: nat)
    ensures TotalSubTaskNum(Stretches(ns, from)) == Sum(ns)
    decreases |ns|
  {
    if ns != [] {
      StretchesTotal(ns[1..], from + ns[0]);
      assert Stretches(ns, from)[1..] == Stretches(ns[1..], from + ns[0]);
    }
  }

  lemma ConfigValid(ts: seq<StrategyKey>, params: SchedulerParams, cs: seq<Container>, main: Container, env: string,
                    budget: nat)
    requires budget >= 1
    ensures var c := ConfigOf(ts, params, cs, main, env, budget); ValidConfig(c) && TotalSubTaskNum(c.tasks) == |c.keys|
  {
    var ns := SubTaskNums(cs, main, env, ts);
    FlattenSum(NamePieces(cs, main, env, ts), ns);
    StretchesContiguous(ns, 0);
    StretchesTotal(ns, 0);
  }

  /** The main containers counted in the pods share out the list of all subtasks.  They number as many
      as the keys exactly when no sidecar declares the strategy's environment variable; a sidecar that
      does is counted as a subtask of every task.  The subtasks are named by the keys exactly when they
      stand for them. */
  lemma ScheduleConfig(keys: seq<string>, params: SchedulerParams, fails: nat -> bool,
                       cs: seq<Container>, main: Container, env: string, budget: nat)
    requires ScheduleOutcome(keys, params, fails).Scheduled? && budget >= 1
    ensures var ts := ScheduleOutcome(keys, params, fails).tasks; var c := ConfigOf(ts, params, cs, main, env, budget);
      var handed := HandedOut(keys, params);
      && ValidConfig(c) && TotalSubTaskNum(c.tasks) == |c.keys|
      && (|c.keys| == |handed| <==> ts == [] || SideCarsClean(cs, main.name, env))
      && (c.keys == handed <==> StandForKeys(handed, ts, cs, main, env))
  {
    SchedulePartition(keys, params, fails);
    var ts := ScheduleOutcome(keys, params, fails).tasks;
    ConfigValid(ts, params, cs, main, env, budget);
    PieceLengths(cs, main, env, ts);
    NamesAreKeysExactly(HandedOut(keys, params), ts, cs, main, env);
  }

  /** In every reachable state of a run of the tasks of a schedule all groups of a pod's subtasks but the
      last have exactly as many as maxConcurrentNumPerPod, and no more are in flight. */
  lemma ScheduledConcurrency(ts: seq<StrategyKey>, params: SchedulerParams, cs: seq<Container>, main: Container,
                             env: string, budget: nat, run: seq<State>, k: nat, i: nat)
    requires budget >= 1 && IsRun(ConfigOf(ts, params, cs, main, env, budget), run)
    requires k < |run| && i < |ts| && params.maxConcurrentNumPerPod > 0
    ensures |run[k].tasks| == |ts|
    ensures var limit, groups := params.maxConcurrentNumPerPod, run[k].tasks[i].groups;
      && |InFlight(run[k].tasks[i])| <= limit
      && forall g :: 0 <= g < |groups| - 1 ==> |groups[g]| == limit
  {
    var c := ConfigOf(ts, params, cs, main, env, budget);
    ConfigValid(ts, params, cs, main, env, budget);
    BarrierAndConcurrency(c, run, k, i);
    GroupsAreFull(c, run, k, i);
  }

  /** End to end: whatever the limits, the interleaving, the errors and the retries, the report of a run
      of the tasks of a schedule accounts for every subtask.  Its total is the number of keys handed out
      exactly when no sidecar declares the strategy's variable, and when the subtasks stand for the keys
      its details are key occurrences. */
  lemma KeysToReport(keys: seq<string>, params: SchedulerParams, fails: nat -> bool,
                     cs: seq<Container>, main: Container, env: string, budget: nat, run: seq<State>)
    requires ScheduleOutcome(keys, params, fails).Scheduled? && budget >= 1
    requires IsRun(ConfigOf(ScheduleOutcome(keys, params, fails).tasks, params, cs, main, env, budget), run)
    requires run[|run| - 1].report.Some?
    ensures var ts := ScheduleOutcome(keys, params, fails).tasks;
      var c := ConfigOf(ts, params, cs, main, env, budget);
      var s := run[|run| - 1]; var rep := s.report.value; var handed := HandedOut(keys, params);
      && rep.totalNum == rep.successNum + rep.failureNum + rep.unknownNum
      && rep.successNum >= 0 && rep.failureNum >= 0 && rep.unknownNum >= 0
      && |rep.details| == rep.successNum + rep.failureNum
      && multiset(Results.Names(rep.details)) <= multiset(c.keys)
      && (rep.status == Results.Success <==> AllSucceeded(c, s))
      && (rep.totalNum == |handed| <==> ts == [] || SideCarsClean(cs, main.name, env))
      && (StandForKeys(handed, ts, cs, main, env) ==> multiset(Results.Names(rep.details)) <= multiset(handed))
      && Results.Tell(rep.details, Collected(s))
      && rep.successNum == Results.DetailNum(rep.details, Results.Success)
      && rep.failureNum == Results.DetailNum(rep.details, Results.Failure)
      && (rep.status == Results.Success <==>
            rep.unknownNum == 0 && forall d :: d in rep.details ==> d.status == Results.Success)
  {
    ScheduleConfig(keys, params, fails, cs, main, env, budget);
    WholeRunReport(ConfigOf(ScheduleOutcome(keys, params, fails).tasks, params, cs, main, env, budget), run);
  }
}
