/** What a run of a step leaves in the artifact directories: the runs of module Runs together with the
    copies of module ArtifactCopies (TaskGroup.Run in api/v1/task.go, SubTask.Run in api/v1/subtask.go,
    copyArtifact in api/v1/task_builder.go). */
module RunArtifacts {
  import opened Wrappers
  import opened Seqs
  import opened Results
  import opened Retry
  import opened Execution
  import opened Runs
  import opened RunTheorems
  import AC = ArtifactCopies
  import Lookups
  import PodSpecs
  import Builder
  import Scheduler
  import Pipeline
  import ContainerNames = Names

  /*** Where results come from. ***/

  /** Step k of the run is the end of subtask p of task i, with its command's and its copy's error. */
  predicate ExecAt(c: Config, run: seq<State>, k: nat, i: nat, p: nat, execErr: Option<string>, copyErr: Option<string>) {
    k + 1 < |run| && TaskStep(c, run[k], run[k + 1], i, Exec(p, execErr, copyErr))
  }

  /** A result was made by an execution among the first k steps. */
  ghost predicate Stems(c: Config, run: seq<State>, k: nat, r: SubTaskResult) {
    exists j: nat, i: nat :: j < k && ExecAt(c, run, j, i, r.container, r.err, r.artifactErr)
  }

  predicate Carries(sub: SubPhase, r: SubTaskResult) {
    (sub.Executed? || sub.Flushed? || sub.Finished?) && sub.result == r
  }

  /** A task holds a result: in the attempt at hand, in a subtask on its way, or in an earlier attempt. */
  predicate Holds(t: TaskState, r: SubTaskResult) {
    || r in Recs(t)
    || (exists p :: p in t.subs && Carries(t.subs[p], r))
    || (exists h :: 0 <= h < |t.history| && r in Flatten(t.history[h].result))
  }

  lemma StepHolds(c: Config, tc: TaskConfig, t: TaskState, e: TaskEvent, r: SubTaskResult)
    requires Enabled(tc, t, e) && Holds(Apply(c, tc, t, e), r)
    ensures Holds(t, r) || e == Exec(r.container, r.err, r.artifactErr)
  {
    var t' := Apply(c, tc, t, e);
    if r in Recs(t') {
      RecsFrom(c, tc, t, e, r);
    }
    if p :| p in t'.subs && Carries(t'.subs[p], r) {
      SubsFrom(c, tc, t, e, r, p);
    }
    if h :| 0 <= h < |t'.history| && r in Flatten(t'.history[h].result) {
      assert h < |t.history| ==> t'.history[h] == t.history[h];
    }
  }

  lemma RecsFrom(c: Config, tc: TaskConfig, t: TaskState, e: TaskEvent, r: SubTaskResult)
    requires Enabled(tc, t, e) && r in Recs(Apply(c, tc, t, e))
    ensures Holds(t, r)
  {
    match e
    case Close => FlattenSnoc(t.done, t.open);
    case Record(p) => assert r in Recs(t) || Carries(t.subs[p], r);
    case _ =>
  }

  lemma SubsFrom(c: Config, tc: TaskConfig, t: TaskState, e: TaskEvent, r: SubTaskResult, p: nat)
    requires Enabled(tc, t, e)
    requires var t' := Apply(c, tc, t, e); p in t'.subs && Carries(t'.subs[p], r)
    ensures Holds(t, r) || e == Exec(r.container, r.err, r.artifactErr)
  {
    match e
    case Exec(_, _, _) => assert p != e.p ==> Carries(t.subs[p], r);
    case Flush(_) => assert Carries(t.subs[p], r);
    case Finish(_) => assert Carries(t.subs[p], r);
    case Record(_) => assert Carries(t.subs[p], r);
    case Start(_) => assert Carries(t.subs[p], r);
    case Call(_) =>
    case Begin =>
    case _ => assert Carries(t.subs[p], r);
  }

  lemma {:induction false} RunHolds(c: Config, run: seq<State>, k: nat, i: nat, r: SubTaskResult)
    requires IsRun(c, run) && k < |run| && i < |run[k].tasks| && Holds(run[k].tasks[i], r)
    ensures Stems(c, run, k, r)
    decreases k
  {
    InitialHoldsNothing(c, run, i, r);
    if k > 0 {
      HoldsBack(c, run, k - 1, i, r);
      if !Stems(c, run, k, r) {
        RunHolds(c, run, k - 1, i, r);
        StemsGrow(c, run, k - 1, r);
      }
    }
  }

  lemma HoldsBack(c: Config, run: seq<State>, k: nat, i: nat, r: SubTaskResult)
    requires IsRun(c, run) && k + 1 < |run| && i < |run[k + 1].tasks| && Holds(run[k + 1].tasks[i], r)
    ensures Stems(c, run, k + 1, r) || (i < |run[k].tasks| && Holds(run[k].tasks[i], r))
  {
    assert Step(c, run[k], run[k + 1]);
    StepBack(c, run[k], run[k + 1], i, r);
    if !Holds(run[k].tasks[i], r) {
      assert ExecAt(c, run, k, i, r.container, r.err, r.artifactErr);
    }
  }

  lemma InitialHoldsNothing(c: Config, run: seq<State>, i: nat, r: SubTaskResult)
    requires IsRun(c, run)
    ensures i < |run[0].tasks| ==> !Holds(run[0].tasks[i], r)
  {
  }

  lemma StepBack(c: Config, s: State, s': State, i: nat, r: SubTaskResult)
    requires Step(c, s, s') && i < |s'.tasks| && Holds(s'.tasks[i], r)
    ensures i < |s.tasks|
    ensures Holds(s.tasks[i], r) || TaskStep(c, s, s', i, Exec(r.container, r.err, r.artifactErr))
  {
    if !ReportStep(c, s, s') {
      var l, e :| TaskStep(c, s, s', l, e);
      if l == i {
        StepHolds(c, c.tasks[i], s.tasks[i], e, r);
      }
    }
  }

  lemma StemsGrow(c: Config, run: seq<State>, k: nat, r: SubTaskResult)
    requires Stems(c, run, k, r)
    ensures Stems(c, run, k + 1, r)
  {
    var j: nat, i: nat :| j < k && ExecAt(c, run, j, i, r.container, r.err, r.artifactErr);
    assert j < k + 1;
  }

  /** Every reported result was made by an execution of its own subtask, and carries the errors that
      this execution and its copies ended with. */
  lemma ReportedFromExecution(c: Config, run: seq<State>, r: SubTaskResult)
    requires ValidConfig(c) && IsRun(c, run) && run[|run| - 1].report.Some? && r in Collected(run[|run| - 1])
    ensures Stems(c, run, |run| - 1, r) && r.container < |c.keys| && r.name == c.keys[r.container]
  {
    var last := |run| - 1;
    assert Reachable(c, run[last]);
    var i := CollectedGood(c, run[last], r);
    EndedResults(c, run[last], i);
    RunHolds(c, run, last, i, r);
  }

  /** In a run that reports success every container's subtask ended, in some attempt, without an error of
      its command or of its copies. */
  lemma SuccessCopied(c: Config, run: seq<State>, p: nat) returns (k: nat, i: nat)
    requires ValidConfig(c) && IsRun(c, run) && run[|run| - 1].report.Some? && p < |c.keys|
    requires run[|run| - 1].report.value.status == Success
    ensures ExecAt(c, run, k, i, p, None, None)
  {
    var last := |run| - 1;
    var s := run[last];
    WholeRunReport(c, run);
    var owner := ContiguousOwner(c.tasks, 0, |c.keys|, p);
    RunInv(c, run, last);
    var r := LastResultAt(c, s, owner, p);
    RunHolds(c, run, last, owner, r);
    var j: nat, l: nat :| j < last && ExecAt(c, run, j, l, r.container, r.err, r.artifactErr);
    k, i := j, l;
  }

  lemma LastResultAt(c: Config, s: State, owner: nat, p: nat) returns (r: SubTaskResult)
    requires AllSucceeded(c, s) && owner < |s.tasks| && owner < |c.tasks| && c.tasks[owner].lo <= p < c.tasks[owner].hi
    ensures r.container == p && r.err.None? && r.artifactErr.None? && Holds(s.tasks[owner], r)
  {
    var t := s.tasks[owner];
    var rs := LastResults(t);
    assert Occurrences(rs, p) == 1;
    assert p in multiset(Containers(rs));
    var j :| 0 <= j < |rs| && Containers(rs)[j] == p;
    r := rs[j];
    assert rs[j].Error().None?;
    assert r in Flatten(t.history[|t.history| - 1].result);
  }

  /*** What a successful run leaves behind. ***/

  /** The copies of subtask p, by its container's name: all of them exactly when it reported none
      failed. */
  predicate CopiesFor(names: seq<string>, s: AC.StepRun, sub: AC.SubTaskCopy, p: nat, copyErr: Option<string>) {
    && p < |names| && sub.container == names[p]
    && (copyErr.None? <==> sub.done >= |AC.ArtifactsOf(s.template.artifacts, s.mainName)|)
  }

  /** Some subtask copy of the step is that of an execution of subtask p. */
  predicate Copying(names: seq<string>, s: AC.StepRun, p: nat, copyErr: Option<string>) {
    exists j :: 0 <= j < |s.subtasks| && CopiesFor(names, s, s.subtasks[j], p, copyErr)
  }

  /** A subtask copy of the step is that of some execution of the run. */
  ghost predicate Executing(c: Config, run: seq<State>, names: seq<string>, s: AC.StepRun, sub: AC.SubTaskCopy) {
    exists k: nat, i: nat, p: nat, execErr, copyErr ::
      ExecAt(c, run, k, i, p, execErr, copyErr) && CopiesFor(names, s, sub, p, copyErr)
  }

  ghost predicate EveryExecCopies(c: Config, run: seq<State>, names: seq<string>, s: AC.StepRun) {
    forall k: nat, i: nat, p: nat, execErr, copyErr ::
      ExecAt(c, run, k, i, p, execErr, copyErr) ==> Copying(names, s, p, copyErr)
  }

  ghost predicate EveryCopyExecuted(c: Config, run: seq<State>, names: seq<string>, s: AC.StepRun) {
    forall j :: 0 <= j < |s.subtasks| ==> Executing(c, run, names, s, s.subtasks[j])
  }

  /** The subtask copies of the step are those of the run's executions. */
  ghost predicate CopiesOfRun(c: Config, run: seq<State>, names: seq<string>, s: AC.StepRun) {
    EveryExecCopies(c, run, names, s) && EveryCopyExecuted(c, run, names, s)
  }

  function Elements(names: seq<string>): set<string> {
    set p | 0 <= p < |names| :: names[p]
  }

  lemma {:induction false} ElementCount(names: seq<string>)
    requires Distinct(names)
    ensures |Elements(names)| == |names|
  {
    if names != [] {
      var n := |names| - 1;
      ElementCount(names[..n]);
      assert Elements(names) == Elements(names[..n]) + {names[n]} by {
        forall x | x in Elements(names) ensures x in Elements(names[..n]) + {names[n]} {
          var p :| 0 <= p < |names| && names[p] == x;
          assert p < n ==> names[..n][p] == x;
        }
        forall x | x in Elements(names[..n]) ensures x in Elements(names) {
          var p :| 0 <= p < n && names[..n][p] == x;
          assert names[p] == x;
        }
      }
      assert names[n] !in Elements(names[..n]);
    }
  }

  lemma SuccessfulCopiers(c: Config, run: seq<State>, names: seq<string>, s: AC.StepRun, a: PodSpecs.ArtifactSpec)
    requires ValidConfig(c) && IsRun(c, run) && run[|run| - 1].report.Some?
    requires run[|run| - 1].report.value.status == Success
    requires |names| == |c.keys| && CopiesOfRun(c, run, names, s)
    requires a in s.template.artifacts && a.container == s.mainName
    ensures AC.Copiers(s, a, s.subtasks) == Elements(names)
  {
    var copiers := AC.Copiers(s, a, s.subtasks);
    forall p | 0 <= p < |names| ensures names[p] in copiers {
      NameCopied(c, run, names, s, p);
      CopyingCopies(names, s, a, p);
    }
    CopiersNamed(c, run, names, s, a);
  }

  lemma NameCopied(c: Config, run: seq<State>, names: seq<string>, s: AC.StepRun, p: nat)
    requires ValidConfig(c) && IsRun(c, run) && run[|run| - 1].report.Some? && p < |c.keys|
    requires run[|run| - 1].report.value.status == Success && EveryExecCopies(c, run, names, s)
    ensures Copying(names, s, p, None)
  {
    var k, i := SuccessCopied(c, run, p);
    assert ExecAt(c, run, k, i, p, None, None);
  }

  lemma CopyingCopies(names: seq<string>, s: AC.StepRun, a: PodSpecs.ArtifactSpec, p: nat)
    requires Copying(names, s, p, None) && a in s.template.artifacts && a.container == s.mainName
    ensures p < |names| && names[p] in AC.Copiers(s, a, s.subtasks)
  {
    var j :| 0 <= j < |s.subtasks| && CopiesFor(names, s, s.subtasks[j], p, None);
    AC.CompletedCopies(s, s.subtasks[j], a);
  }

  lemma CopiersNamed(c: Config, run: seq<State>, names: seq<string>, s: AC.StepRun, a: PodSpecs.ArtifactSpec)
    requires EveryCopyExecuted(c, run, names, s)
    ensures AC.Copiers(s, a, s.subtasks) <= Elements(names)
  {
    forall j | 0 <= j < |s.subtasks| ensures s.subtasks[j].container in Elements(names) {
      OwnContainer(c, run, names, s, s.subtasks[j]);
    }
  }

  lemma OwnContainer(c: Config, run: seq<State>, names: seq<string>, s: AC.StepRun, sub: AC.SubTaskCopy)
    requires Executing(c, run, names, s, sub)
    ensures sub.container in Elements(names)
  {
    var k: nat, i: nat, p: nat, execErr, copyErr :|
      ExecAt(c, run, k, i, p, execErr, copyErr) && CopiesFor(names, s, sub, p, copyErr);
    assert names[p] == sub.container;
  }

  /** A run that reports success leaves every artifact of the main container with one copy per subtask,
      each in a container of its own, so that later steps find it unless there was no key. */
  lemma SuccessfulRunCopiesAll(c: Config, run: seq<State>, names: seq<string>, m: AC.Copies, s: AC.StepRun,
                               a: PodSpecs.ArtifactSpec)
    requires ValidConfig(c) && IsRun(c, run) && run[|run| - 1].report.Some?
    requires run[|run| - 1].report.value.status == Success
    requires |names| == |c.keys| && Distinct(names) && CopiesOfRun(c, run, names, s)
    requires AC.NamesDistinct(s.template.artifacts) && AC.WellBuilt(s)
    requires a in s.template.artifacts && a.container == s.mainName
    ensures a.name in AC.AfterStep(m, s) && AC.AfterStep(m, s)[a.name] == Elements(names)
    ensures |AC.AfterStep(m, s)[a.name]| == |c.keys|
    ensures AC.Found(AC.AfterStep(m, s), a.name) <==> c.keys != []
  {
    AC.StepCopies(m, s, a);
    SuccessfulCopiers(c, run, names, s, a);
    ElementCount(names);
  }

  /** The key containers of a schedule, over all its tasks. */
  function ContainersOf(ts: seq<Scheduler.StrategyKey>, main: PodSpecs.Container, env: string): seq<string> {
    Flatten(Pieces(ts, main, env))
  }

  function Pieces(ts: seq<Scheduler.StrategyKey>, main: PodSpecs.Container, env: string): (pieces: seq<seq<string>>)
    ensures |pieces| == |ts|
    ensures forall i :: 0 <= i < |ts| ==> |pieces[i]| == |ts[i].keys|
  {
    seq(|ts|, i requires 0 <= i < |ts| =>
      seq(|ts[i].keys|, idx requires 0 <= idx < |ts[i].keys| => Builder.KeyContainer(main, Builder.KeySpec(ts[i], env), idx).name))
  }

  lemma ContainersDistinct(keys: seq<string>, params: Scheduler.SchedulerParams, fails: nat -> bool,
                           main: PodSpecs.Container, env: string)
    requires Scheduler.ScheduleOutcome(keys, params, fails).Scheduled?
    ensures var names := ContainersOf(Scheduler.ScheduleOutcome(keys, params, fails).tasks, main, env);
      Distinct(names) && |names| == |Scheduler.HandedOut(keys, params)|
  {
    var ts := Scheduler.ScheduleOutcome(keys, params, fails).tasks;
    var pieces, names := Pieces(ts, main, env), ContainersOf(ts, main, env);
    Scheduler.SchedulePartition(keys, params, fails);
    Pipeline.FlattenLength(pieces, Scheduler.KeysOf(ts));
    Pipeline.FlattenLength(Scheduler.KeysOf(ts), pieces);
    forall p: nat, q: nat | p < q < |names| ensures names[p] != names[q] {
      NamesApart(ts, main, env, p, q);
    }
  }

  lemma NamesApart(ts: seq<Scheduler.StrategyKey>, main: PodSpecs.Container, env: string, p: nat, q: nat)
    requires forall i :: 0 <= i < |ts| ==> ts[i].concurrentIdx == i
    requires p < q < |ContainersOf(ts, main, env)|
    ensures ContainersOf(ts, main, env)[p] != ContainersOf(ts, main, env)[q]
  {
    var ci, idx := NameAt(ts, main, env, p);
    var ci', idx' := NameAt(ts, main, env, q);
    if ContainersOf(ts, main, env)[p] == ContainersOf(ts, main, env)[q] {
      ContainerNames.ContainerNameInjective(main.name, ci, idx, ci', idx');
    }
  }

  lemma NameAt(ts: seq<Scheduler.StrategyKey>, main: PodSpecs.Container, env: string, p: nat) returns (ci: nat, idx: nat)
    requires forall i :: 0 <= i < |ts| ==> ts[i].concurrentIdx == i
    requires p < |ContainersOf(ts, main, env)|
    ensures ci < |ts| && Pipeline.Offset(Pieces(ts, main, env), ci) + idx == p
    ensures ContainersOf(ts, main, env)[p] == ContainerNames.ContainerName(main.name, ci, idx)
  {
    var pieces := Pieces(ts, main, env);
    ci, idx := Pipeline.FlattenOwner(pieces, p);
    Pipeline.FlattenAt(pieces, ci, idx);
  }

  /** The same for the main step of a schedule, whose containers are named by its keys. */
  lemma ScheduledSuccessCopiesAll(keys: seq<string>, params: Scheduler.SchedulerParams, fails: nat -> bool,
                                  cs: seq<PodSpecs.Container>, main: PodSpecs.Container, env: string, budget: nat,
                                  run: seq<State>, m: AC.Copies, s: AC.StepRun, a: PodSpecs.ArtifactSpec)
    requires Scheduler.ScheduleOutcome(keys, params, fails).Scheduled? && budget >= 1
    requires Builder.SideCarsClean(cs, main.name, env)
    requires var ts := Scheduler.ScheduleOutcome(keys, params, fails).tasks;
      var c := Pipeline.ConfigOf(ts, params, cs, main, env, budget);
      && IsRun(c, run) && run[|run| - 1].report.Some? && run[|run| - 1].report.value.status == Success
      && CopiesOfRun(c, run, ContainersOf(ts, main, env), s)
    requires AC.NamesDistinct(s.template.artifacts) && AC.WellBuilt(s)
    requires a in s.template.artifacts && a.container == s.mainName
    ensures var ts := Scheduler.ScheduleOutcome(keys, params, fails).tasks;
      && a.name in AC.AfterStep(m, s) && AC.AfterStep(m, s)[a.name] == Elements(ContainersOf(ts, main, env))
      && |AC.AfterStep(m, s)[a.name]| == |Scheduler.HandedOut(keys, params)|
  {
    var ts := Scheduler.ScheduleOutcome(keys, params, fails).tasks;
    var c := Pipeline.ConfigOf(ts, params, cs, main, env, budget);
    Pipeline.ScheduleConfig(keys, params, fails, cs, main, env, budget);
    ContainersDistinct(keys, params, fails, main, env);
    SuccessfulRunCopiesAll(c, run, ContainersOf(ts, main, env), m, s, a);
  }
}
