/** Whole runs of a step: TaskGroup.Run over concurrently running tasks, the shared progress counter
    of the scheduler, and the report made at the end (api/v1/task.go, api/v1/scheduler.go,
    api/v1/runner.go). */
module Runs {
  import opened Wrappers
  import opened Seqs
  import opened Scheduler
  import opened Results
  import opened Retry
  import opened Execution

  /** One element of TaskResultGroup.results and the task it came from. */
  datatype Delivery = Delivery(owner: nat, result: TaskResult)

  /** `flushed` lists the subtasks whose log group was written to the main logger, `printed` the
      values the progress callback reported. */
  datatype State = State(
    tasks: seq<TaskState>, collected: seq<Delivery>,
    flushed: seq<nat>, counter: nat, printed: seq<nat>, report: Option<Report>)

  predicate Init(c: Config, s: State) {
    s == State(seq(|c.tasks|, _ => InitialTask), [], [], 0, [], None)
  }

  /** The uint32 counter after k increments. */
  function CounterAfter(k: nat): (n: nat)
    ensures n < WORD
  {
    if k == 0 then 0 else Add32(CounterAfter(k - 1), 1)
  }

  lemma {:induction false} CounterWraps(k: nat)
    ensures CounterAfter(k) == k % WORD
  {
    if k > 0 {
      CounterWraps(k - 1);
      Add32Wraps(CounterAfter(k - 1), 1);
    }
  }

  predicate TaskStep(c: Config, s: State, s': State, i: nat, e: TaskEvent) {
    && i < |s.tasks| == |c.tasks| && s.report.None? && s'.report.None?
    && Enabled(c.tasks[i], s.tasks[i], e)
    && s'.tasks == s.tasks[i := Apply(c, c.tasks[i], s.tasks[i], e)]
    && s'.flushed == s.flushed + (if e.Flush? then [e.p] else [])
    && (if e.Finish? && c.limit.Some?
        then s.counter < WORD && s'.counter == Add32(s.counter, 1) && s'.printed == s.printed + [s'.counter]
        else s'.counter == s.counter && s'.printed == s.printed)
    && s'.collected == s.collected + (if e.Deliver? then [Delivery(i, s.tasks[i].phase.outcome.result)] else [])
  }

  function ResultsOf(ds: seq<Delivery>): (rs: seq<TaskResult>)
    ensures |rs| == |ds|
  {
    seq(|ds|, i requires 0 <= i < |ds| => ds[i].result)
  }

  /** The number of main containers of all tasks, as TaskGroup.Run sums it before starting them. */
  function TotalSubTaskNum(tasks: seq<TaskConfig>): int {
    if tasks == [] then 0 else tasks[0].hi - tasks[0].lo + TotalSubTaskNum(tasks[1..])
  }

  /** Once every task delivered a result, the report is made from what was collected. */
  predicate ReportStep(c: Config, s: State, s': State) {
    && s.report.None?
    && (forall i :: 0 <= i < |s.tasks| ==> Delivered(s.tasks[i]))
    && s' == s.(report := Some(ReportOf(TotalSubTaskNum(c.tasks), AllOf(ResultsOf(s.collected)))))
  }

  ghost predicate Step(c: Config, s: State, s': State) {
    ReportStep(c, s, s') || exists i, e :: TaskStep(c, s, s', i, e)
  }

  ghost predicate IsRun(c: Config, run: seq<State>) {
    && |run| > 0 && Init(c, run[0])
    && forall k :: 0 <= k < |run| - 1 ==> Step(c, run[k], run[k + 1])
  }

  /*** The shape of the configuration. ***/

  lemma {:induction false} ContiguousFacts(tasks: seq<TaskConfig>, from: nat, n: nat)
    requires Contiguous(tasks, from, n)
    ensures from <= n
    ensures forall i :: 0 <= i < |tasks| ==> from <= tasks[i].lo <= tasks[i].hi <= n
    ensures forall i, j :: 0 <= i < j < |tasks| ==> tasks[i].hi <= tasks[j].lo
    ensures TotalSubTaskNum(tasks) == n - from
  {
    if tasks != [] {
      ContiguousFacts(tasks[1..], tasks[0].hi, n);
      assert forall i :: 0 < i < |tasks| ==> tasks[i] == tasks[1..][i - 1];
    }
  }

  lemma {:induction false} ContiguousOwner(tasks: seq<TaskConfig>, from: nat, n: nat, p: nat) returns (i: nat)
    requires Contiguous(tasks, from, n) && from <= p < n
    ensures i < |tasks| && tasks[i].lo <= p < tasks[i].hi
  {
    if p < tasks[0].hi {
      i := 0;
    } else {
      i := ContiguousOwner(tasks[1..], tasks[0].hi, n, p);
      i := i + 1;
    }
  }

  /*** Invariant of a run. ***/

  function Finishes(ts: seq<TaskState>): (ns: seq<nat>)
    ensures |ns| == |ts|
  {
    seq(|ts|, i requires 0 <= i < |ts| => ts[i].finishes)
  }

  function Flushes(ts: seq<TaskState>): (ns: seq<nat>)
    ensures |ns| == |ts|
  {
    seq(|ts|, i requires 0 <= i < |ts| => ts[i].flushes)
  }

  ghost predicate InvTasks(c: Config, s: State) {
    |s.tasks| == |c.tasks| && forall i :: 0 <= i < |s.tasks| ==> TaskInv(c, c.tasks[i], s.tasks[i])
  }

  ghost predicate InvProgress(c: Config, s: State) {
    && |s.flushed| == Sum(Flushes(s.tasks))
    && (c.limit.Some? ==> |s.printed| == Sum(Finishes(s.tasks)))
    && s.counter == CounterAfter(|s.printed|)
    && forall k :: 0 <= k < |s.printed| ==> s.printed[k] == CounterAfter(k + 1)
  }

  ghost predicate InvCollected(s: State) {
    && (forall k :: 0 <= k < |s.collected| ==>
          s.collected[k].owner < |s.tasks|
          && s.tasks[s.collected[k].owner].phase == Ended(Returned(s.collected[k].result), true))
    && (forall k, l :: 0 <= k < l < |s.collected| ==> s.collected[k].owner != s.collected[l].owner)
    && (forall i :: 0 <= i < |s.tasks| && Delivered(s.tasks[i]) ==>
          exists k :: 0 <= k < |s.collected| && s.collected[k].owner == i)
  }

  ghost predicate InvReport(c: Config, s: State) {
    s.report.Some? ==>
      && s.report.value == ReportOf(TotalSubTaskNum(c.tasks), AllOf(ResultsOf(s.collected)))
      && forall i :: 0 <= i < |s.tasks| ==> Delivered(s.tasks[i])
  }

  ghost predicate Inv(c: Config, s: State) {
    InvTasks(c, s) && InvProgress(c, s) && InvCollected(s) && InvReport(c, s)
  }

  lemma {:induction false} SumZero(ns: seq<nat>)
    requires forall i :: 0 <= i < |ns| ==> ns[i] == 0
    ensures Sum(ns) == 0
  {
    if ns != [] {
      SumZero(ns[1..]);
    }
  }

  lemma InitInv(c: Config, s: State)
    requires ValidConfig(c) && Init(c, s)
    ensures Inv(c, s)
  {
    InitTasks(c, s);
    InitRest(c, s);
  }

  lemma InitTasks(c: Config, s: State)
    requires c.budget >= 1 && Init(c, s)
    ensures InvTasks(c, s)
  {
    forall i | 0 <= i < |s.tasks| ensures TaskInv(c, c.tasks[i], s.tasks[i]) {
      InitialTaskInv(c, c.tasks[i]);
    }
  }

  lemma InitRest(c: Config, s: State)
    requires Init(c, s)
    ensures InvProgress(c, s) && InvCollected(s) && InvReport(c, s)
  {
    SumZero(Finishes(s.tasks));
    SumZero(Flushes(s.tasks));
  }

  lemma KeepInvTasks(c: Config, s: State, s': State, i: nat, e: TaskEvent)
    requires ValidConfig(c) && InvTasks(c, s) && TaskStep(c, s, s', i, e)
    ensures InvTasks(c, s')
  {
    ContiguousFacts(c.tasks, 0, |c.keys|);
    KeepTaskInv(c, c.tasks[i], s.tasks[i], e);
  }

  lemma KeepInvProgress(c: Config, s: State, s': State, i: nat, e: TaskEvent)
    requires InvProgress(c, s) && TaskStep(c, s, s', i, e)
    ensures InvProgress(c, s')
  {
    var t' := Apply(c, c.tasks[i], s.tasks[i], e);
    assert Finishes(s'.tasks) == Finishes(s.tasks)[i := t'.finishes];
    assert Flushes(s'.tasks) == Flushes(s.tasks)[i := t'.flushes];
    SumUpdate(Finishes(s.tasks), i, t'.finishes);
    SumUpdate(Flushes(s.tasks), i, t'.flushes);
  }

  predicate Delivered(t: TaskState) {
    t.phase.Ended? && t.phase.delivered
  }

  lemma OnlyDeliverDelivers(c: Config, tc: TaskConfig, t: TaskState, e: TaskEvent)
    requires Enabled(tc, t, e) && !e.Deliver?
    ensures Delivered(Apply(c, tc, t, e)) <==> Delivered(t)
    ensures Delivered(t) ==> Apply(c, tc, t, e).phase == t.phase
  {
  }

  lemma KeepInvCollected(c: Config, s: State, s': State, i: nat, e: TaskEvent)
    requires InvCollected(s) && TaskStep(c, s, s', i, e)
    ensures InvCollected(s')
  {
    if e.Deliver? {
      KeepInvCollectedDeliver(c, s, s', i);
    } else {
      OnlyDeliverDelivers(c, c.tasks[i], s.tasks[i], e);
      assert s'.collected == s.collected;
      assert forall j :: 0 <= j < |s.tasks| ==> (Delivered(s'.tasks[j]) <==> Delivered(s.tasks[j]));
    }
  }

  lemma KeepInvCollectedDeliver(c: Config, s: State, s': State, i: nat)
    requires InvCollected(s) && TaskStep(c, s, s', i, Deliver)
    ensures InvCollected(s')
  {
    CollectedSnoc(s, s', i, s.tasks[i].phase.outcome.result);
  }

  lemma CollectedSnoc(s: State, s': State, i: nat, result: TaskResult)
    requires InvCollected(s) && i < |s.tasks| && s.tasks[i].phase == Ended(Returned(result), false)
    requires |s'.tasks| == |s.tasks| && s'.tasks[i].phase == Ended(Returned(result), true)
    requires forall j :: 0 <= j < |s.tasks| && j != i ==> s'.tasks[j] == s.tasks[j]
    requires s'.collected == s.collected + [Delivery(i, result)]
    ensures InvCollected(s')
  {
    var n := |s.collected|;
    assert s'.collected[n].owner == i;
    forall k | 0 <= k < n ensures s'.collected[k] == s.collected[k] && s.collected[k].owner != i {
    }
    forall j | 0 <= j < |s'.tasks| && Delivered(s'.tasks[j])
      ensures exists k :: 0 <= k < |s'.collected| && s'.collected[k].owner == j
    {
      if j != i {
        var k :| 0 <= k < n && s.collected[k].owner == j;
        assert s'.collected[k].owner == j;
      }
    }
  }

  lemma StepInv(c: Config, s: State, s': State)
    requires ValidConfig(c) && Inv(c, s) && Step(c, s, s')
    ensures Inv(c, s')
  {
    if !ReportStep(c, s, s') {
      var i, e :| TaskStep(c, s, s', i, e);
      KeepInvTasks(c, s, s', i, e);
      KeepInvProgress(c, s, s', i, e);
      KeepInvCollected(c, s, s', i, e);
    }
  }

  lemma {:induction false} RunInv(c: Config, run: seq<State>, k: nat)
    requires ValidConfig(c) && IsRun(c, run) && k < |run|
    ensures Inv(c, run[k])
    decreases k
  {
    if k == 0 {
      InitInv(c, run[0]);
    } else {
      RunInv(c, run, k - 1);
      assert Step(c, run[k - 1], run[k - 1 + 1]);
      StepInv(c, run[k - 1], run[k]);
    }
  }

  ghost predicate Reachable(c: Config, s: State) {
    exists run :: IsRun(c, run) && run[|run| - 1] == s
  }

  lemma ReachableAt(c: Config, run: seq<State>, k: nat)
    requires IsRun(c, run) && k < |run|
    ensures Reachable(c, run[k])
  {
    var start := run[..k + 1];
    forall i | 0 <= i < |start| - 1 ensures Step(c, start[i], start[i + 1]) {
      assert Step(c, run[i], run[i + 1]);
    }
    assert start[|start| - 1] == run[k];
  }

  lemma ReachableInv(c: Config, s: State)
    requires ValidConfig(c) && Reachable(c, s)
    ensures Inv(c, s)
  {
    var run :| IsRun(c, run) && run[|run| - 1] == s;
    RunInv(c, run, |run| - 1);
  }

  /*** What was collected. ***/

  lemma AllOfSnoc(ds: seq<Delivery>, d: Delivery)
    ensures AllOf(ResultsOf(ds + [d])) == AllOf(ResultsOf(ds)) + Flatten(d.result)
  {
    var all := ResultsOf(ds + [d]);
    assert all[..|ds|] == ResultsOf(ds) && all[..|ds| + 1] == all;
    FlattenNext(all, |ds|);
  }

  /** How often position p occurs among results. */
  function Occurrences(rs: seq<SubTaskResult>, p: nat): nat {
    multiset(Containers(rs))[p]
  }

  lemma OccurrencesConcat(a: seq<SubTaskResult>, b: seq<SubTaskResult>, p: nat)
    ensures Occurrences(a + b, p) == Occurrences(a, p) + Occurrences(b, p)
  {
    assert Containers(a + b) == Containers(a) + Containers(b);
  }

  /** The deliveries come from different tasks and each holds results of its own task only, at most
      one per container. */
  ghost predicate OwnResults(c: Config, ds: seq<Delivery>) {
    && (forall k :: 0 <= k < |ds| ==> ds[k].owner < |c.tasks|)
    && (forall k, l :: 0 <= k < l < |ds| ==> ds[k].owner != ds[l].owner)
    && (forall k, p: nat :: 0 <= k < |ds| ==>
          Occurrences(Flatten(ds[k].result), p)
          <= if c.tasks[ds[k].owner].lo <= p < c.tasks[ds[k].owner].hi then 1 else 0)
  }

  lemma {:induction false} ForeignPosition(c: Config, ds: seq<Delivery>, p: nat)
    requires OwnResults(c, ds)
    requires forall k :: 0 <= k < |ds| ==> !(c.tasks[ds[k].owner].lo <= p < c.tasks[ds[k].owner].hi)
    ensures Occurrences(AllOf(ResultsOf(ds)), p) == 0
  {
    if ds != [] {
      var n := |ds| - 1;
      ForeignPosition(c, ds[..n], p);
      assert ds == ds[..n] + [ds[n]];
      AllOfSnoc(ds[..n], ds[n]);
      OccurrencesConcat(AllOf(ResultsOf(ds[..n])), Flatten(ds[n].result), p);
      assert Occurrences(Flatten(ds[n].result), p) <= 0;
    }
  }

  /** A position occurs among all collected results as often as in the delivery of its own task. */
  lemma {:induction false} OwnPosition(c: Config, ds: seq<Delivery>, k: nat, p: nat)
    requires Contiguous(c.tasks, 0, |c.keys|) && OwnResults(c, ds) && k < |ds|
    requires c.tasks[ds[k].owner].lo <= p < c.tasks[ds[k].owner].hi
    ensures Occurrences(AllOf(ResultsOf(ds)), p) == Occurrences(Flatten(ds[k].result), p)
    decreases |ds|
  {
    var n := |ds| - 1;
    ContiguousFacts(c.tasks, 0, |c.keys|);
    assert ds == ds[..n] + [ds[n]];
    AllOfSnoc(ds[..n], ds[n]);
    OccurrencesConcat(AllOf(ResultsOf(ds[..n])), Flatten(ds[n].result), p);
    if k < n {
      OwnPosition(c, ds[..n], k, p);
      assert Occurrences(Flatten(ds[n].result), p) <= 0;
    } else {
      ForeignPosition(c, ds[..n], p);
    }
  }

  lemma CollectedOwn(c: Config, s: State)
    requires ValidConfig(c) && Reachable(c, s)
    ensures OwnResults(c, s.collected)
  {
    ReachableInv(c, s);
    forall k, p: nat | 0 <= k < |s.collected|
      ensures Occurrences(Flatten(s.collected[k].result), p)
              <= if c.tasks[s.collected[k].owner].lo <= p < c.tasks[s.collected[k].owner].hi then 1 else 0
    {
      EndedResults(c, s, s.collected[k].owner);
      var t := s.tasks[s.collected[k].owner];
      assert Occurrences(Recs(t), p) <= 1;
    }
  }

  /** What an ended task returned are the results recorded in its last attempt. */
  lemma EndedResults(c: Config, s: State, i: nat)
    requires ValidConfig(c) && Reachable(c, s) && i < |s.tasks|
    requires s.tasks[i].phase.Ended? && s.tasks[i].phase.outcome.Returned?
    ensures var t := s.tasks[i];
      && |t.history| > 0 && t.history[|t.history| - 1].result == t.done == t.phase.outcome.result
      && Flatten(t.done) == Recs(t) == LastResults(t)
  {
    ReachableInv(c, s);
    EndedTask(c, c.tasks[i], s.tasks[i]);
  }

  lemma EndedTask(c: Config, tc: TaskConfig, t: TaskState)
    requires InvJobs(c, t) && InvGroups(c, tc, t) && t.phase.Ended? && t.phase.outcome.Returned?
    ensures |t.history| > 0 && t.history[|t.history| - 1].result == t.done == t.phase.outcome.result
    ensures Flatten(t.done) == Recs(t) == LastResults(t)
  {
    assert Fate(t.history, c.budget) == Some(OutcomeOf(t.history[|t.history| - 1]));
  }

  /** The results of the last finished attempt of a task. */
  function LastResults(t: TaskState): seq<SubTaskResult> {
    if t.history == [] then [] else Flatten(t.history[|t.history| - 1].result)
  }

  predicate Clean(rs: seq<SubTaskResult>) {
    forall i :: 0 <= i < |rs| ==> rs[i].Error().None?
  }
}
