/** Concurrent execution of the tasks of a step, from TaskGroup.Run down to the single subtask
    (api/v1/task.go, api/v1/subtask.go), as a transition system.

    Every goroutine step that other goroutines can observe is one transition, so any interleaving
    the Go scheduler may pick is a run.  The library behind RunWithExecutionHandler calls its
    handler at most once, with distinct containers of that job, and returns only after the handler
    did; backoff grants a finite budget of at least one attempt. */
module Execution {
  import opened Wrappers
  import opened Seqs
  import opened Scheduler
  import opened Results
  import opened Retry

  /** The main containers of one task, as positions in the key list of the step. */
  datatype TaskConfig = TaskConfig(lo: nat, hi: nat)

  /** `limit` is maxConcurrentNumPerPod, absent for a step without a strategy. */
  datatype Config = Config(keys: seq<string>, tasks: seq<TaskConfig>, limit: Option<int>, budget: nat)

  /** The tasks share out the positions from `from` to n, one contiguous stretch each. */
  predicate Contiguous(tasks: seq<TaskConfig>, from: nat, n: nat) {
    if tasks == [] then from == n
    else tasks[0].lo == from && from <= tasks[0].hi <= n && Contiguous(tasks[1..], tasks[0].hi, n)
  }

  predicate ValidConfig(c: Config) {
    c.budget >= 1 && Contiguous(c.tasks, 0, |c.keys|)
  }

  datatype SubPhase =
    | Waiting
    | Running
    | Executed(result: SubTaskResult)
    | Flushed(result: SubTaskResult)
    | Finished(result: SubTaskResult)
    | Recorded

  datatype Phase =
    | Ready
    | Launched
    | Handling
    | Returning
    | Recreating(err: RunError)
    | Ended(outcome: TaskOutcome, delivered: bool)

  /** `groups` to `open` belong to the attempt at hand; `flushes`, `finishes` and `records` count
      over all attempts. */
  datatype TaskState = TaskState(
    phase: Phase,
    job: nat, executed: seq<nat>, history: seq<Attempt>,
    groups: seq<seq<nat>>, current: nat, subs: map<nat, SubPhase>,
    done: TaskResult, open: seq<SubTaskResult>,
    flushes: nat, finishes: nat, records: nat)

  datatype TaskEvent =
    | Begin
    | Call(execs: seq<nat>)
    | Start(p: nat)
    | Exec(p: nat, execErr: Option<string>, copyErr: Option<string>)
    | Flush(p: nat)
    | Finish(p: nat)
    | Record(p: nat)
    | Close
    | EndHandler
    | Return(err: Option<RunError>)
    | Recreate(ok: bool)
    | Deliver

  const InitialTask: TaskState :=
    TaskState(Ready, 0, [], [], [], 0, map[], [], [], 0, 0, 0)

  /** The groups a handler runs one after another. */
  function Plan(limit: Option<int>, execs: seq<nat>): seq<seq<nat>> {
    match limit
    case None => [execs]
    case Some(l) => Groups(execs, l)
  }

  predicate Enabled(tc: TaskConfig, t: TaskState, e: TaskEvent) {
    match e
    case Begin => t.phase.Ready?
    case Call(execs) =>
      t.phase.Launched? && Distinct(execs) && forall x :: x in execs ==> tc.lo <= x < tc.hi
    case Start(p) =>
      t.phase.Handling? && t.current < |t.groups| && p in t.groups[t.current] && p in t.subs && t.subs[p].Waiting?
    case Exec(p, _, _) => p in t.subs && t.subs[p].Running?
    case Flush(p) => p in t.subs && t.subs[p].Executed?
    case Finish(p) => p in t.subs && t.subs[p].Flushed?
    case Record(p) => p in t.subs && t.subs[p].Finished?
    case Close =>
      t.phase.Handling? && t.current < |t.groups|
      && forall p :: p in t.groups[t.current] ==> p in t.subs && t.subs[p].Recorded?
    case EndHandler => t.phase.Handling? && t.current == |t.groups|
    case Return(_) => t.phase.Launched? || t.phase.Returning?
    case Recreate(_) => t.phase.Recreating?
    case Deliver => t.phase.Ended? && t.phase.outcome.Returned? && !t.phase.delivered
  }

  function KeyName(c: Config, p: nat): string {
    if p < |c.keys| then c.keys[p] else ""
  }

  function Apply(c: Config, tc: TaskConfig, t: TaskState, e: TaskEvent): TaskState
    requires Enabled(tc, t, e)
  {
    match e
    case Begin =>
      t.(phase := Launched, executed := t.executed + [t.job],
         groups := [], current := 0, subs := map[], done := [], open := [])
    case Call(execs) =>
      t.(phase := Handling, groups := Plan(c.limit, execs), subs := map p | p in execs :: Waiting)
    case Start(p) => t.(subs := t.subs[p := Running])
    case Exec(p, execErr, copyErr) =>
      t.(subs := t.subs[p := Executed(ResultOf(KeyName(c, p), p, t.job, true, execErr, copyErr))])
    case Flush(p) => t.(subs := t.subs[p := Flushed(t.subs[p].result)], flushes := t.flushes + 1)
    case Finish(p) => t.(subs := t.subs[p := Finished(t.subs[p].result)], finishes := t.finishes + 1)
    case Record(p) =>
      t.(subs := t.subs[p := Recorded], open := t.open + [t.subs[p].result], records := t.records + 1)
    case Close => t.(done := t.done + [t.open], open := [], current := t.current + 1)
    case EndHandler => t.(phase := Returning)
    case Return(err) =>
      var a := Attempt(t.done, err, false);
      if Retries(a) then t.(phase := Recreating(err.value))
      else t.(phase := Ended(OutcomeOf(a), false), history := t.history + [a])
    case Recreate(ok) =>
      var a := Attempt(t.done, Some(t.phase.err), ok);
      var t' := t.(history := t.history + [a], job := if ok then t.job + 1 else t.job);
      if !ok || |t'.history| == c.budget then t'.(phase := Ended(OutcomeOf(a), false)) else t'.(phase := Ready)
    case Deliver => t.(phase := Ended(t.phase.outcome, true))
  }

  /*** Invariant of one task. ***/

  /** Results recorded in the attempt at hand. */
  function Recs(t: TaskState): seq<SubTaskResult> {
    Flatten(t.done) + t.open
  }

  function Containers(rs: seq<SubTaskResult>): (ps: seq<nat>)
    ensures |ps| == |rs|
  {
    seq(|rs|, i requires 0 <= i < |rs| => rs[i].container)
  }

  /** The result a subtask of position p may carry: its own container and key, the running job, and
      a status that agrees with its errors. */
  predicate Good(c: Config, job: nat, r: SubTaskResult) {
    r.container < |c.keys| && r.name == c.keys[r.container] && r.job == job && r.isMain && Consistent(r)
  }

  function RunningJob(t: TaskState): nat {
    if |t.executed| == 0 then 0 else |t.executed| - 1
  }

  /** Job objects are numbered by creation; each was executed at most once, in order. */
  ghost predicate InvJobs(c: Config, t: TaskState) {
    && t.executed == Range(0, |t.executed|)
    && (forall k :: 0 <= k < |t.history| - 1 ==> !Decides(t.history[k], k, c.budget))
    && (forall k :: 0 <= k < |t.history| ==> t.history[k].recreated ==> Retries(t.history[k]))
    && (match t.phase
        case Ready => t.job == |t.executed| == |t.history| < c.budget && Fate(t.history, c.budget).None?
        case Ended(outcome, _) =>
          && |t.executed| == |t.history| <= c.budget
          && Fate(t.history, c.budget) == Some(outcome)
        case _ =>
          && |t.executed| == |t.history| + 1 == t.job + 1 <= c.budget
          && Fate(t.history, c.budget).None?)
    && (t.phase.Recreating? ==> !AsFailedJob(t.phase.err) && Retryable(t.phase.err))
    && (t.phase.Ended? ==> t.history[|t.history| - 1].result == t.done)
  }

  /** The groups hold distinct containers of this task, are run in order, and none is larger than
      the concurrency limit. */
  ghost predicate InvGroups(c: Config, tc: TaskConfig, t: TaskState) {
    && Distinct(Flatten(t.groups))
    && (forall p :: p in t.subs <==> p in Flatten(t.groups))
    && (forall p :: p in t.subs ==> tc.lo <= p < tc.hi)
    && t.current <= |t.groups|
    && (forall g, i :: 0 <= g < |t.groups| && 0 <= i < |t.groups[g]| ==> t.groups[g][i] in t.subs)
    && (forall g :: 0 <= g < |t.groups| ==> |t.groups[g]| <= Concurrency(c, tc))
    && (t.phase.Handling? || t.current == |t.groups|)
    && (t.current == |t.groups| ==> t.open == [])
    && (t.phase.Launched? ==> t.groups == [] && t.done == [])
  }

  function Concurrency(c: Config, tc: TaskConfig): nat
  {
    var num := if tc.lo <= tc.hi then tc.hi - tc.lo else 0;
    match c.limit
    case None => num
    case Some(l) => ConcurrentNum(l, num)
  }

  /** Barrier: groups before the current one are recorded, groups after it have not started. */
  ghost predicate InvBarrier(t: TaskState) {
    && (forall g, i :: 0 <= g < |t.groups| && g < t.current && 0 <= i < |t.groups[g]| ==>
          t.groups[g][i] in t.subs && t.subs[t.groups[g][i]].Recorded?)
    && (forall g, i :: 0 <= g < |t.groups| && t.current < g && 0 <= i < |t.groups[g]| ==>
          t.groups[g][i] in t.subs && t.subs[t.groups[g][i]].Waiting?)
  }

  /** Each recorded container contributed exactly one result, and a good one. */
  ghost predicate InvResults(c: Config, t: TaskState) {
    && (forall p: nat :: multiset(Containers(Recs(t)))[p] == if p in t.subs && t.subs[p].Recorded? then 1 else 0)
    && (forall i :: 0 <= i < |Recs(t)| ==> Good(c, RunningJob(t), Recs(t)[i]))
    && (forall p :: p in t.subs && (t.subs[p].Executed? || t.subs[p].Flushed? || t.subs[p].Finished?) ==>
          t.subs[p].result.container == p && Good(c, RunningJob(t), t.subs[p].result))
  }

  function FlushedSet(t: TaskState): set<nat> {
    set p | p in t.subs && t.subs[p].Flushed?
  }

  function FinishedSet(t: TaskState): set<nat> {
    set p | p in t.subs && t.subs[p].Finished?
  }

  /** A log group is flushed before progress is counted, and progress is counted before a result is
      recorded. */
  ghost predicate InvCounts(t: TaskState) {
    && t.flushes == t.finishes + |FlushedSet(t)|
    && t.finishes == t.records + |FinishedSet(t)|
    && t.records >= |Recs(t)|
    && (|t.executed| <= 1 ==> t.records == |Recs(t)|)
    && (|t.executed| == 0 ==> t.records == 0)
  }

  ghost predicate TaskInv(c: Config, tc: TaskConfig, t: TaskState) {
    && InvJobs(c, t) && InvGroups(c, tc, t) && InvBarrier(t) && InvResults(c, t) && InvCounts(t)
  }

  /*** Every step of a task keeps its invariant. ***/

  lemma InitialTaskInv(c: Config, tc: TaskConfig)
    requires c.budget >= 1
    ensures TaskInv(c, tc, InitialTask)
  {
    assert FlushedSet(InitialTask) == {} && FinishedSet(InitialTask) == {};
  }

  lemma KeepJobsReturn(c: Config, tc: TaskConfig, t: TaskState, err: Option<RunError>)
    requires InvJobs(c, t) && Enabled(tc, t, Return(err))
    ensures InvJobs(c, Apply(c, tc, t, Return(err)))
  {
    var a := Attempt(t.done, err, false);
    var t' := Apply(c, tc, t, Return(err));
    if !Retries(a) {
      var n := |t.history|;
      assert t'.history[n] == a && Decides(a, n, c.budget);
      assert n > 0 ==> !Decides(t.history[n - 1], n - 1, c.budget);
      assert forall k :: 0 <= k < n ==> t'.history[k] == t.history[k];
    }
  }

  lemma KeepJobsRecreate(c: Config, tc: TaskConfig, t: TaskState, ok: bool)
    requires InvJobs(c, t) && Enabled(tc, t, Recreate(ok))
    ensures InvJobs(c, Apply(c, tc, t, Recreate(ok)))
  {
    var a := Attempt(t.done, Some(t.phase.err), ok);
    var n := |t.history|;
    var t' := Apply(c, tc, t, Recreate(ok));
    assert t'.history[n] == a && Retries(a);
    assert n > 0 ==> !Decides(t.history[n - 1], n - 1, c.budget);
    assert forall k :: 0 <= k < n ==> t'.history[k] == t.history[k];
  }

  lemma KeepJobs(c: Config, tc: TaskConfig, t: TaskState, e: TaskEvent)
    requires InvJobs(c, t) && Enabled(tc, t, e)
    ensures InvJobs(c, Apply(c, tc, t, e))
  {
    match e
    case Return(err) => KeepJobsReturn(c, tc, t, err);
    case Recreate(ok) => KeepJobsRecreate(c, tc, t, ok);
    case _ =>
  }

  /** A subtask that has started and is not recorded belongs to the group at hand. */
  lemma ActiveIsCurrent(c: Config, tc: TaskConfig, t: TaskState, p: nat)
    requires InvGroups(c, tc, t) && InvBarrier(t)
    requires p in t.subs && !t.subs[p].Waiting? && !t.subs[p].Recorded?
    ensures t.phase.Handling? && t.current < |t.groups| && p in t.groups[t.current]
  {
    var g, i := FlattenPosition(t.groups, p);
    assert t.groups[g][i] == p;
  }

  lemma KeepGroupsCall(c: Config, tc: TaskConfig, t: TaskState, execs: seq<nat>)
    requires InvGroups(c, tc, t) && Enabled(tc, t, Call(execs)) && tc.lo <= tc.hi
    ensures InvGroups(c, tc, Apply(c, tc, t, Call(execs)))
  {
    var gs := Plan(c.limit, execs);
    PlanFacts(c, tc, execs);
    forall g, i | 0 <= g < |gs| && 0 <= i < |gs[g]| ensures gs[g][i] in execs {
      InFlatten(gs, g, gs[g][i]);
    }
  }

  lemma PlanFacts(c: Config, tc: TaskConfig, execs: seq<nat>)
    requires Distinct(execs) && tc.lo <= tc.hi && forall x :: x in execs ==> tc.lo <= x < tc.hi
    ensures Flatten(Plan(c.limit, execs)) == execs
    ensures forall g :: 0 <= g < |Plan(c.limit, execs)| ==> |Plan(c.limit, execs)[g]| <= Concurrency(c, tc)
  {
    DistinctInRange(execs, tc.lo, tc.hi);
    match c.limit
    case None => FlattenSnoc([], execs);
    case Some(l) => GroupsPartition(execs, l);
  }

  lemma KeepGroups(c: Config, tc: TaskConfig, t: TaskState, e: TaskEvent)
    requires InvGroups(c, tc, t) && InvBarrier(t) && Enabled(tc, t, e) && tc.lo <= tc.hi
    ensures InvGroups(c, tc, Apply(c, tc, t, e))
  {
    match e
    case Call(execs) => KeepGroupsCall(c, tc, t, execs);
    case Record(p) => ActiveIsCurrent(c, tc, t, p);
    case _ =>
  }

  lemma KeepBarrierStart(c: Config, tc: TaskConfig, t: TaskState, p: nat)
    requires InvGroups(c, tc, t) && InvBarrier(t) && Enabled(tc, t, Start(p))
    ensures InvBarrier(Apply(c, tc, t, Start(p)))
  {
    forall g, i | t.current < g < |t.groups| && 0 <= i < |t.groups[g]| ensures t.groups[g][i] != p {
      var j :| 0 <= j < |t.groups[t.current]| && t.groups[t.current][j] == p;
      FlattenDisjoint(t.groups, t.current, j, g, i);
    }
  }

  lemma KeepBarrier(c: Config, tc: TaskConfig, t: TaskState, e: TaskEvent)
    requires InvGroups(c, tc, t) && InvBarrier(t) && Enabled(tc, t, e) && tc.lo <= tc.hi
    ensures InvBarrier(Apply(c, tc, t, e))
  {
    match e
    case Start(p) => KeepBarrierStart(c, tc, t, p);
    case Call(execs) => KeepGroupsCall(c, tc, t, execs);
    case Close => KeepBarrierClose(c, tc, t);
    case Begin =>
    case _ => KeepBarrierFrame(c, tc, t, e);
  }

  lemma KeepBarrierClose(c: Config, tc: TaskConfig, t: TaskState)
    requires InvBarrier(t) && Enabled(tc, t, Close)
    ensures InvBarrier(Apply(c, tc, t, Close))
  {
    forall i | 0 <= i < |t.groups[t.current]| ensures t.subs[t.groups[t.current][i]].Recorded? {
      assert t.groups[t.current][i] in t.groups[t.current];
    }
  }

  lemma KeepBarrierFrame(c: Config, tc: TaskConfig, t: TaskState, e: TaskEvent)
    requires InvBarrier(t) && Enabled(tc, t, e)
    requires !e.Begin? && !e.Call? && !e.Start? && !e.Close?
    ensures InvBarrier(Apply(c, tc, t, e))
  {
  }

  lemma ContainersSnoc(rs: seq<SubTaskResult>, r: SubTaskResult)
    ensures Containers(rs + [r]) == Containers(rs) + [r.container]
  {
  }

  lemma KeepResultsRecord(c: Config, tc: TaskConfig, t: TaskState, p: nat)
    requires InvResults(c, t) && Enabled(tc, t, Record(p))
    ensures InvResults(c, Apply(c, tc, t, Record(p)))
  {
    var r := t.subs[p].result;
    var t' := Apply(c, tc, t, Record(p));
    assert Recs(t') == Recs(t) + [r];
    ContainersSnoc(Recs(t), r);
    assert multiset(Containers(Recs(t'))) == multiset(Containers(Recs(t))) + multiset{p};
  }

  /** Moving one subtask to a phase that carries a good result, or none. */
  lemma KeepResultsMove(c: Config, t: TaskState, t': TaskState, p: nat, s: SubPhase)
    requires InvResults(c, t) && p in t.subs && !t.subs[p].Recorded? && !s.Recorded?
    requires t'.subs == t.subs[p := s] && t'.done == t.done && t'.open == t.open && t'.executed == t.executed
    requires s.Executed? || s.Flushed? || s.Finished? ==> s.result.container == p && Good(c, RunningJob(t), s.result)
    ensures InvResults(c, t')
  {
    assert Recs(t') == Recs(t);
  }

  /** Steps that leave the subtasks and their results alone. */
  lemma KeepResultsFrame(c: Config, t: TaskState, t': TaskState)
    requires InvResults(c, t)
    requires t'.subs == t.subs && Recs(t') == Recs(t) && t'.executed == t.executed
    ensures InvResults(c, t')
  {
  }

  lemma KeepResultsFresh(c: Config, t': TaskState)
    requires Recs(t') == [] && forall p :: p in t'.subs ==> t'.subs[p].Waiting?
    ensures InvResults(c, t')
  {
  }

  lemma KeepResults(c: Config, tc: TaskConfig, t: TaskState, e: TaskEvent)
    requires InvJobs(c, t) && InvGroups(c, tc, t) && InvBarrier(t) && InvResults(c, t)
    requires Enabled(tc, t, e) && tc.hi <= |c.keys|
    ensures InvResults(c, Apply(c, tc, t, e))
  {
    var t' := Apply(c, tc, t, e);
    match e
    case Record(p) => KeepResultsRecord(c, tc, t, p);
    case Start(p) => KeepResultsMove(c, t, t', p, Running);
    case Exec(p, execErr, copyErr) =>
      ActiveIsCurrent(c, tc, t, p);
      KeepResultsMove(c, t, t', p, Executed(ResultOf(KeyName(c, p), p, t.job, true, execErr, copyErr)));
    case Flush(p) => KeepResultsMove(c, t, t', p, Flushed(t.subs[p].result));
    case Finish(p) => KeepResultsMove(c, t, t', p, Finished(t.subs[p].result));
    case Begin => KeepResultsFresh(c, t');
    case Call(_) => KeepResultsFresh(c, t');
    case _ => KeepResultsOther(c, tc, t, e);
  }

  lemma KeepResultsOther(c: Config, tc: TaskConfig, t: TaskState, e: TaskEvent)
    requires InvResults(c, t) && Enabled(tc, t, e)
    requires e.Close? || e.EndHandler? || e.Return? || e.Recreate? || e.Deliver?
    ensures InvResults(c, Apply(c, tc, t, e))
  {
    FlattenSnoc(t.done, t.open);
    KeepResultsFrame(c, t, Apply(c, tc, t, e));
  }

  lemma KeepCounts(c: Config, tc: TaskConfig, t: TaskState, e: TaskEvent)
    requires InvJobs(c, t) && InvGroups(c, tc, t) && InvBarrier(t) && InvCounts(t) && Enabled(tc, t, e)
    ensures InvCounts(Apply(c, tc, t, e))
  {
    match e
    case Start(_) => KeepCountsSub(c, tc, t, e);
    case Exec(_, _, _) => KeepCountsSub(c, tc, t, e);
    case Flush(_) => KeepCountsSub(c, tc, t, e);
    case Finish(_) => KeepCountsSub(c, tc, t, e);
    case Record(p) => KeepCountsRecord(c, tc, t, p);
    case Begin => KeepCountsBegin(c, tc, t);
    case Call(execs) => KeepCountsCall(c, tc, t, execs);
    case _ => KeepCountsOther(c, tc, t, e);
  }

  lemma KeepCountsSub(c: Config, tc: TaskConfig, t: TaskState, e: TaskEvent)
    requires InvCounts(t) && Enabled(tc, t, e) && (e.Start? || e.Exec? || e.Flush? || e.Finish?)
    ensures InvCounts(Apply(c, tc, t, e))
  {
    KeepCountsMove(t, Apply(c, tc, t, e), e.p);
  }

  lemma KeepCountsOther(c: Config, tc: TaskConfig, t: TaskState, e: TaskEvent)
    requires InvCounts(t) && Enabled(tc, t, e)
    requires e.Close? || e.EndHandler? || e.Return? || e.Recreate? || e.Deliver?
    ensures InvCounts(Apply(c, tc, t, e))
  {
    FlattenSnoc(t.done, t.open);
    KeepCountsFrame(t, Apply(c, tc, t, e));
  }

  lemma KeepCountsRecord(c: Config, tc: TaskConfig, t: TaskState, p: nat)
    requires InvJobs(c, t) && InvGroups(c, tc, t) && InvBarrier(t) && InvCounts(t) && Enabled(tc, t, Record(p))
    ensures InvCounts(Apply(c, tc, t, Record(p)))
  {
    ActiveIsCurrent(c, tc, t, p);
    KeepCountsMove(t, Apply(c, tc, t, Record(p)), p);
  }

  lemma KeepCountsBegin(c: Config, tc: TaskConfig, t: TaskState)
    requires InvGroups(c, tc, t) && InvBarrier(t) && InvCounts(t) && Enabled(tc, t, Begin)
    ensures InvCounts(Apply(c, tc, t, Begin))
  {
    NoneActive(c, tc, t);
    KeepCountsFresh(t, Apply(c, tc, t, Begin));
  }

  lemma KeepCountsCall(c: Config, tc: TaskConfig, t: TaskState, execs: seq<nat>)
    requires InvJobs(c, t) && InvGroups(c, tc, t) && InvBarrier(t) && InvCounts(t) && Enabled(tc, t, Call(execs))
    ensures InvCounts(Apply(c, tc, t, Call(execs)))
  {
    NoneActive(c, tc, t);
    assert Recs(t) == [];
    KeepCountsFresh(t, Apply(c, tc, t, Call(execs)));
  }

  function Weight(b: bool): nat {
    if b then 1 else 0
  }

  lemma SetMove(a: set<nat>, a': set<nat>, p: nat)
    requires a - {p} == a' - {p}
    ensures |a'| - Weight(p in a') == |a| - Weight(p in a)
  {
    assert a == a - {p} + if p in a then {p} else {};
    assert a' == a - {p} + if p in a' then {p} else {};
  }

  /** Moving one subtask p changes both sets by at most p. */
  lemma MoveSets(t: TaskState, t': TaskState, p: nat)
    requires p in t.subs && p in t'.subs && t'.subs == t.subs[p := t'.subs[p]]
    ensures |FlushedSet(t')| - Weight(t'.subs[p].Flushed?) == |FlushedSet(t)| - Weight(t.subs[p].Flushed?)
    ensures |FinishedSet(t')| - Weight(t'.subs[p].Finished?) == |FinishedSet(t)| - Weight(t.subs[p].Finished?)
  {
    SetMove(FlushedSet(t), FlushedSet(t'), p);
    SetMove(FinishedSet(t), FinishedSet(t'), p);
  }

  lemma KeepCountsMove(t: TaskState, t': TaskState, p: nat)
    requires InvCounts(t) && p in t.subs && p in t'.subs && t'.subs == t.subs[p := t'.subs[p]]
    requires t'.executed == t.executed && (t'.records > t.records ==> |t.executed| > 0)
    requires t'.flushes == t.flushes + Weight(t'.subs[p].Flushed?)
    requires t'.finishes == t.finishes + Weight(t'.subs[p].Finished?)
    requires t'.records == t.records + Weight(t'.subs[p].Recorded?)
    requires Weight(t'.subs[p].Finished?) == Weight(t.subs[p].Flushed?)
    requires Weight(t'.subs[p].Recorded?) == Weight(t.subs[p].Finished?)
    requires |Recs(t')| == |Recs(t)| + Weight(t'.subs[p].Recorded?)
    ensures InvCounts(t')
  {
    MoveSets(t, t', p);
  }

  lemma KeepCountsFrame(t: TaskState, t': TaskState)
    requires InvCounts(t) && t'.subs == t.subs && |Recs(t')| == |Recs(t)| && t'.executed == t.executed
    requires t'.flushes == t.flushes && t'.finishes == t.finishes && t'.records == t.records
    ensures InvCounts(t')
  {
    assert FlushedSet(t') == FlushedSet(t) && FinishedSet(t') == FinishedSet(t);
  }

  lemma KeepCountsFresh(t: TaskState, t': TaskState)
    requires InvCounts(t) && FlushedSet(t) == {} && FinishedSet(t) == {}
    requires Recs(t') == [] && forall p :: p in t'.subs ==> t'.subs[p].Waiting?
    requires t'.flushes == t.flushes && t'.finishes == t.finishes && t'.records == t.records
    requires |t'.executed| > 0 && (|t'.executed| == 1 ==> t.records == 0)
    ensures InvCounts(t')
  {
    assert FlushedSet(t') == {} && FinishedSet(t') == {};
  }

  lemma NoneActive(c: Config, tc: TaskConfig, t: TaskState)
    requires InvGroups(c, tc, t) && InvBarrier(t) && !t.phase.Handling?
    ensures FlushedSet(t) == {} && FinishedSet(t) == {}
  {
    forall p | p in t.subs ensures !t.subs[p].Flushed? && !t.subs[p].Finished? {
      if t.subs[p].Flushed? || t.subs[p].Finished? {
        ActiveIsCurrent(c, tc, t, p);
      }
    }
  }

  /** The invariant of a task is inductive. */
  lemma KeepTaskInv(c: Config, tc: TaskConfig, t: TaskState, e: TaskEvent)
    requires TaskInv(c, tc, t) && Enabled(tc, t, e) && tc.lo <= tc.hi <= |c.keys|
    ensures TaskInv(c, tc, Apply(c, tc, t, e))
  {
    KeepJobs(c, tc, t, e);
    KeepGroups(c, tc, t, e);
    KeepBarrier(c, tc, t, e);
    KeepResults(c, tc, t, e);
    KeepCounts(c, tc, t, e);
  }
}
