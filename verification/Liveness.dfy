/** Every run of a step comes to an end: no interleaving goes on forever, and a run that cannot go on
    has made its report or has a task that failed (api/v1/task.go, api/v1/subtask.go). */
module Liveness {
  import opened Wrappers
  import opened Seqs
  import opened Scheduler
  import opened Results
  import opened Retry
  import opened Execution
  import opened Runs
  import opened RunTheorems

  /*** No deadlock. ***/

  function Stepped(c: Config, s: State, i: nat, e: TaskEvent): State
    requires i < |s.tasks| == |c.tasks| && Enabled(c.tasks[i], s.tasks[i], e) && s.counter < WORD
  {
    var counts := e.Finish? && c.limit.Some?;
    var counter := if counts then Add32(s.counter, 1) else s.counter;
    State(s.tasks[i := Apply(c, c.tasks[i], s.tasks[i], e)],
          s.collected + (if e.Deliver? then [Delivery(i, s.tasks[i].phase.outcome.result)] else []),
          s.flushed + (if e.Flush? then [e.p] else []),
          counter, s.printed + (if counts then [counter] else []), None)
  }

  function NextSubEvent(p: nat, sub: SubPhase): TaskEvent
    requires !sub.Recorded?
  {
    match sub
    case Waiting => Start(p)
    case Running => Exec(p, None, None)
    case Executed(_) => Flush(p)
    case Flushed(_) => TaskEvent.Finish(p)
    case Finished(_) => Record(p)
  }

  /** A task that has not ended, or has not delivered its result, can go on. */
  lemma TaskCanGoOn(c: Config, tc: TaskConfig, t: TaskState) returns (e: TaskEvent)
    requires TaskInv(c, tc, t) && !Delivered(t) && (t.phase.Ended? ==> t.phase.outcome.Returned?)
    ensures Enabled(tc, t, e)
  {
    match t.phase
    case Ready => e := Begin;
    case Launched => e := Return(None);
    case Handling => e := HandlerCanGoOn(c, tc, t);
    case Returning => e := Return(None);
    case Recreating(_) => e := Recreate(true);
    case Ended(_, _) => e := Deliver;
  }

  lemma HandlerCanGoOn(c: Config, tc: TaskConfig, t: TaskState) returns (e: TaskEvent)
    requires InvGroups(c, tc, t) && t.phase.Handling?
    ensures Enabled(tc, t, e)
  {
    if t.current == |t.groups| {
      e := EndHandler;
    } else {
      var group := t.groups[t.current];
      if i :| 0 <= i < |group| && !t.subs[group[i]].Recorded? {
        e := NextSubEvent(group[i], t.subs[group[i]]);
      } else {
        e := Close;
      }
    }
  }

  predicate SomeTaskFailed(s: State) {
    exists i :: 0 <= i < |s.tasks| && s.tasks[i].phase.Ended? && !s.tasks[i].phase.outcome.Returned?
  }

  lemma SteppedIsStep(c: Config, s: State, i: nat, e: TaskEvent)
    requires i < |s.tasks| == |c.tasks| && Enabled(c.tasks[i], s.tasks[i], e) && s.counter < WORD && s.report.None?
    ensures Step(c, s, Stepped(c, s, i, e))
  {
    assert TaskStep(c, s, Stepped(c, s, i, e), i, e);
  }

  /** In every reachable state without a report and without a failed task some step is possible. */
  lemma NoDeadlock(c: Config, run: seq<State>, k: nat) returns (s': State)
    requires ValidConfig(c) && IsRun(c, run) && k < |run|
    requires run[k].report.None? && !SomeTaskFailed(run[k])
    ensures Step(c, run[k], s')
  {
    RunInv(c, run, k);
    var s := run[k];
    if i :| 0 <= i < |s.tasks| && !Delivered(s.tasks[i]) {
      assert TaskInv(c, c.tasks[i], s.tasks[i]);
      var e := TaskCanGoOn(c, c.tasks[i], s.tasks[i]);
      s' := Stepped(c, s, i, e);
      SteppedIsStep(c, s, i, e);
    } else {
      s' := s.(report := Some(ReportOf(TotalSubTaskNum(c.tasks), AllOf(ResultsOf(s.collected)))));
      assert ReportStep(c, s, s');
    }
  }

  /*** Every step of a task lowers its rank. ***/

  function Times(k: nat, w: nat): nat {
    if k == 0 then 0 else w + Times(k - 1, w)
  }

  function SubSteps(sub: SubPhase): nat {
    match sub
    case Waiting => 5
    case Running => 4
    case Executed(_) => 3
    case Flushed(_) => 2
    case Finished(_) => 1
    case Recorded => 0
  }

  function StepsLeft(ps: seq<nat>, subs: map<nat, SubPhase>): nat {
    if ps == [] then 0
    else (if ps[0] in subs then SubSteps(subs[ps[0]]) else 0) + StepsLeft(ps[1..], subs)
  }

  function Width(tc: TaskConfig): nat {
    12 + 7 * (if tc.lo <= tc.hi then tc.hi - tc.lo else 0)
  }

  /** Attempts still in the budget, and what is left of the attempt at hand. */
  function Rank(c: Config, tc: TaskConfig, t: TaskState): nat {
    var w := Width(tc);
    var left := if |t.history| <= c.budget then c.budget - |t.history| else 0;
    var before := Times(if left > 0 then left - 1 else 0, w);
    match t.phase
    case Ready => Times(left, w)
    case Launched => before + w - 1
    case Handling =>
      before + 5 + StepsLeft(Flatten(t.groups), t.subs) + (if t.current <= |t.groups| then |t.groups| - t.current else 0)
    case Returning => before + 4
    case Recreating(_) => before + 3
    case Ended(_, delivered) => Times(left, w) + if delivered then 1 else 2
  }

  /** Moving one subtask on lowers what is left to do. */
  lemma {:induction false} StepsLeftMove(ps: seq<nat>, subs: map<nat, SubPhase>, p: nat, next: SubPhase)
    requires p in subs && SubSteps(next) < SubSteps(subs[p])
    ensures StepsLeft(ps, subs[p := next]) <= StepsLeft(ps, subs)
    ensures p in ps ==> StepsLeft(ps, subs[p := next]) < StepsLeft(ps, subs)
  {
    if ps != [] {
      StepsLeftMove(ps[1..], subs, p, next);
    }
  }

  lemma {:induction false} StepsLeftBound(ps: seq<nat>, subs: map<nat, SubPhase>)
    ensures StepsLeft(ps, subs) <= 5 * |ps|
  {
    if ps != [] {
      StepsLeftBound(ps[1..], subs);
    }
  }

  lemma {:induction false} ChunksCount<T>(s: seq<T>, m: nat)
    requires m > 0
    ensures |Chunks(s, m)| <= |s| + 1
    decreases |s|
  {
    if |s| > m {
      ChunksCount(s[m..], m);
    }
  }

  lemma CallRank(c: Config, tc: TaskConfig, t: TaskState, execs: seq<nat>)
    requires tc.lo <= tc.hi && TaskInv(c, tc, t) && Enabled(tc, t, Call(execs))
    ensures Rank(c, tc, Apply(c, tc, t, Call(execs))) < Rank(c, tc, t)
  {
    var t' := Apply(c, tc, t, Call(execs));
    PlanFacts(c, tc, execs);
    DistinctInRange(execs, tc.lo, tc.hi);
    StepsLeftBound(execs, t'.subs);
    assert |t'.groups| <= |execs| + 1 by {
      match c.limit
      case None =>
      case Some(l) =>
        if ConcurrentNum(l, |execs|) > 0 {
          ChunksCount(execs, ConcurrentNum(l, |execs|));
        }
    }
  }

  lemma MoveRank(c: Config, tc: TaskConfig, t: TaskState, t': TaskState, p: nat, next: SubPhase)
    requires t.phase.Handling? && p in t.subs && p in Flatten(t.groups) && SubSteps(next) < SubSteps(t.subs[p])
    requires t'.phase == t.phase && t'.history == t.history && t'.groups == t.groups && t'.current == t.current
    requires t'.subs == t.subs[p := next]
    ensures Rank(c, tc, t') < Rank(c, tc, t)
  {
    StepsLeftMove(Flatten(t.groups), t.subs, p, next);
  }

  lemma SubtaskRank(c: Config, tc: TaskConfig, t: TaskState, e: TaskEvent)
    requires InvGroups(c, tc, t) && InvBarrier(t) && Enabled(tc, t, e)
    requires e.Start? || e.Exec? || e.Flush? || e.Finish? || e.Record?
    ensures Rank(c, tc, Apply(c, tc, t, e)) < Rank(c, tc, t)
  {
    if !e.Start? {
      ActiveIsCurrent(c, tc, t, e.p);
    }
    MoveRank(c, tc, t, Apply(c, tc, t, e), e.p, Apply(c, tc, t, e).subs[e.p]);
  }

  lemma AttemptsLeft(c: Config, tc: TaskConfig, t: TaskState)
    requires TaskInv(c, tc, t) && !t.phase.Ended?
    ensures |t.history| < c.budget
  {
  }

  lemma PhaseRank(c: Config, tc: TaskConfig, t: TaskState, e: TaskEvent)
    requires Enabled(tc, t, e) && t.current <= |t.groups| && (!t.phase.Ended? ==> |t.history| < c.budget)
    requires e.Begin? || e.Close? || e.EndHandler? || e.Return? || e.Recreate? || e.Deliver?
    ensures Rank(c, tc, Apply(c, tc, t, e)) < Rank(c, tc, t)
  {
  }

  lemma RankFalls(c: Config, tc: TaskConfig, t: TaskState, e: TaskEvent)
    requires tc.lo <= tc.hi && TaskInv(c, tc, t) && Enabled(tc, t, e)
    ensures Rank(c, tc, Apply(c, tc, t, e)) < Rank(c, tc, t)
  {
    if e.Call? {
      CallRank(c, tc, t, e.execs);
    } else if e.Start? || e.Exec? || e.Flush? || e.Finish? || e.Record? {
      SubtaskRank(c, tc, t, e);
    } else {
      if !t.phase.Ended? {
        AttemptsLeft(c, tc, t);
      }
      PhaseRank(c, tc, t, e);
    }
  }

  /*** Whole runs. ***/

  function Ranks(c: Config, s: State): (ns: seq<nat>)
    requires |s.tasks| == |c.tasks|
    ensures |ns| == |s.tasks|
  {
    seq(|s.tasks|, i requires 0 <= i < |s.tasks| => Rank(c, c.tasks[i], s.tasks[i]))
  }

  function RunRank(c: Config, s: State): nat
    requires |s.tasks| == |c.tasks|
  {
    Sum(Ranks(c, s)) + if s.report.None? then 1 else 0
  }

  lemma TaskStepFalls(c: Config, s: State, s': State, i: nat, e: TaskEvent)
    requires ValidConfig(c) && Reachable(c, s) && TaskStep(c, s, s', i, e)
    ensures RunRank(c, s') < RunRank(c, s)
  {
    ReachableInv(c, s);
    ContiguousFacts(c.tasks, 0, |c.keys|);
    RankFalls(c, c.tasks[i], s.tasks[i], e);
    RanksUpdate(c, s, s', i, Apply(c, c.tasks[i], s.tasks[i], e));
  }

  lemma RanksUpdate(c: Config, s: State, s': State, i: nat, t': TaskState)
    requires i < |s.tasks| == |c.tasks| && s'.tasks == s.tasks[i := t'] && s.report.None? && s'.report.None?
    requires Rank(c, c.tasks[i], t') < Rank(c, c.tasks[i], s.tasks[i])
    ensures RunRank(c, s') < RunRank(c, s)
  {
    var rank := Rank(c, c.tasks[i], t');
    assert Ranks(c, s') == Ranks(c, s)[i := rank];
    SumUpdate(Ranks(c, s), i, rank);
  }

  lemma StepFalls(c: Config, s: State, s': State)
    requires ValidConfig(c) && Reachable(c, s) && |s.tasks| == |s'.tasks| == |c.tasks| && Step(c, s, s')
    ensures RunRank(c, s') < RunRank(c, s)
  {
    if ReportStep(c, s, s') {
      assert Ranks(c, s') == Ranks(c, s);
    } else {
      var i, e :| TaskStep(c, s, s', i, e);
      TaskStepFalls(c, s, s', i, e);
    }
  }

  /** A bound on the length of every run, from the limits of the configuration alone: per task, the
      budget of attempts times a few steps per container. */
  function StepBound(c: Config): nat {
    Sum(seq(|c.tasks|, i requires 0 <= i < |c.tasks| => Times(c.budget, Width(c.tasks[i])))) + 1
  }

  lemma InitialRank(c: Config, s: State)
    requires Init(c, s)
    ensures |s.tasks| == |c.tasks| && RunRank(c, s) == StepBound(c)
  {
    assert Ranks(c, s) == seq(|c.tasks|, i requires 0 <= i < |c.tasks| => Times(c.budget, Width(c.tasks[i])));
  }

  lemma ReachableStepFalls(c: Config, run: seq<State>, k: nat)
    requires ValidConfig(c) && IsRun(c, run) && k + 1 < |run|
    ensures |run[k].tasks| == |run[k + 1].tasks| == |c.tasks| && RunRank(c, run[k + 1]) < RunRank(c, run[k])
  {
    RunInv(c, run, k);
    RunInv(c, run, k + 1);
    ReachableAt(c, run, k);
    StepFalls(c, run[k], run[k + 1]);
  }

  /** Every run ends, whatever the interleaving, the errors and the retries. */
  lemma {:induction false} EveryRunEnds(c: Config, run: seq<State>, k: nat)
    requires ValidConfig(c) && IsRun(c, run) && k < |run|
    ensures |run[k].tasks| == |c.tasks| && k + RunRank(c, run[k]) <= StepBound(c)
    decreases k
  {
    if k == 0 {
      InitialRank(c, run[0]);
    } else {
      EveryRunEnds(c, run, k - 1);
      ReachableStepFalls(c, run, k - 1);
    }
  }

  ghost predicate CanGoOn(c: Config, s: State) {
    exists s' :: Step(c, s, s')
  }

  /** A run has at most so many states, and one that cannot go on has made its report or has a failed
      task. */
  lemma RunsComplete(c: Config, run: seq<State>)
    requires ValidConfig(c) && IsRun(c, run)
    ensures |run| <= StepBound(c) + 1
    ensures !CanGoOn(c, run[|run| - 1]) ==> run[|run| - 1].report.Some? || SomeTaskFailed(run[|run| - 1])
  {
    var last := |run| - 1;
    EveryRunEnds(c, run, last);
    if run[last].report.None? && !SomeTaskFailed(run[last]) {
      var s' := NoDeadlock(c, run, last);
    }
  }

  /*** Concurrency. ***/

  /** Task i is about to run a group of which the first j subtasks are running and no other started. */
  predicate StartedTo(s: State, i: nat, j: nat) {
    && s.report.None? && i < |s.tasks|
    && var t := s.tasks[i];
      && t.phase.Handling? && t.current < |t.groups| && j <= |t.groups[t.current]|
      && forall x :: 0 <= x < |t.groups[t.current]| ==>
           var p := t.groups[t.current][x];
           p in t.subs && (if x < j then t.subs[p].Running? else t.subs[p].Waiting?)
  }

  lemma {:induction false} GroupDistinct(groups: seq<seq<nat>>, g: nat)
    requires Distinct(Flatten(groups)) && g < |groups|
    ensures Distinct(groups[g])
    decreases g
  {
    var rest, all := Flatten(groups[1..]), Flatten(groups);
    assert all == groups[0] + rest;
    if g == 0 {
      assert all[..|groups[0]|] == groups[0];
    } else {
      assert all[|groups[0]|..] == rest;
      GroupDistinct(groups[1..], g - 1);
    }
  }

  lemma StartNext(c: Config, run: seq<State>, i: nat, j: nat) returns (s': State)
    requires ValidConfig(c) && IsRun(c, run) && StartedTo(run[|run| - 1], i, j)
    requires j < |run[|run| - 1].tasks[i].groups[run[|run| - 1].tasks[i].current]|
    ensures Step(c, run[|run| - 1], s') && StartedTo(s', i, j + 1)
    ensures s'.tasks[i].groups == run[|run| - 1].tasks[i].groups && s'.tasks[i].current == run[|run| - 1].tasks[i].current
  {
    var s := run[|run| - 1];
    RunInv(c, run, |run| - 1);
    var t := s.tasks[i];
    var e := Start(t.groups[t.current][j]);
    assert TaskInv(c, c.tasks[i], t);
    GroupDistinct(t.groups, t.current);
    s' := Stepped(c, s, i, e);
    SteppedIsStep(c, s, i, e);
  }

  lemma RunSnoc(c: Config, run: seq<State>, s': State)
    requires IsRun(c, run) && Step(c, run[|run| - 1], s')
    ensures IsRun(c, run + [s'])
  {
    var longer := run + [s'];
    forall k | 0 <= k < |longer| - 1 ensures Step(c, longer[k], longer[k + 1]) {
      if k < |run| - 1 {
        assert Step(c, run[k], run[k + 1]);
      }
    }
  }

  lemma {:induction false} StartRest(c: Config, run: seq<State>, i: nat, j: nat) returns (more: seq<State>)
    requires ValidConfig(c) && IsRun(c, run) && StartedTo(run[|run| - 1], i, j)
    ensures IsRun(c, run + more)
    ensures var s, s' := run[|run| - 1], (run + more)[|run + more| - 1];
      && i < |s'.tasks| && s'.tasks[i].groups == s.tasks[i].groups && s'.tasks[i].current == s.tasks[i].current
      && StartedTo(s', i, |s.tasks[i].groups[s.tasks[i].current]|)
    decreases |run[|run| - 1].tasks[i].groups[run[|run| - 1].tasks[i].current]| - j
  {
    var t := run[|run| - 1].tasks[i];
    if j == |t.groups[t.current]| {
      more := [];
      assert run + more == run;
    } else {
      var s' := StartNext(c, run, i, j);
      RunSnoc(c, run, s');
      var rest := StartRest(c, run + [s'], i, j + 1);
      more := [s'] + rest;
      assert run + more == run + [s'] + rest;
    }
  }

  lemma {:induction false} ElementsCount(s: seq<nat>)
    requires Distinct(s)
    ensures |Elements(s)| == |s|
  {
    if s != [] {
      ElementsFacts(s[1..]);
      ElementsCount(s[1..]);
      assert s[0] !in s[1..];
    }
  }

  /** The limit is attained: from every reachable state in which a group is due, its subtasks can all be
      running at once, without any of them having ended. */
  lemma WholeGroupRuns(c: Config, run: seq<State>, i: nat) returns (more: seq<State>)
    requires ValidConfig(c) && IsRun(c, run) && StartedTo(run[|run| - 1], i, 0)
    ensures IsRun(c, run + more)
    ensures var s, s' := run[|run| - 1], (run + more)[|run + more| - 1];
      && i < |s'.tasks| && s'.tasks[i].groups == s.tasks[i].groups && s'.tasks[i].current == s.tasks[i].current
      && |InFlight(s'.tasks[i])| == |s.tasks[i].groups[s.tasks[i].current]|
  {
    more := StartRest(c, run, i, 0);
    AllInFlight(c, run + more, i);
  }

  lemma AllInFlight(c: Config, run: seq<State>, i: nat)
    requires ValidConfig(c) && IsRun(c, run)
    requires var s := run[|run| - 1];
      && i < |s.tasks| && s.tasks[i].current < |s.tasks[i].groups|
      && StartedTo(s, i, |s.tasks[i].groups[s.tasks[i].current]|)
    ensures |InFlight(run[|run| - 1].tasks[i])| == |run[|run| - 1].tasks[i].groups[run[|run| - 1].tasks[i].current]|
  {
    var t := run[|run| - 1].tasks[i];
    RunInv(c, run, |run| - 1);
    assert TaskInv(c, c.tasks[i], t);
    var group := t.groups[t.current];
    forall p | p in InFlight(t) ensures p in group {
      ActiveIsCurrent(c, c.tasks[i], t, p);
    }
    ElementsFacts(group);
    GroupDistinct(t.groups, t.current);
    ElementsCount(group);
    assert InFlight(t) == Elements(group);
  }
}
