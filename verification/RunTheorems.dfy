/** What holds of every run of a step: the report, the barrier between groups, the concurrency
    limit, the progress counter and the retries. */
module RunTheorems {
  import opened Wrappers
  import opened Seqs
  import opened Scheduler
  import opened Results
  import opened Retry
  import opened Execution
  import opened Runs

  /*** The report. ***/

  lemma {:induction false} CollectedFrom(ds: seq<Delivery>, x: SubTaskResult) returns (k: nat)
    requires x in AllOf(ResultsOf(ds))
    ensures k < |ds| && x in Flatten(ds[k].result)
    decreases |ds|
  {
    assert ds == [] ==> ResultsOf(ds) == [];
    var n := |ds| - 1;
    assert ds == ds[..n] + [ds[n]];
    AllOfSnoc(ds[..n], ds[n]);
    if x in Flatten(ds[n].result) {
      k := n;
    } else {
      k := CollectedFrom(ds[..n], x);
    }
  }

  lemma {:induction false} CollectedTo(ds: seq<Delivery>, k: nat, x: SubTaskResult)
    requires k < |ds| && x in Flatten(ds[k].result)
    ensures x in AllOf(ResultsOf(ds))
    decreases |ds|
  {
    var n := |ds| - 1;
    assert ds == ds[..n] + [ds[n]];
    AllOfSnoc(ds[..n], ds[n]);
    if k < n {
      CollectedTo(ds[..n], k, x);
    }
  }

  function Collected(s: State): seq<SubTaskResult> {
    AllOf(ResultsOf(s.collected))
  }

  /** Every collected result is a good one of the last job of its task. */
  lemma CollectedGood(c: Config, s: State, r: SubTaskResult) returns (i: nat)
    requires ValidConfig(c) && Reachable(c, s) && r in Collected(s)
    ensures i < |s.tasks| && r in LastResults(s.tasks[i])
    ensures s.tasks[i].phase.Ended? && s.tasks[i].phase.outcome.Returned?
    ensures Good(c, RunningJob(s.tasks[i]), r)
  {
    ReachableInv(c, s);
    var k := CollectedFrom(s.collected, r);
    i := s.collected[k].owner;
    EndedResults(c, s, i);
    assert TaskInv(c, c.tasks[i], s.tasks[i]);
    var rs := Recs(s.tasks[i]);
    var j :| 0 <= j < |rs| && rs[j] == r;
    assert Good(c, RunningJob(s.tasks[i]), rs[j]);
  }

  lemma PositionBound(c: Config, ds: seq<Delivery>, p: nat)
    requires Contiguous(c.tasks, 0, |c.keys|) && OwnResults(c, ds)
    ensures Occurrences(AllOf(ResultsOf(ds)), p) <= if p < |c.keys| then 1 else 0
  {
    ContiguousFacts(c.tasks, 0, |c.keys|);
    if k :| 0 <= k < |ds| && c.tasks[ds[k].owner].lo <= p < c.tasks[ds[k].owner].hi {
      OwnPosition(c, ds, k, p);
      assert Occurrences(Flatten(ds[k].result), p) <= 1;
    } else {
      ForeignPosition(c, ds, p);
    }
  }

  /** Results at most one per position below n. */
  lemma PositionsFit(n: nat, rs: seq<SubTaskResult>)
    requires forall p: nat :: Occurrences(rs, p) <= if p < n then 1 else 0
    ensures multiset(Containers(rs)) <= multiset(Range(0, n))
    ensures Distinct(Containers(rs)) && |rs| <= n
    ensures |rs| == n <==> forall p: nat :: p < n ==> Occurrences(rs, p) == 1
  {
    var found: multiset<nat> := multiset(Containers(rs));
    var range: multiset<nat> := multiset(Range(0, n));
    RangeMultiplicity(n);
    forall p: nat ensures found[p] <= range[p] && found[p] <= 1 {
      assert Occurrences(rs, p) <= if p < n then 1 else 0;
    }
    DistinctMultiplicity(Containers(rs));
    MultisetSubsetSize(found, range);
    if forall p: nat :: p < n ==> Occurrences(rs, p) == 1 {
      forall p: nat ensures range[p] <= found[p] {
        assert p < n ==> Occurrences(rs, p) == 1;
      }
      MultisetSubsetSize(range, found);
    }
  }

  /** No key occurrence is reported twice, and none that does not exist. */
  lemma CollectedPositions(c: Config, s: State)
    requires ValidConfig(c) && Reachable(c, s)
    ensures Distinct(Containers(Collected(s)))
    ensures |Collected(s)| <= |c.keys|
    ensures |Collected(s)| == |c.keys| <==> forall p: nat :: p < |c.keys| ==> Occurrences(Collected(s), p) == 1
  {
    PositionsBounded(c, s);
    PositionsFit(|c.keys|, Collected(s));
  }

  lemma PositionsBounded(c: Config, s: State)
    requires ValidConfig(c) && Reachable(c, s)
    ensures forall p: nat :: Occurrences(Collected(s), p) <= if p < |c.keys| then 1 else 0
  {
    ReachableInv(c, s);
    CollectedOwn(c, s);
    forall p: nat ensures Occurrences(Collected(s), p) <= if p < |c.keys| then 1 else 0 {
      PositionBound(c, s.collected, p);
    }
  }

  lemma CollectedNames(c: Config, s: State)
    requires ValidConfig(c) && Reachable(c, s)
    ensures multiset(Names(Details(Collected(s)))) <= multiset(c.keys)
  {
    ReachableInv(c, s);
    var rs := Collected(s);
    var ps := Containers(rs);
    CollectedPositions(c, s);
    forall i | 0 <= i < |rs| ensures ps[i] < |c.keys| && rs[i].name == c.keys[ps[i]] {
      var o := CollectedGood(c, s, rs[i]);
    }
    SelectDistinct(c.keys, ps);
    assert Names(Details(rs)) == Select(c.keys, ps);
  }

  /** Every key occurrence of every task has exactly one result in the task's last attempt, and none
      of those results carries an execution or artifact error. */
  ghost predicate AllSucceeded(c: Config, s: State) {
    forall i :: 0 <= i < |s.tasks| && i < |c.tasks| ==>
      && Clean(LastResults(s.tasks[i]))
      && forall p: nat :: c.tasks[i].lo <= p < c.tasks[i].hi ==> Occurrences(LastResults(s.tasks[i]), p) == 1
  }

  lemma OccurrenceInTask(c: Config, s: State, i: nat, p: nat)
    requires ValidConfig(c) && Reachable(c, s) && i < |s.tasks| == |c.tasks| && Delivered(s.tasks[i])
    requires c.tasks[i].lo <= p < c.tasks[i].hi
    ensures Occurrences(Collected(s), p) == Occurrences(LastResults(s.tasks[i]), p)
  {
    ReachableInv(c, s);
    var k :| 0 <= k < |s.collected| && s.collected[k].owner == i;
    CollectedOwn(c, s);
    OwnPosition(c, s.collected, k, p);
    EndedResults(c, s, i);
  }

  lemma AllSucceededThenComplete(c: Config, s: State)
    requires ValidConfig(c) && Reachable(c, s) && s.report.Some? && AllSucceeded(c, s)
    ensures |Collected(s)| == |c.keys| && Clean(Collected(s))
  {
    ReachableInv(c, s);
    CollectedPositions(c, s);
    forall p: nat | p < |c.keys| ensures Occurrences(Collected(s), p) == 1 {
      var i := ContiguousOwner(c.tasks, 0, |c.keys|, p);
      OccurrenceInTask(c, s, i, p);
    }
    forall j | 0 <= j < |Collected(s)| ensures Collected(s)[j].Error().None? {
      var i := CollectedGood(c, s, Collected(s)[j]);
      assert Clean(LastResults(s.tasks[i]));
    }
  }

  lemma CompleteThenAllSucceeded(c: Config, s: State)
    requires ValidConfig(c) && Reachable(c, s) && s.report.Some?
    requires |Collected(s)| == |c.keys| && Clean(Collected(s))
    ensures AllSucceeded(c, s)
  {
    ReachableInv(c, s);
    CollectedPositions(c, s);
    ContiguousFacts(c.tasks, 0, |c.keys|);
    forall i | 0 <= i < |s.tasks|
      ensures Clean(LastResults(s.tasks[i]))
      ensures forall p: nat :: c.tasks[i].lo <= p < c.tasks[i].hi ==> Occurrences(LastResults(s.tasks[i]), p) == 1
    {
      DeliveredClean(c, s, i);
      forall p: nat | c.tasks[i].lo <= p < c.tasks[i].hi ensures Occurrences(LastResults(s.tasks[i]), p) == 1 {
        OccurrenceInTask(c, s, i, p);
      }
    }
  }

  lemma DeliveredClean(c: Config, s: State, i: nat)
    requires ValidConfig(c) && Reachable(c, s) && i < |s.tasks| && Delivered(s.tasks[i]) && Clean(Collected(s))
    ensures Clean(LastResults(s.tasks[i]))
  {
    ReachableInv(c, s);
    var k :| 0 <= k < |s.collected| && s.collected[k].owner == i;
    EndedResults(c, s, i);
    var rs := LastResults(s.tasks[i]);
    forall j | 0 <= j < |rs| ensures rs[j].Error().None? {
      CollectedTo(s.collected, k, rs[j]);
    }
  }

  /** The report of a finished run, whatever the interleaving, the errors and the retries.  Its total
      is the number of keys and splits into successes, failures and unknowns; every detail is one
      key occurrence and says success exactly when its result carries no error; and the report says
      success exactly when every key occurrence has one result in its task's last attempt and none
      of them failed, that is, when nothing is unknown and every detail says success. */
  lemma WholeRunReport(c: Config, run: seq<State>)
    requires ValidConfig(c) && IsRun(c, run) && run[|run| - 1].report.Some?
    ensures var s := run[|run| - 1]; var rep := s.report.value;
      && rep.totalNum == |c.keys| == rep.successNum + rep.failureNum + rep.unknownNum
      && rep.successNum >= 0 && rep.failureNum >= 0 && rep.unknownNum >= 0
      && |rep.details| == rep.successNum + rep.failureNum
      && multiset(Names(rep.details)) <= multiset(c.keys)
      && (rep.status == Success <==> AllSucceeded(c, s))
      && (rep.status == Error <==> rep.unknownNum > 0)
      && Tell(rep.details, Collected(s))
      && rep.successNum == DetailNum(rep.details, Success) && rep.failureNum == DetailNum(rep.details, Failure)
      && (rep.status == Success <==> rep.unknownNum == 0 && forall d :: d in rep.details ==> d.status == Success)
  {
    var s := run[|run| - 1];
    assert Reachable(c, s);
    ReportIs(c, s);
    CollectedPositions(c, s);
    CollectedNames(c, s);
    SuccessExactly(c, s);
    ReportMeaning(|c.keys|, Collected(s));
    DetailsMeaning(|c.keys|, Collected(s));
  }

  lemma ReportIs(c: Config, s: State)
    requires ValidConfig(c) && Reachable(c, s) && s.report.Some?
    ensures s.report.value == ReportOf(|c.keys|, Collected(s))
    ensures forall r :: r in Collected(s) ==> Consistent(r)
  {
    ReportMade(c, s);
    forall r | r in Collected(s) ensures Consistent(r) {
      var i := CollectedGood(c, s, r);
    }
  }

  lemma ReportMade(c: Config, s: State)
    requires ValidConfig(c) && Reachable(c, s) && s.report.Some?
    ensures s.report.value == ReportOf(|c.keys|, Collected(s))
  {
    TotalIsKeys(c);
    assert InvReport(c, s) by {
      ReachableInv(c, s);
    }
  }

  lemma TotalIsKeys(c: Config)
    requires ValidConfig(c)
    ensures TotalSubTaskNum(c.tasks) == |c.keys|
  {
    ContiguousFacts(c.tasks, 0, |c.keys|);
  }

  lemma SuccessExactly(c: Config, s: State)
    requires ValidConfig(c) && Reachable(c, s) && s.report.Some?
    ensures AllSucceeded(c, s) <==>
            |Collected(s)| == |c.keys| && forall r :: r in Collected(s) ==> r.Error().None?
  {
    var rs := Collected(s);
    if AllSucceeded(c, s) {
      AllSucceededThenComplete(c, s);
    }
    assert Clean(rs) <==> forall r :: r in rs ==> r.Error().None?;
    if |rs| == |c.keys| && Clean(rs) {
      CompleteThenAllSucceeded(c, s);
    }
  }

  /** Nothing of an attempt that was retried reaches the report: a reported result was produced by
      the last job its task executed. */
  lemma ReportedFromLastJob(c: Config, run: seq<State>, r: SubTaskResult)
    requires ValidConfig(c) && IsRun(c, run) && run[|run| - 1].report.Some?
    requires r in Collected(run[|run| - 1])
    ensures exists i :: 0 <= i < |c.tasks| && i < |run[|run| - 1].tasks| && c.tasks[i].lo <= r.container < c.tasks[i].hi
              && r.job == |run[|run| - 1].tasks[i].executed| - 1
              && r in LastResults(run[|run| - 1].tasks[i])
  {
    var s := run[|run| - 1];
    assert Reachable(c, s);
    var i := CollectedGood(c, s, r);
    LastJobResult(c, s, i, r);
  }

  lemma LastJobResult(c: Config, s: State, i: nat, r: SubTaskResult)
    requires ValidConfig(c) && Reachable(c, s) && i < |s.tasks|
    requires s.tasks[i].phase.Ended? && s.tasks[i].phase.outcome.Returned?
    requires r in LastResults(s.tasks[i]) && Good(c, RunningJob(s.tasks[i]), r)
    ensures |s.tasks| == |c.tasks| && c.tasks[i].lo <= r.container < c.tasks[i].hi
    ensures r.job == |s.tasks[i].executed| - 1
  {
    var t := s.tasks[i];
    EndedResults(c, s, i);
    ReachableInv(c, s);
    assert TaskInv(c, c.tasks[i], t);
    RecordedInTask(c, c.tasks[i], t, r);
    assert |t.executed| == |t.history| > 0;
  }

  lemma RecordedInTask(c: Config, tc: TaskConfig, t: TaskState, r: SubTaskResult)
    requires TaskInv(c, tc, t) && r in Recs(t)
    ensures tc.lo <= r.container < tc.hi
  {
    var rs := Recs(t);
    var j :| 0 <= j < |rs| && rs[j] == r;
    assert Containers(rs)[j] == r.container;
    assert multiset(Containers(rs))[r.container] > 0;
  }

  /*** Barrier and concurrency. ***/

  function InFlight(t: TaskState): set<nat> {
    set p | p in t.subs && !t.subs[p].Waiting? && !t.subs[p].Recorded?
  }

  /** In every reachable state: once a subtask of a later group has started, every subtask of an
      earlier group has been recorded; and a task never has more main subtasks in flight than the
      per-pod limit or than it has main containers. */
  lemma BarrierAndConcurrency(c: Config, run: seq<State>, k: nat, i: nat)
    requires ValidConfig(c) && IsRun(c, run) && k < |run| && i < |c.tasks|
    ensures |run[k].tasks| == |c.tasks|
    ensures var t := run[k].tasks[i];
      && (forall g, h, x, y | 0 <= g < h < |t.groups| && 0 <= x < |t.groups[g]| && 0 <= y < |t.groups[h]| ::
            t.groups[h][y] in t.subs && t.groups[g][x] in t.subs
            && (t.subs[t.groups[h][y]].Waiting? || t.subs[t.groups[g][x]].Recorded?))
      && |InFlight(t)| <= c.tasks[i].hi - c.tasks[i].lo
      && (c.limit.Some? && c.limit.value > 0 ==> |InFlight(t)| <= c.limit.value)
  {
    RunInv(c, run, k);
    var t, tc := run[k].tasks[i], c.tasks[i];
    assert TaskInv(c, tc, t);
    ContiguousFacts(c.tasks, 0, |c.keys|);
    InFlightBound(c, tc, t);
  }

  /** The groups of a task are a full split of the containers its handler was called for: with a limit
      of l per pod all groups but the last have exactly l members. */
  predicate FullGroups(limit: Option<int>, groups: seq<seq<nat>>) {
    groups == [] ||
    match limit
    case None => groups == [Flatten(groups)]
    case Some(l) => GroupedBy(groups, Flatten(groups), l)
  }

  lemma PlanIsFull(limit: Option<int>, execs: seq<nat>)
    ensures FullGroups(limit, Plan(limit, execs))
  {
    match limit
    case None =>
      FlattenSnoc([], execs);
      assert Flatten<nat>([]) + execs == execs && [] + [execs] == [execs];
    case Some(l) =>
      GroupsPartition(execs, l);
  }

  lemma KeepFullGroups(c: Config, tc: TaskConfig, t: TaskState, e: TaskEvent)
    requires FullGroups(c.limit, t.groups) && Enabled(tc, t, e)
    ensures FullGroups(c.limit, Apply(c, tc, t, e).groups)
  {
    if e.Call? {
      PlanIsFull(c.limit, e.execs);
    }
  }

  /** The limit is used up: in every reachable state the groups of every task are full. */
  lemma {:induction false} GroupsAreFull(c: Config, run: seq<State>, k: nat, i: nat)
    requires IsRun(c, run) && k < |run| && i < |run[k].tasks|
    ensures FullGroups(c.limit, run[k].tasks[i].groups)
    decreases k
  {
    if k > 0 {
      assert Step(c, run[k - 1], run[k - 1 + 1]);
      if i < |run[k - 1].tasks| {
        GroupsAreFull(c, run, k - 1, i);
      }
      StepFullGroups(c, run[k - 1], run[k], i);
    }
  }

  lemma StepFullGroups(c: Config, s: State, s': State, i: nat)
    requires Step(c, s, s') && i < |s'.tasks|
    requires i < |s.tasks| ==> FullGroups(c.limit, s.tasks[i].groups)
    ensures FullGroups(c.limit, s'.tasks[i].groups)
  {
    if !ReportStep(c, s, s') {
      var l, e :| TaskStep(c, s, s', l, e);
      if l == i {
        KeepFullGroups(c, c.tasks[i], s.tasks[i], e);
      }
    }
  }

  function Elements(s: seq<nat>): set<nat> {
    if s == [] then {} else Elements(s[1..]) + {s[0]}
  }

  lemma {:induction false} ElementsFacts(s: seq<nat>)
    ensures |Elements(s)| <= |s|
    ensures forall x :: x in s <==> x in Elements(s)
  {
    if s != [] {
      var rest := Elements(s[1..]);
      ElementsFacts(s[1..]);
      assert s[0] in rest ==> Elements(s) == rest;
    }
  }

  lemma SubsetSize(a: set<nat>, b: set<nat>)
    requires a <= b
    ensures |a| <= |b|
  {
    assert b == a + (b - a);
  }

  lemma InFlightBound(c: Config, tc: TaskConfig, t: TaskState)
    requires TaskInv(c, tc, t) && tc.lo <= tc.hi
    ensures |InFlight(t)| <= Concurrency(c, tc)
  {
    if InFlight(t) == {} {
    } else {
      var q :| q in InFlight(t);
      ActiveIsCurrent(c, tc, t, q);
      var group := t.groups[t.current];
      forall p | p in InFlight(t) ensures p in group {
        ActiveIsCurrent(c, tc, t, p);
      }
      ElementsFacts(group);
      SubsetSize(InFlight(t), Elements(group));
    }
  }

  /** A subtask starts only when every subtask of every earlier group of its attempt is recorded. */
  lemma StartAfterEarlierGroups(c: Config, run: seq<State>, k: nat, i: nat, p: nat, g: nat, x: nat)
    requires ValidConfig(c) && IsRun(c, run) && k + 1 < |run|
    requires TaskStep(c, run[k], run[k + 1], i, Start(p))
    requires g < run[k].tasks[i].current && x < |run[k].tasks[i].groups[g]|
    ensures run[k].tasks[i].groups[g][x] in run[k].tasks[i].subs
    ensures run[k].tasks[i].subs[run[k].tasks[i].groups[g][x]].Recorded?
  {
    RunInv(c, run, k);
    assert TaskInv(c, c.tasks[i], run[k].tasks[i]);
  }

  /*** The progress counter. ***/

  function Records(ts: seq<TaskState>): (ns: seq<nat>)
    ensures |ns| == |ts|
  {
    seq(|ts|, i requires 0 <= i < |ts| => ts[i].records)
  }

  lemma {:induction false} SumMonotone(a: seq<nat>, b: seq<nat>)
    requires |a| == |b| && forall i :: 0 <= i < |a| ==> a[i] <= b[i]
    ensures Sum(a) <= Sum(b)
  {
    if a != [] {
      SumMonotone(a[1..], b[1..]);
    }
  }

  /** In every reachable state of a strategy run the callback has printed 1, 2, 3, ... (modulo 2^32)
      without gaps or repetitions; before a value is printed at least as many log groups were
      flushed, and no more results were recorded than values printed. */
  lemma ProgressCounter(c: Config, run: seq<State>, k: nat)
    requires ValidConfig(c) && IsRun(c, run) && k < |run| && c.limit.Some?
    ensures forall j :: 0 <= j < |run[k].printed| ==> run[k].printed[j] == (j + 1) % WORD
    ensures run[k].counter == |run[k].printed| % WORD
    ensures |run[k].printed| == Sum(Finishes(run[k].tasks))
    ensures |run[k].printed| <= |run[k].flushed|
    ensures Sum(Records(run[k].tasks)) <= |run[k].printed|
  {
    RunInv(c, run, k);
    var s := run[k];
    CounterWraps(|s.printed|);
    forall j | 0 <= j < |s.printed| ensures s.printed[j] == (j + 1) % WORD {
      CounterWraps(j + 1);
    }
    forall i | 0 <= i < |s.tasks| ensures s.tasks[i].records <= s.tasks[i].finishes <= s.tasks[i].flushes {
      assert TaskInv(c, c.tasks[i], s.tasks[i]);
    }
    SumMonotone(Finishes(s.tasks), Flushes(s.tasks));
    SumMonotone(Records(s.tasks), Finishes(s.tasks));
  }

  /** A task whose last attempt holds one result per position holds as many results as positions. */
  lemma FullTask(c: Config, tc: TaskConfig, t: TaskState)
    requires TaskInv(c, tc, t) && tc.lo <= tc.hi
    requires forall p: nat :: tc.lo <= p < tc.hi ==> Occurrences(Recs(t), p) == 1
    ensures |Recs(t)| == tc.hi - tc.lo
  {
    var found: multiset<nat> := multiset(Containers(Recs(t)));
    var r := Range(tc.lo, tc.hi);
    var range: multiset<nat> := multiset(r);
    DistinctMultiplicity(r);
    forall p: nat ensures found[p] == range[p] {
      if tc.lo <= p < tc.hi {
        assert Occurrences(Recs(t), p) == 1;
        assert r[p - tc.lo] == p;
      } else {
        assert p !in r;
      }
    }
    MultisetSubsetSize(found, range);
    MultisetSubsetSize(range, found);
  }

  lemma {:induction false} SumOfRanges(tasks: seq<TaskConfig>, from: nat, n: nat, ns: seq<nat>)
    requires Contiguous(tasks, from, n) && |ns| == |tasks|
    requires forall i :: 0 <= i < |ns| ==> ns[i] == tasks[i].hi - tasks[i].lo
    ensures Sum(ns) == n - from
  {
    if tasks != [] {
      assert forall i :: 0 <= i < |ns[1..]| ==> ns[1..][i] == ns[i + 1] && tasks[1..][i] == tasks[i + 1];
      SumOfRanges(tasks[1..], tasks[0].hi, n, ns[1..]);
    }
  }

  predicate NoRetries(s: State) {
    forall i :: 0 <= i < |s.tasks| ==> |s.tasks[i].executed| == 1
  }

  /** When no task was retried and no result is unknown, the last value printed is the number of
      keys (modulo 2^32). */
  lemma ProgressCompletes(c: Config, run: seq<State>)
    requires ValidConfig(c) && IsRun(c, run) && c.limit.Some? && run[|run| - 1].report.Some?
    requires run[|run| - 1].report.value.unknownNum == 0
    requires NoRetries(run[|run| - 1])
    ensures |run[|run| - 1].printed| == |c.keys|
    ensures run[|run| - 1].counter == |c.keys| % WORD
  {
    var s := run[|run| - 1];
    assert Reachable(c, s);
    ReachableInv(c, s);
    ContiguousFacts(c.tasks, 0, |c.keys|);
    CollectedPositions(c, s);
    var ns := Finishes(s.tasks);
    forall i | 0 <= i < |ns| ensures ns[i] == c.tasks[i].hi - c.tasks[i].lo {
      FinishedOnce(c, s, i);
    }
    SumOfRanges(c.tasks, 0, |c.keys|, ns);
    CounterWraps(|s.printed|);
  }

  lemma FinishedOnce(c: Config, s: State, i: nat)
    requires ValidConfig(c) && Reachable(c, s) && i < |s.tasks| == |c.tasks| && Delivered(s.tasks[i])
    requires forall p: nat :: p < |c.keys| ==> Occurrences(Collected(s), p) == 1
    requires |s.tasks[i].executed| == 1
    ensures s.tasks[i].finishes == c.tasks[i].hi - c.tasks[i].lo
  {
    ReachableInv(c, s);
    var t, tc := s.tasks[i], c.tasks[i];
    assert TaskInv(c, tc, t);
    ContiguousFacts(c.tasks, 0, |c.keys|);
    var k :| 0 <= k < |s.collected| && s.collected[k].owner == i;
    EndedResults(c, s, i);
    forall p: nat | tc.lo <= p < tc.hi ensures Occurrences(Recs(t), p) == 1 {
      OccurrenceInTask(c, s, i, p);
    }
    FullTask(c, tc, t);
    NoneActive(c, tc, t);
  }

  /*** Retries. ***/

  /** In every reachable state and for every task: each job object was executed at most once and
      never more than the budget allows; each finished attempt but the last asked for a retry and
      had its job recreated, and no other attempt has; and a task that ended did so with the outcome
      the retry loop gives to its attempts. */
  lemma RetryDiscipline(c: Config, run: seq<State>, k: nat, i: nat)
    requires ValidConfig(c) && IsRun(c, run) && k < |run| && i < |c.tasks|
    ensures |run[k].tasks| == |c.tasks|
    ensures var t := run[k].tasks[i];
      && Distinct(t.executed) && |t.executed| <= c.budget
      && |t.history| <= |t.executed| <= |t.history| + 1
      && (forall j :: 0 <= j < |t.history| - 1 ==> Retries(t.history[j]) && t.history[j].recreated)
      && (forall j :: 0 <= j < |t.history| && t.history[j].recreated ==> Retries(t.history[j]))
      && (t.phase.Ended? <==> Fate(t.history, c.budget).Some?)
      && (t.phase.Ended? ==> Fate(t.history, c.budget) == Some(t.phase.outcome))
    ensures forall j :: 0 <= j < |run[k].tasks[i].history| - 1 ==>
              Passes(run[k].tasks[i].history[j]) && run[k].tasks[i].history[j].recreated
    ensures run[k].tasks[i].phase.Ended? ==> EndedAs(run[k].tasks[i].history, c.budget, run[k].tasks[i].phase.outcome)
  {
    RunInv(c, run, k);
    var t := run[k].tasks[i];
    assert TaskInv(c, c.tasks[i], t);
    forall j | 0 <= j < |t.history| - 1
      ensures Retries(t.history[j]) && Passes(t.history[j]) && t.history[j].recreated
    {
      assert !Decides(t.history[j], j, c.budget);
      RetriesExactly(t.history[j]);
    }
    if t.phase.Ended? {
      FateEnds(t.history, c.budget);
    }
  }

  /** An outcome and the attempt it comes from: results unless the attempt had an error other than a
      failed job, and an error that may pass only when the budget was used up. */
  predicate EndedAs(history: seq<Attempt>, budget: nat, out: TaskOutcome) {
    history != [] &&
    var a := history[|history| - 1];
    match out
    case Returned(result) => (a.err.None? || AsFailedJob(a.err.value)) && result == a.result
    case CreateFailed => Passes(a) && !a.recreated
    case Failed(e) => a.err == Some(e) && !AsFailedJob(e) && (MayPass(e) ==> |history| == budget && a.recreated)
  }

  lemma FateEnds(history: seq<Attempt>, budget: nat)
    requires Fate(history, budget).Some?
    ensures EndedAs(history, budget, Fate(history, budget).value)
  {
    RetriesExactly(history[|history| - 1]);
  }

  /** A report means that every task returned a result; one task that failed leaves none. */
  lemma ReportNeedsEveryTask(c: Config, run: seq<State>, i: nat)
    requires ValidConfig(c) && IsRun(c, run) && run[|run| - 1].report.Some? && i < |c.tasks|
    ensures |run[|run| - 1].tasks| == |c.tasks|
    ensures run[|run| - 1].tasks[i].phase.Ended? && run[|run| - 1].tasks[i].phase.outcome.Returned?
  {
    var s := run[|run| - 1];
    assert Reachable(c, s);
    ReachableInv(c, s);
    assert Delivered(s.tasks[i]);
    var k :| 0 <= k < |s.collected| && s.collected[k].owner == i;
  }
}
