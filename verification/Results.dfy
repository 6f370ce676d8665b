/** Results of subtasks and the report folded from them
    (api/v1/subtask.go, api/v1/task.go, api/v1/runner.go). */
module Results {
  import opened Wrappers
  import opened Seqs

  datatype TaskStatus = TaskSuccess | TaskFailure

  datatype ResultStatus = Success | Failure | Error

  /** `container` is the position of the subtask's container among the main containers of the whole
      step and `job` the number of the Job object whose pod ran it; the source keeps both through
      the fields Container and Pod. */
  datatype SubTaskResult = SubTaskResult(
    status: TaskStatus, err: Option<string>, artifactErr: Option<string>,
    name: string, container: nat, job: nat, isMain: bool)
  {
    /** SubTaskResult.Error. */
    function Error(): Option<string> {
      match (err, artifactErr)
      case (None, None) => None
      case (Some(e), None) => Some(e)
      case (None, Some(a)) => Some(a)
      case (Some(e), Some(a)) => Some(e + ":" + a)
    }
  }

  /** What the error of a result says begins with the command's error and ends with the copy's; there is
      one exactly when one of the two is. */
  lemma ErrorText(r: SubTaskResult)
    ensures r.Error().None? <==> r.err.None? && r.artifactErr.None?
    ensures r.err.Some? ==> r.err.value <= r.Error().value
    ensures r.artifactErr.Some? ==>
              |r.artifactErr.value| <= |r.Error().value|
              && r.Error().value[|r.Error().value| - |r.artifactErr.value|..] == r.artifactErr.value
  {
  }

  type TaskResult = seq<seq<SubTaskResult>>

  /** What a subtask does to the outside world, in order. */
  datatype SubTaskEvent = Output | CopyArtifact | TerminationLog | LogGroup | Finish

  /** A status of failure and a non-nil error go together. */
  predicate Consistent(r: SubTaskResult) {
    r.status == TaskFailure <==> r.Error().Some?
  }

  /** The result of a subtask whose command and artifact copy ended as given. */
  function ResultOf(name: string, container: nat, job: nat, isMain: bool,
                    execErr: Option<string>, copyErr: Option<string>): (r: SubTaskResult)
    ensures Consistent(r) && (r.status == TaskSuccess <==> execErr.None? && copyErr.None?)
  {
    SubTaskResult(if execErr.None? && copyErr.None? then TaskSuccess else TaskFailure,
                  execErr, copyErr, name, container, job, isMain)
  }

  class SubTask {
    const name: string
    const container: nat
    const job: nat
    const isMain: bool
    const hasOnFinish: bool
    var events: seq<SubTaskEvent>

    constructor (name: string, container: nat, job: nat, isMain: bool, hasOnFinish: bool)
      ensures this.name == name && this.container == container && this.job == job
      ensures this.isMain == isMain && this.hasOnFinish == hasOnFinish && events == []
    {
      this.name, this.container, this.job := name, container, job;
      this.isMain, this.hasOnFinish := isMain, hasOnFinish;
      events := [];
    }

    /** SubTask.Run.  The deferred part runs after the artifacts were copied, whatever failed, and
        the log group is flushed before the progress callback. */
    method Run(execErr: Option<string>, copyErr: Option<string>) returns (result: SubTaskResult)
      modifies this
      ensures result == ResultOf(name, container, job, isMain, execErr, copyErr)
      ensures events == old(events) + [Output, CopyArtifact, TerminationLog, LogGroup]
                        + (if hasOnFinish then [Finish] else [])
    {
      events := events + [Output];
      result := SubTaskResult(TaskSuccess, execErr, None, name, container, job, isMain);
      if execErr.None? {
        result := result.(status := TaskSuccess);
      } else {
        result := result.(status := TaskFailure);
      }
      events := events + [CopyArtifact];
      if copyErr.Some? {
        result := result.(status := TaskFailure, artifactErr := copyErr);
      }
      events := events + [TerminationLog];
      events := events + [LogGroup];
      if hasOnFinish {
        events := events + [Finish];
      }
    }
  }

  /*** Folding. ***/

  function AllOf(results: seq<TaskResult>): seq<SubTaskResult> {
    Flatten(Flatten(results))
  }

  function Count(rs: seq<SubTaskResult>, status: TaskStatus): (n: nat)
    ensures n <= |rs|
  {
    if rs == [] then 0
    else Count(rs[..|rs| - 1], status) + if rs[|rs| - 1].status == status then 1 else 0
  }

  lemma CountSnoc(rs: seq<SubTaskResult>, r: SubTaskResult, status: TaskStatus)
    ensures Count(rs + [r], status) == Count(rs, status) + if r.status == status then 1 else 0
  {
    assert (rs + [r])[..|rs|] == rs;
  }

  lemma {:induction false} CountConcat(a: seq<SubTaskResult>, b: seq<SubTaskResult>, status: TaskStatus)
    ensures Count(a + b, status) == Count(a, status) + Count(b, status)
  {
    if b == [] {
      assert a + b == a;
    } else {
      var c, last := b[..|b| - 1], b[|b| - 1];
      CountConcat(a, c, status);
      assert a + b == (a + c) + [last] && b == c + [last];
      CountSnoc(a + c, last, status);
      CountSnoc(c, last, status);
    }
  }

  lemma CountNext(groups: TaskResult, j: nat, status: TaskStatus)
    requires j < |groups|
    ensures Count(Flatten(groups[..j + 1]), status) == Count(Flatten(groups[..j]), status) + Count(groups[j], status)
  {
    FlattenSnoc(groups[..j], groups[j]);
    assert groups[..j + 1] == groups[..j] + [groups[j]];
    CountConcat(Flatten(groups[..j]), groups[j], status);
  }

  lemma FlattenNext(results: seq<TaskResult>, i: nat)
    requires i < |results|
    ensures AllOf(results[..i + 1]) == AllOf(results[..i]) + Flatten(results[i])
  {
    FlattenSnoc(results[..i], results[i]);
    assert results[..i + 1] == results[..i] + [results[i]];
    FlattenConcat(Flatten(results[..i]), results[i]);
  }

  lemma {:induction false} CountsAddUp(rs: seq<SubTaskResult>)
    ensures Count(rs, TaskSuccess) + Count(rs, TaskFailure) == |rs|
  {
    if rs != [] {
      CountsAddUp(rs[..|rs| - 1]);
    }
  }

  lemma {:induction false} CountZero(rs: seq<SubTaskResult>, status: TaskStatus)
    ensures Count(rs, status) == 0 <==> forall i :: 0 <= i < |rs| ==> rs[i].status != status
  {
    if rs != [] {
      CountZero(rs[..|rs| - 1], status);
    }
  }

  datatype ReportDetail = ReportDetail(status: ResultStatus, name: string)

  datatype Report = Report(status: ResultStatus, totalNum: int, successNum: int, failureNum: int,
                           unknownNum: int, details: seq<ReportDetail>)

  function ToResultStatus(s: TaskStatus): ResultStatus {
    match s
    case TaskSuccess => Success
    case TaskFailure => Failure
  }

  function DetailOf(r: SubTaskResult): ReportDetail {
    ReportDetail(ToResultStatus(r.status), r.name)
  }

  function Details(rs: seq<SubTaskResult>): (ds: seq<ReportDetail>)
    ensures |ds| == |rs|
  {
    seq(|rs|, i requires 0 <= i < |rs| => DetailOf(rs[i]))
  }

  /** Every result has its detail, in order: its name, and success exactly when it carries no error. */
  predicate Tell(ds: seq<ReportDetail>, rs: seq<SubTaskResult>) {
    |ds| == |rs| && forall i :: 0 <= i < |rs| ==>
      ds[i].name == rs[i].name && ds[i].status == if rs[i].Error().None? then Success else Failure
  }

  lemma DetailsTell(rs: seq<SubTaskResult>)
    requires forall r :: r in rs ==> Consistent(r)
    ensures Tell(Details(rs), rs)
  {
    forall i | 0 <= i < |rs| ensures Details(rs)[i].status == if rs[i].Error().None? then Success else Failure {
      assert Consistent(rs[i]);
    }
  }

  /** How many details have a status. */
  function DetailNum(ds: seq<ReportDetail>, status: ResultStatus): nat {
    if ds == [] then 0
    else DetailNum(ds[..|ds| - 1], status) + if ds[|ds| - 1].status == status then 1 else 0
  }

  lemma {:induction false} DetailCounts(rs: seq<SubTaskResult>)
    ensures DetailNum(Details(rs), Success) == Count(rs, TaskSuccess)
    ensures DetailNum(Details(rs), Failure) == Count(rs, TaskFailure)
  {
    if rs != [] {
      var init := rs[..|rs| - 1];
      DetailCounts(init);
      assert Details(rs)[..|rs| - 1] == Details(init);
    }
  }

  function Names(ds: seq<ReportDetail>): (ns: seq<string>)
    ensures |ns| == |ds|
  {
    seq(|ds|, i requires 0 <= i < |ds| => ds[i].name)
  }

  predicate AnyError(rs: seq<SubTaskResult>) {
    exists i :: 0 <= i < |rs| && rs[i].Error().Some?
  }

  /** The report for a declared total and the collected results. */
  function ReportOf(total: int, rs: seq<SubTaskResult>): Report {
    Report(
      if total != |rs| then Error else if AnyError(rs) then Failure else Success,
      total, Count(rs, TaskSuccess), Count(rs, TaskFailure), total - |rs|, Details(rs))
  }

  /*** The source's nested loops. ***/

  /** The results visited before result k of group j of task i. */
  function Visited(results: seq<TaskResult>, i: nat, j: nat, k: nat): seq<SubTaskResult>
    requires i <= |results|
    requires if i < |results| then j <= |results[i]| else j == 0
    requires if i < |results| && j < |results[i]| then k <= |results[i][j]| else k == 0
  {
    AllOf(results[..i])
    + (if i < |results| then Flatten(results[i][..j]) else [])
    + (if i < |results| && j < |results[i]| then results[i][j][..k] else [])
  }

  lemma VisitedResult(results: seq<TaskResult>, i: nat, j: nat, k: nat)
    requires i < |results| && j < |results[i]| && k < |results[i][j]|
    ensures Visited(results, i, j, k + 1) == Visited(results, i, j, k) + [results[i][j][k]]
  {
  }

  lemma VisitedGroup(results: seq<TaskResult>, i: nat, j: nat)
    requires i < |results| && j < |results[i]|
    ensures Visited(results, i, j + 1, 0) == Visited(results, i, j, |results[i][j]|)
  {
    FlattenSnoc(results[i][..j], results[i][j]);
    assert results[i][..j + 1] == results[i][..j] + [results[i][j]];
    assert results[i][j][..|results[i][j]|] == results[i][j];
  }

  lemma VisitedTask(results: seq<TaskResult>, i: nat)
    requires i < |results|
    ensures Visited(results, i + 1, 0, 0) == Visited(results, i, |results[i]|, 0)
  {
    FlattenNext(results, i);
    assert results[i][..|results[i]|] == results[i];
  }

  lemma VisitedEnd(results: seq<TaskResult>)
    ensures Visited(results, |results|, 0, 0) == AllOf(results)
    ensures Visited(results, 0, 0, 0) == []
  {
    assert results[..|results|] == results;
  }

  lemma DetailsNext(results: seq<TaskResult>, i: nat, j: nat, k: nat)
    requires i < |results| && j < |results[i]| && k < |results[i][j]|
    ensures Details(Visited(results, i, j, k + 1)) == Details(Visited(results, i, j, k)) + [DetailOf(results[i][j][k])]
  {
    VisitedResult(results, i, j, k);
    DetailsSnoc(Visited(results, i, j, k), results[i][j][k]);
  }

  lemma DetailsSnoc(rs: seq<SubTaskResult>, r: SubTaskResult)
    ensures Details(rs + [r]) == Details(rs) + [DetailOf(r)]
  {
  }

  class TaskResultGroup {
    var totalSubTaskNum: int
    var results: seq<TaskResult>

    constructor (total: int)
      ensures totalSubTaskNum == total && results == []
    {
      totalSubTaskNum, results := total, [];
    }

    method Add(result: TaskResult)
      modifies this`results
      ensures results == old(results) + [result]
    {
      results := results + [result];
    }

    /** SuccessNum and FailureNum: the same triple loop for two statuses. */
    method StatusNum(status: TaskStatus) returns (n: nat)
      ensures n == Count(AllOf(results), status)
    {
      n := 0;
      for i := 0 to |results|
        invariant n == Count(AllOf(results[..i]), status)
      {
        var groups := results[i];
        ghost var earlier := n;
        for j := 0 to |groups|
          invariant n == earlier + Count(Flatten(groups[..j]), status)
        {
          var group := groups[j];
          ghost var earlierGroups := n;
          for k := 0 to |group|
            invariant n == earlierGroups + Count(group[..k], status)
          {
            CountSnoc(group[..k], group[k], status);
            assert group[..k + 1] == group[..k] + [group[k]];
            if group[k].status == status {
              n := n + 1;
            }
          }
          assert group[..|group|] == group;
          CountNext(groups, j, status);
        }
        assert groups[..|groups|] == groups;
        FlattenNext(results, i);
        CountConcat(AllOf(results[..i]), Flatten(groups), status);
      }
      assert results[..|results|] == results;
    }

    method Status() returns (s: ResultStatus)
      ensures s == if AnyError(AllOf(results)) then Failure else Success
    {
      VisitedEnd(results);
      for i := 0 to |results|
        invariant !AnyError(Visited(results, i, 0, 0))
      {
        for j := 0 to |results[i]|
          invariant !AnyError(Visited(results, i, j, 0))
        {
          for k := 0 to |results[i][j]|
            invariant !AnyError(Visited(results, i, j, k))
          {
            VisitedResult(results, i, j, k);
            if results[i][j][k].Error().Some? {
              VisitedInAll(results, i, j, k);
              return Failure;
            }
          }
          VisitedGroup(results, i, j);
        }
        VisitedTask(results, i);
      }
      return Success;
    }

    method ToReportDetails() returns (details: seq<ReportDetail>)
      ensures details == Details(AllOf(results))
      ensures (forall r :: r in AllOf(results) ==> Consistent(r)) ==> Tell(details, AllOf(results))
    {
      details := [];
      VisitedEnd(results);
      for i := 0 to |results|
        invariant details == Details(Visited(results, i, 0, 0))
      {
        for j := 0 to |results[i]|
          invariant details == Details(Visited(results, i, j, 0))
        {
          for k := 0 to |results[i][j]|
            invariant details == Details(Visited(results, i, j, k))
          {
            DetailsNext(results, i, j, k);
            details := details + [DetailOf(results[i][j][k])];
          }
          VisitedGroup(results, i, j);
        }
        VisitedTask(results, i);
      }
      if forall r :: r in AllOf(results) ==> Consistent(r) {
        DetailsTell(AllOf(results));
      }
    }
  }

  /** A visited position is a position of the flattened results. */
  lemma VisitedInAll(results: seq<TaskResult>, i: nat, j: nat, k: nat)
    requires i < |results| && j < |results[i]| && k < |results[i][j]|
    ensures results[i][j][k] in AllOf(results)
  {
    InFlatten(results, i, results[i][j]);
    var gs := Flatten(results);
    var g :| 0 <= g < |gs| && gs[g] == results[i][j];
    InFlatten(gs, g, results[i][j][k]);
  }

  /** Result in api/v1/runner.go, as far as the task results determine it. */
  class RunResult {
    var status: ResultStatus
    var totalNum: int
    var successNum: int
    var failureNum: int
    var unknownNum: int
    var details: seq<ReportDetail>

    constructor ()
      ensures unknownNum == 0
    {
      status, totalNum, successNum, failureNum, unknownNum, details := Success, 0, 0, 0, 0, [];
    }

    function ToReport(): Report
      reads this
    {
      Report(status, totalNum, successNum, failureNum, unknownNum, details)
    }

    method SetByTaskResult(taskResult: TaskResultGroup)
      requires unknownNum == 0
      modifies this
      ensures ToReport() == ReportOf(taskResult.totalSubTaskNum, AllOf(taskResult.results))
      ensures (forall r :: r in AllOf(taskResult.results) ==> Consistent(r)) ==> Tell(details, AllOf(taskResult.results))
    {
      status := taskResult.Status();
      totalNum := taskResult.totalSubTaskNum;
      successNum := taskResult.StatusNum(TaskSuccess);
      failureNum := taskResult.StatusNum(TaskFailure);
      CountsAddUp(AllOf(taskResult.results));
      if totalNum != successNum + failureNum {
        status := Error;
        unknownNum := totalNum - (successNum + failureNum);
      }
      details := taskResult.ToReportDetails();
    }
  }

  /** The report of the tasks whose results were collected in this order (TaskGroup.Run, Runner.Run). */
  method MakeReport(total: int, taskResults: seq<TaskResult>) returns (report: Report)
    ensures report == ReportOf(total, AllOf(taskResults))
    ensures (forall r :: r in AllOf(taskResults) ==> Consistent(r)) ==> Tell(report.details, AllOf(taskResults))
  {
    var group := new TaskResultGroup(total);
    for i := 0 to |taskResults|
      invariant group.totalSubTaskNum == total && group.results == taskResults[..i]
    {
      assert taskResults[..i + 1] == taskResults[..i] + [taskResults[i]];
      group.Add(taskResults[i]);
    }
    assert taskResults[..|taskResults|] == taskResults;
    var result := new RunResult();
    result.SetByTaskResult(group);
    report := result.ToReport();
  }

  /** What a report says, when no more results than the total were collected. */
  lemma ReportMeaning(total: nat, rs: seq<SubTaskResult>)
    requires forall r :: r in rs ==> Consistent(r)
    ensures var rep := ReportOf(total, rs);
      && rep.totalNum == rep.successNum + rep.failureNum + rep.unknownNum
      && |rep.details| == rep.successNum + rep.failureNum == |rs|
      && (rep.unknownNum >= 0 <==> |rs| <= total)
      && (rep.status == Success <==> |rs| == total && forall r :: r in rs ==> r.Error().None?)
      && (rep.status == Success ==> rep.successNum == total && rep.failureNum == 0)
      && (rep.status == Failure <==> |rs| == total && rep.failureNum > 0)
  {
    CountsAddUp(rs);
    CountZero(rs, TaskFailure);
    assert forall i :: 0 <= i < |rs| ==> rs[i] in rs && Consistent(rs[i]);
  }

  /** What its details say: for each result its name and whether it failed.  They are counted by the
      report's numbers, and the report is a success exactly when nothing is unknown and every detail
      is one. */
  lemma DetailsMeaning(total: nat, rs: seq<SubTaskResult>)
    requires forall r :: r in rs ==> Consistent(r)
    ensures var rep := ReportOf(total, rs);
      && Tell(rep.details, rs)
      && rep.successNum == DetailNum(rep.details, Success) && rep.failureNum == DetailNum(rep.details, Failure)
      && (rep.status == Success <==> rep.unknownNum == 0 && forall d :: d in rep.details ==> d.status == Success)
  {
    var rep := ReportOf(total, rs);
    DetailsTell(rs);
    DetailCounts(rs);
    if rep.status == Success {
      forall d | d in rep.details ensures d.status == Success {
        var i :| 0 <= i < |rep.details| && rep.details[i] == d;
        assert !AnyError(rs);
      }
    }
    if rep.unknownNum == 0 && forall d :: d in rep.details ==> d.status == Success {
      forall i | 0 <= i < |rs| ensures rs[i].Error().None? {
        assert rep.details[i] in rep.details;
      }
    }
  }
}
