/** Running one task with retries (api/v1/task.go). */
module Retry {
  import opened Wrappers
  import opened Seqs
  import opened Results

  datatype ErrorType = PreInitErrorType | PendingPhaseTimeoutErrorType | JobUnexpectedErrorType | OtherErrorType

  /** Errors of RunWithExecutionHandler.  Wrapped stands for fmt.Errorf with %w, which errors.As
      looks through and a type switch does not; a JobMultiError is not looked through. */
  datatype RunError =
    | PreInitError
    | PendingPhaseTimeoutError
    | JobUnexpectedError
    | JobMultiError(types: set<ErrorType>)
    | FailedJob
    | Wrapped(inner: RunError)
    | OtherError

  predicate Retryable(e: RunError) {
    match e
    case PreInitError => true
    case PendingPhaseTimeoutError => true
    case JobUnexpectedError => true
    case JobMultiError(types) =>
      PreInitErrorType in types || PendingPhaseTimeoutErrorType in types || JobUnexpectedErrorType in types
    case _ => false
  }

  /** The error is of the type, or one of several errors is. */
  predicate Shows(e: RunError, t: ErrorType) {
    match e
    case JobMultiError(types) => t in types
    case _ =>
      match t
      case PreInitErrorType => e == PreInitError
      case PendingPhaseTimeoutErrorType => e == PendingPhaseTimeoutError
      case JobUnexpectedErrorType => e == JobUnexpectedError
      case OtherErrorType => e == OtherError
  }

  /** An error that another attempt may not meet again: the preinit container failed, the pod stayed
      pending, or the job ended unexpectedly. */
  predicate MayPass(e: RunError) {
    Shows(e, PreInitErrorType) || Shows(e, PendingPhaseTimeoutErrorType) || Shows(e, JobUnexpectedErrorType)
  }

  /** A task is tried again exactly for these errors, and it makes no difference whether one of them
      comes alone or among others. */
  lemma RetryableExactly(e: RunError)
    ensures Retryable(e) <==> MayPass(e)
    ensures Retryable(PreInitError) && Retryable(PendingPhaseTimeoutError) && Retryable(JobUnexpectedError)
    ensures e.JobMultiError? ==>
              (Retryable(e) <==> e.types * {PreInitErrorType, PendingPhaseTimeoutErrorType, JobUnexpectedErrorType} != {})
    ensures e.FailedJob? || e.Wrapped? || e.OtherError? ==> !Retryable(e)
  {
    if e.JobMultiError? {
      var three := {PreInitErrorType, PendingPhaseTimeoutErrorType, JobUnexpectedErrorType};
      if e.types * three != {} {
        var t :| t in e.types * three;
        assert Shows(e, t);
      }
      forall t | t in three && t in e.types ensures e.types * three != {} {
        assert t in e.types * three;
      }
    }
  }

  /** errors.As(err, &failedJob). */
  predicate AsFailedJob(e: RunError) {
    match e
    case FailedJob => true
    case Wrapped(inner) => AsFailedJob(inner)
    case _ => false
  }

  function Wrap(e: RunError, n: nat): RunError {
    if n == 0 then e else Wrapped(Wrap(e, n - 1))
  }

  /** It finds a failed job behind any number of wrappings and nothing else. */
  lemma FailedJobExactly(e: RunError)
    ensures AsFailedJob(e) <==> exists n: nat :: e == Wrap(FailedJob, n)
  {
    if AsFailedJob(e) {
      var n := Wrappings(e);
    }
    if n: nat :| e == Wrap(FailedJob, n) {
      WrapsFailed(n);
    }
  }

  lemma {:induction false} Wrappings(e: RunError) returns (n: nat)
    requires AsFailedJob(e)
    ensures e == Wrap(FailedJob, n)
    decreases e
  {
    n := 0;
    if e.Wrapped? {
      n := Wrappings(e.inner);
      n := n + 1;
    }
  }

  lemma {:induction false} WrapsFailed(n: nat)
    ensures AsFailedJob(Wrap(FailedJob, n))
  {
    if n > 0 {
      WrapsFailed(n - 1);
    }
  }

  /** A failed job is a result, never a reason to retry. */
  lemma {:induction false} FailedJobNotRetried(e: RunError)
    requires AsFailedJob(e)
    ensures !Retryable(e)
  {
  }

  /** One execution of a job: the results its handler gathered, the error the library returned, and
      whether the job could be created again if that was called for. */
  datatype Attempt = Attempt(result: TaskResult, err: Option<RunError>, recreated: bool)

  datatype TaskOutcome = Returned(result: TaskResult) | Failed(err: RunError) | CreateFailed

  /** Task.run. */
  function RunOnce(a: Attempt): Result<TaskResult, RunError> {
    if a.err.None? || AsFailedJob(a.err.value) then Ok(a.result) else Err(a.err.value)
  }

  predicate Retries(a: Attempt) {
    RunOnce(a).Err? && Retryable(RunOnce(a).error)
  }

  /** The attempt ended with an error that may pass. */
  predicate Passes(a: Attempt) {
    a.err.Some? && MayPass(a.err.value)
  }

  lemma RetriesExactly(a: Attempt)
    ensures Retries(a) <==> Passes(a)
  {
    if a.err.Some? {
      RetryableExactly(a.err.value);
      if AsFailedJob(a.err.value) {
        FailedJobNotRetried(a.err.value);
      }
    }
  }

  /** The attempt that decides the task's fate: the first that does not ask for a retry, or whose
      job cannot be recreated, or that exhausts the budget. */
  predicate Decides(a: Attempt, k: nat, budget: nat) {
    !Retries(a) || !a.recreated || k + 1 == budget
  }

  function OutcomeOf(a: Attempt): TaskOutcome {
    match RunOnce(a)
    case Ok(r) => Returned(r)
    case Err(e) => if Retryable(e) && !a.recreated then CreateFailed else Failed(e)
  }

  class Task {
    var job: nat
    var executed: seq<nat>

    constructor ()
      ensures job == 0 && executed == []
    {
      job, executed := 0, [];
    }

    /** Task.runWithRetry, for the outcomes the environment would give to successive attempts.
        Every job object is executed at most once, the attempts stay within the budget, and only
        the deciding attempt contributes to what is returned.  All attempts before it ended with an
        error that may pass and had their job recreated; such an error is returned only by the last
        attempt of the budget. */
    method RunWithRetry(attempts: nat -> Attempt, budget: nat)
      returns (out: TaskOutcome, ghost last: nat)
      requires budget >= 1 && executed == [] && job == 0
      modifies this
      ensures last < budget && Decides(attempts(last), last, budget)
      ensures forall k :: 0 <= k < last ==> !Decides(attempts(k), k, budget)
      ensures out == OutcomeOf(attempts(last))
      ensures executed == Range(0, last + 1)
      ensures job == last + if Retries(attempts(last)) && attempts(last).recreated then 1 else 0
      ensures forall k :: 0 <= k < last ==> Passes(attempts(k)) && attempts(k).recreated
      ensures out.Failed? && MayPass(out.err) ==> last + 1 == budget && attempts(last).recreated
      ensures out.CreateFailed? <==> Passes(attempts(last)) && !attempts(last).recreated
      ensures out.Returned? <==> attempts(last).err.None? || AsFailedJob(attempts(last).err.value)
    {
      forall k: nat ensures Retries(attempts(k)) <==> Passes(attempts(k)) {
        RetriesExactly(attempts(k));
      }
      var result: Result<TaskResult, RunError> := Ok([]);
      var retryCount: nat := 0;
      last := 0;
      while retryCount < budget
        invariant retryCount <= budget
        invariant executed == Range(0, retryCount) && job == retryCount
        invariant forall k :: 0 <= k < retryCount ==> Retries(attempts(k)) && attempts(k).recreated
        invariant retryCount > 0 ==> result == RunOnce(attempts(retryCount - 1))
      {
        last := retryCount;
        executed := executed + [job];
        result := RunOnce(attempts(retryCount));
        if result.Err? && Retryable(result.error) {
          if !attempts(retryCount).recreated {
            return CreateFailed, last;
          }
          job := job + 1;
          retryCount := retryCount + 1;
          continue;
        }
        break;
      }
      if retryCount == budget {
        last := budget - 1;
      }
      match result {
        case Ok(r) => out := Returned(r);
        case Err(e) => out := Failed(e);
      }
    }
  }

  /** An attempt whose error may pass, with its job recreated and budget left, is followed by another
      attempt; when that one has no error its results are the outcome. */
  lemma AnotherAttempt(attempts: nat -> Attempt, budget: nat, last: nat, k: nat)
    requires last < budget && Decides(attempts(last), last, budget)
    requires forall j :: 0 <= j < last ==> !Decides(attempts(j), j, budget)
    requires k <= last && k + 1 < budget && Passes(attempts(k)) && attempts(k).recreated
    ensures k + 1 <= last
    ensures attempts(k + 1).err.None? ==> last == k + 1 && OutcomeOf(attempts(last)) == Returned(attempts(k + 1).result)
  {
    RetriesExactly(attempts(k));
    RetriesExactly(attempts(k + 1));
  }

  /** The same fate read off the finished attempts of a task; None while another attempt is due. */
  function Fate(history: seq<Attempt>, budget: nat): Option<TaskOutcome> {
    if history == [] then None
    else
      var n := |history| - 1;
      if Decides(history[n], n, budget) then Some(OutcomeOf(history[n])) else None
  }

  /** The retry loop and the finished attempts agree: a history whose earlier attempts all asked for
      a retry has the fate the loop computes from it. */
  lemma FateUnique(attempts: nat -> Attempt, budget: nat, last: nat, history: seq<Attempt>)
    requires last < budget && Decides(attempts(last), last, budget)
    requires forall k :: 0 <= k < last ==> !Decides(attempts(k), k, budget)
    requires 0 < |history| && forall k :: 0 <= k < |history| ==> history[k] == attempts(k)
    requires Fate(history, budget).Some?
    requires forall k :: 0 <= k < |history| - 1 ==> !Decides(attempts(k), k, budget)
    ensures |history| == last + 1 && Fate(history, budget) == Some(OutcomeOf(attempts(last)))
  {
    var n := |history| - 1;
    assert Decides(attempts(n), n, budget);
  }
}
