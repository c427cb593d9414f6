/**
 * Values that cross the boundary to the durable-execution host: the JSON
 * values a heartbeat payload is decoded into on a retried attempt, the
 * exceptions an activity or workflow can raise, and the host's retry policy.
 */
module Host {
  import opened Wrappers

  /** A JSON scalar as the host's default data converter hands it back. */
  datatype Json = JNull | JBool(b: bool) | JInt(i: int) | JStr(s: string)

  /** The exceptions the modelled code raises. */
  datatype Error =
    | TypeError                          // a record built from a dict with a missing, unknown or ill-typed field
    | ValueError                         // int() of a non-numeric string, or unpacking the wrong number of parts
    | IndexError                         // a list index out of range
    | ApplicationError(message: string) // raised explicitly by an activity
    | ProviderError(typeName: string)    // raised by code outside the model (the LLM client), by class name
    | HeartbeatTimeout                   // the worker stopped heartbeating and the host timed the attempt out

  /** The type name the host matches against a policy's non-retryable types. */
  function ErrorType(e: Error): string {
    match e
    case TypeError => "TypeError"
    case ValueError => "ValueError"
    case IndexError => "IndexError"
    case ApplicationError(_) => "ApplicationError"
    case ProviderError(name) => name
    case HeartbeatTimeout => "TimeoutError"
  }

  /**
   * A retry policy. As in the host, `maximumAttempts == 0` means that the host
   * retries without limit; an error whose type is listed as non-retryable
   * ends the activity at once. `DefaultRetryPolicy` is `RetryPolicy()`.
   */
  datatype RetryPolicy = RetryPolicy(maximumAttempts: nat, nonRetryableErrorTypes: set<string>)

  const DefaultRetryPolicy := RetryPolicy(0, {})

  /** A policy with an attempt limit and no non-retryable types. */
  function Attempts(n: nat): RetryPolicy {
    RetryPolicy(n, {})
  }

  /**
   * What the host makes of an activity, given what each attempt would return
   * (`outcomes[k]` for attempt `k + 1`): the first success, the error that
   * ends retrying, or, when the given attempts run out first, still retrying.
   */
  datatype Execution<+T> =
    | Succeeded(value: T, attempts: nat)
    | GaveUp(error: Error, attempts: nat)
    | StillRetrying

  /** Whether the host schedules attempt `n + 1` after attempt `n` failed with `e`. */
  predicate RetriesAfter(policy: RetryPolicy, n: nat, e: Error) {
    ErrorType(e) !in policy.nonRetryableErrorTypes
    && (policy.maximumAttempts == 0 || n < policy.maximumAttempts)
  }

  /** The host's retry loop from attempt `done + 1` on. */
  function ExecuteFrom<T>(policy: RetryPolicy, outcomes: seq<Result<T, Error>>, done: nat): Execution<T>
    requires done <= |outcomes|
    decreases |outcomes| - done
  {
    if done == |outcomes| then StillRetrying
    else match outcomes[done]
      case Success(v) => Succeeded(v, done + 1)
      case Failure(e) =>
        if RetriesAfter(policy, done + 1, e) then ExecuteFrom(policy, outcomes, done + 1)
        else GaveUp(e, done + 1)
  }

  function Execute<T>(policy: RetryPolicy, outcomes: seq<Result<T, Error>>): Execution<T> {
    ExecuteFrom(policy, outcomes, 0)
  }

  /**
   * The host's verdict is read off the attempts it made: a success is the
   * first success and follows only retried failures; giving up follows a
   * failure that is not retried; still retrying means every given attempt
   * failed and was retried; no attempt is counted beyond a policy's limit.
   */
  lemma {:induction false} ExecuteFromMeaning<T>(policy: RetryPolicy, outcomes: seq<Result<T, Error>>, done: nat)
    requires done <= |outcomes|
    requires forall k :: 0 <= k < done ==> outcomes[k].Failure? && RetriesAfter(policy, k + 1, outcomes[k].error)
    ensures match ExecuteFrom(policy, outcomes, done)
      case Succeeded(v, n) =>
        && 1 <= n <= |outcomes| && outcomes[n - 1] == Success(v)
        && (policy.maximumAttempts == 0 || n <= policy.maximumAttempts)
        && forall k :: 0 <= k < n - 1 ==> outcomes[k].Failure? && RetriesAfter(policy, k + 1, outcomes[k].error)
      case GaveUp(e, n) =>
        && 1 <= n <= |outcomes| && outcomes[n - 1] == Failure(e) && !RetriesAfter(policy, n, e)
        && forall k :: 0 <= k < n - 1 ==> outcomes[k].Failure? && RetriesAfter(policy, k + 1, outcomes[k].error)
      case StillRetrying =>
        forall k :: 0 <= k < |outcomes| ==> outcomes[k].Failure? && RetriesAfter(policy, k + 1, outcomes[k].error)
    decreases |outcomes| - done
  {
    if done < |outcomes| && outcomes[done].Failure? && RetriesAfter(policy, done + 1, outcomes[done].error) {
      ExecuteFromMeaning(policy, outcomes, done + 1);
    } else if done > 0 {
      assert RetriesAfter(policy, done, outcomes[done - 1].error);
    }
  }

  lemma ExecuteMeaning<T>(policy: RetryPolicy, outcomes: seq<Result<T, Error>>)
    ensures match Execute(policy, outcomes)
      case Succeeded(v, n) =>
        && 1 <= n <= |outcomes| && outcomes[n - 1] == Success(v)
        && (policy.maximumAttempts == 0 || n <= policy.maximumAttempts)
        && forall k :: 0 <= k < n - 1 ==> outcomes[k].Failure? && RetriesAfter(policy, k + 1, outcomes[k].error)
      case GaveUp(e, n) =>
        && 1 <= n <= |outcomes| && outcomes[n - 1] == Failure(e) && !RetriesAfter(policy, n, e)
        && forall k :: 0 <= k < n - 1 ==> outcomes[k].Failure? && RetriesAfter(policy, k + 1, outcomes[k].error)
      case StillRetrying =>
        forall k :: 0 <= k < |outcomes| ==> outcomes[k].Failure? && RetriesAfter(policy, k + 1, outcomes[k].error)
  {
    ExecuteFromMeaning(policy, outcomes, 0);
  }

  /** With one allowed attempt the host's verdict is that attempt's result. */
  lemma SingleAttempt<T>(outcomes: seq<Result<T, Error>>)
    requires |outcomes| > 0
    ensures Execute(Attempts(1), outcomes) ==
      if outcomes[0].Success? then Succeeded(outcomes[0].value, 1) else GaveUp(outcomes[0].error, 1)
  {
  }
}
