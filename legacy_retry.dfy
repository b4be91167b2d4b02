/** `retryWithBackoff` of the legacy TypeScript package
    (javascript/legacy/packages/aetherquery/src/http/retry.ts): run an
    operation up to maxRetries + 1 times, rethrow client errors at once,
    wait baseDelay * 2^k after the k-th failed attempt, and throw the last
    error when every attempt fails.

    The operation is a parameter: `operation(k)` is how its k-th call (from
    0) settles. Waiting is recorded as the list of requested delays. The
    counts are integers. */
module LegacyRetry {
  import opened Dynamic

  /** What an operation can throw: an `AetherQueryError` with its optional
      `statusCode`, or any other error. */
  datatype Thrown =
    | AetherQueryError(statusCode: Option<int>, message: string)
    | PlainError(message: string)

  /** How a call settles. */
  datatype Settled<T> = Resolved(value: T) | Rejected(error: Thrown)

  /** How `retryWithBackoff` settles: with a value, or by throwing the last
      error, which is `undefined` (`None`) when the operation never ran. */
  datatype Outcome<T> = Returned(value: T) | Threw(error: Option<Thrown>)

  /** The whole run: its outcome, how many times the operation was called,
      and the delays waited, in order. */
  datatype Run<T> = Run(outcome: Outcome<T>, calls: nat, delays: seq<int>)

  /** Client errors that are rethrown without retrying: an AetherQueryError
      whose status (0 when absent) is 400, 401, 403 or 422. */
  predicate NotRetried(e: Thrown) {
    e.AetherQueryError? &&
    var status := if e.statusCode.Some? then e.statusCode.value else 0;
    status == 400 || status == 401 || status == 403 || status == 422
  }

  function Pow2(k: nat): (r: nat)
    ensures r >= 1
  {
    if k == 0 then 1 else 2 * Pow2(k - 1)
  }

  /** The delay before attempt k + 1. */
  function Backoff(baseDelay: int, k: nat): int {
    baseDelay * Pow2(k)
  }

  /** The run from attempt `attempt` on, with `lastError` the error of the
      attempt before it (if any). */
  function RetryRun<T>(operation: nat -> Settled<T>, attempt: nat, maxRetries: int, baseDelay: int,
                       lastError: Option<Thrown>): (r: Run<T>)
    decreases if maxRetries - attempt + 1 > 0 then maxRetries - attempt + 1 else 0
  {
    if attempt > maxRetries then Run(Threw(lastError), 0, [])
    else match operation(attempt)
      case Resolved(v) => Run(Returned(v), 1, [])
      case Rejected(e) =>
        if NotRetried(e) || attempt == maxRetries then Run(Threw(Some(e)), 1, [])
        else
          var rest := RetryRun(operation, attempt + 1, maxRetries, baseDelay, Some(e));
          Run(rest.outcome, 1 + rest.calls, [Backoff(baseDelay, attempt)] + rest.delays)
  }

  /** The run of `retryWithBackoff(operation, maxRetries, baseDelay)`. */
  function RetryWithBackoffRun<T>(operation: nat -> Settled<T>, maxRetries: int, baseDelay: int): Run<T> {
    RetryRun(operation, 0, maxRetries, baseDelay, None)
  }

  /** `retryWithBackoff`. */
  method RetryWithBackoff<T>(operation: nat -> Settled<T>, maxRetries: int, baseDelay: int)
    returns (outcome: Outcome<T>, calls: nat, delays: seq<int>)
    ensures Run(outcome, calls, delays) == RetryWithBackoffRun(operation, maxRetries, baseDelay)
  {
    var lastError: Option<Thrown> := None;
    var attempt: nat := 0;
    calls := 0;
    delays := [];
    while attempt <= maxRetries
      invariant calls == attempt
      invariant attempt > 0 ==> lastError.Some?
      invariant var rest := RetryRun(operation, attempt, maxRetries, baseDelay, lastError);
        RetryWithBackoffRun(operation, maxRetries, baseDelay) ==
          Run(rest.outcome, calls + rest.calls, delays + rest.delays)
      decreases maxRetries - attempt
    {
      calls := calls + 1;
      match operation(attempt)
      case Resolved(v) =>
        return Returned(v), calls, delays;
      case Rejected(e) =>
        lastError := Some(e);
        if NotRetried(e) {
          return Threw(lastError), calls, delays;
        }
        if attempt == maxRetries {
          break;
        }
        delays := delays + [Backoff(baseDelay, attempt)];
        attempt := attempt + 1;
    }
    return Threw(lastError), calls, delays;
  }

  /** The operation runs at most maxRetries + 1 times, never when maxRetries
      is negative (and then `undefined` is thrown); there is one delay
      between consecutive calls and none after the last one. */
  lemma {:induction false} CallsBounded<T>(operation: nat -> Settled<T>, attempt: nat, maxRetries: int,
                                          baseDelay: int, lastError: Option<Thrown>)
    ensures var r := RetryRun(operation, attempt, maxRetries, baseDelay, lastError);
      r.calls <= (if maxRetries - attempt + 1 > 0 then maxRetries - attempt + 1 else 0) &&
      (attempt > maxRetries <==> r.calls == 0) &&
      (r.calls == 0 ==> r.outcome == Threw(lastError)) &&
      |r.delays| == (if r.calls > 0 then r.calls - 1 else 0)
    decreases if maxRetries - attempt + 1 > 0 then maxRetries - attempt + 1 else 0
  {
    if attempt <= maxRetries && operation(attempt).Rejected? {
      var e := operation(attempt).error;
      if !(NotRetried(e) || attempt == maxRetries) {
        CallsBounded(operation, attempt + 1, maxRetries, baseDelay, Some(e));
      }
    }
  }

  /** The k-th delay is baseDelay * 2^k (counting from the first attempt). */
  lemma {:induction false} DelaysDoubled<T>(operation: nat -> Settled<T>, attempt: nat, maxRetries: int,
                                           baseDelay: int, lastError: Option<Thrown>)
    ensures forall i :: 0 <= i < |RetryRun(operation, attempt, maxRetries, baseDelay, lastError).delays| ==>
      RetryRun(operation, attempt, maxRetries, baseDelay, lastError).delays[i] == Backoff(baseDelay, attempt + i)
    decreases if maxRetries - attempt + 1 > 0 then maxRetries - attempt + 1 else 0
  {
    if attempt <= maxRetries && operation(attempt).Rejected? {
      var e := operation(attempt).error;
      if !(NotRetried(e) || attempt == maxRetries) {
        DelaysDoubled(operation, attempt + 1, maxRetries, baseDelay, Some(e));
        var rest := RetryRun(operation, attempt + 1, maxRetries, baseDelay, Some(e));
        var r := RetryRun(operation, attempt, maxRetries, baseDelay, lastError);
        assert r.delays == [Backoff(baseDelay, attempt)] + rest.delays;
        forall i | 0 < i < |r.delays| ensures r.delays[i] == Backoff(baseDelay, attempt + i) {
          var j := i - 1;
          assert r.delays[i] == rest.delays[j];
          assert 0 <= j < |rest.delays|;
          assert rest.delays[j] == Backoff(baseDelay, attempt + 1 + j);
        }
      }
    }
  }

  /** The first call that resolves ends the run with its value: when calls
      0 .. k - 1 fail with retryable errors and call k resolves (k within
      the limit), exactly k + 1 calls are made. */
  lemma {:induction false} FirstSuccessReturned<T>(operation: nat -> Settled<T>, attempt: nat, k: nat,
                                                  maxRetries: int, baseDelay: int, lastError: Option<Thrown>)
    requires attempt <= k <= maxRetries
    requires forall j :: attempt <= j < k ==> operation(j).Rejected? && !NotRetried(operation(j).error)
    requires operation(k).Resolved?
    ensures RetryRun(operation, attempt, maxRetries, baseDelay, lastError).outcome == Returned(operation(k).value)
    ensures RetryRun(operation, attempt, maxRetries, baseDelay, lastError).calls == k - attempt + 1
    decreases k - attempt
  {
    if attempt < k {
      FirstSuccessReturned(operation, attempt + 1, k, maxRetries, baseDelay, Some(operation(attempt).error));
    }
  }

  /** A client error is rethrown by the call that raised it: when calls
      0 .. k - 1 fail with retryable errors and call k throws a client
      error, that error is thrown after exactly k + 1 calls. */
  lemma {:induction false} ClientErrorRethrown<T>(operation: nat -> Settled<T>, attempt: nat, k: nat,
                                                 maxRetries: int, baseDelay: int, lastError: Option<Thrown>)
    requires attempt <= k <= maxRetries
    requires forall j :: attempt <= j < k ==> operation(j).Rejected? && !NotRetried(operation(j).error)
    requires operation(k).Rejected? && NotRetried(operation(k).error)
    ensures RetryRun(operation, attempt, maxRetries, baseDelay, lastError).outcome == Threw(Some(operation(k).error))
    ensures RetryRun(operation, attempt, maxRetries, baseDelay, lastError).calls == k - attempt + 1
    decreases k - attempt
  {
    if attempt < k {
      ClientErrorRethrown(operation, attempt + 1, k, maxRetries, baseDelay, Some(operation(attempt).error));
    }
  }

  /** When every call fails with a retryable error, all maxRetries + 1 calls
      are made and the error of the last one is thrown. */
  lemma {:induction false} LastErrorThrown<T>(operation: nat -> Settled<T>, attempt: nat, maxRetries: int,
                                             baseDelay: int, lastError: Option<Thrown>)
    requires attempt <= maxRetries
    requires forall j :: attempt <= j <= maxRetries ==> operation(j).Rejected? && !NotRetried(operation(j).error)
    ensures RetryRun(operation, attempt, maxRetries, baseDelay, lastError).outcome ==
      Threw(Some(operation(maxRetries).error))
    ensures RetryRun(operation, attempt, maxRetries, baseDelay, lastError).calls == maxRetries - attempt + 1
    decreases maxRetries - attempt
  {
    if attempt < maxRetries {
      LastErrorThrown(operation, attempt + 1, maxRetries, baseDelay, Some(operation(attempt).error));
    }
  }
}
