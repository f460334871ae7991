/**
 * The retry loop of `ErrorHandler`. The handler runs an operation until it succeeds or
 * the retry budget is spent; the failure counter lives in the handler and is never reset,
 * so failures accumulate across calls.
 *
 * The operation is an oracle: `operation(k)` is what the `k`-th invocation within one call
 * of `handle` returns.
 */
module ErrorHandling {
  import opened Wrappers

  /** The errors an operation can report, plus the handler's own `SystemError`. */
  datatype HandlerError = OperationError(detail: string) | SystemError(message: string)

  const MAX_RETRIES_REACHED: string := "Maximum retries reached"

  /**
   * `handle` from a counter value `current`, having invoked the operation `made` times:
   * the result, the counter afterwards and the total number of invocations.
   */
  function HandleIn<T>(maxRetries: nat, current: nat, operation: nat -> Result<T, HandlerError>, made: nat)
    : (Result<T, HandlerError>, nat, nat)
    decreases maxRetries - current
  {
    if current >= maxRetries then (Err(SystemError(MAX_RETRIES_REACHED)), current, made)
    else match operation(made)
      case Ok(v) => (Ok(v), current, made + 1)
      case Err(e) =>
        if current + 1 >= maxRetries then (Err(e), current + 1, made + 1)
        else HandleIn(maxRetries, current + 1, operation, made + 1)
  }

  /** The invocations `from .. to - 1` all fail. */
  predicate FailsBetween<T>(operation: nat -> Result<T, HandlerError>, from: nat, to: nat) {
    forall j :: from <= j < to ==> operation(j).Err?
  }

  /**
   * With the budget exhausted on entry (`max_retries` 0 included), the operation is not
   * invoked, the counter stays, and the result is `SystemError("Maximum retries reached")`.
   */
  lemma HandleWhenExhausted<T>(maxRetries: nat, current: nat, operation: nat -> Result<T, HandlerError>)
    requires current >= maxRetries
    ensures HandleIn(maxRetries, current, operation, 0) == (Err(SystemError(MAX_RETRIES_REACHED)), current, 0)
  {
  }

  /**
   * If invocation `k` is the first to succeed and comes within the budget, its value is
   * returned after `k + 1` invocations, the counter having risen by exactly the `k` failures.
   */
  lemma {:induction false} HandleReturnsFirstOk<T>(maxRetries: nat, current: nat, operation: nat -> Result<T, HandlerError>, made: nat, k: nat)
    requires made <= k && current + (k - made) < maxRetries
    requires FailsBetween(operation, made, k) && operation(k).Ok?
    decreases k - made
    ensures HandleIn(maxRetries, current, operation, made) == (Ok(operation(k).value), current + (k - made), k + 1)
  {
    if made < k {
      HandleReturnsFirstOk(maxRetries, current + 1, operation, made + 1, k);
    }
  }

  /**
   * If every invocation within the budget fails, the operation runs exactly
   * `max_retries - current_retries` times, the counter ends at `max_retries`, and the
   * last invocation's error is returned.
   */
  lemma {:induction false} HandleReturnsLastError<T>(maxRetries: nat, current: nat, operation: nat -> Result<T, HandlerError>, made: nat)
    requires current < maxRetries
    requires FailsBetween(operation, made, made + (maxRetries - current))
    decreases maxRetries - current
    ensures var last := made + (maxRetries - current) - 1;
      HandleIn(maxRetries, current, operation, made) == (Err(operation(last).error), maxRetries, last + 1)
  {
    if current + 1 < maxRetries {
      HandleReturnsLastError(maxRetries, current + 1, operation, made + 1);
    }
  }

  /**
   * Whatever the operation does: it runs at most `max_retries - current_retries` times,
   * the counter never decreases (it is not reset on success), it rises by exactly the
   * number of failed invocations, and it does not pass `max_retries`.
   */
  lemma {:induction false} HandleBounds<T>(maxRetries: nat, current: nat, operation: nat -> Result<T, HandlerError>, made: nat)
    decreases maxRetries - current
    ensures var (r, after, total) := HandleIn(maxRetries, current, operation, made);
      && made <= total
      && (current <= maxRetries ==> total - made <= maxRetries - current && after <= maxRetries)
      && current <= after
      && after - current == (total - made) - (if r.Ok? then 1 else 0)
  {
    if current < maxRetries && operation(made).Err? && current + 1 < maxRetries {
      HandleBounds(maxRetries, current + 1, operation, made + 1);
    }
  }

  /** Once a call has spent the budget, every later call fails at once without invoking its operation. */
  lemma FailuresAccumulate<T>(maxRetries: nat, current: nat, first: nat -> Result<T, HandlerError>, second: nat -> Result<T, HandlerError>)
    requires current < maxRetries
    requires FailsBetween(first, 0, maxRetries - current)
    ensures var after := HandleIn(maxRetries, current, first, 0).1;
      HandleIn(maxRetries, after, second, 0) == (Err(SystemError(MAX_RETRIES_REACHED)), maxRetries, 0)
  {
    HandleReturnsLastError(maxRetries, current, first, 0);
  }

  class ErrorHandler {
    const maxRetries: nat
    var currentRetries: nat

    /** `ErrorHandler::new`: the given budget and no failures yet. */
    constructor (max: nat)
      ensures maxRetries == max && currentRetries == 0
    {
      maxRetries := max;
      currentRetries := 0;
    }

    /** `handle`; `calls` is the number of times the operation was invoked. */
    method Handle<T>(operation: nat -> Result<T, HandlerError>) returns (r: Result<T, HandlerError>, calls: nat)
      modifies this
      ensures (r, currentRetries, calls) == HandleIn(maxRetries, old(currentRetries), operation, 0)
    {
      calls := 0;
      while currentRetries < maxRetries
        invariant HandleIn(maxRetries, currentRetries, operation, calls) == HandleIn(maxRetries, old(currentRetries), operation, 0)
        decreases maxRetries - currentRetries
      {
        var outcome := operation(calls);
        calls := calls + 1;
        if outcome.Ok? {
          return Ok(outcome.value), calls;
        }
        currentRetries := currentRetries + 1;
        if currentRetries >= maxRetries {
          return Err(outcome.error), calls;
        }
      }
      r := Err(SystemError(MAX_RETRIES_REACHED));
    }
  }
}
