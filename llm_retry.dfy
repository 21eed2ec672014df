/** `withRetry`: a model call retried with exponential backoff. The
    call is the function `attempt`, whose value at `i` is how the
    `i`-th call (counting from 0) ends; the sleeps are recorded as the
    list of their delays instead of being waited out. */
module LlmRetry {
  import opened Js

  const MaxRetriesMessage: string := "Max retries exceeded"

  /** The defaults of `maxRetries` and `baseDelay`. */
  const DefaultMaxRetries: int := 3
  const DefaultBaseDelay: int := 1000

  function Pow2(i: nat): (r: nat)
    ensures r >= 1
  {
    if i == 0 then 1 else 2 * Pow2(i - 1)
  }

  /** `baseDelay * Math.pow(2, i)`. */
  function Backoff(baseDelay: int, i: nat): int {
    baseDelay * Pow2(i)
  }

  /** What is thrown once every attempt has failed:
      `lastError || new Error('Max retries exceeded')`. */
  function FinalError(lastError: Option<Thrown>): (e: Thrown)
    ensures lastError.Some? && IsTruthy(lastError.value) ==> e == lastError.value
    ensures !(lastError.Some? && IsTruthy(lastError.value)) ==> e == ErrorObject(MaxRetriesMessage)
  {
    if lastError.Some? && IsTruthy(lastError.value) then lastError.value else ErrorObject(MaxRetriesMessage)
  }

  /** The number of attempts allowed: `maxRetries`, or none when it is
      not positive. */
  function Attempts(maxRetries: int): nat {
    if maxRetries <= 0 then 0 else maxRetries
  }

  /** The loop of `withRetry`. It returns the outcome, how many times
      the call was made, and the delays it slept, in order. */
  method WithRetry<T>(attempt: nat -> Call<T>, maxRetries: int, baseDelay: int)
    returns (result: Call<T>, calls: nat, delays: seq<int>)
    ensures calls <= Attempts(maxRetries)
    ensures forall k :: 0 <= k < calls - 1 ==> attempt(k).Throws?
    ensures result.Returns? <==> exists k :: 0 <= k < Attempts(maxRetries) && attempt(k).Returns?
    ensures result.Returns? ==> calls >= 1 && result == attempt(calls - 1)
    ensures result.Throws? ==>
      calls == Attempts(maxRetries) && (forall k :: 0 <= k < calls ==> attempt(k).Throws?) &&
      result.error == FinalError(if calls == 0 then None else Some(attempt(calls - 1).error))
    ensures |delays| == if calls == 0 then 0 else calls - 1
    ensures forall i :: 0 <= i < |delays| ==> delays[i] == Backoff(baseDelay, i)
  {
    var lastError: Option<Thrown> := None;
    delays := [];
    var i := 0;
    while i < maxRetries
      invariant 0 <= i <= Attempts(maxRetries)
      invariant forall k :: 0 <= k < i ==> attempt(k).Throws?
      invariant lastError == if i == 0 then None else Some(attempt(i - 1).error)
      invariant |delays| == if 0 < i == Attempts(maxRetries) then i - 1 else i
      invariant forall k :: 0 <= k < |delays| ==> delays[k] == Backoff(baseDelay, k)
    {
      var outcome := attempt(i);
      if outcome.Returns? {
        return outcome, i + 1, delays;
      }
      lastError := Some(outcome.error);
      if i < maxRetries - 1 {
        delays := delays + [Backoff(baseDelay, i)];
      }
      i := i + 1;
    }
    assert forall k :: 0 <= k < Attempts(maxRetries) ==> attempt(k).Throws?;
    result, calls := Throws(FinalError(lastError)), i;
  }

  /** `withRetry(fn)` with the default arguments: at most three calls, and
      the sleeps between them last 1000 and then 2000 milliseconds. */
  method WithDefaultRetry<T>(attempt: nat -> Call<T>) returns (result: Call<T>, calls: nat, delays: seq<int>)
    ensures calls <= 3 && |delays| <= 2
    ensures delays == [1000, 2000][..|delays|]
    ensures result.Returns? <==> exists k :: 0 <= k < 3 && attempt(k).Returns?
  {
    result, calls, delays := WithRetry(attempt, DefaultMaxRetries, DefaultBaseDelay);
    assert Backoff(DefaultBaseDelay, 1) == 2000;
  }

  /** The delays double from one retry to the next. */
  lemma BackoffDoubles(baseDelay: int, i: nat)
    ensures Backoff(baseDelay, i + 1) == 2 * Backoff(baseDelay, i)
    ensures Backoff(baseDelay, 0) == baseDelay
  {
  }

  /** An error object or a truthy value thrown by the last attempt is
      re-thrown unchanged; a falsy one is replaced. */
  lemma FinalErrorOfLast(e: Thrown)
    ensures FinalError(Some(e)) == if IsTruthy(e) then e else ErrorObject(MaxRetriesMessage)
    ensures FinalError(None) == ErrorObject(MaxRetriesMessage)
  {
  }
}
