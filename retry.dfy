/** The bounded retry wrapper used around network calls. The blocking
    and the asynchronous forms run the same attempt loop; the wrapped
    call is a function from the attempt number to its outcome, and the
    sleeps the wrapper takes are returned as a list of durations. */
module Retry {

  /** What one call of the wrapped function did. */
  datatype Attempt<T, E> = Returned(value: T) | Raised(error: E)

  /** What the wrapper did: return the first value, re-raise the last
      error, or fall out of an empty loop and return None. */
  datatype Outcome<T, E> = Value(value: T) | Reraised(error: E) | NoneReturned

  function Pow(b: real, k: nat): real
  {
    if k == 0 then 1.0 else b * Pow(b, k - 1)
  }

  /** The delay before the sleep after attempt `k`: `delay` multiplied by
      `backoff` once per earlier sleep. */
  function Delay(delay: real, backoff: real, k: nat): real
  {
    if k == 0 then delay else Delay(delay, backoff, k - 1) * backoff
  }

  /** The delays form a geometric sequence: the k-th is `delay * backoff^k`. */
  lemma {:induction false} DelayIsGeometric(delay: real, backoff: real, k: nat)
    ensures Delay(delay, backoff, k) == delay * Pow(backoff, k)
  {
    if k > 0 {
      DelayIsGeometric(delay, backoff, k - 1);
      assert delay * (backoff * Pow(backoff, k - 1)) == (delay * Pow(backoff, k - 1)) * backoff;
    }
  }

  /** The attempt loop: at most `retries` calls, stopping at the first
      success; between consecutive attempts one sleep, the k-th lasting
      `delay * backoff^k`; no sleep after the last attempt, whose error is
      re-raised unchanged. */
  method Retry<T, E>(retries: int, delay: real, backoff: real, fn: nat -> Attempt<T, E>)
    returns (result: Outcome<T, E>, calls: nat, sleeps: seq<real>)
    ensures retries <= 0 ==> calls == 0 && sleeps == [] && result == NoneReturned
    ensures retries > 0 ==> 1 <= calls <= retries
    ensures forall j :: 0 <= j < calls - 1 ==> fn(j).Raised?
    ensures calls > 0 && fn(calls - 1).Returned? ==> result == Value(fn(calls - 1).value)
    ensures calls > 0 && fn(calls - 1).Raised? ==>
              calls == retries && result == Reraised(fn(calls - 1).error)
    ensures calls > 0 ==> |sleeps| == calls - 1
    ensures forall k :: 0 <= k < |sleeps| ==> sleeps[k] == Delay(delay, backoff, k)
  {
    var d := delay;
    result, calls, sleeps := NoneReturned, 0, [];
    var i := 0;
    while i < retries
      invariant 0 <= i && (retries > 0 ==> i < retries) && (retries <= 0 ==> i == 0)
      invariant calls == i && |sleeps| == i
      invariant forall j :: 0 <= j < i ==> fn(j).Raised?
      invariant forall k :: 0 <= k < i ==> sleeps[k] == Delay(delay, backoff, k)
      invariant d == Delay(delay, backoff, i)
      invariant result == NoneReturned
    {
      var a := fn(i);
      calls := calls + 1;
      if a.Returned? {
        result := Value(a.value);
        return;
      }
      if i == retries - 1 {
        result := Reraised(a.error);
        return;
      }
      sleeps := sleeps + [d];
      d := d * backoff;
      i := i + 1;
    }
  }
}
