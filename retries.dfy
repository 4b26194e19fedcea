/** The reconnect bookkeeping of the wrapper: the `retry` record, its defaults,
    the exponential backoff, and the steps that change the record. The socket
    class stores one `Retry` and changes it only through these steps. */
module Retries {
  import opened Common

  const DefaultMaxRetries := 10
  const DefaultRetryInterval := 5000

  /** The `retry` record: the attempt counter, the cap, the base interval,
      the last backoff wait, and whether a reconnect is pending. */
  datatype Retry = Retry(retries: nat, max: int, interval: int, wait: int, waiting: bool)

  function Pow2(k: nat): (p: nat)
    ensures p >= 1
  {
    if k == 0 then 1 else 2 * Pow2(k - 1)
  }

  /** The wait before attempt number `retries` (counted from 0): `interval * 2^retries`. */
  function BackoffWait(interval: int, retries: nat): (w: int)
    ensures interval > 0 ==> w >= interval
    ensures interval != 0 ==> w != 0
  {
    interval * Pow2(retries)
  }

  /** Once an attempt has been scheduled, `wait` is the backoff of the attempt
      before the current count. */
  predicate RetryInvariant(r: Retry) {
    r.retries > 0 ==> r.wait == BackoffWait(r.interval, r.retries - 1)
  }

  /** The record the constructor builds: a falsy option (absent or 0) falls back
      to the default, and the first wait is the base interval. */
  function InitialRetry(maxRetries: Option<int>, retryInterval: Option<int>): (r: Retry)
    ensures r.retries == 0 && !r.waiting && RetryInvariant(r)
    ensures r.max != 0 && r.interval != 0 && r.wait == r.interval
    ensures TruthyNum(maxRetries) ==> r.max == maxRetries.value
    ensures !TruthyNum(maxRetries) ==> r.max == DefaultMaxRetries
    ensures TruthyNum(retryInterval) ==> r.interval == retryInterval.value
    ensures !TruthyNum(retryInterval) ==> r.interval == DefaultRetryInterval
  {
    var max := if TruthyNum(maxRetries) then maxRetries.value else DefaultMaxRetries;
    var interval := if TruthyNum(retryInterval) then retryInterval.value else DefaultRetryInterval;
    Retry(0, max, interval, interval, false)
  }

  /** `reconnect()`: nothing while a reconnect is pending; otherwise the wait is
      computed from the old count, the count goes up by one and `waiting` is set. */
  function ReconnectStep(r: Retry): (r': Retry)
    ensures r.waiting ==> r' == r
    ensures !r.waiting ==> r'.retries == r.retries + 1 && r'.wait == BackoffWait(r.interval, r.retries)
    ensures r'.waiting
    ensures r'.max == r.max && r'.interval == r.interval
    ensures RetryInvariant(r) ==> RetryInvariant(r')
  {
    if r.waiting then r
    else r.(wait := BackoffWait(r.interval, r.retries), retries := r.retries + 1, waiting := true)
  }

  /** The test the timer callback makes before redialling. A cap that is not
      positive (a truthy negative option) gives up at the first timer. */
  predicate GivesUp(r: Retry)
    ensures r.max <= 0 ==> GivesUp(r)
    ensures GivesUp(r) && r.max > 0 ==> r.retries > 0
  {
    r.retries >= r.max
  }

  /** The transport error handler clears `waiting` before anything else. */
  function ErrorStep(r: Retry): (r': Retry)
    ensures !r'.waiting && r'.retries == r.retries && r'.wait == r.wait
    ensures r'.max == r.max && r'.interval == r.interval
  {
    r.(waiting := false)
  }

  /** The `finish` completion of `connect`: the counter starts again from zero. */
  function FinishStep(r: Retry): (r': Retry)
    ensures r'.retries == 0 && !r'.waiting && RetryInvariant(r')
    ensures r'.max == r.max && r'.interval == r.interval && r'.wait == r.wait
  {
    r.(waiting := false, retries := 0)
  }

  /** The waits announced by `tryReconnect` when no attempt ever connects and
      auto-reconnect is on: each failure runs the error handler (ErrorStep, then
      ReconnectStep), then the timer fires; every wait but the last one is
      followed by a redial, the last one by the "maximum retries" error. */
  function FailingRun(r: Retry): (waits: seq<int>)
    requires !r.waiting
    ensures |waits| >= 1 && waits[0] == BackoffWait(r.interval, r.retries)
    decreases if r.max > r.retries then r.max - r.retries else 0
  {
    var r1 := ReconnectStep(r);
    if GivesUp(r1) then [r1.wait] else [r1.wait] + FailingRun(ErrorStep(r1))
  }

  /** The run announces `max - retries` waits (at least one), and the k-th of them
      is the backoff of attempt `retries + k`. */
  lemma {:induction false} FailingRunWaits(r: Retry)
    requires !r.waiting
    ensures |FailingRun(r)| == if r.max - r.retries > 1 then r.max - r.retries else 1
    ensures forall k :: 0 <= k < |FailingRun(r)| ==> FailingRun(r)[k] == BackoffWait(r.interval, r.retries + k)
    decreases if r.max > r.retries then r.max - r.retries else 0
  {
    var r1 := ReconnectStep(r);
    if !GivesUp(r1) {
      var r2 := ErrorStep(r1);
      FailingRunWaits(r2);
      assert FailingRun(r) == [r1.wait] + FailingRun(r2);
      forall k | 0 <= k < |FailingRun(r)|
        ensures FailingRun(r)[k] == BackoffWait(r.interval, r.retries + k)
      {
        if k > 0 {
          assert FailingRun(r)[k] == FailingRun(r2)[k - 1];
        }
      }
    }
  }

  /** From the constructor's record with a positive cap, a server that never
      accepts sees exactly `max - 1` redials (the check runs after the increment),
      with waits `interval * 2^k`, and then the "maximum retries" error. */
  lemma FreshRunRedials(maxRetries: Option<int>, retryInterval: Option<int>)
    requires var r := InitialRetry(maxRetries, retryInterval); r.max >= 1
    ensures var r := InitialRetry(maxRetries, retryInterval);
      |FailingRun(r)| - 1 == r.max - 1 &&
      forall k :: 0 <= k < |FailingRun(r)| ==> FailingRun(r)[k] == BackoffWait(r.interval, k)
  {
    FailingRunWaits(InitialRetry(maxRetries, retryInterval));
  }

  /** Each wait is longer than the one before when the interval is positive. */
  lemma {:induction false} BackoffIncreasing(interval: int, j: nat, k: nat)
    requires interval > 0 && j < k
    ensures BackoffWait(interval, j) < BackoffWait(interval, k)
    decreases k
  {
    if j < k - 1 {
      BackoffIncreasing(interval, j, k - 1);
    }
    assert Pow2(k) == 2 * Pow2(k - 1);
  }
}
