/** `ExponentialBackoff` (src/helpers/retry.rs) and the client's send loop that
    uses it (src/helpers/server_sender.rs:486-559). Durations are milliseconds. */
module Backoffs {
  import opened Counters

  function Pow2(n: nat): (p: nat)
    ensures p >= 1
  {
    if n == 0 then 1 else 2 * Pow2(n - 1)
  }

  function Min(a: nat, b: nat): nat {
    if a < b then a else b
  }

  /** The delay after `n` waits, one doubling at a time. */
  function Delay(initial: nat, max: nat, n: nat): nat {
    if n == 0 then initial else Min(Delay(initial, max, n - 1) * 2, max)
  }

  /** The doubling never loses the cap and never overshoots it. */
  lemma {:induction false} DelayClosedForm(initial: nat, max: nat, n: nat)
    requires n >= 1
    ensures Delay(initial, max, n) == Min(initial * Pow2(n), max)
  {
    if n == 1 {
      assert Pow2(1) == 2;
      assert Delay(initial, max, 0) == initial;
    } else {
      DelayClosedForm(initial, max, n - 1);
      assert initial * Pow2(n) == (initial * Pow2(n - 1)) * 2;
    }
  }

  function TotalDelay(initial: nat, max: nat, n: nat): nat {
    if n == 0 then 0 else TotalDelay(initial, max, n - 1) + Delay(initial, max, n - 1)
  }

  /** Below the cap the waits add up to the geometric sum. */
  lemma {:induction false} TotalDelayBelowCap(initial: nat, max: nat, n: nat)
    requires n >= 1 ==> initial * Pow2(n - 1) <= max
    ensures TotalDelay(initial, max, n) == initial * Pow2(n) - initial
  {
    if n == 0 {
      assert Pow2(0) == 1;
    } else {
      assert initial * Pow2(n) == initial * Pow2(n - 1) * 2;
      if n >= 2 {
        assert initial * Pow2(n - 1) == initial * Pow2(n - 2) * 2;
        DelayClosedForm(initial, max, n - 1);
      } else {
        assert Pow2(0) == 1;
      }
      TotalDelayBelowCap(initial, max, n - 1);
    }
  }

  class ExponentialBackoff {
    const initial: nat
    const max: nat
    const maxCount: nat
    var current: nat
    var count: nat

    predicate Valid()
      reads this
    {
      count <= maxCount && current == Delay(initial, max, count)
    }

    predicate IsExhausted()
      reads this
    {
      count >= maxCount
    }

    constructor (initialMs: nat, maxSecs: nat, maxCount: nat)
      ensures Valid() && count == 0
      ensures initial == initialMs && max == maxSecs * 1000 && this.maxCount == maxCount
    {
      this.initial, this.max, this.maxCount, this.current, this.count := initialMs, maxSecs * 1000, maxCount, initialMs, 0;
    }

    /** Sleeps for the delay after `count` waits, at most `maxCount` times. */
    method Wait() returns (more: bool, slept: nat)
      requires Valid()
      modifies this`current, this`count
      ensures Valid()
      ensures more <==> !old(IsExhausted())
      ensures more ==> count == old(count) + 1 && slept == Delay(initial, max, old(count))
      ensures !more ==> count == old(count) && slept == 0
    {
      if count >= maxCount {
        return false, 0;
      }
      slept := current;
      current := Min(current * 2, max);
      count := count + 1;
      more := true;
    }

    method Reset()
      requires Valid()
      modifies this`current, this`count
      ensures Valid() && count == 0 && current == initial
    {
      current, count := initial, 0;
    }
  }

  // ----------------------------------------------------------- the send loop

  function RetryLimit(retrySeconds: nat): (limit: nat)
    ensures 1 <= limit <= 5
  {
    if retrySeconds > 5 then 5 else if retrySeconds <= 1 then 1 else retrySeconds - 1
  }

  datatype SendEnd = Sent | Exhausted

  /** `taken[i]` says whether attempt i finds the channel open; a closed
      channel refuses every attempt. `Exhausted` also reports Disconnected and
      spawns a reconnection. */
  method ClientSend(retrySeconds: nat, taken: nat -> bool, metrics: Metrics)
    returns (end: SendEnd, attempts: nat, slept: nat)
    modifies metrics
    ensures attempts >= 1 && forall i :: 0 <= i < attempts - 1 ==> !taken(i)
    ensures end == Sent <==> taken(attempts - 1)
    ensures end == Exhausted ==> attempts == RetryLimit(retrySeconds) + 1
    ensures end == Exhausted && retrySeconds <= 2 ==> attempts == 2
    ensures end == Exhausted && 2 <= retrySeconds <= 6 ==> attempts == retrySeconds
    ensures end == Exhausted && retrySeconds >= 6 ==> attempts == 6
    ensures attempts <= RetryLimit(retrySeconds) + 1
    ensures slept == TotalDelay(50, 1000, attempts - 1)
    ensures metrics.Snapshot() == old(metrics.Snapshot()).(
      messagesSent := old(metrics.messagesSent) + (if end == Sent then 1 else 0),
      sendErrors := old(metrics.sendErrors) + (if end == Exhausted then 1 else 0))
  {
    AttemptsAllowed(retrySeconds);
    hide RetryLimit, TotalDelay;
    assert TotalDelay(50, 1000, 0) == 0 by { NoDelayYet(); }
    var backoff := new ExponentialBackoff(50, 1, RetryLimit(retrySeconds));
    slept := 0;
    while true
      invariant backoff.Valid() && fresh(backoff)
      invariant backoff.initial == 50 && backoff.max == 1000 && backoff.maxCount == RetryLimit(retrySeconds)
      invariant slept == TotalDelay(50, 1000, backoff.count)
      invariant forall i :: 0 <= i < backoff.count ==> !taken(i)
      invariant metrics.Snapshot() == old(metrics.Snapshot())
      decreases backoff.maxCount - backoff.count
    {
      attempts := backoff.count + 1;
      if taken(backoff.count) {
        metrics.IncMessagesSent();
        return Sent, attempts, slept;
      }
      var more, pause := backoff.Wait();
      if !more {
        metrics.IncSendErrors();
        return Exhausted, attempts, slept;
      }
      OneDelayMore(backoff.count);
      slept := slept + pause;
    }
  }

  lemma NoDelayYet()
    ensures TotalDelay(50, 1000, 0) == 0
  {
  }

  lemma OneDelayMore(n: nat)
    requires n >= 1
    ensures TotalDelay(50, 1000, n) == TotalDelay(50, 1000, n - 1) + Delay(50, 1000, n - 1)
  {
  }

  /** One attempt more than retries: as many as seconds, between two and six. */
  lemma AttemptsAllowed(retrySeconds: nat)
    ensures retrySeconds <= 2 ==> RetryLimit(retrySeconds) + 1 == 2
    ensures 2 <= retrySeconds <= 6 ==> RetryLimit(retrySeconds) + 1 == retrySeconds
    ensures retrySeconds >= 6 ==> RetryLimit(retrySeconds) + 1 == 6
  {
  }

  /** For every setting of `retry_seconds` the loop sleeps 50 * (2^limit - 1)
      milliseconds at most, which is under `max(retry_seconds, 1)` seconds. */
  lemma RetriesFitRetryPeriod(retrySeconds: nat, attempts: nat)
    requires 1 <= attempts <= RetryLimit(retrySeconds) + 1
    ensures TotalDelay(50, 1000, attempts - 1) == 50 * Pow2(attempts - 1) - 50
    ensures TotalDelay(50, 1000, attempts - 1) < 1000 * (if retrySeconds > 1 then retrySeconds else 1)
  {
    assert Pow2(0) == 1 && Pow2(1) == 2 && Pow2(2) == 4 && Pow2(3) == 8 && Pow2(4) == 16 && Pow2(5) == 32;
    TotalDelayBelowCap(50, 1000, attempts - 1);
  }
}
