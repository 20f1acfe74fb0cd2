/**
 * The token-bucket rate limiter and its adaptive variant. Time is an explicit `now` in seconds of the monotonic
 * clock; sleeping is the clock advancing, so a method that sleeps returns how long it sleeps and takes the clock
 * reading after the sleep as a parameter.
 */
module RateLimiter {
  import opened Wrappers

  /** `RateLimiter(rate_per_second=1.0, burst=5)` and `AdaptiveRateLimiter(min_rate=0.1, max_rate=10.0)` defaults. */
  const DefaultRate: real := 1.0
  const DefaultBurst: int := 5
  const DefaultMinRate: real := 0.1
  const DefaultMaxRate: real := 10.0
  /** The shared instance: `AdaptiveRateLimiter(initial_rate=0.5, burst=3)`. */
  const SharedRate: real := 0.5
  const SharedBurst: int := 3
  /** `rate_adjustment_interval`: at most one adjustment per minute. */
  const AdjustmentInterval: real := 60.0
  /** An adjustment raises the rate only after this many successes without a flood wait. */
  const SuccessesToSpeedUp: nat := 10

  const ClosedError := "速率限制器已关闭"
  const RateError := "速率必须大于0"

  function Min(a: real, b: real): real { if a <= b then a else b }
  function Max(a: real, b: real): real { if a >= b then a else b }

  /** The bucket after `elapsed` seconds at `rate` tokens per second: it fills up, but never beyond `burst`. */
  function Refill(tokens: real, burst: int, elapsed: real, rate: real): (r: real)
    ensures r <= burst as real
    ensures r == burst as real || r == tokens + elapsed * rate
    ensures tokens >= 0.0 && burst >= 0 && elapsed >= 0.0 && rate >= 0.0 ==> r >= 0.0
  {
    Min(burst as real, tokens + elapsed * rate)
  }

  lemma ProductNonNegative(a: real, b: real)
    requires a >= 0.0 && b >= 0.0
    ensures a * b >= 0.0
  {
  }

  lemma ProductOrder(a: real, b: real, c: real)
    requires a <= b && c >= 0.0
    ensures a * c <= b * c
  {
    ProductNonNegative(b - a, c);
  }

  /** A bucket never loses tokens by waiting, and waiting longer never yields fewer. */
  lemma RefillMonotone(tokens: real, burst: int, e1: real, e2: real, rate: real)
    requires tokens <= burst as real && 0.0 <= e1 <= e2 && rate >= 0.0
    ensures tokens <= Refill(tokens, burst, e1, rate) <= Refill(tokens, burst, e2, rate)
  {
    ProductNonNegative(e1, rate);
    ProductOrder(e1, e2, rate);
  }

  /** Refilling twice is refilling once over the whole span: when the bucket is looked at does not matter. */
  lemma RefillComposes(tokens: real, burst: int, e1: real, e2: real, rate: real)
    requires e1 >= 0.0 && e2 >= 0.0 && rate >= 0.0
    ensures Refill(Refill(tokens, burst, e1, rate), burst, e2, rate) == Refill(tokens, burst, e1 + e2, rate)
  {
    ProductNonNegative(e2, rate);
    assert (e1 + e2) * rate == e1 * rate + e2 * rate;
  }

  /** `(tokens - self.tokens) / self.rate_per_second`: the seconds it takes to earn the missing tokens. */
  function WaitTime(available: real, n: int, rate: real): (w: real)
    requires rate > 0.0
    ensures available < n as real ==> w > 0.0
    ensures available + w * rate == n as real
  {
    QuotientTimesDivisor(n as real - available, rate);
    (n as real - available) / rate
  }

  lemma QuotientTimesDivisor(x: real, d: real)
    requires d > 0.0
    ensures x / d * d == x
    ensures x > 0.0 ==> x / d > 0.0
  {
    var q := x / d;
    assert q * d == x;
    if x > 0.0 && q <= 0.0 {
      ProductOrder(q, 0.0, d);
    }
  }

  /** The rate after a flood wait: halved, but not below `minRate`. */
  function Slowed(rate: real, minRate: real): (r: real)
    ensures r >= minRate
    ensures r == minRate || r == rate * 0.5
    ensures rate > 0.0 ==> r > 0.0
  {
    Max(minRate, rate * 0.5)
  }

  /** The rate after a successful adjustment: raised by a fifth, but not above `maxRate`. */
  function SpedUp(rate: real, maxRate: real): (r: real)
    ensures r <= maxRate
    ensures r == maxRate || r == rate * 1.2
  {
    Min(maxRate, rate * 1.2)
  }

  /** A rate inside `[minRate, maxRate]` stays there through flood waits and speed-ups. */
  lemma AdjustmentsStayInBounds(rate: real, minRate: real, maxRate: real)
    requires 0.0 <= minRate <= rate <= maxRate
    ensures minRate <= Slowed(rate, minRate) <= rate
    ensures rate <= SpedUp(rate, maxRate) <= maxRate
  {
  }

  function Pow2(k: nat): (p: real)
    ensures p >= 1.0
  {
    if k == 0 then 1.0 else 2.0 * Pow2(k - 1)
  }

  /** The rate after `k` consecutive flood waits. */
  function SlowedTimes(rate: real, minRate: real, k: nat): real {
    if k == 0 then rate else Slowed(SlowedTimes(rate, minRate, k - 1), minRate)
  }

  /** `k` flood waits in a row divide the rate by `2^k`, with `minRate` as the floor. */
  lemma {:induction false} RepeatedFloodWaits(rate: real, minRate: real, k: nat)
    requires 0.0 <= minRate <= rate
    ensures SlowedTimes(rate, minRate, k) == if k == 0 then rate else Max(minRate, rate / Pow2(k))
  {
    if k > 1 {
      RepeatedFloodWaits(rate, minRate, k - 1);
      var p := Pow2(k - 1);
      HalfOfQuotient(rate, p);
      assert Pow2(k) == 2.0 * p;
    } else if k == 1 {
      HalfOfQuotient(rate, 1.0);
      assert Pow2(1) == 2.0;
    }
  }

  /** Halving `x / p` is dividing `x` by `2p`. */
  lemma HalfOfQuotient(x: real, p: real)
    requires p > 0.0
    ensures x / p * 0.5 == x / (2.0 * p)
  {
    var q := x / p;
    assert q * p == x;
    assert (q * 0.5) * (2.0 * p) == q * p;
  }

  /** The rate `_adjust_rate` leaves: faster only after enough successes and no flood wait since the last check. */
  function Adjusted(rate: real, maxRate: real, floodWaits: nat, successes: nat): (r: real)
    ensures floodWaits > 0 || successes < SuccessesToSpeedUp ==> r == rate
    ensures 0.0 <= rate <= maxRate ==> rate <= r <= maxRate
  {
    if floodWaits == 0 && successes >= SuccessesToSpeedUp then SpedUp(rate, maxRate) else rate
  }

  /** Enough clean successes raise a positive rate that is below the ceiling. */
  lemma AdjustedSpeedsUp(rate: real, maxRate: real, floodWaits: nat, successes: nat)
    requires 0.0 < rate < maxRate && floodWaits == 0 && successes >= SuccessesToSpeedUp
    ensures Adjusted(rate, maxRate, floodWaits, successes) > rate
  {
    assert rate * 1.2 > rate;
  }

  /**
   * `AdaptiveRateLimiter`, whose fields include those of the base `RateLimiter`; the base class is this one with
   * `on_flood_wait` and `on_success` never called.
   */
  class AdaptiveRateLimiter {
    var rate: real
    const burst: int
    var tokens: real
    var lastUpdate: real
    var closed: bool
    const minRate: real
    const maxRate: real
    var floodWaitCount: nat
    var successCount: nat
    var lastRateAdjustment: real

    /** A positive rate, a non-negative burst and a non-negative bucket. */
    predicate Valid()
      reads this
    {
      rate > 0.0 && burst >= 0 && tokens >= 0.0 && maxRate > 0.0
    }

    /** The bucket starts full, open, with both counters at zero and both clocks at `now`. */
    constructor (initialRate: real, burst: int, minRate: real, maxRate: real, now: real)
      requires initialRate > 0.0 && burst >= 0 && maxRate > 0.0
      ensures Valid()
      ensures rate == initialRate && this.burst == burst && tokens == burst as real && lastUpdate == now
      ensures !closed && this.minRate == minRate && this.maxRate == maxRate
      ensures floodWaitCount == 0 && successCount == 0 && lastRateAdjustment == now
    {
      rate := initialRate;
      this.burst := burst;
      tokens := burst as real;
      lastUpdate := now;
      closed := false;
      this.minRate := minRate;
      this.maxRate := maxRate;
      floodWaitCount := 0;
      successCount := 0;
      lastRateAdjustment := now;
    }

    /** The bucket as it would be at `now`. */
    function Available(now: real): (r: real)
      requires Valid() && now >= lastUpdate
      reads this
      ensures 0.0 <= r <= burst as real
    {
      Refill(tokens, burst, now - lastUpdate, rate)
    }

    /**
     * `acquire(tokens)`: a closed limiter refuses and changes nothing. Otherwise the bucket is refilled to `now`;
     * if it holds `n` tokens they are taken at once, else the caller sleeps until the missing tokens are earned
     * and the bucket is left empty. The result is the time slept; `woke` is the clock after the sleep.
     */
    method Acquire(n: int, now: real, woke: real) returns (r: Result<real, string>)
      requires Valid() && lastUpdate <= now <= woke
      modifies this`tokens, this`lastUpdate
      ensures Valid()
      ensures closed ==> r == Failure(ClosedError) && tokens == old(tokens) && lastUpdate == old(lastUpdate)
      ensures !closed && old(Available(now)) >= n as real ==>
        r == Success(0.0) && tokens == old(Available(now)) - n as real && lastUpdate == now
      ensures !closed && old(Available(now)) < n as real ==>
        r == Success(WaitTime(old(Available(now)), n, rate)) && tokens == 0.0 && lastUpdate == woke
    {
      if closed {
        return Failure(ClosedError);
      }
      tokens := Refill(tokens, burst, now - lastUpdate, rate);
      lastUpdate := now;
      if tokens >= n as real {
        tokens := tokens - n as real;
        return Success(0.0);
      }
      var wait := (n as real - tokens) / rate;
      assert wait == WaitTime(tokens, n, rate);
      tokens := Max(0.0, tokens - n as real);
      lastUpdate := woke;
      r := Success(wait);
    }

    /** `get_available_tokens()`: the bucket as it would be at `now`, or 0 when closed; nothing changes. */
    function GetAvailableTokens(now: real): (r: real)
      requires Valid() && now >= lastUpdate
      reads this
      ensures closed ==> r == 0.0
      ensures !closed ==> r == Available(now)
      ensures 0.0 <= r <= burst as real
    {
      if closed then 0.0 else Refill(tokens, burst, now - lastUpdate, rate)
    }

    /**
     * `update_rate(new_rate)`: a rate that is not positive raises `ValueError`. Otherwise the update is scheduled on
     * the running event loop (`loopRunning`), where it refills the bucket to `now` and installs the new rate; with
     * no running loop nothing happens.
     */
    method UpdateRate(newRate: real, loopRunning: bool, now: real) returns (r: Result<(), string>)
      requires Valid() && now >= lastUpdate
      modifies this`rate, this`tokens, this`lastUpdate
      ensures Valid()
      ensures newRate <= 0.0 ==> r == Failure(RateError)
      ensures newRate > 0.0 ==> r == Success(())
      ensures newRate > 0.0 && loopRunning ==>
        rate == newRate && tokens == old(Available(now)) && lastUpdate == now
      ensures newRate <= 0.0 || !loopRunning ==>
        rate == old(rate) && tokens == old(tokens) && lastUpdate == old(lastUpdate)
    {
      if newRate <= 0.0 {
        return Failure(RateError);
      }
      if loopRunning {
        tokens := Refill(tokens, burst, now - lastUpdate, rate);
        lastUpdate := now;
        rate := newRate;
      }
      r := Success(());
    }

    /** `close()`. */
    method Close()
      modifies this`closed
      ensures closed
    {
      closed := true;
    }

    /**
     * `on_flood_wait(wait_seconds)`: on an open limiter, counts the flood wait, slows the rate and sleeps one second
     * longer than asked; the result is the time slept. A closed limiter does nothing.
     */
    method OnFloodWait(waitSeconds: real) returns (slept: real)
      requires Valid()
      modifies this`floodWaitCount, this`rate
      ensures Valid()
      ensures closed ==> slept == 0.0 && floodWaitCount == old(floodWaitCount) && rate == old(rate)
      ensures !closed ==> slept == waitSeconds + 1.0 && floodWaitCount == old(floodWaitCount) + 1
                          && rate == Slowed(old(rate), minRate)
    {
      if closed {
        return 0.0;
      }
      floodWaitCount := floodWaitCount + 1;
      var newRate := Max(minRate, rate * 0.5);
      if newRate != rate {
        rate := newRate;
      }
      slept := waitSeconds + 1.0;
    }

    /**
     * `on_success()`: on an open limiter, counts the success and, once `AdjustmentInterval` seconds have passed
     * since the last adjustment, adjusts the rate and restarts the interval at `now`.
     */
    method OnSuccess(now: real)
      requires Valid()
      modifies this`successCount, this`floodWaitCount, this`rate, this`lastRateAdjustment
      ensures Valid()
      ensures closed ==> successCount == old(successCount) && floodWaitCount == old(floodWaitCount)
                         && rate == old(rate) && lastRateAdjustment == old(lastRateAdjustment)
      ensures !closed && now - old(lastRateAdjustment) < AdjustmentInterval ==>
        successCount == old(successCount) + 1 && floodWaitCount == old(floodWaitCount)
        && rate == old(rate) && lastRateAdjustment == old(lastRateAdjustment)
      ensures !closed && now - old(lastRateAdjustment) >= AdjustmentInterval ==>
        rate == Adjusted(old(rate), maxRate, old(floodWaitCount), old(successCount) + 1)
        && successCount == 0 && floodWaitCount == 0 && lastRateAdjustment == now
    {
      if closed {
        return;
      }
      successCount := successCount + 1;
      if now - lastRateAdjustment >= AdjustmentInterval {
        AdjustRate();
        lastRateAdjustment := now;
      }
    }

    /** `_adjust_rate()`: speeds up after enough clean successes, and restarts both counters in every case. */
    method AdjustRate()
      requires Valid()
      modifies this`successCount, this`floodWaitCount, this`rate
      ensures Valid()
      ensures rate == Adjusted(old(rate), maxRate, old(floodWaitCount), old(successCount))
      ensures successCount == 0 && floodWaitCount == 0
    {
      if floodWaitCount == 0 && successCount >= SuccessesToSpeedUp {
        var newRate := Min(maxRate, rate * 1.2);
        if newRate != rate {
          rate := newRate;
        }
      }
      floodWaitCount := 0;
      successCount := 0;
    }
  }
}
