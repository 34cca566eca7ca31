/**
 * The simpler token-bucket limiter of the scripts/ tree
 * (scripts/grid_trading_bot/grid_trading/utils/rate_limiter.py).
 *
 * Every `acquire` refills once, at the clock reading `now`, and spends a token
 * only if a whole one is there. Otherwise it sleeps once and returns without
 * a token: there is no retry, so its caller goes ahead unthrottled.
 */
module ScriptsRateLimiting {
  import opened TokenBucket

  datatype AcquireOutcome =
    | Spent              // a whole token was there and one was taken
    | Skipped            // less than one token: slept once, returned with nothing taken
    | ZeroDivisionError  // `time_window` is zero: the refill raises

  datatype AcquireResult = AcquireResult(outcome: AcquireOutcome, bucket: Bucket)

  /** What one `acquire` at clock reading `now` does to the bucket. */
  function AcquireSpec(b: Bucket, now: real, maxRequests: int, timeWindow: real): AcquireResult
  {
    if timeWindow == 0.0 then AcquireResult(ZeroDivisionError, b)
    else
      var p := RefillAt(b, now, maxRequests, timeWindow);
      if p.tokens < 1.0 then AcquireResult(Skipped, p)
      else AcquireResult(Spent, p.(tokens := p.tokens - 1.0))
  }

  /** The outcomes of successive calls at the readings `times`, each starting where the previous one left the bucket. */
  function Calls(b: Bucket, times: seq<real>, maxRequests: int, timeWindow: real): (outcomes: seq<AcquireOutcome>)
    ensures |outcomes| == |times|
    decreases |times|
  {
    if times == [] then []
    else
      var r := AcquireSpec(b, times[0], maxRequests, timeWindow);
      [r.outcome] + Calls(r.bucket, times[1..], maxRequests, timeWindow)
  }

  /**
   * Whatever the bucket held, a call that does not raise stamps `now`, leaves at
   * most `max_requests`, and spends a token exactly when the refill reached one.
   */
  lemma AcquireRefillsThenMaybeSpends(b: Bucket, now: real, maxRequests: int, timeWindow: real)
    requires timeWindow != 0.0
    ensures var r := AcquireSpec(b, now, maxRequests, timeWindow);
      var refilled := Refill(b.tokens, now - b.lastUpdate, maxRequests, timeWindow);
      && r.outcome != ZeroDivisionError
      && r.bucket.lastUpdate == now
      && r.bucket.tokens <= maxRequests as real
      && (r.outcome == Spent <==> refilled >= 1.0)
      && (r.outcome == Spent ==> r.bucket.tokens == refilled - 1.0)
      && (r.outcome == Skipped ==> r.bucket.tokens == refilled < 1.0)
  {
  }

  /** `0 <= tokens <= max_requests` is kept by every call whose clock has not run backwards. */
  lemma AcquireKeepsBounds(b: Bucket, now: real, maxRequests: int, timeWindow: real)
    requires 0 <= maxRequests && 0.0 < timeWindow
    requires 0.0 <= b.tokens <= maxRequests as real
    requires b.lastUpdate <= now
    ensures var r := AcquireSpec(b, now, maxRequests, timeWindow);
      0.0 <= r.bucket.tokens <= maxRequests as real
  {
    RefillBetween(b.tokens, now - b.lastUpdate, maxRequests, timeWindow);
  }

  /**
   * A burst at one instant: a bucket holding `k` whole tokens serves exactly the
   * first `k` calls made at its last-update time, and skips every call after them.
   */
  lemma {:induction false} BurstAtOneInstant(b: Bucket, k: nat, times: seq<real>, maxRequests: int, timeWindow: real)
    requires 0.0 < timeWindow && k <= maxRequests
    requires b.tokens == k as real
    requires forall i :: 0 <= i < |times| ==> times[i] == b.lastUpdate
    ensures forall i :: 0 <= i < |times| ==>
      && (Calls(b, times, maxRequests, timeWindow)[i] == Spent <==> i < k)
      && Calls(b, times, maxRequests, timeWindow)[i] != ZeroDivisionError
    decreases |times|
  {
    if times != [] {
      var r := AcquireSpec(b, times[0], maxRequests, timeWindow);
      RefillWithoutElapsedTime(b.tokens, maxRequests, timeWindow);
      var k' := if k == 0 then 0 else k - 1;
      assert r.bucket == Bucket(k' as real, b.lastUpdate);
      BurstAtOneInstant(r.bucket, k', times[1..], maxRequests, timeWindow);
      var rest := Calls(r.bucket, times[1..], maxRequests, timeWindow);
      assert Calls(b, times, maxRequests, timeWindow) == [r.outcome] + rest;
      assert r.outcome == Spent <==> 0 < k;
      assert |rest| == |times| - 1;
      var outcomes := Calls(b, times, maxRequests, timeWindow);
      forall i | 1 <= i < |times|
        ensures (outcomes[i] == Spent <==> i < k) && outcomes[i] != ZeroDivisionError
      {
        assert outcomes[i] == rest[i - 1];
      }
    }
  }

  class RateLimiter {
    const maxRequests: int
    const timeWindow: real
    var tokens: real
    var lastUpdate: real

    /** The bucket is never negative and never over capacity (for a sensible configuration). */
    ghost predicate Valid()
      reads this
    {
      0 <= maxRequests && 0.0 < timeWindow && 0.0 <= tokens <= maxRequests as real
    }

    /** `now` is the monotonic clock's reading at construction; the bucket starts full. */
    constructor (maxRequests: int, timeWindow: real, now: real)
      ensures this.maxRequests == maxRequests && this.timeWindow == timeWindow
      ensures tokens == maxRequests as real && lastUpdate == now
      ensures 0 <= maxRequests && 0.0 < timeWindow ==> Valid()
    {
      this.maxRequests := maxRequests;
      this.timeWindow := timeWindow;
      tokens := maxRequests as real;
      lastUpdate := now;
    }

    /** `acquire` at clock reading `now`. */
    method Acquire(now: real) returns (outcome: AcquireOutcome)
      modifies this
      ensures AcquireResult(outcome, Bucket(tokens, lastUpdate))
           == AcquireSpec(old(Bucket(tokens, lastUpdate)), now, maxRequests, timeWindow)
      ensures old(Valid()) && old(lastUpdate) <= now ==> Valid()
    {
      if timeWindow == 0.0 {
        return ZeroDivisionError;
      }
      ghost var before := Bucket(tokens, lastUpdate);
      tokens := Refill(tokens, now - lastUpdate, maxRequests, timeWindow);
      lastUpdate := now;
      if tokens < 1.0 {
        outcome := Skipped;
      } else {
        tokens := tokens - 1.0;
        outcome := Spent;
      }
      if old(Valid()) && before.lastUpdate <= now {
        AcquireKeepsBounds(before, now, maxRequests, timeWindow);
      }
    }
  }
}
