/**
 * The token-bucket rate limiter that guards every exchange call
 * (grid_trading/utils/rate_limiter.py).
 *
 * `acquire` holds the limiter's lock while it refills the bucket, one clock
 * reading per round, for as long as the bucket holds no positive amount, and
 * then spends one token. The monotonic clock is an input here: `clock` lists the
 * readings the wait loop would take, in order. The loop may wait for ever, so a
 * call whose readings run out before the bucket turns positive ends `Waiting`:
 * the call is still suspended and has spent nothing.
 */
module RateLimiting {
  import opened Wrappers
  import opened TokenBucket

  datatype AcquireOutcome =
    | Acquired           // one token spent, the guarded call may go ahead
    | Waiting            // still inside the wait loop when the readings ran out
    | ZeroDivisionError  // `time_window` is zero: the first refill raises

  datatype AcquireResult = AcquireResult(outcome: AcquireOutcome, bucket: Bucket, readings: nat)

  /** `initial_tokens or max_requests`: both `None` and `0` are falsy and give a full bucket. */
  function InitialTokens(initialTokens: Option<int>, maxRequests: int): (t: int)
    ensures initialTokens == None || initialTokens == Some(0) ==> t == maxRequests
    ensures initialTokens.Some? && initialTokens.value != 0 ==> t == initialTokens.value
  {
    match initialTokens
    case Some(n) => if n != 0 then n else maxRequests
    case None => maxRequests
  }

  /** The bucket after one refill round per reading, in order. */
  function RefillAll(b: Bucket, readings: seq<real>, maxRequests: int, timeWindow: real): Bucket
    requires timeWindow != 0.0
    decreases |readings|
  {
    if readings == [] then b
    else RefillAll(RefillAt(b, readings[0], maxRequests, timeWindow), readings[1..], maxRequests, timeWindow)
  }

  /** What `acquire` does to the bucket, given the clock readings it may take. */
  function AcquireSpec(b: Bucket, clock: seq<real>, maxRequests: int, timeWindow: real): AcquireResult
    decreases |clock|
  {
    if b.tokens > 0.0 then AcquireResult(Acquired, Bucket(b.tokens - 1.0, b.lastUpdate), 0)
    else if clock == [] then AcquireResult(Waiting, b, 0)
    else if timeWindow == 0.0 then AcquireResult(ZeroDivisionError, b, 1)
    else
      var r := AcquireSpec(RefillAt(b, clock[0], maxRequests, timeWindow), clock[1..], maxRequests, timeWindow);
      r.(readings := r.readings + 1)
  }

  /**
   * `acquire` is "refill while empty, then spend one": the readings it takes are
   * a prefix of the clock, before each of them the bucket held nothing positive,
   * and a completed call leaves exactly one token less than the refills gave it.
   */
  lemma {:induction false} AcquireRefillsThenSpends(b: Bucket, clock: seq<real>, maxRequests: int, timeWindow: real)
    requires timeWindow != 0.0
    ensures var r := AcquireSpec(b, clock, maxRequests, timeWindow);
      && r.readings <= |clock|
      && r.outcome != ZeroDivisionError
      && (forall k :: 0 <= k < r.readings ==> RefillAll(b, clock[..k], maxRequests, timeWindow).tokens <= 0.0)
      && var p := RefillAll(b, clock[..r.readings], maxRequests, timeWindow);
         && (r.outcome == Acquired ==> p.tokens > 0.0 && r.bucket == Bucket(p.tokens - 1.0, p.lastUpdate))
         && (r.outcome == Waiting ==> r.readings == |clock| && r.bucket == p && p.tokens <= 0.0)
    decreases |clock|
  {
    var r := AcquireSpec(b, clock, maxRequests, timeWindow);
    if b.tokens > 0.0 || clock == [] {
      assert clock[..0] == [];
    } else {
      var b1 := RefillAt(b, clock[0], maxRequests, timeWindow);
      var tail := clock[1..];
      AcquireRefillsThenSpends(b1, tail, maxRequests, timeWindow);
      var r1 := AcquireSpec(b1, tail, maxRequests, timeWindow);
      assert r == r1.(readings := r1.readings + 1);
      forall k | 1 <= k <= r.readings
        ensures RefillAll(b, clock[..k], maxRequests, timeWindow) == RefillAll(b1, tail[..k - 1], maxRequests, timeWindow)
      {
        assert clock[..k][0] == clock[0];
        assert clock[..k][1..] == tail[..k - 1];
      }
      forall k | 0 <= k < r.readings
        ensures RefillAll(b, clock[..k], maxRequests, timeWindow).tokens <= 0.0
      {
        if k == 0 {
          assert clock[..0] == [];
        }
      }
    }
  }

  /** If the bucket holds a positive amount on entry, no clock is read and exactly one token is spent. */
  lemma AcquireFastPath(b: Bucket, clock: seq<real>, maxRequests: int, timeWindow: real)
    requires b.tokens > 0.0
    ensures AcquireSpec(b, clock, maxRequests, timeWindow)
         == AcquireResult(Acquired, Bucket(b.tokens - 1.0, b.lastUpdate), 0)
  {
  }

  /** A completed call leaves more than -1 tokens: the loop only stops at a positive amount. */
  lemma {:induction false} AcquireLeavesMoreThanMinusOne(b: Bucket, clock: seq<real>, maxRequests: int, timeWindow: real)
    ensures var r := AcquireSpec(b, clock, maxRequests, timeWindow);
      r.outcome == Acquired ==> r.bucket.tokens > -1.0
    decreases |clock|
  {
    if b.tokens <= 0.0 && clock != [] && timeWindow != 0.0 {
      AcquireLeavesMoreThanMinusOne(RefillAt(b, clock[0], maxRequests, timeWindow), clock[1..], maxRequests, timeWindow);
    }
  }

  /** A bucket that is not over capacity stays within capacity, whatever the call's outcome. */
  lemma {:induction false} AcquireKeepsCapacity(b: Bucket, clock: seq<real>, maxRequests: int, timeWindow: real)
    requires b.tokens <= maxRequests as real
    ensures AcquireSpec(b, clock, maxRequests, timeWindow).bucket.tokens <= maxRequests as real
    decreases |clock|
  {
    if b.tokens <= 0.0 && clock != [] && timeWindow != 0.0 {
      AcquireKeepsCapacity(RefillAt(b, clock[0], maxRequests, timeWindow), clock[1..], maxRequests, timeWindow);
    }
  }

  /** `last_update` moves to the last reading taken, and stays put when no reading is taken. */
  lemma {:induction false} AcquireStampsLastReading(b: Bucket, clock: seq<real>, maxRequests: int, timeWindow: real)
    ensures var r := AcquireSpec(b, clock, maxRequests, timeWindow);
      && r.readings <= |clock|
      && (r.outcome == ZeroDivisionError ==> timeWindow == 0.0 && r.readings == 1 && r.bucket == b)
      && (r.readings == 0 ==> r.bucket.lastUpdate == b.lastUpdate)
      && (r.outcome != ZeroDivisionError && r.readings > 0 ==> r.bucket.lastUpdate == clock[r.readings - 1])
    decreases |clock|
  {
    if b.tokens <= 0.0 && clock != [] && timeWindow != 0.0 {
      AcquireStampsLastReading(RefillAt(b, clock[0], maxRequests, timeWindow), clock[1..], maxRequests, timeWindow);
    }
  }

  /** An empty bucket gets no token from readings at which no time has passed. */
  lemma {:induction false} AcquireNeedsElapsedTime(b: Bucket, clock: seq<real>, maxRequests: int, timeWindow: real)
    requires b.tokens <= 0.0
    requires forall i :: 0 <= i < |clock| ==> clock[i] == b.lastUpdate
    ensures AcquireSpec(b, clock, maxRequests, timeWindow).outcome != Acquired
    decreases |clock|
  {
    if clock != [] && timeWindow != 0.0 {
      var b1 := RefillAt(b, clock[0], maxRequests, timeWindow);
      RefillWithoutElapsedTime(b.tokens, maxRequests, timeWindow);
      AcquireNeedsElapsedTime(b1, clock[1..], maxRequests, timeWindow);
    }
  }

  /**
   * The wait ends: when the bucket's rate is positive and the last reading comes
   * late enough for the time since the last update to have refilled a positive
   * amount, the call acquires within the given readings.
   */
  lemma {:induction false} AcquireEventuallySucceeds(b: Bucket, clock: seq<real>, maxRequests: int, timeWindow: real)
    requires 0 < maxRequests && 0.0 < timeWindow
    requires clock != []
    requires b.tokens + Accrued(clock[|clock| - 1] - b.lastUpdate, maxRequests, timeWindow) > 0.0
    ensures AcquireSpec(b, clock, maxRequests, timeWindow).outcome == Acquired
    decreases |clock|
  {
    if b.tokens <= 0.0 {
      var now := clock[0];
      var b1 := RefillAt(b, now, maxRequests, timeWindow);
      if b1.tokens <= 0.0 {
        // The refill was not capped, since the cap is positive.
        assert b1.tokens == b.tokens + Accrued(now - b.lastUpdate, maxRequests, timeWindow);
        var last := clock[|clock| - 1];
        AccruedAdditive(now - b.lastUpdate, last - now, maxRequests, timeWindow);
        assert (now - b.lastUpdate) + (last - now) == last - b.lastUpdate;
        assert |clock| > 1;
        assert clock[1..][|clock[1..]| - 1] == last;
        AcquireEventuallySucceeds(b1, clock[1..], maxRequests, timeWindow);
      }
    }
  }

  /**
   * The wait loop as the limiter's purpose asks for it: wait until a whole token
   * is available (`tokens < 1` rather than `tokens <= 0`), then spend it.
   */
  function AcquireWholeSpec(b: Bucket, clock: seq<real>, maxRequests: int, timeWindow: real): AcquireResult
    decreases |clock|
  {
    if b.tokens >= 1.0 then AcquireResult(Acquired, Bucket(b.tokens - 1.0, b.lastUpdate), 0)
    else if clock == [] then AcquireResult(Waiting, b, 0)
    else if timeWindow == 0.0 then AcquireResult(ZeroDivisionError, b, 1)
    else
      var r := AcquireWholeSpec(RefillAt(b, clock[0], maxRequests, timeWindow), clock[1..], maxRequests, timeWindow);
      r.(readings := r.readings + 1)
  }

  /**
   * As written, an empty bucket of 30 requests per second hands out a token one
   * microsecond after it was emptied, and goes into debt for nearly a whole token.
   */
  lemma AsWrittenAcquiresAfterAMicrosecond()
    ensures var r := AcquireSpec(Bucket(0.0, 0.0), [0.000001], 30, 1.0);
      r.outcome == Acquired && r.bucket.tokens < -0.99
  {
  }

  /**
   * With the whole-token guard, a bucket holding less than one token never hands
   * one out at readings before the missing fraction has had time to accrue.
   */
  lemma {:induction false} WholeTokenWaitsForAccrual(b: Bucket, clock: seq<real>, maxRequests: int, timeWindow: real)
    requires b.tokens < 1.0
    requires timeWindow != 0.0
    requires forall i :: 0 <= i < |clock| ==>
      b.tokens + Accrued(clock[i] - b.lastUpdate, maxRequests, timeWindow) < 1.0
    ensures AcquireWholeSpec(b, clock, maxRequests, timeWindow).outcome != Acquired
    decreases |clock|
  {
    if clock != [] {
      var now := clock[0];
      var b1 := RefillAt(b, now, maxRequests, timeWindow);
      assert b1.tokens <= b.tokens + Accrued(now - b.lastUpdate, maxRequests, timeWindow);
      forall i | 0 <= i < |clock[1..]|
        ensures b1.tokens + Accrued(clock[1..][i] - b1.lastUpdate, maxRequests, timeWindow) < 1.0
      {
        var later := clock[1..][i];
        assert later == clock[i + 1];
        AccruedAdditive(now - b.lastUpdate, later - now, maxRequests, timeWindow);
        assert (now - b.lastUpdate) + (later - now) == later - b.lastUpdate;
      }
      WholeTokenWaitsForAccrual(b1, clock[1..], maxRequests, timeWindow);
    }
  }

  /** With the whole-token guard an emptied 30-per-second bucket makes the next call wait 1/30 s. */
  lemma WholeTokenEmptyBucketWaits(clock: seq<real>)
    requires forall i :: 0 <= i < |clock| ==> 0.0 <= clock[i] < 1.0 / 30.0
    ensures AcquireWholeSpec(Bucket(0.0, 0.0), clock, 30, 1.0).outcome != Acquired
  {
  }

  /** With the whole-token guard a bucket that starts non-negative never goes into debt. */
  lemma {:induction false} WholeTokenNeverBorrows(b: Bucket, clock: seq<real>, maxRequests: int, timeWindow: real)
    requires 0 <= maxRequests && 0.0 < timeWindow
    requires 0.0 <= b.tokens <= maxRequests as real
    requires forall i :: 0 <= i < |clock| ==> b.lastUpdate <= clock[i]
    requires forall i, j :: 0 <= i < j < |clock| ==> clock[i] <= clock[j]
    ensures 0.0 <= AcquireWholeSpec(b, clock, maxRequests, timeWindow).bucket.tokens
    decreases |clock|
  {
    if b.tokens < 1.0 && clock != [] {
      var b1 := RefillAt(b, clock[0], maxRequests, timeWindow);
      RefillBetween(b.tokens, clock[0] - b.lastUpdate, maxRequests, timeWindow);
      WholeTokenNeverBorrows(b1, clock[1..], maxRequests, timeWindow);
    }
  }

  class RateLimiter {
    const maxRequests: int
    const timeWindow: real
    var tokens: real
    var lastUpdate: real

    /** `now` is the monotonic clock's reading at construction. */
    constructor (maxRequests: int, timeWindow: real, initialTokens: Option<int>, now: real)
      ensures this.maxRequests == maxRequests && this.timeWindow == timeWindow
      ensures tokens == InitialTokens(initialTokens, maxRequests) as real
      ensures lastUpdate == now
    {
      this.maxRequests := maxRequests;
      this.timeWindow := timeWindow;
      tokens := InitialTokens(initialTokens, maxRequests) as real;
      lastUpdate := now;
    }

    /** `acquire`: the returned count says how many of the clock readings the call took. */
    method Acquire(clock: seq<real>) returns (outcome: AcquireOutcome, readings: nat)
      modifies this
      ensures AcquireResult(outcome, Bucket(tokens, lastUpdate), readings)
           == AcquireSpec(old(Bucket(tokens, lastUpdate)), clock, maxRequests, timeWindow)
    {
      ghost var spec := AcquireSpec(Bucket(tokens, lastUpdate), clock, maxRequests, timeWindow);
      readings := 0;
      while tokens <= 0.0
        invariant readings <= |clock|
        invariant var r := AcquireSpec(Bucket(tokens, lastUpdate), clock[readings..], maxRequests, timeWindow);
          spec == r.(readings := r.readings + readings)
        decreases |clock| - readings
      {
        if readings == |clock| {
          return Waiting, readings;
        }
        var now := clock[readings];
        readings := readings + 1;
        if timeWindow == 0.0 {
          return ZeroDivisionError, readings;
        }
        assert clock[readings - 1..][1..] == clock[readings..];
        tokens := Refill(tokens, now - lastUpdate, maxRequests, timeWindow);
        lastUpdate := now;
      }
      tokens := tokens - 1.0;
      outcome := Acquired;
    }

    /** `__aenter__`: acquire, then enter the guarded block. */
    method Enter(clock: seq<real>) returns (outcome: AcquireOutcome, readings: nat)
      modifies this
      ensures AcquireResult(outcome, Bucket(tokens, lastUpdate), readings)
           == AcquireSpec(old(Bucket(tokens, lastUpdate)), clock, maxRequests, timeWindow)
    {
      outcome, readings := Acquire(clock);
    }

    /** `__aexit__`: tokens are spent, not borrowed, so leaving the block gives nothing back. */
    method Exit()
      ensures tokens == old(tokens) && lastUpdate == old(lastUpdate)
    {
    }
  }
}
