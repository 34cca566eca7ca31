/**
 * The refill rule shared by both rate limiters: tokens accrue in proportion to
 * the time elapsed since the last update, at `max_requests` per `time_window`,
 * and never above `max_requests`.
 */
module TokenBucket {

  function Min(a: real, b: real): real {
    if a <= b then a else b
  }

  /** Tokens accrued over `elapsed` seconds at `maxRequests` per `timeWindow`, before the cap. */
  function Accrued(elapsed: real, maxRequests: int, timeWindow: real): real
    requires timeWindow != 0.0
  {
    elapsed * (maxRequests as real) / timeWindow
  }

  /** `min(max_requests, tokens + time_passed * max_requests / time_window)`. */
  function Refill(tokens: real, elapsed: real, maxRequests: int, timeWindow: real): (r: real)
    requires timeWindow != 0.0
    ensures r <= maxRequests as real
    ensures r <= tokens + Accrued(elapsed, maxRequests, timeWindow)
    ensures r == maxRequests as real || r == tokens + Accrued(elapsed, maxRequests, timeWindow)
  {
    Min(maxRequests as real, tokens + Accrued(elapsed, maxRequests, timeWindow))
  }

  /** Accrual over two consecutive intervals equals accrual over their union. */
  lemma AccruedAdditive(e1: real, e2: real, maxRequests: int, timeWindow: real)
    requires timeWindow != 0.0
    ensures Accrued(e1, maxRequests, timeWindow) + Accrued(e2, maxRequests, timeWindow)
         == Accrued(e1 + e2, maxRequests, timeWindow)
  {
  }

  /**
   * A refill from a bucket that is at most full, after time that did not run
   * backwards, keeps the bucket between what it held and its capacity.
   */
  lemma RefillBetween(tokens: real, elapsed: real, maxRequests: int, timeWindow: real)
    requires 0 <= maxRequests && 0.0 < timeWindow && 0.0 <= elapsed
    requires tokens <= maxRequests as real
    ensures tokens <= Refill(tokens, elapsed, maxRequests, timeWindow) <= maxRequests as real
  {
  }

  /** When no time has passed the refill adds nothing (it may only cap an overfull bucket). */
  lemma RefillWithoutElapsedTime(tokens: real, maxRequests: int, timeWindow: real)
    requires timeWindow != 0.0
    ensures Refill(tokens, 0.0, maxRequests, timeWindow) == Min(maxRequests as real, tokens)
  {
  }

  /** The bucket's two fields: what it holds and when it was last refilled. */
  datatype Bucket = Bucket(tokens: real, lastUpdate: real)

  /** One refill: top up for the time since the last update and move the update stamp to `now`. */
  function RefillAt(b: Bucket, now: real, maxRequests: int, timeWindow: real): Bucket
    requires timeWindow != 0.0
  {
    Bucket(Refill(b.tokens, now - b.lastUpdate, maxRequests, timeWindow), now)
  }
}
