/** The limiter object each session owns (server/src/actor/ratelimit.rs). */
module RateLimiter {
  import opened TokenBucket

  class RateLimiter {
    var tokens: real
    var lastRefill: real
    const capacity: real
    const refillPerSec: real

    function Config(): Limits { Limits(capacity, refillPerSec) }

    function Value(): Bucket
      reads this
    {
      Bucket(tokens, lastRefill)
    }

    /** A full bucket: the state after an empty history. */
    constructor (capacity: real, refillPerSec: real, now: real)
      ensures this.capacity == capacity && this.refillPerSec == refillPerSec
      ensures Value() == After(Config(), now, [])
    {
      this.tokens := capacity;
      this.lastRefill := now;
      this.capacity := capacity;
      this.refillPerSec := refillPerSec;
    }

    method TryConsume(n: real, now: real) returns (ok: bool)
      modifies this
      ensures ok == Admits(Config(), old(Value()), Call(now, n))
      ensures Value() == Consume(Config(), old(Value()), Call(now, n))
    {
      var elapsed := if now >= lastRefill then now - lastRefill else 0.0;
      tokens := tokens + elapsed * refillPerSec;
      if tokens > capacity {
        tokens := capacity;
      }
      lastRefill := now;
      if tokens >= n {
        tokens := tokens - n;
        ok := true;
      } else {
        ok := false;
      }
    }
  }
}
