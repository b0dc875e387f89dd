/**
 `RateLimiter` of legacy/challenge-7/chat.go and internal/middleware/rateLimiter.go in its own form,
 proved against module TokenBucket. The time is a parameter.
 */
module Limiter {
  import opened TokenBucket

  class RateLimiter {
    var tokens: int
    var lastTick: int
    const burst: int
    const rate: int

    ghost function View(): Bucket
      reads this
    {
      Bucket(tokens, lastTick, burst, rate)
    }

    constructor (burst: int, rate: int, now: int)
      ensures View() == Bucket(burst, now, burst, rate)
    {
      tokens, lastTick, this.burst, this.rate := burst, now, burst, rate;
    }

    method Allow(now: int) returns (ok: bool)
      requires rate > 0
      modifies this
      ensures (View(), ok) == TokenBucket.Allow(old(View()), now)
    {
      var last := lastTick;
      var elapsed := now - last;
      var generated := Int32(Quotient(elapsed, rate));
      if generated > 0 {
        lastTick := now;
        var newBalance := Int32(tokens + generated);
        if newBalance >= burst {
          newBalance := burst;
        }
        tokens := newBalance;
      }
      if tokens <= 0 {
        return false;
      }
      tokens := tokens - 1;
      return true;
    }
  }
}
