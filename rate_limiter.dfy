/**
 * The token bucket the collectors use to pace requests
 * (src/shared/rate-limiter.js): a bucket of at most `maxTokens` tokens that
 * refills continuously at `refillRate` tokens per minute; each request takes
 * one token. The clock (`Date.now()`, in milliseconds) is a parameter.
 */
module RateLimiter {
  import opened Numeric

  /** Whether `_refill` changes anything after `elapsedMs`: the elapsed time and the tokens it earns are positive. */
  predicate Refills(refillRate: real, elapsedMs: int)
  {
    elapsedMs > 0 && (elapsedMs as real * refillRate) / 60000.0 > 0.0
  }

  /** The tokens after `_refill`: the earned tokens are added, capped at `maxTokens`. */
  function Refilled(tokens: real, maxTokens: real, refillRate: real, elapsedMs: int): real
  {
    if Refills(refillRate, elapsedMs) then Min(maxTokens, tokens + (elapsedMs as real * refillRate) / 60000.0)
    else tokens
  }

  /**
   * Refilling never loses tokens, never exceeds the capacity, and never adds
   * more than the rate has earned in the elapsed time; with a positive rate
   * any positive elapsed time refills.
   */
  lemma RefilledBounds(tokens: real, maxTokens: real, refillRate: real, elapsedMs: int)
    requires 0.0 <= tokens <= maxTokens && refillRate > 0.0
    ensures var r := Refilled(tokens, maxTokens, refillRate, elapsedMs);
            && tokens <= r <= maxTokens
            && (elapsedMs > 0 ==> Refills(refillRate, elapsedMs) && r <= tokens + (elapsedMs as real * refillRate) / 60000.0)
            && (elapsedMs <= 0 ==> r == tokens)
  {
    if elapsedMs > 0 {
      assert elapsedMs as real * refillRate > 0.0;
      QuotientSign(elapsedMs as real * refillRate, 60000.0);
    }
  }

  /**
   * Refilling is path-independent: two refills after e1 and then e2
   * milliseconds leave the same tokens as one refill after e1 + e2.
   */
  lemma RefillSplits(tokens: real, maxTokens: real, refillRate: real, e1: nat, e2: nat)
    requires 0.0 <= tokens <= maxTokens && refillRate > 0.0
    ensures Refilled(Refilled(tokens, maxTokens, refillRate, e1), maxTokens, refillRate, e2)
            == Refilled(tokens, maxTokens, refillRate, e1 + e2)
  {
    RefilledBounds(tokens, maxTokens, refillRate, e1);
    RefilledBounds(tokens, maxTokens, refillRate, e1 + e2);
    var t1 := Refilled(tokens, maxTokens, refillRate, e1);
    RefilledBounds(t1, maxTokens, refillRate, e2);
    assert (e1 + e2) as real * refillRate / 60000.0
           == e1 as real * refillRate / 60000.0 + e2 as real * refillRate / 60000.0;
  }

  /** acquire's wait for the missing part of a token: `Math.ceil((1 - tokens) / refillRate * 60000)`. */
  function WaitMs(tokens: real, refillRate: real): int
    requires refillRate > 0.0
  {
    Ceil((1.0 - tokens) / refillRate * 60000.0)
  }

  /**
   * When `acquire` has to wait (less than one token), it waits at least one
   * millisecond, and waiting that long earns the missing part of a token: a
   * bucket that can hold a whole token then has one.
   */
  lemma WaitSuffices(tokens: real, maxTokens: real, refillRate: real)
    requires 0.0 <= tokens < 1.0 <= maxTokens && refillRate > 0.0
    ensures WaitMs(tokens, refillRate) >= 1
    ensures Refilled(tokens, maxTokens, refillRate, WaitMs(tokens, refillRate)) >= 1.0
  {
    var x := (1.0 - tokens) / refillRate * 60000.0;
    QuotientSign(1.0 - tokens, refillRate);
    var w := WaitMs(tokens, refillRate);
    assert w as real >= x;
    MulMonotone(refillRate, x, w as real);
    assert x * refillRate == (1.0 - tokens) * 60000.0;
    DivMonotone(x * refillRate, w as real * refillRate, 60000.0);
    RefilledBounds(tokens, maxTokens, refillRate, w);
  }

  class RateLimiter {
    const maxTokens: real
    const refillRate: real
    var tokens: real
    var lastRefill: int

    ghost predicate Valid()
      reads this
    {
      0.0 < maxTokens && 0.0 < refillRate && 0.0 <= tokens <= maxTokens
    }

    /** A full bucket whose last refill is now. */
    constructor (maxTokens: real, refillRate: real, now: int)
      requires maxTokens > 0.0 && refillRate > 0.0
      ensures Valid() && this.maxTokens == maxTokens && this.refillRate == refillRate
      ensures tokens == maxTokens && lastRefill == now
    {
      this.maxTokens := maxTokens;
      this.refillRate := refillRate;
      tokens := maxTokens;
      lastRefill := now;
    }

    /** `_refill()` at clock reading `now`. */
    method Refill(now: int)
      requires Valid()
      modifies this
      ensures Valid()
      ensures tokens == Refilled(old(tokens), maxTokens, refillRate, now - old(lastRefill))
      ensures lastRefill == if Refills(refillRate, now - old(lastRefill)) then now else old(lastRefill)
    {
      RefilledBounds(tokens, maxTokens, refillRate, now - lastRefill);
      var elapsedMs := now - lastRefill;
      if elapsedMs <= 0 {
        return;
      }
      var tokensToAdd := (elapsedMs as real * refillRate) / 60000.0;
      if tokensToAdd > 0.0 {
        tokens := Min(maxTokens, tokens + tokensToAdd);
        lastRefill := now;
      }
    }

    /**
     * `tryAcquire()` at clock reading `now`: after refilling, one token is
     * taken exactly when at least one is there.
     */
    method TryAcquire(now: int) returns (granted: bool)
      requires Valid()
      modifies this
      ensures Valid()
      ensures var refilled := Refilled(old(tokens), maxTokens, refillRate, now - old(lastRefill));
              && (granted <==> refilled >= 1.0)
              && tokens == (if granted then refilled - 1.0 else refilled)
      ensures lastRefill == if Refills(refillRate, now - old(lastRefill)) then now else old(lastRefill)
    {
      Refill(now);
      if tokens >= 1.0 {
        tokens := tokens - 1.0;
        return true;
      }
      return false;
    }
  }

  /** `new RateLimiter({ maxTokens, refillRate })`: None where the source throws (a non-finite or non-positive setting). */
  method NewRateLimiter(maxTokens: Option<real>, refillRate: Option<real>, now: int) returns (r: Option<RateLimiter>)
    ensures r.Some? <==> maxTokens.Some? && maxTokens.value > 0.0 && refillRate.Some? && refillRate.value > 0.0
    ensures r.Some? ==> fresh(r.value) && r.value.Valid() && r.value.tokens == r.value.maxTokens == maxTokens.value
                        && r.value.refillRate == refillRate.value && r.value.lastRefill == now
  {
    if maxTokens.None? || maxTokens.value <= 0.0 {
      return None;
    }
    if refillRate.None? || refillRate.value <= 0.0 {
      return None;
    }
    var limiter := new RateLimiter(maxTokens.value, refillRate.value, now);
    r := Some(limiter);
  }

  /**
   * A bucket the constructor accepts with a capacity below one token never
   * holds a whole token, so every `tryAcquire` fails and `acquire` waits
   * forever: whatever the elapsed time, the refilled bucket stays below 1.
   */
  lemma FractionalBucketNeverGrants(tokens: real, maxTokens: real, refillRate: real, elapsedMs: int)
    requires 0.0 <= tokens <= maxTokens < 1.0 && refillRate > 0.0
    ensures Refilled(tokens, maxTokens, refillRate, elapsedMs) < 1.0
  {
    RefilledBounds(tokens, maxTokens, refillRate, elapsedMs);
  }

  /**
   * The constructor with the capacity check that makes every accepted bucket
   * usable: at least one whole token. `acquire` on such a bucket always ends
   * after its computed wait (see `WaitSuffices`).
   */
  method NewUsableRateLimiter(maxTokens: Option<real>, refillRate: Option<real>, now: int) returns (r: Option<RateLimiter>)
    ensures r.Some? <==> maxTokens.Some? && maxTokens.value >= 1.0 && refillRate.Some? && refillRate.value > 0.0
    ensures r.Some? ==> fresh(r.value) && r.value.Valid() && r.value.maxTokens >= 1.0
                        && r.value.tokens == r.value.maxTokens == maxTokens.value
                        && r.value.refillRate == refillRate.value && r.value.lastRefill == now
  {
    if maxTokens.None? || maxTokens.value < 1.0 {
      return None;
    }
    if refillRate.None? || refillRate.value <= 0.0 {
      return None;
    }
    var limiter := new RateLimiter(maxTokens.value, refillRate.value, now);
    r := Some(limiter);
  }
}
