/** The delay between two attempts on one provider: full jitter below a doubling,
    capped interval, computed in int64 nanoseconds, unless the provider named its
    own Retry-After. */
module Backoff {
  import opened Int64

  // The interval jitter is drawn from.
  function JitterCap(attempt: int, base: int, maxBackoff: int): int {
    var shift := if attempt < 0 then 0 else if attempt > 62 then 62 else attempt;
    var backoff := Wrap64(base * Pow2(shift));
    if backoff <= 0 || backoff > maxBackoff then maxBackoff else backoff
  }

  // A delay below the cap; a random source that yields any natural number is
  // reduced to the interval.
  function Jittered(cap: int, draw: nat): (d: int)
    ensures d >= 0 && (cap > 0 ==> d < cap)
  {
    if cap <= 0 then 0 else draw % cap
  }

  lemma BelowCap(cap: int, draw: nat)
    requires draw < cap
    ensures Jittered(cap, draw) == draw
  {
  }

  /** Jitter is full and even: of the draws below the cap exactly one gives each delay
      below it. */
  lemma JitterIsEven(cap: int, d: nat)
    requires d < cap
    ensures exists draw: nat :: draw < cap && Jittered(cap, draw) == d
    ensures forall a: nat, b: nat | a < cap && b < cap && Jittered(cap, a) == Jittered(cap, b) :: a == b
  {
    BelowCap(cap, d);
    forall a: nat, b: nat | a < cap && b < cap && Jittered(cap, a) == Jittered(cap, b) ensures a == b {
      BelowCap(cap, a);
      BelowCap(cap, b);
    }
  }

  /** The jittered delay stays within the ceiling for every attempt, base and draw,
      wrapped or not. */
  function FullJitterBackoff(attempt: int, base: int, maxBackoff: int, draw: nat): (d: int)
    ensures d >= 0 && (maxBackoff > 0 ==> d < maxBackoff)
  {
    Jittered(JitterCap(attempt, base, maxBackoff), draw)
  }

  // A provider's Retry-After, when positive, overrides the jittered delay.
  function BackoffFor(cap: int, retryAfter: int, draw: nat): (d: int)
    ensures d >= 0
    ensures retryAfter > 0 ==> d == retryAfter
    ensures retryAfter <= 0 && cap > 0 ==> d < cap
  {
    if retryAfter > 0 then retryAfter else Jittered(cap, draw)
  }

  lemma WrapDiffers(x: int)
    ensures exists k: int :: Wrap64(x) == x - k * TWO_64
  {
    assert Wrap64(x) == x - (x + TWO_63) / TWO_64 * TWO_64;
  }

  lemma PositiveMultiple(m: int, p: int)
    requires p >= 1 && m * p > 0
    ensures m * p >= p
  {
    assert m >= 1;
  }

  lemma FactorOut(base: int, k: int, p: int, q: int)
    ensures base * p - k * (p * q) == (base - k * q) * p
  {
  }

  // A wrapped product of 2^a is a multiple of 2^a, so if positive it is at least 2^a.
  lemma WrappedStaysMultiple(base: int, a: nat)
    requires a <= 62 && Wrap64(base * Pow2(a)) > 0
    ensures Wrap64(base * Pow2(a)) >= Pow2(a)
  {
    var p, q := Pow2(a), Pow2(64 - a);
    assert p * q == TWO_64 by {
      Pow2Words();
      Pow2Adds(a, 64 - a);
    }
    var x := base * p;
    WrapDiffers(x);
    var k: int :| Wrap64(x) == x - k * TWO_64;
    FactorOut(base, k, p, q);
    PositiveMultiple(base - k * q, p);
  }

  lemma CancelFactor(base: int, x: int, y: int)
    requires base > 0 && base * x > base * y
    ensures x > y
  {
  }

  lemma {:induction false} Pow2Grows(a: nat, b: nat)
    requires a <= b
    ensures Pow2(a) <= Pow2(b)
  {
    if a < b {
      Pow2Grows(a, b - 1);
    }
  }

  lemma ScaledGrows(base: int, a: nat, b: nat)
    requires base >= 1 && a <= b
    ensures base * Pow2(a) <= base * Pow2(b)
  {
    Pow2Grows(a, b);
  }

  /** The cap is min(base * 2^attempt, maxBackoff) exactly when the shifted product
      is representable or, if it wraps (or the shift was clamped), the value it
      wraps to is not a positive one below maxBackoff. */
  lemma JitterCapExact(attempt: nat, base: int, maxBackoff: int)
    requires 0 < base < TWO_63 && 0 < maxBackoff < TWO_63
    ensures
      var product := base * Pow2(if attempt > 62 then 62 else attempt);
      JitterCap(attempt, base, maxBackoff) == Lesser(base * Pow2(attempt), maxBackoff)
      <==> (attempt <= 62 && product < TWO_63) || !(0 < Wrap64(product) < maxBackoff)
  {
    var shift := if attempt > 62 then 62 else attempt;
    var product := base * Pow2(shift);
    assert product >= 1;
    if attempt > 62 {
      Pow2Words();
      ScaledGrows(base, 63, attempt);
      assert base * Pow2(attempt) >= TWO_63;
    }
  }

  // A shifted product that does not fit wraps to nothing below a small ceiling.
  lemma WrapsAbove(base: int, maxBackoff: int, shift: nat)
    requires 0 < base && 0 < maxBackoff && base * maxBackoff <= TWO_62 && shift <= 62 && base * Pow2(shift) >= TWO_63
    ensures !(0 < Wrap64(base * Pow2(shift)) < maxBackoff)
  {
    if 0 < Wrap64(base * Pow2(shift)) {
      WrappedStaysMultiple(base, shift);
      CancelFactor(base, Pow2(shift), maxBackoff);
    }
  }

  // Clamped at 62, a product that still fits is already at the ceiling.
  lemma ClampedAbove(base: int, maxBackoff: int)
    requires 0 < base && 0 < maxBackoff && base * maxBackoff <= TWO_62 && base * Pow2(62) < TWO_63
    ensures !(0 < Wrap64(base * Pow2(62)) < maxBackoff)
  {
    Pow2Words();
    CancelFactor(TWO_62, 2, base);
  }

  lemma FactorsFit(base: int, maxBackoff: int)
    requires 0 < base && 0 < maxBackoff && base * maxBackoff <= TWO_62
    ensures base <= TWO_62 && maxBackoff <= TWO_62
  {
    assert base <= base * maxBackoff && maxBackoff <= base * maxBackoff;
  }

  /** Small enough settings are exact at every attempt. */
  lemma JitterCapExactWhenSmall(attempt: nat, base: int, maxBackoff: int)
    requires 0 < base && 0 < maxBackoff && base * maxBackoff <= TWO_62
    ensures JitterCap(attempt, base, maxBackoff) == Lesser(base * Pow2(attempt), maxBackoff)
  {
    FactorsFit(base, maxBackoff);
    JitterCapExact(attempt, base, maxBackoff);
    var shift := if attempt > 62 then 62 else attempt;
    if base * Pow2(shift) >= TWO_63 {
      WrapsAbove(base, maxBackoff, shift);
    } else if attempt > 62 {
      ClampedAbove(base, maxBackoff);
    }
  }

  // With a base of 5 ns and a ceiling above 2^62 ns, attempt 62 wraps to 2^62.
  lemma JitterCapWraps()
    ensures JitterCap(62, 5, TWO_62 + 1) == TWO_62 && Lesser(5 * Pow2(62), TWO_62 + 1) == TWO_62 + 1
  {
    Pow2Words();
  }
}
