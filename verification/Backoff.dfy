/**
 The two exponential back-offs, with their clamps and their 64-bit arithmetic.
 */
module Backoff {
  import opened Machine

  function Pow2(n: nat): (p: nat)
    ensures 1 <= p
  {
    if n == 0 then 1 else 2 * Pow2(n - 1)
  }

  function Capped(seconds: int, cap: int): int { if seconds > cap then cap else seconds }

  const MAX_SHIFT: nat := 30

  /** The exponent both back-offs derive from an attempt number. */
  function Exponent(attempt: int): nat {
    if attempt < 1 then 0 else if attempt - 1 > MAX_SHIFT then MAX_SHIFT else attempt - 1
  }

  /** retryBackoff, in seconds. */
  function RetrySeconds(base: Int64, cap: Int64, attempt: int): int {
    Capped(Wrap(base * Pow2(Exponent(attempt))), cap)
  }

  /** The dispatcher's backoff, in seconds. */
  function DispatchSeconds(cap: Int64, attempt: int): int {
    Capped(Pow2(Exponent(attempt)), cap)
  }

  const NANOS_PER_SECOND: int := 1_000_000_000

  /** The time.Duration both return. */
  function Nanoseconds(seconds: int): Int64 { Wrap(seconds * NANOS_PER_SECOND) }

  /** The unclamped, unbounded ideal: base, doubled with every attempt, up to the cap. */
  function Ideal(base: int, cap: int, attempt: nat): int
    requires 1 <= attempt
  {
    if base * Pow2(attempt - 1) > cap then cap else base * Pow2(attempt - 1)
  }

  lemma {:induction false} Pow2Grows(m: nat, n: nat)
    requires m <= n
    ensures Pow2(m) <= Pow2(n)
    decreases n
  {
    if m < n { Pow2Grows(m, n - 1); }
  }

  lemma ScaledGrows(base: nat, p: nat, q: nat)
    requires p <= q
    ensures base * p <= base * q
  {
  }

  lemma Pow2Of30()
    ensures Pow2(30) == 0x4000_0000
    ensures Pow2(31) == 0x8000_0000
  {
    assert Pow2(10) == 1024;
    assert Pow2(20) == 1024 * 1024;
  }

  /** A base below 2^31 never overflows the product. */
  lemma ProductFits(base: Int64, attempt: int)
    requires 1 <= base < 0x8000_0000
    ensures 1 <= base * Pow2(Exponent(attempt)) < TWO_62
    ensures Wrap(base * Pow2(Exponent(attempt))) == base * Pow2(Exponent(attempt))
  {
    Pow2Of30();
    Pow2Grows(Exponent(attempt), MAX_SHIFT);
    ScaledGrows(base, Pow2(Exponent(attempt)), 0x4000_0000);
    ScaledGrows(base, 1, Pow2(Exponent(attempt)));
    WrapIsExact(base * Pow2(Exponent(attempt)));
  }

  /** The clamp shows exactly when the cap lies beyond base * 2^30. */
  lemma RetryIsIdealExactlyWhen(base: Int64, cap: Int64)
    requires 1 <= base < 0x8000_0000
    ensures (forall attempt: nat :: 1 <= attempt ==> RetrySeconds(base, cap, attempt) == Ideal(base, cap, attempt))
            <==> cap <= base * Pow2(30)
  {
    if cap <= base * Pow2(30) {
      forall attempt: nat | 1 <= attempt ensures RetrySeconds(base, cap, attempt) == Ideal(base, cap, attempt) {
        ProductFits(base, attempt);
        if attempt - 1 > MAX_SHIFT {
          Pow2Grows(MAX_SHIFT, attempt - 1);
          ScaledGrows(base, Pow2(MAX_SHIFT), Pow2(attempt - 1));
        }
      }
    } else {
      ProductFits(base, 32);
      Pow2Of30();
      assert RetrySeconds(base, cap, 32) != Ideal(base, cap, 32);
    }
  }

  /** The delay for every attempt: the ideal one, with no attempt below the first and none beyond the thirty-first. */
  lemma RetryCounts(base: Int64, cap: Int64, attempt: int)
    requires 1 <= base < 0x8000_0000
    ensures RetrySeconds(base, cap, attempt)
            == Ideal(base, cap, if attempt < 1 then 1 else if attempt > 31 then 31 else attempt)
  {
    ProductFits(base, attempt);
  }

  /** Waiting never gets shorter with more attempts, clamped or not. */
  lemma RetryNeverShrinks(base: Int64, cap: Int64, a: int, b: int)
    requires 1 <= base < 0x8000_0000 && a <= b
    ensures RetrySeconds(base, cap, a) <= RetrySeconds(base, cap, b)
  {
    ProductFits(base, a);
    ProductFits(base, b);
    Pow2Grows(Exponent(a), Exponent(b));
    ScaledGrows(base, Pow2(Exponent(a)), Pow2(Exponent(b)));
  }

  /** The dispatcher's back-off is the worker's with base 1. */
  lemma DispatchIsBaseOne(cap: Int64, attempt: int)
    ensures DispatchSeconds(cap, attempt) == RetrySeconds(1, cap, attempt)
  {
    ProductFits(1, attempt);
  }

  /** Seconds become nanoseconds without overflow exactly up to 9 223 372 036 seconds. */
  lemma DurationIsExactExactlyWhen(seconds: nat)
    ensures Nanoseconds(seconds) == seconds * 1_000_000_000 <==> seconds <= 9_223_372_036
  {
    WrapIsExact(seconds * NANOS_PER_SECOND);
  }

  /** isRetryableCallbackFailure; code 0 stands for no response at all. */
  predicate IsRetryable(code: int) {
    code == 0 || code == 408 || code == 425 || code == 429 || code >= 500
  }
}
