/**
 The backoff arithmetic of internal/magiclink/store.go. `time.Duration` is a signed 64-bit count of
 nanoseconds, and Go's `<<` discards the bits that do not fit.
 */
module Backoff {
  const RETRY_BASE_WAIT := 200_000_000
  const RETRY_MAX_WAIT := 1_000_000_000
  const TWO_63 := 0x8000_0000_0000_0000
  const TWO_64 := 0x1_0000_0000_0000_0000

  function Pow2(n: nat): (p: int)
    ensures p >= 1
  {
    if n == 0 then 1 else 2 * Pow2(n - 1)
  }

  /** The signed 64-bit integer with the low 64 bits of `x`. */
  function Wrap64(x: int): (y: int)
    ensures -TWO_63 <= y < TWO_63
    ensures -TWO_63 <= x < TWO_63 ==> y == x
  {
    (x + TWO_63) % TWO_64 - TWO_63
  }

  function BackoffCeiling(attempt: int): int
    requires attempt >= 1
  {
    var ceiling := Wrap64(RETRY_BASE_WAIT * Pow2(attempt - 1));
    if ceiling > RETRY_MAX_WAIT then RETRY_MAX_WAIT else ceiling
  }

  lemma {:induction false} Pow2Monotone(m: nat, n: nat)
    requires m <= n
    ensures Pow2(m) <= Pow2(n)
  {
    if m < n {
      Pow2Monotone(m, n - 1);
    }
  }

  lemma {:induction false} Pow2Adds(m: nat, n: nat)
    ensures Pow2(m + n) == Pow2(m) * Pow2(n)
  {
    if n > 0 {
      Pow2Adds(m, n - 1);
      assert Pow2(m + n) == 2 * (Pow2(m) * Pow2(n - 1));
    }
  }

  lemma Pow2Values()
    ensures Pow2(35) == 34359738368 && Pow2(36) == 68719476736 && Pow2(55) == 36028797018963968
  {
    assert Pow2(5) == 32 && Pow2(6) == 64 && Pow2(10) == 1024;
    Pow2Adds(10, 10);
    Pow2Adds(20, 10);
    Pow2Adds(30, 5);
    Pow2Adds(30, 6);
    Pow2Adds(30, 20);
    Pow2Adds(50, 5);
  }

  /** Up to attempt 36 nothing overflows: the ceiling doubles from 200 ms and is capped at 1 s. */
  lemma CeilingDoublesUpToTheCap(attempt: int)
    requires 1 <= attempt <= 36
    ensures RETRY_BASE_WAIT * Pow2(attempt - 1) < TWO_63
    ensures var doubled := RETRY_BASE_WAIT * Pow2(attempt - 1);
      BackoffCeiling(attempt) == if doubled < RETRY_MAX_WAIT then doubled else RETRY_MAX_WAIT
    ensures RETRY_BASE_WAIT <= BackoffCeiling(attempt) <= RETRY_MAX_WAIT
  {
    Pow2Monotone(attempt - 1, 35);
    Pow2Values();
  }

  /** The ceilings in nanoseconds: 200 ms, 400 ms, 800 ms, then 1 s as long as nothing overflows. */
  lemma CeilingValues(attempt: int)
    requires 1 <= attempt <= 36
    ensures BackoffCeiling(attempt) ==
      if attempt == 1 then 200_000_000 else if attempt == 2 then 400_000_000
      else if attempt == 3 then 800_000_000 else 1_000_000_000
  {
    CeilingDoublesUpToTheCap(attempt);
    assert Pow2(0) == 1 && Pow2(1) == 2 && Pow2(2) == 4 && Pow2(3) == 8;
    if attempt >= 4 {
      Pow2Monotone(3, attempt - 1);
    }
  }

  lemma CeilingMonotone(attempt: int, later: int)
    requires 1 <= attempt <= later <= 36
    ensures BackoffCeiling(attempt) <= BackoffCeiling(later)
  {
    CeilingDoublesUpToTheCap(attempt);
    CeilingDoublesUpToTheCap(later);
    Pow2Monotone(attempt - 1, later - 1);
  }

  /** The bound is tight: attempt 37 wraps to a negative ceiling, on which `rand.Int` panics. */
  lemma CeilingWrapsAt37()
    ensures BackoffCeiling(37) < 0
  {
    Pow2Values();
  }

  /** From attempt 56 on every bit is shifted out and the ceiling is zero. */
  lemma CeilingVanishesFrom56(attempt: int)
    requires attempt >= 56
    ensures BackoffCeiling(attempt) == 0
  {
    Pow2Adds(attempt - 56, 55);
    Pow2Values();
    MultipleWrapsToZero(390625 * Pow2(attempt - 56));
  }

  lemma MultipleWrapsToZero(k: int)
    ensures Wrap64(k * TWO_64) == 0
  {
  }

  /**
   Any delay below the ceiling can be drawn; a negative draw stands for a random source that fails, and gives
   half the ceiling. Later ceilings may make it panic.
   */
  function BackoffDelay(attempt: int, draw: int): (delay: int)
    requires 1 <= attempt <= 36
    ensures 0 <= delay < BackoffCeiling(attempt)
    ensures 0 <= draw < BackoffCeiling(attempt) ==> delay == draw
    ensures draw < 0 ==> delay == BackoffCeiling(attempt) / 2
  {
    CeilingDoublesUpToTheCap(attempt);
    if draw >= 0 then draw % BackoffCeiling(attempt) else BackoffCeiling(attempt) / 2
  }

  function Sum(delays: seq<int>): int {
    if delays == [] then 0 else Sum(delays[..|delays| - 1]) + delays[|delays| - 1]
  }

  /** The ceilings of the first `n` attempts. */
  function SumOfCeilings(n: nat): int {
    if n == 0 then 0 else SumOfCeilings(n - 1) + BackoffCeiling(n)
  }

  lemma {:induction false} CeilingsArePositive(m: nat, n: nat)
    requires m <= n <= 36
    ensures SumOfCeilings(m) + (n - m) * RETRY_BASE_WAIT <= SumOfCeilings(n)
  {
    if m < n {
      CeilingsArePositive(m, n - 1);
      CeilingDoublesUpToTheCap(n);
    }
  }

  /** Delays each drawn below their attempt's ceiling sum to less than the first `n` ceilings. */
  lemma {:induction false} DelaysBelowCeilings(delays: seq<int>, n: nat)
    requires |delays| <= n <= 36 && 0 < n
    requires forall i | 0 <= i < |delays| :: delays[i] < BackoffCeiling(i + 1)
    ensures Sum(delays) < SumOfCeilings(n)
  {
    if delays == [] {
      CeilingsArePositive(0, n);
    } else if |delays| < n {
      DelaysBelowCeilings(delays, n - 1);
      CeilingsArePositive(n - 1, n);
    } else if n > 1 {
      DelaysBelowCeilings(delays[..n - 1], n - 1);
    } else {
      assert Sum(delays) == Sum(delays[..0]) + delays[0];
    }
  }

  /** With the three attempts of the program, all waits together stay under 600 ms. */
  lemma ProductionWaitsAreShort(delays: seq<int>)
    requires |delays| <= 2
    requires forall i | 0 <= i < |delays| :: delays[i] < BackoffCeiling(i + 1)
    ensures Sum(delays) < 600_000_000
  {
  }
}
