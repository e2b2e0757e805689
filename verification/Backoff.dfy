/** The delays between attempts to reconnect, with the arithmetic of unsigned 64-bit integers. */
module Backoff {
  const INITIAL_BACKOFF_MS: nat := 100
  const U64: nat := 0x1_0000_0000_0000_0000

  function Pow2(n: nat): nat {
    if n == 0 then 1 else 2 * Pow2(n - 1)
  }

  function Min(a: nat, b: nat): nat {
    if a < b then a else b
  }

  /** `2u64.saturating_pow`. */
  function SaturatingPow2(n: nat): nat {
    if n < 64 then Pow2(n) else U64 - 1
  }

  function SaturatingDecrement(n: nat): nat {
    if n == 0 then 0 else n - 1
  }

  /** The product before it is cut to 64 bits. */
  function Product(attempt: nat): nat {
    INITIAL_BACKOFF_MS * SaturatingPow2(SaturatingDecrement(attempt))
  }

  function CalculateBackoff(attempt: nat, maxDelay: nat): nat {
    Min(Product(attempt) % U64, maxDelay)
  }

  lemma {:induction false} Pow2Adds(a: nat, b: nat)
    ensures Pow2(a + b) == Pow2(a) * Pow2(b)
  {
    if a == 0 {
    } else {
      Pow2Adds(a - 1, b);
      assert a + b - 1 == a - 1 + b;
      assert Pow2(a) * Pow2(b) == 2 * (Pow2(a - 1) * Pow2(b));
    }
  }

  lemma {:induction false} Pow2Grows(a: nat, b: nat)
    requires a <= b
    ensures 0 < Pow2(a) <= Pow2(b)
    decreases b
  {
    if a < b {
      Pow2Grows(a, b - 1);
    } else if a > 0 {
      Pow2Grows(a - 1, b - 1);
    }
  }

  lemma Pow2Values()
    ensures Pow2(8) == 256 && Pow2(16) == 0x1_0000 && Pow2(32) == 0x1_0000_0000
    ensures Pow2(56) == 0x100_0000_0000_0000 && Pow2(64) == U64
  {
    assert Pow2(2) == 4;
    Pow2Adds(2, 2);
    assert Pow2(4) == 16;
    Pow2Adds(4, 4);
    assert Pow2(8) == 256;
    Pow2Adds(8, 8);
    assert Pow2(16) == 0x1_0000;
    Pow2Adds(16, 16);
    assert Pow2(32) == 0x1_0000_0000;
    Pow2Adds(32, 16);
    assert Pow2(48) == 0x1_0000_0000_0000;
    Pow2Adds(48, 8);
    Pow2Adds(32, 32);
  }

  lemma LatePowers()
    ensures Pow2(57) == 0x200_0000_0000_0000 && Pow2(58) == 0x400_0000_0000_0000
    ensures Pow2(59) == 0x800_0000_0000_0000 && Pow2(60) == 0x1000_0000_0000_0000
    ensures Pow2(61) == 0x2000_0000_0000_0000 && Pow2(62) == 0x4000_0000_0000_0000
    ensures Pow2(63) == 0x8000_0000_0000_0000
  {
    Pow2Values();
    assert Pow2(57) == 2 * Pow2(56);
    assert Pow2(58) == 2 * Pow2(57);
    assert Pow2(59) == 2 * Pow2(58);
    assert Pow2(60) == 2 * Pow2(59);
    assert Pow2(61) == 2 * Pow2(60);
    assert Pow2(62) == 2 * Pow2(61);
    assert Pow2(63) == 2 * Pow2(62);
  }

  /** The product fits in 64 bits exactly up to attempt 58. */
  lemma ProductFitsIff(attempt: nat)
    ensures Product(attempt) < U64 <==> attempt <= 58
  {
    LatePowers();
    var n := SaturatingDecrement(attempt);
    if attempt <= 58 {
      Pow2Grows(n, 57);
    } else if n < 64 {
      Pow2Grows(58, n);
    }
  }

  /** The delay that the attempt is meant to wait. */
  function Capped(attempt: nat, maxDelay: nat): nat
    requires attempt > 0
  {
    Min(INITIAL_BACKOFF_MS * Pow2(attempt - 1), maxDelay)
  }

  lemma BackoffIsCapped(attempt: nat, maxDelay: nat)
    requires 0 < attempt <= 58
    ensures CalculateBackoff(attempt, maxDelay) == Capped(attempt, maxDelay)
  {
    ProductFitsIff(attempt);
  }

  /** The largest maximal delay for which a late attempt still waits that long: what is left of its
      product after the cut to 64 bits. */
  function Remainder(attempt: nat): nat {
    if attempt == 59 then 9 * 0x1000_0000_0000_0000
    else if attempt == 60 then 0x2000_0000_0000_0000
    else if attempt == 61 then 0x4000_0000_0000_0000
    else if attempt == 62 then 0x8000_0000_0000_0000
    else if attempt == 63 || attempt == 64 then 0
    else U64 - 100
  }

  /** For every attempt the delay is the capped exponential exactly when the product fits, or the
      maximal delay is no more than what the cut leaves: with any positive maximum, attempts 63 and
      64 do not wait at all. */
  lemma BackoffIsCappedIff(attempt: nat, maxDelay: nat)
    requires attempt > 0 && maxDelay < U64
    ensures CalculateBackoff(attempt, maxDelay) == Capped(attempt, maxDelay)
       <==> attempt <= 58 || maxDelay <= Remainder(attempt)
    ensures attempt > 58 ==> CalculateBackoff(attempt, maxDelay) == Min(Remainder(attempt), maxDelay)
    ensures attempt > 58 ==> Capped(attempt, maxDelay) == maxDelay
  {
    if attempt <= 58 {
      BackoffIsCapped(attempt, maxDelay);
    } else {
      LatePowers();
      Pow2Grows(58, attempt - 1);
      assert Product(attempt) % U64 == Remainder(attempt);
    }
  }

  /** Up to attempt 58 the delays do not decrease. */
  lemma BackoffGrows(a: nat, b: nat, maxDelay: nat)
    requires 0 < a <= b <= 58
    ensures CalculateBackoff(a, maxDelay) <= CalculateBackoff(b, maxDelay)
  {
    BackoffIsCapped(a, maxDelay);
    BackoffIsCapped(b, maxDelay);
    Pow2Grows(a - 1, b - 1);
  }

  /** The delays of attempts 1 to `m` together. */
  function TotalDelay(m: nat, maxDelay: nat): nat {
    if m == 0 then 0 else TotalDelay(m - 1, maxDelay) + CalculateBackoff(m, maxDelay)
  }

  lemma {:induction false} TotalDelayIsBounded(m: nat, maxDelay: nat)
    requires m <= 58
    ensures TotalDelay(m, maxDelay) <= INITIAL_BACKOFF_MS * (Pow2(m) - 1)
    ensures TotalDelay(m, maxDelay) <= m * maxDelay
  {
    Pow2Grows(0, m);
    if m > 0 {
      TotalDelayIsBounded(m - 1, maxDelay);
      BackoffIsCapped(m, maxDelay);
      Pow2Grows(0, m - 1);
      assert m * maxDelay == (m - 1) * maxDelay + maxDelay;
    }
  }
}
