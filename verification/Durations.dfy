/** time.Duration, a signed 64-bit count of nanoseconds, and the exponential backoff of
    internal/telegram/retry/retry.go. */
module Durations {

  const TWO_62 := 0x4000_0000_0000_0000
  const TWO_63 := 0x8000_0000_0000_0000
  const TWO_64 := 0x1_0000_0000_0000_0000

  type Duration = d: int | -TWO_63 <= d < TWO_63

  const SECOND: Duration := 1_000_000_000

  /** Keeps the low 64 bits. */
  function Wrap(x: int): Duration {
    (x + TWO_63) % TWO_64 - TWO_63
  }

  function Pow2(n: nat): nat {
    if n == 0 then 1 else 2 * Pow2(n - 1)
  }

  /** d * 2^n, and n * d: products spelled out, so that the proofs stay linear. */
  function Doubled(d: int, n: nat): int {
    if n == 0 then d else 2 * Doubled(d, n - 1)
  }

  function Times(n: nat, d: int): int {
    if n == 0 then 0 else Times(n - 1, d) + d
  }

  lemma {:induction false} DoubledIsProduct(d: int, n: nat)
    ensures Doubled(d, n) == d * Pow2(n)
  {
    if n > 0 {
      DoubledIsProduct(d, n - 1);
      var p := Pow2(n - 1);
      assert 2 * (d * p) == d * (2 * p);
    }
  }

  lemma {:induction false} TimesIsProduct(n: nat, d: int)
    ensures Times(n, d) == n * d
  {
    if n > 0 {
      TimesIsProduct(n - 1, d);
      assert (n - 1) * d + d == n * d;
    }
  }

  lemma {:induction false} TimesGrows(m: nat, n: nat, d: int)
    requires m <= n && d >= 0
    ensures 0 <= Times(m, d) <= Times(n, d)
    decreases n
  {
    if m < n {
      TimesGrows(m, n - 1, d);
    } else if m > 0 {
      TimesGrows(m - 1, n - 1, d);
    }
  }

  lemma {:induction false} DoubledGrows(d: int, m: nat, n: nat)
    requires d >= 0 && m <= n
    ensures d <= Doubled(d, m) <= Doubled(d, n)
    decreases n
  {
    if m < n {
      DoubledGrows(d, m, n - 1);
    } else if m > 0 {
      DoubledGrows(d, m - 1, n - 1);
    }
  }

  /** Doubling first or last is the same. */
  lemma {:induction false} DoubleFirst(d: int, n: nat)
    requires n > 0
    ensures Doubled(d, n) == Doubled(2 * d, n - 1)
  {
    if n > 1 {
      DoubleFirst(d, n - 1);
    }
  }

  function Min(a: int, b: int): int {
    if a <= b then a else b
  }

  function Clamp(attempt: int): nat {
    if attempt < 0 then 0 else attempt
  }

  /** What is left of the doubling loop when the delay has reached d. */
  function Doubling(d: Duration, left: nat, maxDelay: Duration): Duration
    decreases left
  {
    if left == 0 then (if d > maxDelay then maxDelay else d)
    else if d >= maxDelay then maxDelay
    else Doubling(Wrap(2 * d), left - 1, maxDelay)
  }

  function Delay(attempt: int, base: Duration, maxDelay: Duration): Duration {
    Doubling(base, Clamp(attempt), maxDelay)
  }

  method Backoff(attempt: int, base: Duration, maxDelay: Duration) returns (d: Duration)
    ensures d == Delay(attempt, base, maxDelay)
  {
    var n := if attempt < 0 then 0 else attempt;
    d := base;
    var i := 0;
    while i < n
      invariant 0 <= i <= n
      invariant Doubling(d, n - i, maxDelay) == Doubling(base, n, maxDelay)
    {
      if d >= maxDelay {
        return maxDelay;
      }
      d := Wrap(2 * d);
      i := i + 1;
    }
    if d > maxDelay {
      return maxDelay;
    }
  }

  /** The documented value: base * 2^attempt, capped at maxDelay, over the integers. */
  function Documented(attempt: int, base: int, maxDelay: int): int {
    Min(base * Pow2(Clamp(attempt)), maxDelay)
  }

  /** The last doubling of a positive delay that still fits. */
  function TopDoubling(d: int): (t: int)
    requires 0 < d < TWO_63
    ensures TWO_62 <= t < TWO_63
    decreases TWO_62 - d
  {
    if d >= TWO_62 then d else TopDoubling(2 * d)
  }

  /** The settings for which no doubling overflows before the cap is reached. */
  predicate Safe(base: Duration, maxDelay: Duration) {
    base == 0 || (base > 0 && maxDelay <= TopDoubling(base))
  }

  lemma WrapFits(x: int)
    requires -TWO_63 <= x < TWO_63
    ensures Wrap(x) == x
  {
  }

  lemma {:induction false} DoublingIsExact(d: Duration, left: nat, maxDelay: Duration)
    requires Safe(d, maxDelay)
    ensures Doubling(d, left, maxDelay) == Min(Doubled(d, left), maxDelay)
    decreases left
  {
    if left > 0 {
      if d >= maxDelay {
        DoubledGrows(d, 0, left);
      } else {
        assert d < TWO_62;
        WrapFits(2 * d);
        DoublingIsExact(2 * d, left - 1, maxDelay);
        DoubleFirst(d, left);
      }
    }
  }

  /** How many doublings lead to the last one that fits. */
  lemma {:induction false} ReachTop(d: Duration) returns (n: nat)
    requires d > 0
    ensures Doubled(d, n) == TopDoubling(d)
    decreases TWO_62 - d
  {
    n := 0;
    if d < TWO_62 {
      var m := ReachTop(2 * d);
      n := m + 1;
      DoubleFirst(d, n);
    }
  }

  /** One doubling too many turns the delay negative. */
  lemma {:induction false} Overflows(d: Duration, n: nat, maxDelay: Duration)
    requires d > 0 && Doubled(d, n) == TopDoubling(d) < maxDelay
    ensures Doubling(d, n + 1, maxDelay) < 0
    decreases n
  {
    if n == 0 {
      assert Doubling(d, 1, maxDelay) == Doubling(Wrap(2 * d), 0, maxDelay);
    } else {
      DoubleFirst(d, n);
      DoubledGrows(2 * d, 0, n - 1);
      WrapFits(2 * d);
      Overflows(2 * d, n - 1, maxDelay);
    }
  }

  /** No doubling of a negative delay 64 times is a duration. */
  lemma {:induction false} FarBelow(d: int, n: nat)
    requires d < 0
    ensures Doubled(d, n) + Pow2(n) <= 0
  {
    if n > 0 {
      FarBelow(d, n - 1);
    }
  }

  /** Backoff returns the documented delay for every attempt exactly for the safe settings; for any
      other some attempt gets a delay that is not the documented one. */
  lemma BackoffExact(base: Duration, maxDelay: Duration)
    ensures Safe(base, maxDelay) <==>
            forall attempt: int :: Delay(attempt, base, maxDelay) == Documented(attempt, base, maxDelay)
  {
    if Safe(base, maxDelay) {
      forall attempt: int
        ensures Delay(attempt, base, maxDelay) == Documented(attempt, base, maxDelay)
      {
        DoublingIsExact(base, Clamp(attempt), maxDelay);
        DoubledIsProduct(base, Clamp(attempt));
      }
    } else if base < 0 {
      FarBelow(base, 64);
      DoubledIsProduct(base, 64);
      SixtyFour();
      assert Delay(64, base, maxDelay) != Documented(64, base, maxDelay);
    } else {
      var n := ReachTop(base);
      Overflows(base, n, maxDelay);
      DoubledIsProduct(base, n + 1);
      assert Delay(n + 1, base, maxDelay) != Documented(n + 1, base, maxDelay);
    }
  }

  lemma SixtyFour()
    ensures Pow2(64) == TWO_64
  {
    EightMore(0);
    EightMore(8);
    EightMore(16);
    EightMore(24);
    EightMore(32);
    EightMore(40);
    EightMore(48);
    EightMore(56);
  }

  lemma EightMore(n: nat)
    ensures Pow2(n + 8) == 256 * Pow2(n)
  {
    assert Pow2(n + 2) == 4 * Pow2(n);
    assert Pow2(n + 4) == 4 * Pow2(n + 2);
    assert Pow2(n + 6) == 4 * Pow2(n + 4);
  }

  /** In particular every cap up to 2^62 nanoseconds is safe, and the delay never shrinks. */
  lemma BackoffWithinCap(base: Duration, maxDelay: Duration, a: int, b: int)
    requires 0 <= base && maxDelay <= TWO_62 && a <= b
    ensures Delay(a, base, maxDelay) == Documented(a, base, maxDelay)
    ensures Delay(a, base, maxDelay) <= Delay(b, base, maxDelay)
  {
    DoublingIsExact(base, Clamp(a), maxDelay);
    DoublingIsExact(base, Clamp(b), maxDelay);
    DoubledGrows(base, Clamp(a), Clamp(b));
    DoubledIsProduct(base, Clamp(a));
  }

  /** Above that cap a delay can wrap all the way to zero. */
  lemma BackoffCanWrapToZero()
    ensures Delay(2, TWO_62, TWO_63 - 1) == 0
  {
    assert Wrap(2 * TWO_62) == -TWO_63;
    assert Wrap(2 * -TWO_63) == 0;
    assert Doubling(-TWO_63, 1, TWO_63 - 1) == Doubling(0, 0, TWO_63 - 1);
  }
}
