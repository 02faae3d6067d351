/**
 The capped doubling loops: retry of pending references (internal/app/service.go), of outbox
 events (internal/workers/outbox.go) and of queue messages (internal/adapters/sqs/consumer.go).
 Durations are int64 nanoseconds and doubling wraps around as Go's does.
 */
module Backoff {
  import opened Basics

  const TWO_64: int := 0x1_0000_0000_0000_0000

  function Wrap(x: int): Int64 {
    (x - MIN_INT64) % TWO_64 + MIN_INT64
  }

  function Doubled(d: Int64, max: Int64, steps: nat): Int64
    decreases steps
  {
    if steps == 0 || d >= max then d else Doubled(Wrap(d * 2), max, steps - 1)
  }

  /** The delay before a 1-based attempt. */
  function Delay(base: Int64, max: Int64, attempt: int): Int64 {
    var d := Doubled(base, max, if attempt > 1 then attempt - 1 else 0);
    if d > max then max else d
  }

  /** Service.backoff and OutboxPublisher.backoff. */
  method Compute(base: Int64, max: Int64, attempt: int) returns (d: Int64)
    ensures d == Delay(base, max, attempt)
  {
    d := base;
    var i := 1;
    while i < attempt && d < max
      invariant 1 <= i && (attempt >= 1 ==> i <= attempt)
      invariant Doubled(base, max, if attempt > 1 then attempt - 1 else 0)
             == Doubled(d, max, if attempt > i then attempt - i else 0)
      decreases attempt - i
    {
      d := Wrap(d * 2);
      i := i + 1;
    }
    if d > max {
      d := max;
    }
  }

  const SECOND: Int64 := 1_000_000_000
  const VISIBILITY_BASE: Int64 := 2 * SECOND
  const VISIBILITY_MAX: Int64 := 300 * SECOND

  /** visibilityBackoff of the consumer: two seconds doubling up to five minutes. */
  method Visibility(receiveCount: int) returns (d: Int64)
    ensures d == Delay(VISIBILITY_BASE, VISIBILITY_MAX, receiveCount)
    ensures VISIBILITY_BASE <= d <= VISIBILITY_MAX
  {
    d := VISIBILITY_BASE;
    var i := 1;
    while i < receiveCount && d < VISIBILITY_MAX
      invariant 1 <= i && (receiveCount >= 1 ==> i <= receiveCount)
      invariant VISIBILITY_BASE <= d < 2 * VISIBILITY_MAX
      invariant Doubled(VISIBILITY_BASE, VISIBILITY_MAX, if receiveCount > 1 then receiveCount - 1 else 0)
             == Doubled(d, VISIBILITY_MAX, if receiveCount > i then receiveCount - i else 0)
      decreases receiveCount - i
    {
      d := Wrap(d * 2);
      i := i + 1;
    }
    if d > VISIBILITY_MAX {
      d := VISIBILITY_MAX;
    }
  }

  /** d doubled n times without a width limit. */
  function Scaled(d: int, n: nat): int {
    if n == 0 then d else 2 * Scaled(d, n - 1)
  }

  function Pow2(n: nat): nat {
    if n == 0 then 1 else 2 * Pow2(n - 1)
  }

  lemma {:induction false} ScaledIsPower(d: int, n: nat)
    ensures Scaled(d, n) == d * Pow2(n)
  {
    if n > 0 {
      ScaledIsPower(d, n - 1);
      assert d * Pow2(n) == 2 * (d * Pow2(n - 1));
    }
  }

  /** The documented delay: base * 2^(n-1) limited to max. */
  function CappedExponential(base: int, max: int, attempt: nat): int
    requires attempt >= 1
  {
    if base * Pow2(attempt - 1) < max then base * Pow2(attempt - 1) else max
  }

  /** No doubling below the cap leaves int64. */
  ghost predicate NeverWraps(base: Int64, max: Int64) {
    forall k: nat :: Scaled(base, k) < max ==> 2 * Scaled(base, k) <= MAX_INT64
  }

  const HALF: int := 0x4000_0000_0000_0000

  /** The first of base, 2 base, 4 base, … that cannot be doubled within int64. */
  function LargestCap(base: int): int
    requires base > 0
    decreases HALF - base
  {
    if base >= HALF then base else LargestCap(2 * base)
  }

  lemma {:induction false} LargestCapIsScaled(base: int) returns (n: nat)
    requires base > 0
    ensures Scaled(base, n) == LargestCap(base) >= HALF
    ensures forall k: nat :: k < n ==> Scaled(base, k) < HALF
    decreases HALF - base
  {
    if base >= HALF {
      n := 0;
    } else {
      var m := LargestCapIsScaled(2 * base);
      n := m + 1;
      forall k: nat | k <= n ensures k > 0 ==> Scaled(base, k) == Scaled(2 * base, k - 1) {
        if k > 0 {
          ScaledShifts(base, k - 1);
        }
      }
    }
  }

  lemma {:induction false} ScaledShifts(base: int, k: nat)
    ensures Scaled(base, k + 1) == Scaled(2 * base, k)
  {
    if k > 0 {
      ScaledShifts(base, k - 1);
    }
  }

  /** The configurations that never wrap: the cap is at most the first doubling of the base that reaches 2^62. */
  lemma NeverWrapsWhenCapped(base: Int64, max: Int64)
    requires base > 0
    ensures NeverWraps(base, max) <==> max <= LargestCap(base)
  {
    var n := LargestCapIsScaled(base);
    if max <= LargestCap(base) {
      forall k: nat | Scaled(base, k) < max ensures 2 * Scaled(base, k) <= MAX_INT64 {
        if k >= n {
          ScaledGrows(base, n, k);
        }
      }
    } else {
      assert Scaled(base, n) < max && 2 * Scaled(base, n) > MAX_INT64;
    }
  }

  lemma {:induction false} ScaledGrows(d: int, m: nat, n: nat)
    requires d > 0 && m <= n
    ensures d <= Scaled(d, m) <= Scaled(d, n)
    decreases n
  {
    if n == 0 {
    } else if m == n {
      ScaledGrows(d, n - 1, n - 1);
    } else {
      ScaledGrows(d, m, n - 1);
    }
  }

  /** From the k-th doubling on, the loop yields the exact value as long as that is below the cap, and something at or over the cap afterwards. */
  lemma {:induction false} DoubledIsExponential(base: Int64, max: Int64, k: nat, steps: nat)
    requires base > 0 && NeverWraps(base, max)
    requires FitsInt64(Scaled(base, k))
    ensures var d := Doubled(Scaled(base, k), max, steps);
            if Scaled(base, k + steps) < max then d == Scaled(base, k + steps) else d >= max
    decreases steps
  {
    ScaledGrows(base, k, k + steps);
    if Scaled(base, k) < max && steps > 0 {
      ScaledGrows(base, 0, k);
      assert Scaled(base, k + 1) == 2 * Scaled(base, k);
      assert Wrap(2 * Scaled(base, k)) == Scaled(base, k + 1);
      DoubledIsExponential(base, max, k + 1, steps - 1);
    }
  }

  lemma DelayIsExponential(base: Int64, max: Int64, attempt: nat)
    requires base > 0 && NeverWraps(base, max) && attempt >= 1
    ensures Delay(base, max, attempt) == if Scaled(base, attempt - 1) < max then Scaled(base, attempt - 1) else max
  {
    DoubledIsExponential(base, max, 0, attempt - 1);
  }

  /** A doubling that leaves int64 turns the delay negative. */
  lemma {:induction false} WrapsAt(base: Int64, max: Int64, k: nat, i: nat)
    requires base > 0 && i <= k
    requires Scaled(base, k) < max && 2 * Scaled(base, k) > MAX_INT64
    ensures FitsInt64(Scaled(base, i)) && Doubled(Scaled(base, i), max, k + 1 - i) < 0
    decreases k - i
  {
    ScaledGrows(base, i, k);
    if i < k {
      assert Scaled(base, i + 1) == 2 * Scaled(base, i);
      ScaledGrows(base, i + 1, k);
      WrapsAt(base, max, k, i + 1);
    } else {
      var d: Int64 := Scaled(base, k);
      assert Doubled(Wrap(d * 2), max, 0) == Wrap(d * 2) < 0;
    }
  }

  /**
   The loop computes the documented delay for every attempt exactly when no doubling
   below the cap leaves int64.
   */
  lemma DelayIsCappedExponential(base: Int64, max: Int64)
    requires base > 0 && max > 0
    ensures NeverWraps(base, max) <==> forall n: nat :: n >= 1 ==> Delay(base, max, n) == CappedExponential(base, max, n)
  {
    if NeverWraps(base, max) {
      forall n: nat | n >= 1 ensures Delay(base, max, n) == CappedExponential(base, max, n) {
        DelayIsExponential(base, max, n);
        ScaledIsPower(base, n - 1);
      }
    } else {
      var k: nat :| Scaled(base, k) < max && 2 * Scaled(base, k) > MAX_INT64;
      WrapsAt(base, max, k, 0);
      ScaledGrows(base, 0, k + 1);
      ScaledIsPower(base, k + 1);
      assert Delay(base, max, k + 2) != CappedExponential(base, max, k + 2);
    }
  }

  /** In particular a maximum of at most 2^62 nanoseconds, some 146 years, gives the documented delays whatever the base. */
  lemma SmallCapNeverWraps(base: Int64, max: Int64, n: nat)
    requires base > 0 && 0 < max <= HALF && n >= 1
    ensures NeverWraps(base, max) && Delay(base, max, n) == CappedExponential(base, max, n)
  {
    DelayIsCappedExponential(base, max);
  }

  /** The consumer asks for redelivery after 2, 4, 8, 16, 32, 64, 128 and 256 seconds, and after five minutes from the ninth delivery on. */
  lemma VisibilityExactly(receiveCount: int)
    ensures Delay(VISIBILITY_BASE, VISIBILITY_MAX, receiveCount)
         == 1_000_000_000 * (if receiveCount <= 1 then 2 else if receiveCount == 2 then 4 else if receiveCount == 3 then 8
                             else if receiveCount == 4 then 16 else if receiveCount == 5 then 32 else if receiveCount == 6 then 64
                             else if receiveCount == 7 then 128 else if receiveCount == 8 then 256 else 300)
  {
    if receiveCount >= 1 {
      SmallCapNeverWraps(VISIBILITY_BASE, VISIBILITY_MAX, receiveCount);
      assert Pow2(1) == 2 && Pow2(2) == 4 && Pow2(3) == 8 && Pow2(4) == 16 && Pow2(5) == 32 && Pow2(6) == 64 && Pow2(7) == 128 && Pow2(8) == 256;
      if receiveCount >= 9 {
        PowGrows(8, receiveCount - 1);
      }
    }
  }

  lemma {:induction false} PowGrows(m: nat, n: nat)
    requires m <= n
    ensures Pow2(m) <= Pow2(n)
    decreases n
  {
    if m < n {
      PowGrows(m, n - 1);
    }
  }

  /** Delays stay within (0, max] and grow with the attempt. */
  lemma DelayBounds(base: Int64, max: Int64, attempt: nat, later: nat)
    requires base > 0 && max > 0 && NeverWraps(base, max)
    requires 1 <= attempt <= later
    ensures 0 < Delay(base, max, attempt) <= Delay(base, max, later) <= max
  {
    DelayIsExponential(base, max, attempt);
    DelayIsExponential(base, max, later);
    ScaledGrows(base, attempt - 1, later - 1);
  }

  /** With a cap over 2^62 the loop can return a negative delay. */
  lemma LargeCapCanWrap()
    ensures Delay(0x6000_0000_0000_0000, MAX_INT64, 2) < 0
  {
    assert Doubled(0x6000_0000_0000_0000, MAX_INT64, 1) == Doubled(Wrap(0x6000_0000_0000_0000 * 2), MAX_INT64, 0);
  }
}
