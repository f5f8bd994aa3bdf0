/**
 The retry policy (crates/grpc-quic-client/src/retry.rs), over the reals instead of f64.
 Durations are in nanoseconds.
 */
module Retry {

  const NANOS_PER_MILLI: nat := 1_000_000
  const U64_MAX: nat := 0xFFFF_FFFF_FFFF_FFFF
  const I32_LIMIT: nat := 0x8000_0000
  const U32_LIMIT: nat := 0x1_0000_0000

  datatype RetryPolicy = RetryPolicy(
    maxAttempts: nat,
    initialBackoff: nat,
    multiplier: real,
    maxBackoff: nat)

  // a times the n-th power of x, for the exponents n and -n of `powi`.
  function Scaled(a: real, x: real, n: nat): real {
    if n == 0 then a else Scaled(a, x, n - 1) * x
  }

  function Shrunk(a: real, x: real, n: nat): real
    requires x != 0.0
  {
    if n == 0 then a else Shrunk(a, x, n - 1) / x
  }

  // A float to u64 cast saturates at both ends and drops the fraction.
  function SaturatingCast(x: real): nat {
    if x <= 0.0 then 0 else if x >= U64_MAX as real then U64_MAX else x.Floor
  }

  function InitialMillis(p: RetryPolicy): nat {
    p.initialBackoff / NANOS_PER_MILLI
  }

  // `powi(attempt as i32)`: from 2^31 on the cast wraps and the exponent is negative. A negative
  // power of 0 is infinite, which saturates, or with nothing to scale is no number, which casts to 0.
  function BackoffMillis(p: RetryPolicy, attempt: nat): nat
    requires attempt < U32_LIMIT
  {
    var initial := InitialMillis(p) as real;
    if attempt < I32_LIMIT then SaturatingCast(Scaled(initial, p.multiplier, attempt))
    else if p.multiplier == 0.0 then if initial == 0.0 then 0 else U64_MAX
    else SaturatingCast(Shrunk(initial, p.multiplier, U32_LIMIT - attempt))
  }

  function BackoffFor(p: RetryPolicy, attempt: nat): nat
    requires attempt < U32_LIMIT
  {
    var d := BackoffMillis(p, attempt) * NANOS_PER_MILLI;
    if d <= p.maxBackoff then d else p.maxBackoff
  }

  // The sleeps of a call that makes `attempts` attempts: one before each retry.
  function Naps(p: RetryPolicy, attempts: nat): (naps: seq<nat>)
    requires attempts <= U32_LIMIT
    ensures |naps| == if attempts == 0 then 0 else attempts - 1
  {
    seq(if attempts == 0 then 0 else attempts - 1,
        k requires 0 <= k < U32_LIMIT => BackoffFor(p, k))
  }

  function Total(naps: seq<nat>): nat {
    if naps == [] then 0 else Total(naps[..|naps| - 1]) + naps[|naps| - 1]
  }

  // ---------------------------------------------------------------- powers

  lemma MulMonotone(a: real, b: real, c: real)
    requires 0.0 <= a <= b && 0.0 <= c
    ensures a * c <= b * c
  {
  }

  lemma Stretch(a: real, x: real)
    requires 0.0 <= a && 1.0 <= x
    ensures a <= a * x
  {
    MulMonotone(1.0, x, a);
  }

  lemma {:induction false} ScaledGrows(a: real, x: real, i: nat, j: nat)
    requires 0.0 <= a && x >= 1.0 && i <= j
    ensures a <= Scaled(a, x, i) <= Scaled(a, x, j)
    decreases j
  {
    if j == 0 {
    } else {
      var s := Scaled(a, x, j - 1);
      ScaledGrows(a, x, if i == j then i - 1 else i, j - 1);
      Stretch(s, x);
      assert Scaled(a, x, j) == s * x;
    }
  }

  lemma Shrink(a: real, x: real)
    requires 0.0 <= a && 1.0 <= x
    ensures 0.0 <= a / x <= a
  {
    var q := a / x;
    assert q * x == a;
    if q < 0.0 {
      MulMonotone(0.0, -q, x);
      Stretch(-q, x);
    } else {
      Stretch(q, x);
    }
  }

  lemma {:induction false} ShrunkFalls(a: real, x: real, i: nat, j: nat)
    requires 0.0 <= a && x >= 1.0 && i <= j
    ensures 0.0 <= Shrunk(a, x, j) <= Shrunk(a, x, i) <= a
    decreases j
  {
    if j == 0 {
    } else if i == j {
      ShrunkFalls(a, x, i - 1, j - 1);
      Shrink(Shrunk(a, x, j - 1), x);
    } else {
      ShrunkFalls(a, x, i, j - 1);
      Shrink(Shrunk(a, x, j - 1), x);
    }
  }

  lemma MulStrict(a: real, b: real, c: real)
    requires a < b && 0.0 < c
    ensures a * c < b * c
  {
  }

  lemma ShrinkStrictly(a: real, x: real)
    requires 0.0 < a && 1.0 < x
    ensures a / x < a
  {
    MulStrict(1.0, x, a);
    assert a / x * x == a;
  }

  lemma ShrunkBelow(a: real, x: real, n: nat)
    requires 0.0 < a && x > 1.0 && n > 0
    ensures 0.0 <= Shrunk(a, x, n) < a
  {
    ShrunkFalls(a, x, 1, n);
    assert Shrunk(a, x, 0) == a;
    ShrinkStrictly(a, x);
  }

  lemma Halve(a: real, x: real)
    requires 0.0 <= a && 2.0 <= x
    ensures 2.0 * (a / x) <= a
  {
    var q := a / x;
    assert q * x == a;
    Shrink(a, x);
    MulMonotone(2.0, x, q);
  }

  lemma OneMoreHalf(a: real, s: real, t: real, n: nat)
    requires 1 <= n && 0.0 <= t && 2.0 * t <= s && n as real * s <= a
    ensures (n + 1) as real * t <= a
  {
    MulMonotone((n + 1) as real, 2.0 * n as real, t);
    MulMonotone(2.0 * t, s, n as real);
  }

  // Dividing n times by 2 or more leaves at most the (n+1)-st part.
  lemma {:induction false} ShrunkFast(a: real, x: real, n: nat)
    requires 0.0 <= a && x >= 2.0
    ensures 0.0 <= Shrunk(a, x, n) && (n + 1) as real * Shrunk(a, x, n) <= a
  {
    if n == 0 {
    } else {
      var s := Shrunk(a, x, n - 1);
      ShrunkFast(a, x, n - 1);
      Halve(s, x);
      Shrink(s, x);
      OneMoreHalf(a, s, s / x, n);
      assert Shrunk(a, x, n) == s / x;
    }
  }

  lemma CastMonotone(x: real, y: real)
    requires x <= y
    ensures SaturatingCast(x) <= SaturatingCast(y)
  {
  }

  lemma CastExact(x: real)
    requires 0.0 <= x
    ensures SaturatingCast(x) as real <= x
    ensures x < U64_MAX as real ==> x < (SaturatingCast(x) + 1) as real
  {
  }

  // ---------------------------------------------------------------- below 2^31 attempts

  lemma MillisMonotone(p: RetryPolicy, i: nat, j: nat)
    requires p.multiplier >= 1.0 && i <= j < I32_LIMIT
    ensures BackoffMillis(p, i) <= BackoffMillis(p, j)
  {
    var initial := InitialMillis(p) as real;
    ScaledGrows(initial, p.multiplier, i, j);
    CastMonotone(Scaled(initial, p.multiplier, i), Scaled(initial, p.multiplier, j));
  }

  /** The backoff grows with the attempt, and once at the cap it stays there. */
  lemma BackoffMonotone(p: RetryPolicy, i: nat, j: nat)
    requires p.multiplier >= 1.0 && i <= j < I32_LIMIT
    ensures BackoffFor(p, i) <= BackoffFor(p, j) <= p.maxBackoff
    ensures BackoffFor(p, i) == p.maxBackoff ==> BackoffFor(p, j) == p.maxBackoff
  {
    MillisMonotone(p, i, j);
  }

  /** Below the cap and below 64 bits the backoff is the exact product, cut to whole milliseconds. */
  lemma BackoffExact(p: RetryPolicy, k: nat)
    requires p.multiplier >= 0.0 && k < I32_LIMIT
    ensures BackoffFor(p, k) <= p.maxBackoff
    ensures var exact := Scaled(InitialMillis(p) as real, p.multiplier, k);
            BackoffFor(p, k) < p.maxBackoff && exact < U64_MAX as real ==>
              exists ms: nat :: BackoffFor(p, k) == ms * NANOS_PER_MILLI && ms as real <= exact < (ms + 1) as real
  {
    var ms := BackoffMillis(p, k);
    ScaledUnits(InitialMillis(p) as real, p.initialBackoff as real, p.multiplier, k);
    CastExact(Scaled(InitialMillis(p) as real, p.multiplier, k));
  }

  lemma {:induction false} ScaledShift(a: real, x: real, n: nat)
    ensures Scaled(a * x, x, n) == Scaled(a, x, n + 1)
  {
    if n == 0 {
      assert Scaled(a, x, 1) == Scaled(a, x, 0) * x;
    } else {
      ScaledShift(a, x, n - 1);
    }
  }

  lemma {:induction false} ScaledUndoesShrunk(a: real, x: real, n: nat)
    requires x != 0.0
    ensures Scaled(Shrunk(a, x, n), x, n) == a
  {
    if n == 0 {
    } else {
      var q := Shrunk(a, x, n);
      assert q * x == Shrunk(a, x, n - 1);
      ScaledShift(q, x, n - 1);
      ScaledUndoesShrunk(a, x, n - 1);
    }
  }

  ghost predicate Quotient(product: real, p: RetryPolicy, k: nat)
    requires k < U32_LIMIT
  {
    Scaled(product, p.multiplier, U32_LIMIT - k) == InitialMillis(p) as real
  }

  /** From attempt 2^31 on the product is what the power of the wrapped exponent makes the start of. */
  lemma BackoffWrapped(p: RetryPolicy, k: nat)
    requires p.multiplier >= 1.0 && I32_LIMIT <= k < U32_LIMIT
    ensures BackoffFor(p, k) <= p.maxBackoff
    ensures exists product: real :: Quotient(product, p, k)
              && (BackoffFor(p, k) < p.maxBackoff && product < U64_MAX as real ==>
                    exists ms: nat ::
                      BackoffFor(p, k) == ms * NANOS_PER_MILLI && ms as real <= product < (ms + 1) as real)
  {
    var product := Shrunk(InitialMillis(p) as real, p.multiplier, U32_LIMIT - k);
    ScaledUndoesShrunk(InitialMillis(p) as real, p.multiplier, U32_LIMIT - k);
    ShrunkFalls(InitialMillis(p) as real, p.multiplier, 0, U32_LIMIT - k);
    CastExact(product);
    assert BackoffMillis(p, k) == SaturatingCast(product) && Quotient(product, p, k);
  }

  const DEFAULT_POLICY := RetryPolicy(5, 100 * NANOS_PER_MILLI, 2.0, 30_000 * NANOS_PER_MILLI)

  /** The default policy: 100 ms doubled up to attempt 8, and 30 s from attempt 9 on. */
  lemma DefaultBackoffs(k: nat)
    requires k < I32_LIMIT
    ensures k <= 8 ==> BackoffFor(DEFAULT_POLICY, k) == 100 * NANOS_PER_MILLI * [1, 2, 4, 8, 16, 32, 64, 128, 256][k]
    ensures k >= 9 ==> BackoffFor(DEFAULT_POLICY, k) == DEFAULT_POLICY.maxBackoff
  {
    Doublings();
    if k >= 9 {
      BackoffMonotone(DEFAULT_POLICY, 9, k);
    }
  }

  lemma Doublings()
    ensures Scaled(100.0, 2.0, 0) == 100.0 && Scaled(100.0, 2.0, 1) == 200.0 && Scaled(100.0, 2.0, 2) == 400.0
    ensures Scaled(100.0, 2.0, 3) == 800.0 && Scaled(100.0, 2.0, 4) == 1600.0 && Scaled(100.0, 2.0, 5) == 3200.0
    ensures Scaled(100.0, 2.0, 6) == 6400.0 && Scaled(100.0, 2.0, 7) == 12800.0
    ensures Scaled(100.0, 2.0, 8) == 25600.0 && Scaled(100.0, 2.0, 9) == 51200.0
  {
    assert Scaled(100.0, 2.0, 3) == 800.0;
    assert Scaled(100.0, 2.0, 6) == 6400.0;
  }

  // ---------------------------------------------------------------- over all u32 attempts

  // Attempt 2^31, where the wrapped exponent is smallest, has the smallest product of all.
  lemma MillisLowest(p: RetryPolicy, j: nat)
    requires p.multiplier >= 1.0 && j < U32_LIMIT
    ensures BackoffMillis(p, I32_LIMIT) <= BackoffMillis(p, j) <= U64_MAX
  {
    var a, x := InitialMillis(p) as real, p.multiplier;
    if j < I32_LIMIT {
      ScaledGrows(a, x, 0, j);
      ShrunkFalls(a, x, 0, I32_LIMIT);
      CastMonotone(Shrunk(a, x, I32_LIMIT), Scaled(a, x, j));
    } else {
      ShrunkFalls(a, x, U32_LIMIT - j, I32_LIMIT);
      CastMonotone(Shrunk(a, x, I32_LIMIT), Shrunk(a, x, U32_LIMIT - j));
    }
  }

  lemma CastDrop(x: real, a: nat)
    requires 0.0 <= x < a as real && SaturatingCast(x) < U64_MAX
    ensures SaturatingCast(x) < SaturatingCast(a as real)
  {
  }

  // With a multiplier above 1 that product is below the initial backoff.
  lemma MillisDrop(p: RetryPolicy)
    requires p.multiplier > 1.0 && InitialMillis(p) > 0
    requires BackoffMillis(p, I32_LIMIT) < U64_MAX
    ensures BackoffMillis(p, I32_LIMIT) < BackoffMillis(p, 0)
  {
    ShrunkBelow(InitialMillis(p) as real, p.multiplier, I32_LIMIT);
    CastDrop(Shrunk(InitialMillis(p) as real, p.multiplier, I32_LIMIT), InitialMillis(p));
  }

  ghost predicate MonotoneBackoff(p: RetryPolicy) {
    forall i, j :: 0 <= i <= j < U32_LIMIT ==> BackoffFor(p, i) <= BackoffFor(p, j)
  }

  // The cap in milliseconds, rounded up; the backoff has no more than 64 bits of them.
  function CapMillis(p: RetryPolicy): nat {
    var cap := (p.maxBackoff + NANOS_PER_MILLI - 1) / NANOS_PER_MILLI;
    if cap <= U64_MAX then cap else U64_MAX
  }

  // The policies whose backoff does not depend on the attempt at all: nothing is scaled, or so much
  // is there to start from that dividing by the largest power still leaves the cap.
  predicate ConstantPolicy(p: RetryPolicy)
    requires p.multiplier >= 1.0
  {
    || p.multiplier == 1.0
    || InitialMillis(p) == 0
    || Shrunk(InitialMillis(p) as real, p.multiplier, I32_LIMIT) >= CapMillis(p) as real
  }

  lemma CastReaches(x: real, n: nat)
    requires 0.0 <= x && n <= U64_MAX
    ensures SaturatingCast(x) >= n <==> x >= n as real
  {
  }

  // Reaching the cap, or the 64 bits, at attempt 2^31 already.
  lemma LowestReachesCap(p: RetryPolicy)
    requires p.multiplier >= 1.0
    ensures Shrunk(InitialMillis(p) as real, p.multiplier, I32_LIMIT) >= CapMillis(p) as real <==>
            || p.maxBackoff <= BackoffMillis(p, I32_LIMIT) * NANOS_PER_MILLI
            || BackoffMillis(p, I32_LIMIT) == U64_MAX
  {
    ShrunkFalls(InitialMillis(p) as real, p.multiplier, 0, I32_LIMIT);
    CastReaches(Shrunk(InitialMillis(p) as real, p.multiplier, I32_LIMIT), CapMillis(p));
    MillisLowest(p, I32_LIMIT);
  }

  lemma {:induction false} NothingScales(a: real, x: real, n: nat)
    requires a == 0.0 || x == 1.0
    ensures Scaled(a, x, n) == a && (x != 0.0 ==> Shrunk(a, x, n) == a)
  {
    if n == 0 {
    } else {
      NothingScales(a, x, n - 1);
    }
  }

  lemma ConstantBackoff(p: RetryPolicy, j: nat)
    requires p.multiplier >= 1.0 && ConstantPolicy(p) && j < U32_LIMIT
    ensures BackoffFor(p, j) == BackoffFor(p, 0)
  {
    MillisLowest(p, j);
    MillisLowest(p, 0);
    LowestReachesCap(p);
    if p.multiplier == 1.0 || InitialMillis(p) == 0 {
      NothingScales(InitialMillis(p) as real, p.multiplier, j);
      NothingScales(InitialMillis(p) as real, p.multiplier, U32_LIMIT - j);
    }
  }

  /**
   Over all u32 attempts, with any multiplier from 1 up, the backoff is monotone exactly when it is
   constant: multiplier 1, an initial backoff below 1 ms, or an initial backoff that is no less than
   the cap (or the 64 bits) even when divided by the 2^31-st power of the multiplier.
   */
  lemma MonotoneExactlyWhen(p: RetryPolicy)
    requires p.multiplier >= 1.0
    ensures MonotoneBackoff(p) <==> ConstantPolicy(p)
  {
    LowestReachesCap(p);
    if ConstantPolicy(p) {
      forall i, j | 0 <= i <= j < U32_LIMIT ensures BackoffFor(p, i) <= BackoffFor(p, j) {
        ConstantBackoff(p, i);
        ConstantBackoff(p, j);
      }
    } else {
      MillisDrop(p);
      assert BackoffFor(p, I32_LIMIT) < BackoffFor(p, 0);
    }
  }

  lemma PartBelowOne(s: real, n: real, a: real)
    requires 0.0 < n && n * s <= a < n
    ensures s < 1.0
  {
    if s >= 1.0 {
      MulMonotone(1.0, s, n);
    }
  }

  /** From multiplier 2 up and with less than 2^31 ms to start from: when there is nothing to wait. */
  lemma MonotoneFromTwo(p: RetryPolicy)
    requires p.multiplier >= 2.0 && InitialMillis(p) < I32_LIMIT
    ensures MonotoneBackoff(p) <==> p.initialBackoff < NANOS_PER_MILLI || p.maxBackoff == 0
  {
    MonotoneExactlyWhen(p);
    var smallest := Shrunk(InitialMillis(p) as real, p.multiplier, I32_LIMIT);
    ShrunkFast(InitialMillis(p) as real, p.multiplier, I32_LIMIT);
    PartBelowOne(smallest, (I32_LIMIT + 1) as real, InitialMillis(p) as real);
    assert BackoffMillis(p, I32_LIMIT) == 0;
  }

  // ---------------------------------------------------------------- total sleep

  lemma AddOneCap(total: nat, backoff: nat, cap: nat, n: nat)
    requires total <= n * cap && backoff <= cap
    ensures total + backoff <= (n + 1) * cap
  {
  }

  lemma {:induction false} TotalBelowCaps(naps: seq<nat>, cap: nat)
    requires forall k :: 0 <= k < |naps| ==> naps[k] <= cap
    ensures Total(naps) <= |naps| * cap
  {
    if naps == [] {
    } else {
      var n := |naps| - 1;
      TotalBelowCaps(naps[..n], cap);
      AddOneCap(Total(naps[..n]), naps[n], cap, n);
    }
  }

  function GeometricSum(a: real, x: real, n: nat): real {
    if n == 0 then 0.0 else GeometricSum(a, x, n - 1) + Scaled(a, x, n - 1)
  }

  lemma {:induction false} GeometricSumGrows(a: real, x: real, n: nat, m: nat)
    requires 0.0 <= a && 1.0 <= x && n <= m
    ensures GeometricSum(a, x, n) <= GeometricSum(a, x, m)
    decreases m
  {
    if n == m {
    } else {
      GeometricSumGrows(a, x, n, m - 1);
      ScaledGrows(a, x, 0, m - 1);
    }
  }

  // Milliseconds scaled and then turned into nanoseconds stay below the scaled nanoseconds.
  lemma {:induction false} ScaledUnits(ms: real, nanos: real, x: real, k: nat)
    requires 0.0 <= ms && 0.0 <= x && ms * NANOS_PER_MILLI as real <= nanos
    ensures 0.0 <= Scaled(ms, x, k) && Scaled(ms, x, k) * NANOS_PER_MILLI as real <= Scaled(nanos, x, k)
  {
    if k == 0 {
    } else {
      ScaledUnits(ms, nanos, x, k - 1);
      MulMonotone(Scaled(ms, x, k - 1) * NANOS_PER_MILLI as real, Scaled(nanos, x, k - 1), x);
    }
  }

  lemma BackoffBelowScaled(p: RetryPolicy, k: nat)
    requires p.multiplier >= 1.0 && k < U32_LIMIT
    ensures BackoffFor(p, k) as real <= Scaled(p.initialBackoff as real, p.multiplier, k)
  {
    var a, x := InitialMillis(p) as real, p.multiplier;
    ScaledUnits(a, p.initialBackoff as real, x, k);
    CastExact(Scaled(a, x, k));
    if k >= I32_LIMIT {
      ScaledGrows(a, x, 0, k);
      ShrunkFalls(a, x, 0, U32_LIMIT - k);
      CastMonotone(Shrunk(a, x, U32_LIMIT - k), Scaled(a, x, k));
    }
  }

  lemma {:induction false} TotalBelowSum(naps: seq<nat>, a: real, x: real)
    requires forall k :: 0 <= k < |naps| ==> naps[k] as real <= Scaled(a, x, k)
    ensures Total(naps) as real <= GeometricSum(a, x, |naps|)
  {
    if naps == [] {
    } else {
      TotalBelowSum(naps[..|naps| - 1], a, x);
    }
  }

  // One cap per retry.
  lemma NapsBelowCap(p: RetryPolicy, attempts: nat)
    requires 1 <= attempts <= U32_LIMIT
    ensures Total(Naps(p, attempts)) <= (attempts - 1) * p.maxBackoff
  {
    TotalBelowCaps(Naps(p, attempts), p.maxBackoff);
  }

  // And a geometric sum.
  lemma NapsBelowSum(p: RetryPolicy, attempts: nat)
    requires p.multiplier >= 1.0 && 1 <= attempts <= U32_LIMIT
    ensures Total(Naps(p, attempts)) as real <= GeometricSum(p.initialBackoff as real, p.multiplier, attempts - 1)
  {
    var naps := Naps(p, attempts);
    forall k | 0 <= k < |naps| ensures naps[k] as real <= Scaled(p.initialBackoff as real, p.multiplier, k) {
      BackoffBelowScaled(p, k);
    }
    TotalBelowSum(naps, p.initialBackoff as real, p.multiplier);
  }
}
