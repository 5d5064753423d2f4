/** Capped exponential backoff, as 64-bit nanosecond durations. */
module Backoff {
  import opened Numbers

  const MAX64 := 0x7fff_ffff_ffff_ffff
  const MIN64 := -0x8000_0000_0000_0000
  const MILLISECOND := 1_000_000

  type int64 = x: int | MIN64 <= x <= MAX64

  function Pow(m: real, n: nat): real {
    if n == 0 then 1.0 else Pow(m, n - 1) * m
  }

  function Trunc(x: real): int {
    if x >= 0.0 then x.Floor else -((-x).Floor)
  }

  /** A float-to-int64 conversion; outside the range Go leaves the result open,
      so it is whatever `junk` the platform yields. */
  function ToInt64(x: real, junk: int64): int64 {
    if MIN64 <= Trunc(x) <= MAX64 then Trunc(x) else junk
  }

  datatype Config = Config(maxRetries: int, initial: int64, multiplier: real, maxInterval: int64)

  function Scaled(initial: int64, multiplier: real, n: nat): real {
    initial as real * Pow(multiplier, n)
  }

  /** The product starts at the initial interval and grows by one factor per attempt. */
  lemma OneFactorPerAttempt(initial: int64, multiplier: real, n: nat)
    ensures Scaled(initial, multiplier, 0) == initial as real
    ensures Scaled(initial, multiplier, n + 1) == Scaled(initial, multiplier, n) * multiplier
  {
    Reassociate(initial as real, Pow(multiplier, n), multiplier);
  }

  function Product(cfg: Config, attempt: nat): real {
    Scaled(cfg.initial, cfg.multiplier, attempt)
  }

  /** `BackoffDuration`: a product built up one factor at a time. */
  method BackoffDuration(initial: int64, multiplier: real, attempt: int, junk: int64) returns (d: int64)
    ensures d == ToInt64(Scaled(initial, multiplier, Max(attempt, 0)), junk)
    ensures attempt <= 0 ==> d == initial
    ensures var x := Scaled(initial, multiplier, Max(attempt, 0));
      && (0.0 <= x < (MAX64 + 1) as real ==> d as real <= x < d as real + 1.0)
      && (MIN64 as real <= x <= 0.0 ==> d as real - 1.0 < x <= d as real)
  {
    var x := initial as real;
    var i := 0;
    while i < attempt
      invariant 0 <= i <= Max(attempt, 0)
      invariant x == Scaled(initial, multiplier, i)
    {
      x := x * multiplier;
      i := i + 1;
    }
    assert i == Max(attempt, 0);
    d := ToInt64(x, junk);
  }

  function RetryDelay(cfg: Config, attempt: nat, junk: int64): int64 {
    Min(ToInt64(Product(cfg, attempt), junk), cfg.maxInterval)
  }

  /** `retryDelay` */
  method CappedDelay(cfg: Config, attempt: nat, junk: int64) returns (d: int64)
    ensures d == RetryDelay(cfg, attempt, junk)
  {
    d := BackoffDuration(cfg.initial, cfg.multiplier, attempt, junk);
    if d > cfg.maxInterval {
      d := cfg.maxInterval;
    }
  }

  /** What configuration defaults and validation guarantee. */
  predicate Validated(cfg: Config) {
    cfg.initial > 0 && cfg.multiplier >= 1.0 && cfg.maxInterval > 0
  }

  predicate InRange(cfg: Config, attempt: nat) {
    Product(cfg, attempt) < (MAX64 + 1) as real
  }

  lemma {:induction false} PowGrows(m: real, a: nat, b: nat)
    requires m >= 1.0 && a <= b
    ensures 1.0 <= Pow(m, a) <= Pow(m, b)
    decreases b
  {
    if a < b {
      PowGrows(m, a, b - 1);
      GrowsOnce(Pow(m, b - 1), m);
    } else if a > 0 {
      PowGrows(m, a - 1, a - 1);
      GrowsOnce(Pow(m, a - 1), m);
    }
  }

  lemma GrowsOnce(x: real, m: real)
    requires x >= 0.0 && m >= 1.0
    ensures x * m >= x
  {
  }

  lemma ProductGrows(cfg: Config, a: nat, b: nat)
    requires Validated(cfg) && a <= b
    ensures 0.0 <= Product(cfg, a) <= Product(cfg, b)
  {
    PowGrows(cfg.multiplier, a, b);
    Scales(cfg.initial as real, Pow(cfg.multiplier, a), Pow(cfg.multiplier, b));
  }

  lemma Scales(k: real, x: real, y: real)
    requires k >= 0.0 && 0.0 <= x <= y
    ensures 0.0 <= k * x <= k * y
  {
  }

  /** The documented formula holds, whatever the platform does with an oversized
      product, exactly while the product stays below 2^63. */
  lemma FormulaHoldsIff(cfg: Config, attempt: nat)
    requires Validated(cfg)
    ensures InRange(cfg, attempt) <==>
            forall junk: int64 :: RetryDelay(cfg, attempt, junk) == Min(Trunc(Product(cfg, attempt)), cfg.maxInterval)
  {
    ProductGrows(cfg, attempt, attempt);
    if !InRange(cfg, attempt) {
      assert RetryDelay(cfg, attempt, MIN64) == MIN64;
    }
  }

  /** In range the delays never shrink, and once at the cap they stay there. */
  lemma DelaysGrowToCap(cfg: Config, a: nat, b: nat, ja: int64, jb: int64)
    requires Validated(cfg) && a <= b && InRange(cfg, b)
    ensures 0 <= RetryDelay(cfg, a, ja) <= RetryDelay(cfg, b, jb) <= cfg.maxInterval
    ensures RetryDelay(cfg, a, ja) == cfg.maxInterval ==> RetryDelay(cfg, b, jb) == cfg.maxInterval
  {
    ProductGrows(cfg, a, b);
  }

  /** A loop of n attempts sleeps after all but the last. Its delays all follow the
      formula exactly when the last of them is in range. */
  lemma LoopInRangeIff(cfg: Config, n: nat)
    requires Validated(cfg) && n >= 2
    ensures InRange(cfg, n - 2) <==> forall k: nat :: k < n - 1 ==> InRange(cfg, k)
  {
    if InRange(cfg, n - 2) {
      forall k: nat | k < n - 1 ensures InRange(cfg, k) {
        ProductGrows(cfg, k, n - 2);
      }
    }
  }

  // ------------------------------------------------------------------- sleep

  function Effective(d: int64): int64 {
    if d <= 0 then MILLISECOND else d
  }

  function JitterCeil(d: int64): (c: int64)
    ensures c >= 1
  {
    if d / 10 <= 0 then 1 else d / 10
  }

  function Wrap64(x: int): int64 {
    (x - MIN64) % (MAX64 - MIN64 + 1) + MIN64
  }

  /** The timer of `sleepWithJitterCtx` for delay `d` and the random `jitter` drawn. */
  function Timer(d: int64, jitter: int): int64 {
    Wrap64(Effective(d) + jitter)
  }

  predicate Drawn(d: int64, jitter: int) {
    0 <= jitter < JitterCeil(Effective(d))
  }

  /** The longest a delay can be before jitter. */
  function Longest(cfg: Config): int64 {
    Max(cfg.maxInterval, MILLISECOND)
  }

  function SleepBound(cfg: Config): int {
    Longest(cfg) + JitterCeil(Longest(cfg))
  }

  lemma WrapInRange(x: int)
    requires MIN64 <= x <= MAX64
    ensures Wrap64(x) == x
  {
  }

  /** Every sleep is positive and below the bound, even where the product left the
      64-bit range, provided the bound itself fits. */
  lemma SleepIsBounded(cfg: Config, attempt: nat, junk: int64, jitter: int)
    requires SleepBound(cfg) - 1 <= MAX64
    requires Drawn(RetryDelay(cfg, attempt, junk), jitter)
    ensures 0 < Timer(RetryDelay(cfg, attempt, junk), jitter) < SleepBound(cfg)
  {
    var d := Effective(RetryDelay(cfg, attempt, junk));
    CeilGrows(d, Longest(cfg));
    WrapInRange(d + jitter);
  }

  lemma CeilGrows(a: int64, b: int64)
    requires 0 < a <= b
    ensures JitterCeil(a) <= JitterCeil(b)
  {
  }

  /** The timers that can be drawn for a delay: exactly those from the delay (one
      millisecond if it is not positive) up to a tenth more. */
  lemma SleepRange(d: int64, t: int64)
    requires var e := if d <= 0 then MILLISECOND else d; e + Max(e / 10, 1) - 1 <= MAX64
    ensures (exists jitter :: Drawn(d, jitter) && Timer(d, jitter) == t)
            <==> var e := if d <= 0 then MILLISECOND else d; e <= t < e + Max(e / 10, 1)
  {
    var e := if d <= 0 then MILLISECOND else d;
    if e <= t < e + Max(e / 10, 1) {
      WrapInRange(t);
      assert Drawn(d, t - e) && Timer(d, t - e) == t;
    }
    forall jitter | Drawn(d, jitter) ensures Timer(d, jitter) == e + jitter {
      WrapInRange(e + jitter);
    }
  }

  /** And the proviso is needed: beyond it some draw at the cap gives a timer that
      has already expired. */
  lemma SleepWrapsIff(cap: int64)
    requires cap >= MILLISECOND
    ensures cap + JitterCeil(cap) - 1 > MAX64 <==> exists jitter :: Drawn(cap, jitter) && Timer(cap, jitter) < 0
  {
    if cap + JitterCeil(cap) - 1 > MAX64 {
      var jitter := JitterCeil(cap) - 1;
      WrapsOnce(cap + jitter);
      assert Drawn(cap, jitter) && Timer(cap, jitter) < 0;
    } else {
      forall jitter | Drawn(cap, jitter) ensures Timer(cap, jitter) >= 0 {
        WrapInRange(cap + jitter);
      }
    }
  }

  lemma WrapsOnce(x: int)
    requires MAX64 < x <= 2 * MAX64
    ensures Wrap64(x) < 0
  {
    assert x - MIN64 == (x - MAX64 - 1) + (MAX64 - MIN64 + 1);
  }

  // ----------------------------------------------------------- out of range

  lemma {:induction false} PowAdds(m: real, a: nat, b: nat)
    ensures Pow(m, a + b) == Pow(m, a) * Pow(m, b)
    decreases b
  {
    if b > 0 {
      PowAdds(m, a, b - 1);
      Reassociate(Pow(m, a), Pow(m, b - 1), m);
    }
  }

  lemma Reassociate(x: real, y: real, z: real)
    ensures (x * y) * z == x * (y * z)
  {
  }

  /** On a platform whose conversion yields the smallest integer, every delay out of
      range is that integer, and the sleep collapses to one millisecond and jitter,
      whatever the cap. */
  lemma OutOfRangeSleepsOneMillisecond(cfg: Config, attempt: nat, jitter: int)
    requires Validated(cfg) && !InRange(cfg, attempt)
    requires Drawn(RetryDelay(cfg, attempt, MIN64), jitter)
    ensures RetryDelay(cfg, attempt, MIN64) == MIN64
    ensures Timer(RetryDelay(cfg, attempt, MIN64), jitter) == MILLISECOND + jitter < 2 * MILLISECOND
  {
    assert RetryDelay(cfg, attempt, MIN64) == MIN64;
    WrapInRange(MILLISECOND + jitter);
  }

  const SECOND := 1_000_000_000

  /** A valid configuration that gets there: 40 attempts, 2 s doubling, capped at 30 s.
      The sleep after attempt 33 is out of range, so its documented 30 s can be 1 ms. */
  lemma CapCanCollapse() returns (cfg: Config, attempt: nat)
    ensures cfg == Config(40, 2 * SECOND, 2.0, 30 * SECOND) && attempt == 33
    ensures Validated(cfg) && attempt < cfg.maxRetries - 1 && !InRange(cfg, attempt)
    ensures Min(Trunc(Product(cfg, attempt)), cfg.maxInterval) == 30 * SECOND
    ensures forall jitter :: Drawn(RetryDelay(cfg, attempt, MIN64), jitter) ==>
              Timer(RetryDelay(cfg, attempt, MIN64), jitter) == MILLISECOND + jitter
  {
    cfg, attempt := Config(40, 2 * SECOND, 2.0, 30 * SECOND), 33;
    assert Pow(2.0, 33) == 8589934592.0 by {
      assert Pow(2.0, 1) == 2.0;
      PowAdds(2.0, 1, 1);
      PowAdds(2.0, 2, 2);
      PowAdds(2.0, 4, 4);
      PowAdds(2.0, 8, 8);
      PowAdds(2.0, 16, 16);
      PowAdds(2.0, 32, 1);
    }
    forall jitter | Drawn(RetryDelay(cfg, attempt, MIN64), jitter)
      ensures Timer(RetryDelay(cfg, attempt, MIN64), jitter) == MILLISECOND + jitter
    {
      OutOfRangeSleepsOneMillisecond(cfg, attempt, jitter);
    }
  }
}
