/** Jittered exponential backoff (reconnectBackoff.ts), over exact reals; delays are whole milliseconds. */
module Backoff {

  /** The policy fields that the delay depends on. */
  datatype Policy = Policy(minMs: real, maxMs: real, jitterRatio: real)

  function Trunc(x: real): int {
    if x >= 0.0 then x.Floor else -(-x).Floor
  }

  function AtLeast(lower: int, x: int): int {
    if x >= lower then x else lower
  }

  function Max(x: real, y: real): real {
    if x >= y then x else y
  }

  function Clamp(x: real): real {
    if x < 0.0 then 0.0 else if x > 1.0 then 1.0 else x
  }

  function Pow2(n: nat): nat {
    if n == 0 then 1 else 2 * Pow2(n - 1)
  }

  function MinMs(p: Policy): int {
    AtLeast(1, Trunc(p.minMs))
  }

  function MaxMs(p: Policy): int {
    AtLeast(MinMs(p), Trunc(p.maxMs))
  }

  function Jitter(p: Policy): real {
    Clamp(p.jitterRatio)
  }

  /** Exponent of the doubling: attempts below one count as the first attempt. */
  function Doublings(attempt: real): nat {
    AtLeast(1, Trunc(attempt)) - 1
  }

  function Doubled(p: Policy, n: nat): int {
    MinMs(p) * Pow2(n)
  }

  function Base(attempt: real, p: Policy): int {
    if Doubled(p, Doublings(attempt)) <= MaxMs(p) then Doubled(p, Doublings(attempt)) else MaxMs(p)
  }

  /** Where in the interval from 1 - jitter to 1 + jitter a random draw falls. */
  function Factor(jitter: real, random: real): real {
    (1.0 - jitter) + Clamp(random) * (2.0 * jitter)
  }

  function Scaled(base: int, factor: real): real {
    base as real * factor
  }

  function Jittered(base: int, factor: real): int {
    AtLeast(1, Trunc(Scaled(base, factor)))
  }

  function BackoffMs(attempt: real, p: Policy, random: real): int {
    if Jitter(p) == 0.0 then Base(attempt, p)
    else Jittered(Base(attempt, p), Factor(Jitter(p), random))
  }

  lemma TruncMonotone(x: real, y: real)
    requires x <= y
    ensures Trunc(x) <= Trunc(y)
  {
  }

  lemma ScaleMonotone(base: real, x: real, y: real)
    requires base >= 0.0 && x <= y
    ensures base * x <= base * y
  {
  }

  lemma Pow2Monotone(m: nat, n: nat)
    requires m <= n
    ensures 1 <= Pow2(m) <= Pow2(n)
    decreases n
  {
    if m < n {
      Pow2Monotone(m, n - 1);
    } else if m > 0 {
      Pow2Monotone(m - 1, n - 1);
    }
  }

  lemma DoubledMonotone(p: Policy, m: nat, n: nat)
    requires m <= n
    ensures 1 <= MinMs(p) <= Doubled(p, m) <= Doubled(p, n)
  {
    Pow2Monotone(m, n);
    var lo, a, b := MinMs(p), Pow2(m), Pow2(n);
    assert lo * 1 <= lo * a <= lo * b;
  }

  lemma BaseRange(attempt: real, p: Policy)
    ensures 1 <= MinMs(p) <= Base(attempt, p) <= MaxMs(p)
  {
    DoubledMonotone(p, 0, Doublings(attempt));
  }

  /** The shortcut for a jitter of zero is the general formula. */
  lemma ZeroJitterShortcut(attempt: real, p: Policy, random: real)
    ensures BackoffMs(attempt, p, random) == Jittered(Base(attempt, p), Factor(Jitter(p), random))
  {
    BaseRange(attempt, p);
    var b := Base(attempt, p) as real;
    if Jitter(p) == 0.0 {
      assert Factor(0.0, random) == 1.0;
      assert b * 1.0 == b;
    }
  }

  lemma FactorMonotone(jitter: real, r: real, q: real)
    requires jitter >= 0.0 && Clamp(r) <= Clamp(q)
    ensures 1.0 - jitter <= Factor(jitter, r) <= Factor(jitter, q) <= 1.0 + jitter
    ensures Factor(jitter, 0.0) == 1.0 - jitter && Factor(jitter, 1.0) == 1.0 + jitter
  {
    ScaleMonotone(2.0 * jitter, Clamp(r), Clamp(q));
    ScaleMonotone(2.0 * jitter, Clamp(q), 1.0);
  }

  lemma JitteredMonotone(base: int, f: real, g: real)
    requires base >= 0 && f <= g
    ensures Jittered(base, f) <= Jittered(base, g)
  {
    ScaleMonotone(base as real, f, g);
    TruncMonotone(base as real * f, base as real * g);
  }

  /** Every draw lies between the two extreme draws, and both extremes are attained. */
  lemma DrawBounds(attempt: real, p: Policy, random: real)
    ensures var b, j := Base(attempt, p), Jitter(p);
      && BackoffMs(attempt, p, 0.0) == Jittered(b, 1.0 - j) <= BackoffMs(attempt, p, random)
      && BackoffMs(attempt, p, random) <= Jittered(b, 1.0 + j) == BackoffMs(attempt, p, 1.0)
  {
    var b, j := Base(attempt, p), Jitter(p);
    BaseRange(attempt, p);
    ZeroJitterShortcut(attempt, p, random);
    ZeroJitterShortcut(attempt, p, 0.0);
    ZeroJitterShortcut(attempt, p, 1.0);
    FactorMonotone(j, 0.0, random);
    FactorMonotone(j, random, 1.0);
    JitteredMonotone(b, 1.0 - j, Factor(j, random));
    JitteredMonotone(b, Factor(j, random), 1.0 + j);
  }

  /** The upper bound never needs the clamp at one millisecond. */
  lemma UpperBound(attempt: real, p: Policy)
    ensures BackoffMs(attempt, p, 1.0) == Trunc(Scaled(Base(attempt, p), 1.0 + Jitter(p)))
  {
    DrawBounds(attempt, p, 1.0);
    BaseRange(attempt, p);
    JitterRange(p);
    hide *;
    NoClamp(Base(attempt, p), 1.0 + Jitter(p));
  }

  lemma JitterRange(p: Policy)
    ensures 0.0 <= Jitter(p) <= 1.0
  {}

  lemma NoClamp(base: int, factor: real)
    requires base >= 1 && factor >= 1.0
    ensures Jittered(base, factor) == Trunc(Scaled(base, factor))
  {
    ScaleMonotone(base as real, 1.0, factor);
    TruncMonotone(1.0, base as real * factor);
  }

  /**
   * The delay in one formula, for every policy, attempt and random number: the smallest delay doubled once for each
   * attempt after the first, at most the largest one, scaled into the interval from 1 - jitter to 1 + jitter.
   */
  lemma DelayFormula(attempt: real, p: Policy, random: real, power: int, base: int, factor: real)
    requires power == Pow2(if attempt < 1.0 then 0 else attempt.Floor - 1)
    requires var least := if p.minMs < 1.0 then 1 else p.minMs.Floor;
      var most := if p.maxMs < least as real then least else p.maxMs.Floor;
      base == if least * power < most then least * power else most
    requires var jitter := if p.jitterRatio < 0.0 then 0.0 else if p.jitterRatio > 1.0 then 1.0 else p.jitterRatio;
      var draw := if random < 0.0 then 0.0 else if random > 1.0 then 1.0 else random;
      factor == 1.0 - jitter + draw * (2.0 * jitter)
    ensures BackoffMs(attempt, p, random) == if base as real * factor < 1.0 then 1 else (base as real * factor).Floor
  {
    hide *;
    BaseFormula(attempt, p);
    assert base == Base(attempt, p);
    FactorFormula(p, random);
    assert factor == Factor(Jitter(p), random);
    ZeroJitterShortcut(attempt, p, random);
    JitteredFormula(base, factor);
  }

  /** Powers of two, by their defining equations. */
  lemma PowersDouble(k: nat)
    ensures Pow2(0) == 1 && Pow2(k + 1) == 2 * Pow2(k)
  {
  }

  lemma BaseFormula(attempt: real, p: Policy)
    ensures var n := if attempt < 1.0 then 1 else attempt.Floor;
      var least := if p.minMs < 1.0 then 1 else p.minMs.Floor;
      var most := if p.maxMs < least as real then least else p.maxMs.Floor;
      Base(attempt, p) == if least * Pow2(n - 1) < most then least * Pow2(n - 1) else most
  {
    TruncAtLeast(1, attempt);
    TruncAtLeast(1, p.minMs);
    TruncAtLeast(MinMs(p), p.maxMs);
    hide AtLeast, Trunc, Pow2;
  }

  lemma FactorFormula(p: Policy, random: real)
    ensures var jitter := if p.jitterRatio < 0.0 then 0.0 else if p.jitterRatio > 1.0 then 1.0 else p.jitterRatio;
      var draw := if random < 0.0 then 0.0 else if random > 1.0 then 1.0 else random;
      Factor(Jitter(p), random) == 1.0 - jitter + draw * (2.0 * jitter)
  {
  }

  lemma JitteredFormula(base: int, factor: real)
    ensures Jittered(base, factor) == var x := base as real * factor; if x < 1.0 then 1 else x.Floor
  {
    TruncAtLeast(1, base as real * factor);
    hide AtLeast, Trunc;
  }

  lemma TruncAtLeast(lower: int, x: real)
    requires lower >= 1
    ensures AtLeast(lower, Trunc(x)) == if x < lower as real then lower else x.Floor
  {
  }

  /** The base delay never shrinks, and is the ceiling exactly from the first attempt whose doubling reaches it. */
  lemma BaseGrowsToCeiling(m: real, n: real, p: Policy)
    requires m <= n
    ensures Base(m, p) <= Base(n, p) <= MaxMs(p)
    ensures Base(m, p) == MaxMs(p) <==> Doubled(p, Doublings(m)) >= MaxMs(p)
  {
    TruncMonotone(m, n);
    DoubledMonotone(p, Doublings(m), Doublings(n));
  }

  /** No draw of attempt `m` comes later than any draw of attempt `n`. */
  ghost predicate DrawsOrdered(m: real, n: real, p: Policy) {
    forall r, q :: BackoffMs(m, p, r) <= BackoffMs(n, p, q)
  }

  /** The extreme draws decide whether the draws of two attempts can cross. */
  lemma ExtremesDecide(m: real, n: real, p: Policy)
    ensures DrawsOrdered(m, n, p) <==> Jittered(Base(m, p), 1.0 + Jitter(p)) <= Jittered(Base(n, p), 1.0 - Jitter(p))
  {
    DrawBounds(m, p, 0.0);
    DrawBounds(n, p, 0.0);
    if BackoffMs(m, p, 1.0) <= BackoffMs(n, p, 0.0) {
      forall r, q ensures BackoffMs(m, p, r) <= BackoffMs(n, p, q) {
        DrawBounds(m, p, r);
        DrawBounds(n, p, q);
      }
    }
  }

  lemma NextBase(n: nat, p: Policy)
    requires 1 <= n && 2 * Base(n as real, p) <= MaxMs(p)
    ensures Base((n + 1) as real, p) == 2 * Base(n as real, p)
  {
    BaseRange(n as real, p);
    var lo, pow := MinMs(p), Pow2(n - 1);
    assert Doubled(p, n) == lo * (2 * pow) == 2 * (lo * pow);
  }

  lemma SpreadFactors(b: int, j: real)
    requires b >= 0 && j <= 1.0 / 3.0
    ensures Jittered(b, 1.0 + j) <= Jittered(2 * b, 1.0 - j)
  {
    var m := b as real;
    ScaleMonotone(m, 1.0 + j, 2.0 * (1.0 - j));
    assert (2 * b) as real * (1.0 - j) == m * (2.0 * (1.0 - j));
    TruncMonotone(m * (1.0 + j), m * (2.0 * (1.0 - j)));
  }

  /** Up to a jitter of one third, retries never come sooner while the doubling stays under the ceiling. */
  lemma RetriesSpreadOut(n: nat, p: Policy)
    requires 1 <= n && Jitter(p) <= 1.0 / 3.0
    requires 2 * Base(n as real, p) <= MaxMs(p)
    ensures DrawsOrdered(n as real, (n + 1) as real, p)
  {
    NextBase(n, p);
    BaseRange(n as real, p);
    SpreadFactors(Base(n as real, p), Jitter(p));
    ExtremesDecide(n as real, (n + 1) as real, p);
  }

  lemma CrossingBase(j: real) returns (k: nat)
    requires 1.0 / 3.0 < j <= 1.0
    ensures k >= 1 && Jittered(k, 1.0 + j) > Jittered(2 * k, 1.0 - j)
  {
    var d := 3.0 * j - 1.0;
    k := (2.0 / d).Floor + 1;
    var up, down := Scaled(k, 1.0 + j), Scaled(2 * k, 1.0 - j);
    GapGrows(k as real, j);
    assert up - down >= 2.0 by {
      ScaleMonotone(d, 2.0 / d, k as real);
      assert d * (2.0 / d) == 2.0;
    }
    ScaleMonotone(k as real, 0.0, 1.0 - j);
    hide Scaled;
    Apart(up, down);
  }

  lemma GapGrows(m: real, j: real)
    ensures m * (1.0 + j) - (2.0 * m) * (1.0 - j) == (3.0 * j - 1.0) * m
  {}

  lemma Apart(x: real, y: real)
    requires x - y >= 2.0 && y >= 0.0
    ensures AtLeast(1, Trunc(x)) > AtLeast(1, Trunc(y))
  {}

  /** One third is the limit: every larger jitter lets some later retry come sooner. */
  lemma OneThirdIsTight(j: real) returns (p: Policy)
    requires 1.0 / 3.0 < j <= 1.0
    ensures Jitter(p) == j && 2 * Base(1.0, p) <= MaxMs(p)
    ensures !DrawsOrdered(1.0, 2.0, p)
  {
    var k := CrossingBase(j);
    p := Policy(k as real, (2 * k) as real, j);
    assert Pow2(0) == 1 && Pow2(1) == 2;
    assert Base(1.0, p) == k && Base(2.0, p) == 2 * k;
    hide Jittered, DrawsOrdered, Base;
    ExtremesDecide(1.0, 2.0, p);
  }

  const DEFAULT_POLICY := Policy(1000.0, 60000.0, 0.2)

  lemma DefaultBase(n: nat)
    requires 1 <= n
    ensures n <= 6 ==> Base(n as real, DEFAULT_POLICY) == 1000 * Pow2(n - 1)
    ensures n >= 7 ==> Base(n as real, DEFAULT_POLICY) == 60000
  {
    assert Pow2(3) == 8 && Pow2(6) == 64;
    if n <= 6 {
      assert Pow2(5) == 32;
      Pow2Monotone(n - 1, 5);
    } else {
      Pow2Monotone(6, n - 1);
    }
  }

  /**
   * The shipped policy: ordered up to its first saturated attempt, 7, and no further,
   * because from there on two draws come from the same interval.
   */
  lemma DefaultPolicyOrdered(n: nat)
    requires 1 <= n
    ensures DrawsOrdered(n as real, (n + 1) as real, DEFAULT_POLICY) <==> n <= 6
  {
    DefaultBase(n);
    DefaultBase(n + 1);
    assert Pow2(2) == 4 && Pow2(3) == 8 && Pow2(4) == 16 && Pow2(5) == 32;
    if n <= 5 {
      Pow2Monotone(n - 1, 4);
      RetriesSpreadOut(n, DEFAULT_POLICY);
    } else {
      ExtremesDecide(n as real, (n + 1) as real, DEFAULT_POLICY);
    }
  }
}
