/**
 * The processing cost of a batch.  The store treats the cost as an opaque
 * function of (member claims, insurer, processing date); this module states
 * the structure of the formula the service uses: the time-of-month factor,
 * the priority clamp, the monetary factor (with the base-10 logarithm left as
 * a parameter), the size band and its factor, and rounding to cents.
 * Exact rational arithmetic stands in for floating point.
 */
module CostModel {
  import opened Domain

  function RMin(a: real, b: real): real { if a <= b then a else b }
  function RMax(a: real, b: real): real { if a >= b then a else b }
  function RAbs(a: real): real { if a >= 0.0 then a else -a }

  /** Priority levels outside 1..5 are clamped into that range. */
  function ClampPriority(p: int): (r: int)
    ensures 1 <= r <= 5
    ensures 1 <= p <= 5 ==> r == p
    ensures p < 1 ==> r == 1
    ensures p > 5 ==> r == 5
  {
    Min(5, Max(1, p))
  }

  /** 1.0 for priority 1 up to 1.8 for priority 5. */
  function PriorityFactor(p: int): real
  {
    1.0 + (ClampPriority(p) - 1) as real * 0.2
  }

  lemma PriorityFactorRange(p: int, q: int)
    ensures 1.0 <= PriorityFactor(p) <= 1.8
    ensures p <= q ==> PriorityFactor(p) <= PriorityFactor(q)
  {
    var cp, cq := ClampPriority(p), ClampPriority(q);
    assert 0 <= cp - 1 <= 4;
    assert p <= q ==> cp <= cq;
  }

  /** Later in the processing month costs more: 0.2 on the first day up to 0.5. */
  function TimeOfMonthFactor(day: int, daysInMonth: int): real
  {
    0.2 + RMin(0.3, RMax(0.0, 0.3 * (day - 1) as real / Max(1, daysInMonth - 1) as real))
  }

  lemma TimeOfMonthFactorRange(day: int, later: int, daysInMonth: int)
    ensures 0.2 <= TimeOfMonthFactor(day, daysInMonth) <= 0.5
    ensures day <= later ==> TimeOfMonthFactor(day, daysInMonth) <= TimeOfMonthFactor(later, daysInMonth)
    ensures day == 1 ==> TimeOfMonthFactor(day, daysInMonth) == 0.2
    ensures 2 <= daysInMonth && day == daysInMonth ==> TimeOfMonthFactor(day, daysInMonth) == 0.5
  {
    var d := Max(1, daysInMonth - 1) as real;
    assert d >= 1.0;
    if day <= later {
      assert 0.3 * (day - 1) as real <= 0.3 * (later - 1) as real;
      DivMonotone(0.3 * (day - 1) as real, 0.3 * (later - 1) as real, d);
    }
    if 2 <= daysInMonth && day == daysInMonth {
      assert d == (day - 1) as real;
      DivCancel(0.3, d);
    }
  }

  lemma DivMonotone(a: real, b: real, d: real)
    requires d > 0.0 && a <= b
    ensures a / d <= b / d
  {
    assert b / d - a / d == (b - a) / d;
  }

  lemma DivPositive(a: real, d: real)
    requires d > 0.0 && a > 0.0
    ensures a / d > 0.0
  {
    assert a / d * d == a;
  }

  lemma DivCancel(a: real, d: real)
    requires d > 0.0
    ensures a * d / d == a
  {
  }

  datatype SizeBand = Undersized | Oversized | WithinBounds

  /** The size band is decided below-minimum first, then above-maximum. */
  function BandOf(count: int, minSize: int, maxSize: int): SizeBand
  {
    if count < minSize then Undersized
    else if count > maxSize then Oversized
    else WithinBounds
  }

  /** Relative distance of the claim count from the midpoint of the insurer's bounds. */
  function SizeDifference(count: int, minSize: int, maxSize: int): real
  {
    var optimal := (minSize + maxSize) as real / 2.0;
    RAbs(count as real - optimal) / RMax(optimal, 1.0)
  }

  /** Penalty for undersized and oversized batches, discount inside the bounds. */
  function SizeFactor(count: int, minSize: int, maxSize: int): real
  {
    var diff := SizeDifference(count, minSize, maxSize);
    match BandOf(count, minSize, maxSize)
    case Undersized => 1.0 + RMin(0.2, 0.2 * diff)
    case Oversized => 1.0 + RMin(0.15, 0.15 * diff)
    case WithinBounds => 1.0 - RMin(0.1, 0.1 * (1.0 - diff))
  }

  /**
   * With sensible bounds an undersized batch pays up to 20% more, an
   * oversized one up to 15% more, and one inside the bounds gets a discount
   * of up to 10%.
   */
  lemma {:induction false} SizeFactorBands(count: int, minSize: int, maxSize: int)
    requires 0 <= minSize <= maxSize
    ensures BandOf(count, minSize, maxSize) == Undersized ==> 1.0 < SizeFactor(count, minSize, maxSize) <= 1.2
    ensures BandOf(count, minSize, maxSize) == Oversized ==> 1.0 < SizeFactor(count, minSize, maxSize) <= 1.15
    ensures BandOf(count, minSize, maxSize) == WithinBounds ==> 0.9 <= SizeFactor(count, minSize, maxSize) <= 1.0
  {
    var optimal := (minSize + maxSize) as real / 2.0;
    var denom := RMax(optimal, 1.0);
    var dist := RAbs(count as real - optimal);
    var diff := SizeDifference(count, minSize, maxSize);
    assert diff == dist / denom;
    assert denom >= 1.0;
    match BandOf(count, minSize, maxSize)
    case Undersized =>
      assert dist > 0.0;
      DivPositive(dist, denom);
    case Oversized =>
      assert dist > 0.0;
      DivPositive(dist, denom);
    case WithinBounds =>
      assert dist <= (maxSize - minSize) as real / 2.0;
      assert (maxSize - minSize) as real / 2.0 <= optimal;
      if optimal >= 1.0 {
        assert dist <= denom;
      } else {
        assert dist <= 1.0;
      }
      DivMonotone(dist, denom, denom);
      DivCancel(1.0, denom);
      assert diff <= 1.0;
  }

  /** A batch of exactly the midpoint size gets the full 10% discount. */
  lemma OptimalSizeDiscount(count: int, minSize: int, maxSize: int)
    requires 0 <= minSize <= maxSize && 2 * count == minSize + maxSize
    ensures SizeFactor(count, minSize, maxSize) == 0.9
  {
    assert count as real == (minSize + maxSize) as real / 2.0;
    assert SizeDifference(count, minSize, maxSize) == 0.0;
  }

  /** round($x, 2): half away from zero, to hundredths. */
  function Round2(x: real): (r: real)
    ensures RAbs(r - x) <= 0.005
  {
    if x >= 0.0 then (x * 100.0 + 0.5).Floor as real / 100.0
    else -((-x * 100.0 + 0.5).Floor as real / 100.0)
  }

  /**
   * The cost of one claim: amount (cents turned into currency units) times
   * the time-of-month, specialty, priority and monetary factors.  `log10`
   * stands for the floating-point logarithm.
   */
  function ClaimCost(c: Claim, timeFactor: real, specialtyFactor: real, log10: real -> real): real
  {
    var units := c.amount as real / 100.0;
    var monetary := 1.0 + log10(RMax(1.0, RMin(1000000.0, units))) * 0.1;
    units * timeFactor * specialtyFactor * PriorityFactor(c.priority) * monetary
  }

  /** Sum of the claim costs; a specialty the insurer has no factor for uses 1.0. */
  function RawCost(ms: seq<Claim>, timeFactor: real, factors: map<nat, real>, log10: real -> real): real
  {
    if |ms| == 0 then 0.0
    else
      var c := ms[|ms| - 1];
      var sf := if c.specialty in factors then factors[c.specialty] else 1.0;
      RawCost(ms[..|ms| - 1], timeFactor, factors, log10) + ClaimCost(c, timeFactor, sf, log10)
  }

  /** The batch cost: raw cost times the size factor, rounded to cents. */
  function BatchCost(ms: seq<Claim>, ins: Insurer, day: int, daysInMonth: int,
                     factors: map<nat, real>, log10: real -> real): real
  {
    Round2(RawCost(ms, TimeOfMonthFactor(day, daysInMonth), factors, log10) * SizeFactor(|ms|, ins.minBatchSize, ins.maxBatchSize))
  }

  lemma MulNonNegative(a: real, b: real)
    requires a >= 0.0 && b >= 0.0
    ensures a * b >= 0.0
  {
  }

  /** A claim with a non-negative amount and factors costs a non-negative amount. */
  lemma ClaimCostNonNegative(c: Claim, timeFactor: real, sf: real, log10: real -> real)
    requires c.amount >= 0 && timeFactor >= 0.0 && sf >= 0.0
    requires log10(RMax(1.0, RMin(1000000.0, c.amount as real / 100.0))) >= 0.0
    ensures ClaimCost(c, timeFactor, sf, log10) >= 0.0
  {
    var units := c.amount as real / 100.0;
    var monetary := 1.0 + log10(RMax(1.0, RMin(1000000.0, units))) * 0.1;
    PriorityFactorRange(c.priority, c.priority);
    var pf := PriorityFactor(c.priority);
    MulNonNegative(units, timeFactor);
    MulNonNegative(units * timeFactor, sf);
    MulNonNegative(units * timeFactor * sf, pf);
    MulNonNegative(units * timeFactor * sf * pf, monetary);
  }

  /** Non-negative amounts, factors and logarithms give a non-negative raw cost. */
  lemma {:induction false} RawCostNonNegative(ms: seq<Claim>, timeFactor: real, factors: map<nat, real>, log10: real -> real)
    requires timeFactor >= 0.0
    requires forall k | 0 <= k < |ms| :: ms[k].amount >= 0
    requires forall s | s in factors :: factors[s] >= 0.0
    requires forall x: real | 1.0 <= x <= 1000000.0 :: log10(x) >= 0.0
    ensures RawCost(ms, timeFactor, factors, log10) >= 0.0
  {
    if |ms| > 0 {
      var n := |ms|;
      var c := ms[n - 1];
      RawCostNonNegative(ms[..n - 1], timeFactor, factors, log10);
      var sf := if c.specialty in factors then factors[c.specialty] else 1.0;
      var arg := RMax(1.0, RMin(1000000.0, c.amount as real / 100.0));
      assert 1.0 <= arg <= 1000000.0;
      ClaimCostNonNegative(c, timeFactor, sf, log10);
    }
  }

  lemma Round2NonNegative(x: real)
    requires x >= 0.0
    ensures Round2(x) >= 0.0
  {
    assert x * 100.0 + 0.5 >= 0.0;
    assert (x * 100.0 + 0.5).Floor >= 0;
  }

  /** Every band's factor is positive. */
  lemma SizeFactorPositive(count: int, minSize: int, maxSize: int)
    requires 0 <= minSize <= maxSize
    ensures SizeFactor(count, minSize, maxSize) > 0.0
  {
    SizeFactorBands(count, minSize, maxSize);
  }
}
