/**
 * `CircularInterval::circulate_around(self, min_limit, max_limit)`, the
 * wrap rule every `Number` instance gets: below the interval it returns
 * `max_limit - self.abs()`, above it `min_limit + self - max_limit`, and
 * inside it `self` unchanged.
 *
 * The upper branch shifts `self` down by the width `max_limit - min_limit`.
 * The lower branch shifts `self` up by the width only when `min_limit` is 0;
 * `CirculateAround` is the rule with both branches shifting by the width.
 */
module Interval {
  import Number

  /** The branch `circulate_around` takes. */
  datatype Branch = Below | Above | Inside

  function BranchOf(x: real, minLimit: real, maxLimit: real): (b: Branch)
    ensures b == Below <==> x < minLimit
    ensures b == Above <==> minLimit <= x && x > maxLimit
    ensures b == Inside <==> minLimit <= x <= maxLimit
  {
    if x < minLimit then Below else if x > maxLimit then Above else Inside
  }

  /** `x.circulate_around(minLimit, maxLimit)` in type `t`, as written. */
  function CirculateAroundAsWritten(t: Number.NumberType, x: real, minLimit: real, maxLimit: real): real {
    if x < minLimit then maxLimit - Number.Abs(t, x)
    else if x > maxLimit then minLimit + x - maxLimit
    else x
  }

  /** The wrap rule with the lower branch shifting up by the width, as the upper branch shifts down. */
  function CirculateAround(x: real, minLimit: real, maxLimit: real): real {
    if x < minLimit then maxLimit - (minLimit - x)
    else if x > maxLimit then minLimit + (x - maxLimit)
    else x
  }

  /**
   * Every intermediate value of the as-written rule is a value of type `t`:
   * `self.abs()` and `max_limit - self.abs()` below, `min_limit + self` and
   * the result above. An intermediate outside the type is an overflow, which
   * panics in a debug build.
   */
  predicate AsWrittenStaysInType(t: Number.NumberType, x: real, minLimit: real, maxLimit: real) {
    match BranchOf(x, minLimit, maxLimit)
    case Below => Number.Representable(t, Number.Abs(t, x)) && Number.Representable(t, maxLimit - Number.Abs(t, x))
    case Above => Number.Representable(t, minLimit + x) && Number.Representable(t, minLimit + x - maxLimit)
    case Inside => true
  }

  /** The same for the corrected rule: `min_limit - self` and the result below, `self - max_limit` and the result above. */
  predicate StaysInType(t: Number.NumberType, x: real, minLimit: real, maxLimit: real) {
    match BranchOf(x, minLimit, maxLimit)
    case Below => Number.Representable(t, minLimit - x) && Number.Representable(t, maxLimit - (minLimit - x))
    case Above => Number.Representable(t, x - maxLimit) && Number.Representable(t, minLimit + (x - maxLimit))
    case Inside => true
  }

  // ---------------------------------------------------------------------
  // Properties of the rule as written

  /** Inside the closed interval the value comes back unchanged. */
  lemma AsWrittenInsideUnchanged(t: Number.NumberType, x: real, minLimit: real, maxLimit: real)
    requires minLimit <= x <= maxLimit
    ensures CirculateAroundAsWritten(t, x, minLimit, maxLimit) == x
  {
  }

  /** Above the interval the result is `self` shifted down by the width; within one width above, it lands inside. */
  lemma AsWrittenAboveShiftsByWidth(t: Number.NumberType, x: real, minLimit: real, maxLimit: real)
    requires x > maxLimit && minLimit <= maxLimit
    ensures CirculateAroundAsWritten(t, x, minLimit, maxLimit) == x - (maxLimit - minLimit)
    ensures x <= maxLimit + (maxLimit - minLimit) ==>
              minLimit < CirculateAroundAsWritten(t, x, minLimit, maxLimit) <= maxLimit
  {
  }

  /**
   * Below the interval, the as-written result agrees with the shift by the
   * width exactly when `|self| == min_limit - self`; for a signed type and a
   * negative `self` that is exactly `min_limit == 0`.
   */
  lemma AsWrittenBelowAgreesOnlyFromZero(t: Number.NumberType, x: real, minLimit: real, maxLimit: real)
    requires x < minLimit
    ensures CirculateAroundAsWritten(t, x, minLimit, maxLimit) == CirculateAround(x, minLimit, maxLimit)
            <==> Number.Abs(t, x) == minLimit - x
    ensures Number.IsSigned(t) && x < 0.0 ==>
              (CirculateAroundAsWritten(t, x, minLimit, maxLimit) == CirculateAround(x, minLimit, maxLimit)
               <==> minLimit == 0.0)
  {
  }

  /**
   * `(-5).circulate_around(-2, 2)` as written is `2 - 5 == -3`, below the
   * interval; the shift by the width gives `-1`, inside it.
   */
  lemma AsWrittenBelowCounterexample(t: Number.NumberType)
    requires Number.IsSigned(t)
    ensures CirculateAroundAsWritten(t, -5.0, -2.0, 2.0) == -3.0
    ensures CirculateAroundAsWritten(t, -5.0, -2.0, 2.0) < -2.0
    ensures CirculateAround(-5.0, -2.0, 2.0) == -1.0
  {
  }

  /**
   * For the unsigned instances, values of the type with `min <= max` and a
   * sum `min + self` that fits never leave the type: neither subtraction
   * underflows.
   */
  lemma AsWrittenUnsignedNoUnderflow(t: Number.NumberType, x: real, minLimit: real, maxLimit: real)
    requires t == Number.U32 || t == Number.U64
    requires Number.Representable(t, x) && Number.Representable(t, minLimit) && Number.Representable(t, maxLimit)
    requires minLimit <= maxLimit && minLimit + x <= Number.MaxValue(t) as real
    ensures AsWrittenStaysInType(t, x, minLimit, maxLimit)
  {
    IntegralArithmetic(x, minLimit, maxLimit);
  }

  /** Without the bound on `min + self`, the upper branch overflows: 1 + u32::MAX does not fit. */
  lemma AsWrittenUnsignedOverflowExample(max: real)
    requires max == Number.MaxValue(Number.U32) as real
    ensures Number.Representable(Number.U32, max) && Number.Representable(Number.U32, 1.0)
    ensures !AsWrittenStaysInType(Number.U32, max, 1.0, 2.0)
  {
  }

  /**
   * For a signed integer type, `self == T::MIN` below the interval has no
   * `abs()` in the type: `i32::MIN.circulate_around(0, 1)` overflows.
   */
  lemma AsWrittenSignedMinimumOverflows(t: Number.NumberType, x: real)
    requires (t == Number.I32 || t == Number.I64) && x == Number.MinValue(t) as real
    ensures !AsWrittenStaysInType(t, x, 0.0, 1.0)
  {
  }

  // ---------------------------------------------------------------------
  // Properties of the corrected rule

  /**
   * The corrected rule moves `self` by a multiple of the width (`-w`, `0` or
   * `+w`), and within one width of the interval it always lands inside.
   */
  lemma CirculateAroundWraps(x: real, minLimit: real, maxLimit: real)
    requires minLimit <= maxLimit
    ensures var r := CirculateAround(x, minLimit, maxLimit);
            var w := maxLimit - minLimit;
            r == x || r == x + w || r == x - w
    ensures minLimit - (maxLimit - minLimit) <= x <= maxLimit + (maxLimit - minLimit) ==>
              minLimit <= CirculateAround(x, minLimit, maxLimit) <= maxLimit
  {
  }

  /** The corrected rule agrees with the as-written one everywhere except below the interval. */
  lemma CirculateAroundAgreesAboveAndInside(t: Number.NumberType, x: real, minLimit: real, maxLimit: real)
    requires x >= minLimit
    ensures CirculateAround(x, minLimit, maxLimit) == CirculateAroundAsWritten(t, x, minLimit, maxLimit)
  {
  }

  /** With `min == 0` and a negative `self`, they agree below too. */
  lemma CirculateAroundAgreesFromZero(t: Number.NumberType, x: real, maxLimit: real)
    requires Number.IsSigned(t) && x < 0.0
    ensures CirculateAround(x, 0.0, maxLimit) == CirculateAroundAsWritten(t, x, 0.0, maxLimit)
  {
  }

  /**
   * The corrected rule needs no bound on `min + self`: for values of an
   * unsigned type with `min <= max` no intermediate leaves the type.
   */
  lemma CirculateAroundUnsignedInType(t: Number.NumberType, x: real, minLimit: real, maxLimit: real)
    requires t == Number.U32 || t == Number.U64
    requires Number.Representable(t, x) && Number.Representable(t, minLimit) && Number.Representable(t, maxLimit)
    requires minLimit <= maxLimit
    ensures StaysInType(t, x, minLimit, maxLimit)
  {
    IntegralArithmetic(x, minLimit, maxLimit);
  }

  /** Sums and differences of integral reals are integral. */
  lemma IntegralArithmetic(x: real, y: real, z: real)
    requires Number.IsIntegral(x) && Number.IsIntegral(y) && Number.IsIntegral(z)
    ensures Number.IsIntegral(y - x) && Number.IsIntegral(z - (y - x))
    ensures Number.IsIntegral(x - z) && Number.IsIntegral(y + (x - z))
    ensures Number.IsIntegral(y + x) && Number.IsIntegral(y + x - z)
    ensures Number.IsIntegral(z - x)
  {
    var i, j, k := x.Floor, y.Floor, z.Floor;
    assert x == i as real && y == j as real && z == k as real;
    IntegralOfInt(j - i);
    IntegralOfInt(k - (j - i));
    IntegralOfInt(i - k);
    IntegralOfInt(j + (i - k));
    IntegralOfInt(j + i);
    IntegralOfInt(j + i - k);
    IntegralOfInt(k - i);
  }

  lemma IntegralOfInt(n: int)
    ensures Number.IsIntegral(n as real)
  {
  }
}
