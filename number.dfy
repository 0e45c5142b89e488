/**
 * The scalar abstraction of the math library: the six primitive types that
 * implement `Number`, the four that also implement `SignedNumber`, their
 * `zero()`/`one()` constants, and the type-dependent parts of scalar
 * arithmetic (integer division truncates, `abs` and `from_double`).
 *
 * Every scalar is modelled as an exact `real`. A value of an integer type is
 * an integral real inside that type's range; `+`, `-` and `*` are exact and
 * their overflow is not modelled.
 */
module Number {

  datatype NumberType = F64 | F32 | U64 | I64 | U32 | I32

  /** The two floating-point instances; f32 rounding is not modelled, so both are exact reals. */
  predicate IsFloat(t: NumberType) {
    t == F64 || t == F32
  }

  /** The instances of `SignedNumber`: exactly f64, f32, i64 and i32. */
  predicate IsSigned(t: NumberType) {
    t == F64 || t == F32 || t == I64 || t == I32
  }

  /** Smallest value of an integer type. */
  function MinValue(t: NumberType): int
    requires !IsFloat(t)
  {
    match t
    case U64 => 0
    case U32 => 0
    case I64 => -0x8000_0000_0000_0000
    case I32 => -0x8000_0000
  }

  /** Largest value of an integer type. */
  function MaxValue(t: NumberType): int
    requires !IsFloat(t)
  {
    match t
    case U64 => 0xFFFF_FFFF_FFFF_FFFF
    case U32 => 0xFFFF_FFFF
    case I64 => 0x7FFF_FFFF_FFFF_FFFF
    case I32 => 0x7FFF_FFFF
  }

  predicate IsIntegral(x: real) {
    x.Floor as real == x
  }

  /** `x` is a value of type `t`: any real for a float type, an integral real in range otherwise. */
  predicate Representable(t: NumberType, x: real) {
    IsFloat(t) || (IsIntegral(x) && MinValue(t) as real <= x <= MaxValue(t) as real)
  }

  /** `T::zero()`. */
  function Zero(t: NumberType): (r: real)
    ensures Representable(t, r)
    ensures r + r == r
  {
    0.0
  }

  /** `T::one()`. */
  function One(t: NumberType): (r: real)
    ensures Representable(t, r)
    ensures r != 0.0 && r * r == r
  {
    1.0
  }

  /** `T::default()`, which Rust defines as 0 for every primitive numeric type. */
  function Default(t: NumberType): (r: real)
    ensures r == Zero(t)
  {
    0.0
  }

  function RealAbs(x: real): (r: real)
    ensures r >= 0.0 && (r == x || r == -x)
  {
    if x < 0.0 then -x else x
  }

  /** Rounds toward zero, as Rust's integer division and float-to-integer casts do. */
  function Truncate(x: real): (r: int)
    ensures RealAbs(r as real) <= RealAbs(x) < RealAbs(r as real) + 1.0
    ensures r as real * x >= 0.0
  {
    if x >= 0.0 then x.Floor else -((-x).Floor)
  }

  /**
   * `a / b` in type `t`: exact for the float types, truncating toward zero for
   * the integer types. Division by zero panics for the integer types; for the
   * float types it yields an infinity, which reals cannot represent, so the
   * model excludes it for every type.
   */
  function Div(t: NumberType, a: real, b: real): (r: real)
    requires b != 0.0
    ensures IsFloat(t) ==> r * b == a
    ensures !IsFloat(t) ==> IsIntegral(r)
    ensures !IsFloat(t) ==> RealAbs(r) <= RealAbs(a / b) < RealAbs(r) + 1.0
    ensures !IsFloat(t) ==> r * (a / b) >= 0.0
  {
    if IsFloat(t) then a / b else Truncate(a / b) as real
  }

  /**
   * `T::abs(x)`. For the signed types it is the absolute value; the unsigned
   * types have no negative values and return `x` itself.
   */
  function Abs(t: NumberType, x: real): (r: real)
    ensures r == x || r == -x
    ensures Representable(t, x) ==> r >= 0.0
  {
    if IsSigned(t) then RealAbs(x) else x
  }

  /**
   * `T::from_double(value)`, the `as` cast from f64: the identity for the float
   * types, and for the integer types truncation toward zero followed by
   * saturation at the bounds of the type.
   */
  function FromDouble(t: NumberType, value: real): (r: real)
    ensures Representable(t, r)
    ensures Representable(t, value) ==> r == value
  {
    if IsFloat(t) then value
    else
      var n := Truncate(value);
      TruncateIntegral(value);
      if n < MinValue(t) then MinValue(t) as real
      else if n > MaxValue(t) then MaxValue(t) as real
      else n as real
  }

  /**
   * For an integer type and non-negative operands, `a / b` is the quotient
   * `q` with `q * b <= a < (q + 1) * b`.
   */
  lemma DivIsQuotient(t: NumberType, a: real, b: real, q: int)
    requires !IsFloat(t) && a >= 0.0 && b > 0.0
    requires q as real * b <= a < (q + 1) as real * b
    ensures Div(t, a, b) == q as real
  {
    var d := a / b;
    CancelFactor(q as real, d, b, q as real * b, a);
    CancelFactor(d, (q + 1) as real, b, a, (q + 1) as real * b);
    assert d.Floor == q;
  }

  /** A positive factor cancels from both sides of an inequality. */
  lemma CancelFactor(x: real, y: real, b: real, xb: real, yb: real)
    requires b > 0.0 && xb == x * b && yb == y * b
    ensures xb <= yb ==> x <= y
    ensures xb < yb ==> x < y
  {
    if x > y {
      MulMonotone(x, y, b);
    }
  }

  /** Multiplying by a positive factor keeps the order. */
  lemma MulMonotone(x: real, y: real, b: real)
    requires x >= y && b > 0.0
    ensures x * b >= y * b
    ensures x > y ==> x * b > y * b
  {
    var e := x - y;
    if e > 0.0 {
      assert e * b > 0.0 * b;
    }
    assert x * b - y * b == e * b;
  }

  /** Truncation leaves an integral value unchanged. */
  lemma TruncateIntegral(x: real)
    ensures IsIntegral(x) ==> Truncate(x) as real == x
  {
    if IsIntegral(x) && x < 0.0 {
      assert (-x).Floor == -(x.Floor);
    }
  }

  /** Only the signed instances can represent `-one()`: an unsigned scalar has no negation. */
  lemma NegationNeedsSigned(t: NumberType)
    ensures Representable(t, -One(t)) <==> IsSigned(t)
  {
  }

  /** `zero()` and `one()` of every instance, and `default() == zero()`. */
  lemma ZeroOneOfEveryType(t: NumberType)
    ensures Zero(t) == 0.0 && One(t) == 1.0 && Default(t) == Zero(t)
    ensures Representable(t, Zero(t)) && Representable(t, One(t))
  {
  }

  /** A square is positive for a non-zero base. */
  lemma SquarePositive(a: real)
    requires a != 0.0
    ensures a * a > 0.0
  {
    if a > 0.0 {
      assert a * a > 0.0 * a;
    } else {
      assert (-a) * (-a) > 0.0 * (-a);
    }
  }

  /** A square is never negative. */
  lemma SquareNonNegative(a: real)
    ensures a * a >= 0.0
  {
    if a != 0.0 {
      SquarePositive(a);
    }
  }
}
