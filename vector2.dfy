/**
 * `Vector2<T>`: a pair of scalars with componentwise arithmetic, the dot
 * product, squared norm, distances, `normalize` and `rotate`.
 *
 * `sqrt`, `cos` and `sin` are parameters: `sqrt` is any function on reals
 * (only where a lemma says so is it a square root), and a rotation takes the
 * cosine and sine of its angle as the two reals `c` and `s`.
 */
module Vec2 {
  import Number

  datatype Vector2 = Vector2(x: real, y: real)

  /** `Vector2::zero()`. */
  function Zero(t: Number.NumberType): Vector2 {
    Vector2(Number.Zero(t), Number.Zero(t))
  }

  /** `Vector2::one()`. */
  function One(t: Number.NumberType): Vector2 {
    Vector2(Number.One(t), Number.One(t))
  }

  /** The derived `Default`: both components at `T::default()`. */
  function Default(t: Number.NumberType): (r: Vector2)
    ensures r == Zero(t)
  {
    Vector2(Number.Default(t), Number.Default(t))
  }

  /** `-v`, defined only where `T` has a negation. */
  function Neg(t: Number.NumberType, v: Vector2): Vector2
    requires Number.IsSigned(t)
  {
    Vector2(-v.x, -v.y)
  }

  function Add(a: Vector2, b: Vector2): Vector2 {
    Vector2(a.x + b.x, a.y + b.y)
  }

  function Sub(a: Vector2, b: Vector2): Vector2 {
    Vector2(a.x - b.x, a.y - b.y)
  }

  /** `v * k` for a scalar `k`. */
  function Scale(v: Vector2, k: real): Vector2 {
    Vector2(v.x * k, v.y * k)
  }

  /** `v / k` for a scalar `k`, truncating for the integer types. */
  function Div(t: Number.NumberType, v: Vector2, k: real): Vector2
    requires k != 0.0
  {
    Vector2(Number.Div(t, v.x, k), Number.Div(t, v.y, k))
  }

  /** `v.as_slice()`: the components in memory order. */
  function AsSlice(v: Vector2): (r: seq<real>)
    ensures |r| == 2
  {
    [v.x, v.y]
  }

  /** `v[i]`, which debug-asserts `i < 2` and then indexes the slice. */
  function At(v: Vector2, i: nat): real
    requires i < 2
  {
    if i == 0 then v.x else v.y
  }

  /** The value after `v[i] = value` through `IndexMut`. */
  function With(v: Vector2, i: nat, value: real): (r: Vector2)
    requires i < 2
    ensures AsSlice(r) == AsSlice(v)[i := value]
  {
    if i == 0 then v.(x := value) else v.(y := value)
  }

  function NormSquared(v: Vector2): real {
    v.x * v.x + v.y * v.y
  }

  function Dot(a: Vector2, b: Vector2): real {
    a.x * b.x + a.y * b.y
  }

  /** `a.distance_to(b)`: the square root of the squared norm of `a - b`. */
  function DistanceTo(a: Vector2, b: Vector2, sqrt: real -> real): real {
    sqrt(NormSquared(Sub(a, b)))
  }

  /** `v.modulus()` (also `magnitude()`): the distance to the default vector. */
  function Modulus(t: Number.NumberType, v: Vector2, sqrt: real -> real): real {
    DistanceTo(v, Default(t), sqrt)
  }

  /** `a.taxicab_distance(b)`; for an unsigned `T` the differences must not underflow. */
  function TaxicabDistance(t: Number.NumberType, a: Vector2, b: Vector2): real
    requires Number.IsSigned(t) || (a.x >= b.x && a.y >= b.y)
  {
    Number.Abs(t, a.x - b.x) + Number.Abs(t, a.y - b.y)
  }

  /** `v.normalize()`: `v` itself when its length is zero, else each component divided by the length. */
  function Normalize(t: Number.NumberType, v: Vector2, sqrt: real -> real): Vector2 {
    var length := Modulus(t, v, sqrt);
    if length == 0.0 then v
    else Vector2(Number.FromDouble(t, v.x / length), Number.FromDouble(t, v.y / length))
  }

  /** `v.rotate(rad)` as written, with `c == cos(rad)` and `s == sin(rad)`. */
  function Rotate(t: Number.NumberType, v: Vector2, c: real, s: real): Vector2 {
    Vector2(Number.FromDouble(t, v.x * c + v.y * s), Number.FromDouble(t, v.x * s + v.y * c))
  }

  /** The counter-clockwise rotation that the documentation of `rotate` describes. */
  function RotateCounterClockwise(t: Number.NumberType, v: Vector2, c: real, s: real): Vector2 {
    Vector2(Number.FromDouble(t, v.x * c - v.y * s), Number.FromDouble(t, v.x * s + v.y * c))
  }

  // ---------------------------------------------------------------------
  // Properties of the operators

  /** Subtraction undoes addition, and negation is subtraction from zero. */
  lemma AddSubInverse(t: Number.NumberType, a: Vector2, b: Vector2)
    requires Number.IsSigned(t)
    ensures Sub(Add(a, b), b) == a
    ensures Sub(a, b) == Add(a, Neg(t, b))
    ensures Add(a, Neg(t, a)) == Zero(t)
  {
  }

  /** For the float types, division by `k` undoes scaling by `k`. */
  lemma DivUndoesScale(t: Number.NumberType, v: Vector2, k: real)
    requires Number.IsFloat(t) && k != 0.0
    ensures Div(t, Scale(v, k), k) == v
  {
  }

  /** `v[i]` reads entry `i` of `as_slice()`: `x` then `y`. */
  lemma AtIndexesSlice(v: Vector2, i: nat)
    requires i < 2
    ensures At(v, i) == AsSlice(v)[i]
  {
  }

  /** Reading back a written component gives the written value; the other component is untouched. */
  lemma WithThenAt(v: Vector2, i: nat, j: nat, value: real)
    requires i < 2 && j < 2
    ensures At(With(v, i, value), j) == if i == j then value else At(v, j)
  {
  }

  /** `norm_squared(v) == v.dot(v) == x*x + y*y`, which is never negative. */
  lemma NormSquaredIsSelfDot(v: Vector2)
    ensures NormSquared(v) == Dot(v, v) == v.x * v.x + v.y * v.y
    ensures NormSquared(v) >= 0.0
  {
    Number.SquareNonNegative(v.x);
    Number.SquareNonNegative(v.y);
  }

  lemma DotSymmetric(a: Vector2, b: Vector2)
    ensures Dot(a, b) == Dot(b, a)
  {
  }

  /** The distance is symmetric, from a vector to itself it is `sqrt(0)`, and the modulus is `sqrt(norm_squared)`. */
  lemma DistanceProperties(t: Number.NumberType, a: Vector2, b: Vector2, sqrt: real -> real)
    ensures DistanceTo(a, b, sqrt) == DistanceTo(b, a, sqrt)
    ensures DistanceTo(a, a, sqrt) == sqrt(0.0)
    ensures Modulus(t, a, sqrt) == sqrt(NormSquared(a))
  {
    var d, e := Sub(a, b), Sub(b, a);
    assert e == Vector2(-d.x, -d.y);
    assert (-d.x) * (-d.x) == d.x * d.x && (-d.y) * (-d.y) == d.y * d.y;
    assert NormSquared(d) == NormSquared(e);
    assert Sub(a, a) == Vector2(0.0, 0.0);
    assert Sub(a, Default(t)) == a;
  }

  /** The taxicab distance is the sum of the absolute coordinate differences, zero from a vector to itself, and symmetric for the signed types. */
  lemma TaxicabProperties(t: Number.NumberType, a: Vector2, b: Vector2)
    requires Number.IsSigned(t)
    ensures TaxicabDistance(t, a, b) == Number.RealAbs(a.x - b.x) + Number.RealAbs(a.y - b.y)
    ensures TaxicabDistance(t, a, b) == TaxicabDistance(t, b, a)
    ensures TaxicabDistance(t, a, a) == 0.0
  {
  }

  /** A vector of length zero normalizes to itself. */
  lemma NormalizeZeroLength(t: Number.NumberType, v: Vector2, sqrt: real -> real)
    requires Modulus(t, v, sqrt) == 0.0
    ensures Normalize(t, v, sqrt) == v
  {
  }

  /** For a float type and a non-zero length, each component is divided by the length. */
  lemma NormalizeDividesByLength(t: Number.NumberType, v: Vector2, sqrt: real -> real, length: real)
    requires Number.IsFloat(t) && length == Modulus(t, v, sqrt) && length != 0.0
    ensures Normalize(t, v, sqrt) == Vector2(v.x / length, v.y / length)
  {
  }

  /**
   * For a float type, when `sqrt` returns the positive square root of the
   * squared norm, the normalized vector has squared norm one.
   */
  lemma NormalizeHasUnitLength(t: Number.NumberType, v: Vector2, sqrt: real -> real)
    requires Number.IsFloat(t)
    requires var n := NormSquared(v); sqrt(n) > 0.0 && sqrt(n) * sqrt(n) == n
    ensures NormSquared(Normalize(t, v, sqrt)) == 1.0
  {
    var l := sqrt(NormSquared(v));
    assert Modulus(t, v, sqrt) == l by {
      DistanceProperties(t, v, v, sqrt);
    }
    var r := Normalize(t, v, sqrt);
    assert r == Vector2(v.x / l, v.y / l);
    UnitAfterDivision(v.x, v.y, l);
  }

  /** Dividing both terms of a sum of squares by its square root gives a unit sum. */
  lemma UnitAfterDivision(a: real, b: real, l: real)
    requires l > 0.0 && l * l == a * a + b * b
    ensures (a / l) * (a / l) + (b / l) * (b / l) == 1.0
  {
    var p, q := a / l, b / l;
    assert p * l == a && q * l == b;
    calc {
      (p * p + q * q) * (l * l);
      (p * l) * (p * l) + (q * l) * (q * l);
      a * a + b * b;
      l * l;
    }
    Number.SquarePositive(l);
    assert (p * p + q * q - 1.0) * (l * l) == 0.0;
  }

  /** With `cos == 1` and `sin == 0` the rotation returns its input, for every type. */
  lemma RotateByZero(t: Number.NumberType, v: Vector2)
    requires Number.Representable(t, v.x) && Number.Representable(t, v.y)
    ensures Rotate(t, v, 1.0, 0.0) == v
    ensures RotateCounterClockwise(t, v, 1.0, 0.0) == v
  {
  }

  /**
   * `rotate` as written multiplies by [[c, s], [s, c]], which is not a
   * rotation: with cos = 3/5 and sin = 4/5 it maps (1, 1), of squared norm 2,
   * to (7/5, 7/5), of squared norm 98/25; and a quarter turn maps (0, 1) to
   * (1, 0) instead of (-1, 0).
   */
  lemma RotateIsNotARotation()
    ensures var v := Rotate(Number.F64, Vector2(1.0, 1.0), 3.0 / 5.0, 4.0 / 5.0);
      v == Vector2(7.0 / 5.0, 7.0 / 5.0) && NormSquared(v) != NormSquared(Vector2(1.0, 1.0))
    ensures Rotate(Number.F64, Vector2(0.0, 1.0), 0.0, 1.0) == Vector2(1.0, 0.0)
  {
  }

  /**
   * The corrected rotation keeps the squared norm whenever `c*c + s*s == 1`,
   * turns (1, 0) a quarter turn counter-clockwise to (0, 1) and (0, 1) to
   * (-1, 0), and is undone by the rotation by the opposite angle.
   */
  lemma RotateCounterClockwiseIsARotation(t: Number.NumberType, v: Vector2, c: real, s: real)
    requires Number.IsFloat(t) && c * c + s * s == 1.0
    ensures NormSquared(RotateCounterClockwise(t, v, c, s)) == NormSquared(v)
    ensures RotateCounterClockwise(t, RotateCounterClockwise(t, v, c, s), c, -s) == v
    ensures RotateCounterClockwise(t, Vector2(1.0, 0.0), 0.0, 1.0) == Vector2(0.0, 1.0)
    ensures RotateCounterClockwise(t, Vector2(0.0, 1.0), 0.0, 1.0) == Vector2(-1.0, 0.0)
  {
    var x, y := v.x, v.y;
    assert (x * c - y * s) * (x * c - y * s) + (x * s + y * c) * (x * s + y * c)
        == (x * x + y * y) * (c * c + s * s);
    var r := RotateCounterClockwise(t, v, c, s);
    assert r.x * c + r.y * s == x * (c * c + s * s);
    assert r.y * c - r.x * s == y * (c * c + s * s);
  }

  /** (1, 2) . (3, 4) == 11 and (4, 6) / 2 == (2, 3) in u32. */
  lemma Examples()
    ensures Dot(Vector2(1.0, 2.0), Vector2(3.0, 4.0)) == 11.0
    ensures Div(Number.U32, Vector2(4.0, 6.0), 2.0) == Vector2(2.0, 3.0)
  {
    assert Number.Div(Number.U32, 4.0, 2.0) == 2.0 by {
      assert Number.Truncate(2.0) == 2;
    }
    assert Number.Div(Number.U32, 6.0, 2.0) == 3.0 by {
      assert Number.Truncate(3.0) == 3;
    }
  }

  /**
   * A `Vector2` updated in place: the compound assignments and `IndexMut`
   * write the fields `x` and `y`.
   */
  class MutableVector2 {
    var x: real
    var y: real

    function Value(): Vector2
      reads this
    {
      Vector2(x, y)
    }

    constructor (v: Vector2)
      ensures Value() == v
    {
      x, y := v.x, v.y;
    }

    /** `self += rhs`. */
    method AddAssign(rhs: Vector2)
      modifies this
      ensures Value() == Add(old(Value()), rhs)
    {
      x := x + rhs.x;
      y := y + rhs.y;
    }

    /** `self -= rhs`. */
    method SubAssign(rhs: Vector2)
      modifies this
      ensures Value() == Sub(old(Value()), rhs)
    {
      x := x - rhs.x;
      y := y - rhs.y;
    }

    /** `self *= k`. */
    method MulAssign(k: real)
      modifies this
      ensures Value() == Scale(old(Value()), k)
    {
      x := x * k;
      y := y * k;
    }

    /** `self /= k`. */
    method DivAssign(t: Number.NumberType, k: real)
      requires k != 0.0
      modifies this
      ensures Value() == Div(t, old(Value()), k)
    {
      x := Number.Div(t, x, k);
      y := Number.Div(t, y, k);
    }

    /** `self[i] = value` through `IndexMut` (or through `as_mut_slice()`). */
    method SetAt(i: nat, value: real)
      requires i < 2
      modifies this
      ensures Value() == With(old(Value()), i, value)
    {
      if i == 0 {
        x := value;
      } else {
        y := value;
      }
    }
  }
}
