/**
 * `Vector3<T>`: three scalars with componentwise arithmetic, the dot and
 * cross products, distances, `normalize` and the single-axis rotations.
 *
 * As for `Vector2`, `sqrt` is a function parameter and each rotation takes
 * the cosine and sine of its angle as the reals `c` and `s`.
 */
module Vec3 {
  import Number

  datatype Vector3 = Vector3(x: real, y: real, z: real)

  /** The derived `Default`: every component at `T::default()`. */
  function Default(t: Number.NumberType): (r: Vector3)
    ensures r.x == Number.Zero(t) && r.y == Number.Zero(t) && r.z == Number.Zero(t)
  {
    Vector3(Number.Default(t), Number.Default(t), Number.Default(t))
  }

  /** `-v`, defined only where `T` is a `SignedNumber`. */
  function Neg(t: Number.NumberType, v: Vector3): Vector3
    requires Number.IsSigned(t)
  {
    Vector3(-v.x, -v.y, -v.z)
  }

  function Add(a: Vector3, b: Vector3): Vector3 {
    Vector3(a.x + b.x, a.y + b.y, a.z + b.z)
  }

  function Sub(a: Vector3, b: Vector3): Vector3 {
    Vector3(a.x - b.x, a.y - b.y, a.z - b.z)
  }

  /** `v * k` for a scalar `k`. */
  function Scale(v: Vector3, k: real): Vector3 {
    Vector3(v.x * k, v.y * k, v.z * k)
  }

  /** `v / k` for a scalar `k`, truncating for the integer types. */
  function Div(t: Number.NumberType, v: Vector3, k: real): Vector3
    requires k != 0.0
  {
    Vector3(Number.Div(t, v.x, k), Number.Div(t, v.y, k), Number.Div(t, v.z, k))
  }

  /** `v.as_slice()`: the components in memory order. */
  function AsSlice(v: Vector3): (r: seq<real>)
    ensures |r| == 3
  {
    [v.x, v.y, v.z]
  }

  /** `v[i]`, which debug-asserts `i < 3` and then indexes the slice. */
  function At(v: Vector3, i: nat): real
    requires i < 3
  {
    if i == 0 then v.x else if i == 1 then v.y else v.z
  }

  /** The value after `v[i] = value` through `IndexMut`. */
  function With(v: Vector3, i: nat, value: real): (r: Vector3)
    requires i < 3
    ensures AsSlice(r) == AsSlice(v)[i := value]
  {
    if i == 0 then v.(x := value) else if i == 1 then v.(y := value) else v.(z := value)
  }

  function Dot(a: Vector3, b: Vector3): real {
    a.x * b.x + a.y * b.y + a.z * b.z
  }

  function Cross(a: Vector3, b: Vector3): Vector3 {
    Vector3(a.y * b.z - a.z * b.y, a.z * b.x - a.x * b.z, a.x * b.y - a.y * b.x)
  }

  /** The sum of the squared components, which `distance_to` takes the root of. */
  function NormSquared(v: Vector3): real {
    v.x * v.x + v.y * v.y + v.z * v.z
  }

  /** `axis.is_normalized()`: the vector has length one. */
  predicate IsNormalized(v: Vector3) {
    NormSquared(v) == 1.0
  }

  function DistanceTo(a: Vector3, b: Vector3, sqrt: real -> real): real {
    sqrt(NormSquared(Sub(a, b)))
  }

  /** `v.modulus()` (also `magnitude()`): the distance to the default vector. */
  function Modulus(t: Number.NumberType, v: Vector3, sqrt: real -> real): real {
    DistanceTo(v, Default(t), sqrt)
  }

  /** `a.taxicab_distance(b)`; for an unsigned `T` the differences must not underflow. */
  function TaxicabDistance(t: Number.NumberType, a: Vector3, b: Vector3): real
    requires Number.IsSigned(t) || (a.x >= b.x && a.y >= b.y && a.z >= b.z)
  {
    Number.Abs(t, a.x - b.x) + Number.Abs(t, a.y - b.y) + Number.Abs(t, a.z - b.z)
  }

  /** `v.normalize()`: `v` itself when its length is zero, else each component divided by the length. */
  function Normalize(t: Number.NumberType, v: Vector3, sqrt: real -> real): Vector3 {
    var length := Modulus(t, v, sqrt);
    if length == 0.0 then v
    else
      Vector3(Number.FromDouble(t, v.x / length), Number.FromDouble(t, v.y / length),
              Number.FromDouble(t, v.z / length))
  }

  /** `v.rotate_x(rad)` as written, with `c == cos(rad)` and `s == sin(rad)`. */
  function RotateX(t: Number.NumberType, v: Vector3, c: real, s: real): Vector3 {
    Vector3(v.x, Number.FromDouble(t, v.y * c + v.z * s), Number.FromDouble(t, v.y * s + v.z * c))
  }

  /** `v.rotate_y(rad)` as written. */
  function RotateY(t: Number.NumberType, v: Vector3, c: real, s: real): Vector3 {
    Vector3(Number.FromDouble(t, v.x * c + v.z * s), v.y, Number.FromDouble(t, v.x * s + v.z * c))
  }

  /** `v.rotate_z(rad)` as written. */
  function RotateZ(t: Number.NumberType, v: Vector3, c: real, s: real): Vector3 {
    Vector3(Number.FromDouble(t, v.x * c + v.y * s), Number.FromDouble(t, v.x * s + v.y * c), v.z)
  }

  /** A rotation in the y-z plane that turns the y axis toward the z axis, as the quarter-turn case of `rotate_x` expects. */
  function RotateXTurn(t: Number.NumberType, v: Vector3, c: real, s: real): Vector3 {
    Vector3(v.x, Number.FromDouble(t, v.y * c - v.z * s), Number.FromDouble(t, v.y * s + v.z * c))
  }

  /** A rotation in the x-z plane that turns the x axis toward the z axis, as the quarter-turn case of `rotate_y` expects. */
  function RotateYTurn(t: Number.NumberType, v: Vector3, c: real, s: real): Vector3 {
    Vector3(Number.FromDouble(t, v.x * c - v.z * s), v.y, Number.FromDouble(t, v.x * s + v.z * c))
  }

  /** A rotation in the x-y plane that turns the x axis toward the y axis, as the quarter-turn case of `rotate_z` expects. */
  function RotateZTurn(t: Number.NumberType, v: Vector3, c: real, s: real): Vector3 {
    Vector3(Number.FromDouble(t, v.x * c - v.y * s), Number.FromDouble(t, v.x * s + v.y * c), v.z)
  }

  // ---------------------------------------------------------------------
  // Properties of the operators

  /** Subtraction undoes addition, and adding the negation gives the default vector. */
  lemma AddSubInverse(t: Number.NumberType, a: Vector3, b: Vector3)
    requires Number.IsSigned(t)
    ensures Sub(Add(a, b), b) == a
    ensures Sub(a, b) == Add(a, Neg(t, b))
    ensures Add(a, Neg(t, a)) == Default(t)
  {
  }

  /** For the float types, division by `k` undoes scaling by `k`. */
  lemma DivUndoesScale(t: Number.NumberType, v: Vector3, k: real)
    requires Number.IsFloat(t) && k != 0.0
    ensures Div(t, Scale(v, k), k) == v
  {
  }

  /** `v[i]` reads entry `i` of `as_slice()`, in the order x, y, z. */
  lemma AtIndexesSlice(v: Vector3, i: nat)
    requires i < 3
    ensures At(v, i) == AsSlice(v)[i]
  {
  }

  /** Reading back a written component gives the written value; the other components are untouched. */
  lemma WithThenAt(v: Vector3, i: nat, j: nat, value: real)
    requires i < 3 && j < 3
    ensures At(With(v, i, value), j) == if i == j then value else At(v, j)
  {
  }

  lemma DotSymmetric(a: Vector3, b: Vector3)
    ensures Dot(a, b) == Dot(b, a)
  {
  }

  /** The squared norm is the dot product of a vector with itself, and is never negative. */
  lemma NormSquaredIsSelfDot(v: Vector3)
    ensures NormSquared(v) == Dot(v, v)
    ensures NormSquared(v) >= 0.0
  {
    Number.SquareNonNegative(v.x);
    Number.SquareNonNegative(v.y);
    Number.SquareNonNegative(v.z);
  }

  /** The cross product is orthogonal to both of its operands. */
  lemma CrossIsOrthogonal(a: Vector3, b: Vector3)
    ensures Dot(a, Cross(a, b)) == 0.0
    ensures Dot(b, Cross(a, b)) == 0.0
  {
    var c := Cross(a, b);
    assert c == Vector3(a.y * b.z - a.z * b.y, a.z * b.x - a.x * b.z, a.x * b.y - a.y * b.x);
    assert a.x * (a.y * b.z - a.z * b.y) + a.y * (a.z * b.x - a.x * b.z) + a.z * (a.x * b.y - a.y * b.x) == 0.0;
    assert b.x * (a.y * b.z - a.z * b.y) + b.y * (a.z * b.x - a.x * b.z) + b.z * (a.x * b.y - a.y * b.x) == 0.0;
  }

  /** The cross product is anti-commutative, and a vector crossed with itself is zero. */
  lemma CrossAntiCommutative(t: Number.NumberType, a: Vector3, b: Vector3)
    requires Number.IsSigned(t)
    ensures Cross(a, b) == Neg(t, Cross(b, a))
    ensures Cross(a, a) == Default(t)
  {
  }

  /** The distance is symmetric, from a vector to itself it is `sqrt(0)`, and the modulus is `sqrt` of the squared norm. */
  lemma DistanceProperties(t: Number.NumberType, a: Vector3, b: Vector3, sqrt: real -> real)
    ensures DistanceTo(a, b, sqrt) == DistanceTo(b, a, sqrt)
    ensures DistanceTo(a, a, sqrt) == sqrt(0.0)
    ensures Modulus(t, a, sqrt) == sqrt(NormSquared(a))
  {
    var d, e := Sub(a, b), Sub(b, a);
    assert e == Vector3(-d.x, -d.y, -d.z);
    assert (-d.x) * (-d.x) == d.x * d.x && (-d.y) * (-d.y) == d.y * d.y && (-d.z) * (-d.z) == d.z * d.z;
    assert NormSquared(d) == NormSquared(e);
    assert Sub(a, a) == Vector3(0.0, 0.0, 0.0);
    assert Sub(a, Default(t)) == a;
  }

  /** The taxicab distance is the sum of the absolute coordinate differences, zero from a vector to itself, and symmetric for the signed types. */
  lemma TaxicabProperties(t: Number.NumberType, a: Vector3, b: Vector3)
    requires Number.IsSigned(t)
    ensures TaxicabDistance(t, a, b)
         == Number.RealAbs(a.x - b.x) + Number.RealAbs(a.y - b.y) + Number.RealAbs(a.z - b.z)
    ensures TaxicabDistance(t, a, b) == TaxicabDistance(t, b, a)
    ensures TaxicabDistance(t, a, a) == 0.0
  {
  }

  /** A vector of length zero normalizes to itself. */
  lemma NormalizeZeroLength(t: Number.NumberType, v: Vector3, sqrt: real -> real)
    requires Modulus(t, v, sqrt) == 0.0
    ensures Normalize(t, v, sqrt) == v
  {
  }

  /** Each single-axis rotation leaves the coordinate along its own axis unchanged. */
  lemma RotationsKeepTheirAxis(t: Number.NumberType, v: Vector3, c: real, s: real)
    ensures RotateX(t, v, c, s).x == v.x && RotateXTurn(t, v, c, s).x == v.x
    ensures RotateY(t, v, c, s).y == v.y && RotateYTurn(t, v, c, s).y == v.y
    ensures RotateZ(t, v, c, s).z == v.z && RotateZTurn(t, v, c, s).z == v.z
  {
  }

  /** With `cos == 1` and `sin == 0` every rotation returns its input. */
  lemma RotateByZero(t: Number.NumberType, v: Vector3)
    requires Number.Representable(t, v.x) && Number.Representable(t, v.y) && Number.Representable(t, v.z)
    ensures RotateX(t, v, 1.0, 0.0) == v && RotateY(t, v, 1.0, 0.0) == v && RotateZ(t, v, 1.0, 0.0) == v
    ensures RotateXTurn(t, v, 1.0, 0.0) == v && RotateYTurn(t, v, 1.0, 0.0) == v
    ensures RotateZTurn(t, v, 1.0, 0.0) == v
  {
  }

  /**
   * The quarter turns the source expects: `rotate_x` takes (0, 1, 0) to
   * (0, 0, 1), `rotate_y` and `rotate_z` take (1, 0, 0) to (0, 0, 1) and
   * (0, 1, 0). The rotations as written get these right.
   */
  lemma QuarterTurnsAsWritten()
    ensures RotateX(Number.F64, Vector3(0.0, 1.0, 0.0), 0.0, 1.0) == Vector3(0.0, 0.0, 1.0)
    ensures RotateY(Number.F64, Vector3(1.0, 0.0, 0.0), 0.0, 1.0) == Vector3(0.0, 0.0, 1.0)
    ensures RotateZ(Number.F64, Vector3(1.0, 0.0, 0.0), 0.0, 1.0) == Vector3(0.0, 1.0, 0.0)
  {
  }

  /**
   * Each rotation as written multiplies its plane by [[c, s], [s, c]], which
   * is not a rotation: a quarter turn about x sends both (0, 1, 0) and
   * (0, 0, 1) into the y-z plane's other axis, so it swaps them, and with
   * cos = 3/5, sin = 4/5 the vector (0, 1, 1) grows from squared norm 2 to
   * 98/25.
   */
  lemma RotationsAsWrittenAreNotRotations()
    ensures RotateX(Number.F64, Vector3(0.0, 0.0, 1.0), 0.0, 1.0) == Vector3(0.0, 1.0, 0.0)
    ensures var r := RotateX(Number.F64, Vector3(0.0, 1.0, 1.0), 3.0 / 5.0, 4.0 / 5.0);
      NormSquared(r) == 98.0 / 25.0 != NormSquared(Vector3(0.0, 1.0, 1.0))
    ensures var r := RotateY(Number.F64, Vector3(1.0, 0.0, 1.0), 3.0 / 5.0, 4.0 / 5.0);
      NormSquared(r) == 98.0 / 25.0 != NormSquared(Vector3(1.0, 0.0, 1.0))
    ensures var r := RotateZ(Number.F64, Vector3(1.0, 1.0, 0.0), 3.0 / 5.0, 4.0 / 5.0);
      NormSquared(r) == 98.0 / 25.0 != NormSquared(Vector3(1.0, 1.0, 0.0))
  {
  }

  /** The corrected rotation about x keeps the squared norm and is undone by the opposite angle. */
  lemma RotateXTurnIsARotation(t: Number.NumberType, v: Vector3, c: real, s: real)
    requires Number.IsFloat(t) && c * c + s * s == 1.0
    ensures NormSquared(RotateXTurn(t, v, c, s)) == NormSquared(v)
    ensures RotateXTurn(t, RotateXTurn(t, v, c, s), c, -s) == v
  {
    PlaneRotation(v.y, v.z, c, s);
  }

  /** The corrected rotation about y keeps the squared norm and is undone by the opposite angle. */
  lemma RotateYTurnIsARotation(t: Number.NumberType, v: Vector3, c: real, s: real)
    requires Number.IsFloat(t) && c * c + s * s == 1.0
    ensures NormSquared(RotateYTurn(t, v, c, s)) == NormSquared(v)
    ensures RotateYTurn(t, RotateYTurn(t, v, c, s), c, -s) == v
  {
    PlaneRotation(v.x, v.z, c, s);
  }

  /** The corrected rotation about z keeps the squared norm and is undone by the opposite angle. */
  lemma RotateZTurnIsARotation(t: Number.NumberType, v: Vector3, c: real, s: real)
    requires Number.IsFloat(t) && c * c + s * s == 1.0
    ensures NormSquared(RotateZTurn(t, v, c, s)) == NormSquared(v)
    ensures RotateZTurn(t, RotateZTurn(t, v, c, s), c, -s) == v
  {
    PlaneRotation(v.x, v.y, c, s);
  }

  /** The corrected rotations also meet the quarter turns the source expects. */
  lemma QuarterTurnsCorrected()
    ensures RotateXTurn(Number.F64, Vector3(0.0, 1.0, 0.0), 0.0, 1.0) == Vector3(0.0, 0.0, 1.0)
    ensures RotateYTurn(Number.F64, Vector3(1.0, 0.0, 0.0), 0.0, 1.0) == Vector3(0.0, 0.0, 1.0)
    ensures RotateZTurn(Number.F64, Vector3(1.0, 0.0, 0.0), 0.0, 1.0) == Vector3(0.0, 1.0, 0.0)
    ensures RotateXTurn(Number.F64, Vector3(0.0, 0.0, 1.0), 0.0, 1.0) == Vector3(0.0, -1.0, 0.0)
  {
  }

  /** A rotation of the plane by (c, s) with c*c + s*s == 1 keeps lengths and is undone by (c, -s). */
  lemma PlaneRotation(a: real, b: real, c: real, s: real)
    requires c * c + s * s == 1.0
    ensures (a * c - b * s) * (a * c - b * s) + (a * s + b * c) * (a * s + b * c) == a * a + b * b
    ensures (a * c - b * s) * c + (a * s + b * c) * s == a
    ensures (a * s + b * c) * c - (a * c - b * s) * s == b
  {
    assert (a * c - b * s) * (a * c - b * s) + (a * s + b * c) * (a * s + b * c)
        == (a * a + b * b) * (c * c + s * s);
    assert (a * c - b * s) * c + (a * s + b * c) * s == a * (c * c + s * s);
    assert (a * s + b * c) * c - (a * c - b * s) * s == b * (c * c + s * s);
  }

  /** (1, 0, 0) x (0, 1, 0) == (0, 0, 1). */
  lemma CrossExample()
    ensures Cross(Vector3(1.0, 0.0, 0.0), Vector3(0.0, 1.0, 0.0)) == Vector3(0.0, 0.0, 1.0)
  {
  }

  /** (1, 2, 3) . (4, 5, 6) == 32 and (1, 2, 3) + (4, 5, 6) == (5, 7, 9). */
  lemma DotExample()
    ensures Dot(Vector3(1.0, 2.0, 3.0), Vector3(4.0, 5.0, 6.0)) == 32.0
    ensures Add(Vector3(1.0, 2.0, 3.0), Vector3(4.0, 5.0, 6.0)) == Vector3(5.0, 7.0, 9.0)
  {
  }

  /** (1, -2, 3) * 2 == (2, -4, 6), and dividing that by 4 gives (0.5, -1, 1.5). */
  lemma ScaleExample()
    ensures Scale(Vector3(1.0, -2.0, 3.0), 2.0) == Vector3(2.0, -4.0, 6.0)
    ensures Div(Number.F64, Vector3(2.0, -4.0, 6.0), 4.0) == Vector3(0.5, -1.0, 1.5)
  {
    DivUndoesScale(Number.F64, Vector3(0.5, -1.0, 1.5), 4.0);
    assert Scale(Vector3(0.5, -1.0, 1.5), 4.0) == Vector3(2.0, -4.0, 6.0);
  }

  /**
   * A `Vector3` updated in place: the compound assignments and `IndexMut`
   * write the fields `x`, `y` and `z`.
   */
  class MutableVector3 {
    var x: real
    var y: real
    var z: real

    function Value(): Vector3
      reads this
    {
      Vector3(x, y, z)
    }

    constructor (v: Vector3)
      ensures Value() == v
    {
      x, y, z := v.x, v.y, v.z;
    }

    /** `self += rhs`. */
    method AddAssign(rhs: Vector3)
      modifies this
      ensures Value() == Add(old(Value()), rhs)
    {
      x := x + rhs.x;
      y := y + rhs.y;
      z := z + rhs.z;
    }

    /** `self -= rhs`. */
    method SubAssign(rhs: Vector3)
      modifies this
      ensures Value() == Sub(old(Value()), rhs)
    {
      x := x - rhs.x;
      y := y - rhs.y;
      z := z - rhs.z;
    }

    /** `self *= k`. */
    method MulAssign(k: real)
      modifies this
      ensures Value() == Scale(old(Value()), k)
    {
      x := x * k;
      y := y * k;
      z := z * k;
    }

    /** `self /= k`. */
    method DivAssign(t: Number.NumberType, k: real)
      requires k != 0.0
      modifies this
      ensures Value() == Div(t, old(Value()), k)
    {
      x := Number.Div(t, x, k);
      y := Number.Div(t, y, k);
      z := Number.Div(t, z, k);
    }

    /** `self[i] = value` through `IndexMut` (or through `as_mut_slice()`). */
    method SetAt(i: nat, value: real)
      requires i < 3
      modifies this
      ensures Value() == With(old(Value()), i, value)
    {
      if i == 0 {
        x := value;
      } else if i == 1 {
        y := value;
      } else {
        z := value;
      }
    }
  }
}
