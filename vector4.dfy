/**
 * `Vector4<T>`: four scalars with componentwise arithmetic, the dot product,
 * scalar multiplication from either side, and the conversions to and from
 * `Vector3`, arrays and slices. A `[T; 4]` array or a slice is a `seq<real>`.
 */
module Vec4 {
  import Number
  import Vec3

  datatype Vector4 = Vector4(x: real, y: real, z: real, w: real)

  /** `Vector4::zero()`. */
  function Zero(t: Number.NumberType): (r: Vector4)
    ensures ToArray(r) == [0.0, 0.0, 0.0, 0.0]
  {
    Vector4(Number.Zero(t), Number.Zero(t), Number.Zero(t), Number.Zero(t))
  }

  /** `Vector4::one()`. */
  function One(t: Number.NumberType): (r: Vector4)
    ensures ToArray(r) == [1.0, 1.0, 1.0, 1.0]
  {
    Vector4(Number.One(t), Number.One(t), Number.One(t), Number.One(t))
  }

  /** The derived `Default`, which is the zero vector. */
  function Default(t: Number.NumberType): (r: Vector4)
    ensures r == Zero(t)
  {
    Vector4(Number.Default(t), Number.Default(t), Number.Default(t), Number.Default(t))
  }

  /** `-v`, which needs `T: Neg`: only the signed instances have it. */
  function Neg(t: Number.NumberType, v: Vector4): Vector4
    requires Number.IsSigned(t)
  {
    Vector4(-v.x, -v.y, -v.z, -v.w)
  }

  function Add(a: Vector4, b: Vector4): Vector4 {
    Vector4(a.x + b.x, a.y + b.y, a.z + b.z, a.w + b.w)
  }

  function Sub(a: Vector4, b: Vector4): Vector4 {
    Vector4(a.x - b.x, a.y - b.y, a.z - b.z, a.w - b.w)
  }

  /** `v * k` for a scalar `k`. */
  function Scale(v: Vector4, k: real): Vector4 {
    Vector4(v.x * k, v.y * k, v.z * k, v.w * k)
  }

  /** `k * v`: each of the six left-scalar impls forwards to `v * k`. */
  function ScaleLeft(k: real, v: Vector4): (r: Vector4)
    ensures r == Vector4(k * v.x, k * v.y, k * v.z, k * v.w)
  {
    Scale(v, k)
  }

  /** `v / k` for a scalar `k`, truncating for the integer types. */
  function Div(t: Number.NumberType, v: Vector4, k: real): Vector4
    requires k != 0.0
  {
    Vector4(Number.Div(t, v.x, k), Number.Div(t, v.y, k), Number.Div(t, v.z, k), Number.Div(t, v.w, k))
  }

  /** `Vector4::from_vector3(v, w)`. */
  function FromVector3(v: Vec3.Vector3, w: real): (r: Vector4)
    ensures r.x == v.x && r.y == v.y && r.z == v.z && r.w == w
  {
    Vector4(v.x, v.y, v.z, w)
  }

  function Dot(a: Vector4, b: Vector4): real {
    a.x * b.x + a.y * b.y + a.z * b.z + a.w * b.w
  }

  /** `Vector4::from_array(arr)`. */
  function FromArray(arr: seq<real>): Vector4
    requires |arr| == 4
  {
    Vector4(arr[0], arr[1], arr[2], arr[3])
  }

  /** `v.to_array()`, which is also what `as_slice()` views. */
  function ToArray(v: Vector4): (r: seq<real>)
    ensures |r| == 4
  {
    [v.x, v.y, v.z, v.w]
  }

  /** `Vector4::from_slice(slice)`, which debug-asserts at least four elements and reads the first four. */
  function FromSlice(slice: seq<real>): (r: Vector4)
    requires |slice| >= 4
    ensures ToArray(r) == slice[..4]
  {
    Vector4(slice[0], slice[1], slice[2], slice[3])
  }

  /** `v[i]`, which debug-asserts `i < 4` and then indexes the slice. */
  function At(v: Vector4, i: nat): real
    requires i < 4
  {
    if i == 0 then v.x else if i == 1 then v.y else if i == 2 then v.z else v.w
  }

  /** The value after `v[i] = value` through `IndexMut`. */
  function With(v: Vector4, i: nat, value: real): (r: Vector4)
    requires i < 4
    ensures ToArray(r) == ToArray(v)[i := value]
  {
    if i == 0 then v.(x := value)
    else if i == 1 then v.(y := value)
    else if i == 2 then v.(z := value)
    else v.(w := value)
  }

  // ---------------------------------------------------------------------
  // Properties

  /** Subtraction undoes addition; adding the negation gives zero. */
  lemma AddSubInverse(t: Number.NumberType, a: Vector4, b: Vector4)
    requires Number.IsSigned(t)
    ensures Sub(Add(a, b), b) == a
    ensures Sub(a, b) == Add(a, Neg(t, b))
    ensures Add(a, Neg(t, a)) == Zero(t)
  {
  }

  /** Left scalar multiplication composes multiplicatively. */
  lemma ScaleLeftComposes(j: real, k: real, v: Vector4)
    ensures ScaleLeft(k, ScaleLeft(j, v)) == ScaleLeft(k * j, v)
  {
    assert k * (j * v.x) == (k * j) * v.x;
    assert k * (j * v.y) == (k * j) * v.y;
    assert k * (j * v.z) == (k * j) * v.z;
    assert k * (j * v.w) == (k * j) * v.w;
  }

  /** A left scalar factor pulls out of `dot`. */
  lemma ScaleLeftDot(k: real, a: Vector4, b: Vector4)
    ensures Dot(ScaleLeft(k, a), b) == k * Dot(a, b)
  {
    var s := ScaleLeft(k, a);
    assert s.x == k * a.x && s.y == k * a.y && s.z == k * a.z && s.w == k * a.w;
    calc {
      Dot(s, b);
      (k * a.x) * b.x + (k * a.y) * b.y + (k * a.z) * b.z + (k * a.w) * b.w;
      { assert (k * a.x) * b.x == k * (a.x * b.x);
        assert (k * a.y) * b.y == k * (a.y * b.y);
        assert (k * a.z) * b.z == k * (a.z * b.z);
        assert (k * a.w) * b.w == k * (a.w * b.w); }
      k * (a.x * b.x) + k * (a.y * b.y) + k * (a.z * b.z) + k * (a.w * b.w);
      k * Dot(a, b);
    }
  }

  /** For the float types, division by `k` undoes scaling by `k`. */
  lemma DivUndoesScale(t: Number.NumberType, v: Vector4, k: real)
    requires Number.IsFloat(t) && k != 0.0
    ensures Div(t, Scale(v, k), k) == v
  {
  }

  lemma DotSymmetric(a: Vector4, b: Vector4)
    ensures Dot(a, b) == Dot(b, a)
  {
  }

  /** `dot` is the sum of the componentwise products of the arrays. */
  lemma DotOfArrays(a: Vector4, b: Vector4)
    ensures Dot(a, b) == ToArray(a)[0] * ToArray(b)[0] + ToArray(a)[1] * ToArray(b)[1]
                       + ToArray(a)[2] * ToArray(b)[2] + ToArray(a)[3] * ToArray(b)[3]
  {
  }

  /** The array conversions are inverse to each other, in both directions. */
  lemma ArrayRoundTrip(v: Vector4, arr: seq<real>)
    requires |arr| == 4
    ensures FromArray(ToArray(v)) == v
    ensures ToArray(FromArray(arr)) == arr
  {
  }

  /** `from_slice` of a longer slice keeps the first four elements; of an array it is `from_array`. */
  lemma FromSliceTakesPrefix(slice: seq<real>)
    requires |slice| >= 4
    ensures FromSlice(slice) == FromArray(slice[..4])
    ensures |slice| == 4 ==> FromSlice(slice) == FromArray(slice)
  {
  }

  /** `v[i]` reads entry `i` of `to_array()`: `x`, `y`, `z`, then `w`. */
  lemma AtIndexesArray(v: Vector4, i: nat)
    requires i < 4
    ensures At(v, i) == ToArray(v)[i]
  {
  }

  /** Reading back a written component gives the written value; the others are untouched. */
  lemma WithThenAt(v: Vector4, i: nat, j: nat, value: real)
    requires i < 4 && j < 4
    ensures At(With(v, i, value), j) == if i == j then value else At(v, j)
  {
  }

  /** `from_vector3` followed by dropping `w` gives back the `Vector3`. */
  lemma FromVector3Parts(v: Vec3.Vector3, w: real)
    ensures var r := FromVector3(v, w); Vec3.Vector3(r.x, r.y, r.z) == v && r.w == w
    ensures Dot(FromVector3(v, 0.0), FromVector3(v, 0.0)) == Vec3.Dot(v, v)
  {
  }

  /** (1, 2, 3, 4) . (4, 5, 6, 7) == 60. */
  lemma DotExample()
    ensures Dot(Vector4(1.0, 2.0, 3.0, 4.0), Vector4(4.0, 5.0, 6.0, 7.0)) == 60.0
  {
  }

  /** For u32 and u64, (1, 2, 3, 4) * 2 == (2, 4, 6, 8) and (1, 2, 3, 4) / 2 == (0, 1, 1, 2). */
  lemma UnsignedDivisionExample(t: Number.NumberType)
    requires t == Number.U32 || t == Number.U64
    ensures Scale(Vector4(1.0, 2.0, 3.0, 4.0), 2.0) == Vector4(2.0, 4.0, 6.0, 8.0)
    ensures Div(t, Vector4(1.0, 2.0, 3.0, 4.0), 2.0) == Vector4(0.0, 1.0, 1.0, 2.0)
  {
    Number.DivIsQuotient(t, 1.0, 2.0, 0);
    Number.DivIsQuotient(t, 2.0, 2.0, 1);
    Number.DivIsQuotient(t, 3.0, 2.0, 1);
    Number.DivIsQuotient(t, 4.0, 2.0, 2);
  }

  /**
   * A `Vector4` updated in place: the compound assignments and `IndexMut`
   * write the fields `x`, `y`, `z` and `w`.
   */
  class MutableVector4 {
    var x: real
    var y: real
    var z: real
    var w: real

    function Value(): Vector4
      reads this
    {
      Vector4(x, y, z, w)
    }

    constructor (v: Vector4)
      ensures Value() == v
    {
      x, y, z, w := v.x, v.y, v.z, v.w;
    }

    /** `self += rhs`. */
    method AddAssign(rhs: Vector4)
      modifies this
      ensures Value() == Add(old(Value()), rhs)
    {
      x := x + rhs.x;
      y := y + rhs.y;
      z := z + rhs.z;
      w := w + rhs.w;
    }

    /** `self -= rhs`. */
    method SubAssign(rhs: Vector4)
      modifies this
      ensures Value() == Sub(old(Value()), rhs)
    {
      x := x - rhs.x;
      y := y - rhs.y;
      z := z - rhs.z;
      w := w - rhs.w;
    }

    /** `self *= k`. */
    method MulAssign(k: real)
      modifies this
      ensures Value() == Scale(old(Value()), k)
    {
      x := x * k;
      y := y * k;
      z := z * k;
      w := w * k;
    }

    /** `self /= k`. */
    method DivAssign(t: Number.NumberType, k: real)
      requires k != 0.0
      modifies this
      ensures Value() == Div(t, old(Value()), k)
    {
      x := Number.Div(t, x, k);
      y := Number.Div(t, y, k);
      z := Number.Div(t, z, k);
      w := Number.Div(t, w, k);
    }

    /** `self[i] = value` through `IndexMut` (or through `as_mut_slice()`). */
    method SetAt(i: nat, value: real)
      requires i < 4
      modifies this
      ensures Value() == With(old(Value()), i, value)
    {
      if i == 0 {
        x := value;
      } else if i == 1 {
        y := value;
      } else if i == 2 {
        z := value;
      } else {
        w := value;
      }
    }
  }

  /**
   * The sequence of compound assignments the source's test applies to
   * (1, 2, 3, 4) in f32: `+= 1`, `-= 1`, `*= 2`, `/= 2`, returning to the
   * start.
   */
  method AssignOpsExample() returns (r: Vector4)
    ensures r == Vector4(1.0, 2.0, 3.0, 4.0)
  {
    var v := new MutableVector4(Vector4(1.0, 2.0, 3.0, 4.0));
    v.AddAssign(Vector4(1.0, 1.0, 1.0, 1.0));
    assert v.Value() == Vector4(2.0, 3.0, 4.0, 5.0);
    v.SubAssign(Vector4(1.0, 1.0, 1.0, 1.0));
    v.MulAssign(2.0);
    assert v.Value() == Vector4(2.0, 4.0, 6.0, 8.0);
    v.DivAssign(Number.F32, 2.0);
    r := v.Value();
  }
}
