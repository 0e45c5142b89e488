/**
 * `Matrix4x4<T: SignedNumber>`: four rows of `Vector4<T>` in row-major
 * order, with entrywise arithmetic, the three products, identity, transpose,
 * the cofactor determinant, the block inverse, the array conversions and the
 * transform factories of the `f32` and `f64` instances. The value is the
 * datatype `Matrix4x4`; the compound assignments and `IndexMut`, which
 * overwrite rows of `self.mat` in place, are methods of the class
 * `MutableMatrix4x4` over an array of four rows.
 *
 * `sin`, `cos` and `tan` are parameters: a factory that evaluates them takes
 * their values `c`, `s` or `tan` instead of the angle.
 */
module Mat4 {
  import Number
  import Vec3
  import Vec4

  datatype Matrix4x4 = Matrix4x4(r0: Vec4.Vector4, r1: Vec4.Vector4, r2: Vec4.Vector4, r3: Vec4.Vector4)

  datatype Option<T> = None | Some(value: T)

  /** `m.rows()`: the four rows. */
  function Rows(m: Matrix4x4): (r: seq<Vec4.Vector4>)
    ensures |r| == 4
  {
    [m.r0, m.r1, m.r2, m.r3]
  }

  /** `m[i]`, which debug-asserts `i < 4` and then indexes the rows. */
  function Row(m: Matrix4x4, i: nat): Vec4.Vector4
    requires i < 4
  {
    if i == 0 then m.r0 else if i == 1 then m.r1 else if i == 2 then m.r2 else m.r3
  }

  /** `m[(i, j)]` and `m[i][j]`. */
  function Entry(m: Matrix4x4, i: nat, j: nat): real
    requires i < 4 && j < 4
  {
    Vec4.At(Row(m, i), j)
  }

  /** Column `j` of `m` as a vector. */
  function Column(m: Matrix4x4, j: nat): (r: Vec4.Vector4)
    requires j < 4
    ensures r == Vec4.Vector4(Entry(m, 0, j), Entry(m, 1, j), Entry(m, 2, j), Entry(m, 3, j))
  {
    Vec4.Vector4(Vec4.At(m.r0, j), Vec4.At(m.r1, j), Vec4.At(m.r2, j), Vec4.At(m.r3, j))
  }

  /** The matrix after `m[i] = row` through `IndexMut<usize>` or `rows_mut()`. */
  function WithRow(m: Matrix4x4, i: nat, row: Vec4.Vector4): (r: Matrix4x4)
    requires i < 4
    ensures Rows(r) == Rows(m)[i := row]
  {
    if i == 0 then m.(r0 := row)
    else if i == 1 then m.(r1 := row)
    else if i == 2 then m.(r2 := row)
    else m.(r3 := row)
  }

  /** The matrix after `m[(i, j)] = value` through `IndexMut<(usize, usize)>`. */
  function WithEntry(m: Matrix4x4, i: nat, j: nat, value: real): Matrix4x4
    requires i < 4 && j < 4
  {
    WithRow(m, i, Vec4.With(Row(m, i), j, value))
  }

  function Add(a: Matrix4x4, b: Matrix4x4): Matrix4x4 {
    Matrix4x4(Vec4.Add(a.r0, b.r0), Vec4.Add(a.r1, b.r1), Vec4.Add(a.r2, b.r2), Vec4.Add(a.r3, b.r3))
  }

  function Sub(a: Matrix4x4, b: Matrix4x4): Matrix4x4 {
    Matrix4x4(Vec4.Sub(a.r0, b.r0), Vec4.Sub(a.r1, b.r1), Vec4.Sub(a.r2, b.r2), Vec4.Sub(a.r3, b.r3))
  }

  /** `m * k` for a scalar `k`. */
  function Scale(m: Matrix4x4, k: real): Matrix4x4 {
    Matrix4x4(Vec4.Scale(m.r0, k), Vec4.Scale(m.r1, k), Vec4.Scale(m.r2, k), Vec4.Scale(m.r3, k))
  }

  /** One row of `a * b`: entry `j` combines the row `r` of `a` with column `j` of `b`. */
  function ProductRow(r: Vec4.Vector4, b: Matrix4x4): Vec4.Vector4 {
    Vec4.Vector4(
      r.x * b.r0.x + r.y * b.r1.x + r.z * b.r2.x + r.w * b.r3.x,
      r.x * b.r0.y + r.y * b.r1.y + r.z * b.r2.y + r.w * b.r3.y,
      r.x * b.r0.z + r.y * b.r1.z + r.z * b.r2.z + r.w * b.r3.z,
      r.x * b.r0.w + r.y * b.r1.w + r.z * b.r2.w + r.w * b.r3.w)
  }

  /** `a * b`. */
  function Mul(a: Matrix4x4, b: Matrix4x4): Matrix4x4 {
    Matrix4x4(ProductRow(a.r0, b), ProductRow(a.r1, b), ProductRow(a.r2, b), ProductRow(a.r3, b))
  }

  /** `m * v`: component `i` is `m[i].dot(v)`. */
  function MulVec(m: Matrix4x4, v: Vec4.Vector4): Vec4.Vector4 {
    Vec4.Vector4(Vec4.Dot(m.r0, v), Vec4.Dot(m.r1, v), Vec4.Dot(m.r2, v), Vec4.Dot(m.r3, v))
  }

  /** `v * m`: component `j` combines `v` with column `j` of `m`. */
  function VecMul(v: Vec4.Vector4, m: Matrix4x4): Vec4.Vector4 {
    ProductRow(v, m)
  }

  /** `Matrix4x4::zero()`. */
  function Zero(t: Number.NumberType): Matrix4x4
    requires Number.IsSigned(t)
  {
    Matrix4x4(Vec4.Zero(t), Vec4.Zero(t), Vec4.Zero(t), Vec4.Zero(t))
  }

  /** `Matrix4x4::one()`: every entry is one. */
  function One(t: Number.NumberType): Matrix4x4
    requires Number.IsSigned(t)
  {
    Matrix4x4(Vec4.One(t), Vec4.One(t), Vec4.One(t), Vec4.One(t))
  }

  /** The derived `Default`: four default rows. */
  function Default(t: Number.NumberType): (r: Matrix4x4)
    requires Number.IsSigned(t)
    ensures r == Zero(t)
  {
    Matrix4x4(Vec4.Default(t), Vec4.Default(t), Vec4.Default(t), Vec4.Default(t))
  }

  /** `Matrix4x4::identity()`. */
  function Identity(t: Number.NumberType): Matrix4x4
    requires Number.IsSigned(t)
  {
    var o, z := Number.One(t), Number.Zero(t);
    Matrix4x4(Vec4.Vector4(o, z, z, z), Vec4.Vector4(z, o, z, z), Vec4.Vector4(z, z, o, z), Vec4.Vector4(z, z, z, o))
  }

  /** `m.transpose()`. */
  function Transpose(m: Matrix4x4): Matrix4x4 {
    Matrix4x4(
      Vec4.Vector4(m.r0.x, m.r1.x, m.r2.x, m.r3.x),
      Vec4.Vector4(m.r0.y, m.r1.y, m.r2.y, m.r3.y),
      Vec4.Vector4(m.r0.z, m.r1.z, m.r2.z, m.r3.z),
      Vec4.Vector4(m.r0.w, m.r1.w, m.r2.w, m.r3.w))
  }

  /** `m.determinant()`: the cofactor expansion along row 0. */
  function Determinant(m: Matrix4x4): real {
    m.r0.x * (m.r1.y * (m.r2.z * m.r3.w - m.r2.w * m.r3.z)
              - m.r1.z * (m.r2.y * m.r3.w - m.r2.w * m.r3.y)
              + m.r1.w * (m.r2.y * m.r3.z - m.r2.z * m.r3.y))
    - m.r0.y * (m.r1.x * (m.r2.z * m.r3.w - m.r2.w * m.r3.z)
                - m.r1.z * (m.r2.x * m.r3.w - m.r2.w * m.r3.x)
                + m.r1.w * (m.r2.x * m.r3.z - m.r2.z * m.r3.x))
    + m.r0.z * (m.r1.x * (m.r2.y * m.r3.w - m.r2.w * m.r3.y)
                - m.r1.y * (m.r2.x * m.r3.w - m.r2.w * m.r3.x)
                + m.r1.w * (m.r2.x * m.r3.y - m.r2.y * m.r3.x))
    - m.r0.w * (m.r1.x * (m.r2.y * m.r3.z - m.r2.z * m.r3.y)
                - m.r1.y * (m.r2.x * m.r3.z - m.r2.z * m.r3.x)
                + m.r1.z * (m.r2.x * m.r3.y - m.r2.y * m.r3.x))
  }

  /** The first three entries of column `j`, as `inverse` reads them. */
  function UpperColumn(m: Matrix4x4, j: nat): Vec3.Vector3
    requires j < 4
  {
    Vec3.Vector3(Vec4.At(m.r0, j), Vec4.At(m.r1, j), Vec4.At(m.r2, j))
  }

  /**
   * The four vectors `inverse` builds from the upper columns and from row 3
   * `(x, y, z, w)`: `s = col0 x col1`, `t = col2 x col3`,
   * `u = col0 y - col1 x` and `v = col2 w - col3 z`.
   */
  datatype Blocks = Blocks(s: Vec3.Vector3, t: Vec3.Vector3, u: Vec3.Vector3, v: Vec3.Vector3)

  function BlockVectors(m: Matrix4x4): Blocks {
    var col0, col1, col2, col3 := UpperColumn(m, 0), UpperColumn(m, 1), UpperColumn(m, 2), UpperColumn(m, 3);
    var x, y, z, w := m.r3.x, m.r3.y, m.r3.z, m.r3.w;
    Blocks(Vec3.Cross(col0, col1), Vec3.Cross(col2, col3),
           Vec3.Sub(Vec3.Scale(col0, y), Vec3.Scale(col1, x)),
           Vec3.Sub(Vec3.Scale(col2, w), Vec3.Scale(col3, z)))
  }

  /** The determinant as `inverse` computes it: `s . v + t . u`. */
  function BlockDeterminant(m: Matrix4x4): real {
    var b := BlockVectors(m);
    Vec3.Dot(b.s, b.v) + Vec3.Dot(b.t, b.u)
  }

  /** Each block vector multiplied by `k`, as `inverse` does with `inv_det`. */
  function ScaleBlocks(b: Blocks, k: real): Blocks {
    Blocks(Vec3.Scale(b.s, k), Vec3.Scale(b.t, k), Vec3.Scale(b.u, k), Vec3.Scale(b.v, k))
  }

  /** The rows `inverse` assembles from the upper columns, row 3 and (scaled) block vectors. */
  function InverseRows(m: Matrix4x4, b: Blocks): Matrix4x4 {
    var col0, col1, col2, col3 := UpperColumn(m, 0), UpperColumn(m, 1), UpperColumn(m, 2), UpperColumn(m, 3);
    var x, y, z, w := m.r3.x, m.r3.y, m.r3.z, m.r3.w;
    var r0 := Vec3.Add(Vec3.Cross(col1, b.v), Vec3.Scale(b.t, y));
    var r1 := Vec3.Sub(Vec3.Cross(b.v, col0), Vec3.Scale(b.t, x));
    var r2 := Vec3.Add(Vec3.Cross(col3, b.u), Vec3.Scale(b.s, w));
    var r3 := Vec3.Sub(Vec3.Cross(b.u, col2), Vec3.Scale(b.s, z));
    Matrix4x4(
      Vec4.FromVector3(r0, -Vec3.Dot(col1, b.t)),
      Vec4.FromVector3(r1, Vec3.Dot(col0, b.t)),
      Vec4.FromVector3(r2, -Vec3.Dot(col3, b.s)),
      Vec4.FromVector3(r3, Vec3.Dot(col2, b.s)))
  }

  /** The inverse's rows before scaling by `inv_det`: the adjugate of `m`. */
  function Adjugate(m: Matrix4x4): Matrix4x4 {
    InverseRows(m, BlockVectors(m))
  }

  /**
   * `m.inverse()`: `None` when the block determinant is exactly zero, else the
   * rows built from the block vectors scaled by `inv_det = one() / determinant`
   * (a truncating division for the integer types).
   */
  function Inverse(t: Number.NumberType, m: Matrix4x4): Option<Matrix4x4>
    requires Number.IsSigned(t)
  {
    var determinant := BlockDeterminant(m);
    if determinant == Number.Zero(t) then None
    else Some(InverseRows(m, ScaleBlocks(BlockVectors(m), Number.Div(t, Number.One(t), determinant))))
  }

  /** A `[[T; 4]; 4]` array: four rows of four entries. */
  predicate IsMat(mat: seq<seq<real>>) {
    |mat| == 4 && forall i | 0 <= i < 4 :: |mat[i]| == 4
  }

  /** `Matrix4x4::from_mat(mat)`: row `i` is `Vector4::from_array(mat[i])`. */
  function FromMat(mat: seq<seq<real>>): Matrix4x4
    requires IsMat(mat)
  {
    Matrix4x4(Vec4.FromArray(mat[0]), Vec4.FromArray(mat[1]), Vec4.FromArray(mat[2]), Vec4.FromArray(mat[3]))
  }

  /** `m.to_mat()`: row `i` is `m[i].to_array()`. */
  function ToMat(m: Matrix4x4): (r: seq<seq<real>>)
    ensures IsMat(r)
  {
    [Vec4.ToArray(m.r0), Vec4.ToArray(m.r1), Vec4.ToArray(m.r2), Vec4.ToArray(m.r3)]
  }

  /** `Matrix4x4::from_array(arr)` of a row-major `[T; 16]`. */
  function FromArray(arr: seq<real>): Matrix4x4
    requires |arr| == 16
  {
    Matrix4x4(Vec4.FromArray(arr[0..4]), Vec4.FromArray(arr[4..8]), Vec4.FromArray(arr[8..12]), Vec4.FromArray(arr[12..16]))
  }

  /** `m.to_array()`, which is also what `as_slice()` views: the rows one after another. */
  function ToArray(m: Matrix4x4): (r: seq<real>)
    ensures |r| == 16
  {
    Vec4.ToArray(m.r0) + Vec4.ToArray(m.r1) + Vec4.ToArray(m.r2) + Vec4.ToArray(m.r3)
  }

  /**
   * The guard `from_slice` debug-asserts as written: a length below 16,
   * although the body then reads `slice[0]` to `slice[15]`.
   */
  predicate FromSliceGuardAsWritten(len: nat) {
    len < 16
  }

  /** The reads of `from_slice` are in bounds: what its guard evidently means to require. */
  predicate FromSliceInBounds(len: nat) {
    len >= 16
  }

  /** `Matrix4x4::from_slice(slice)` with the guard corrected to at least 16 elements. */
  function FromSlice(slice: seq<real>): (r: Matrix4x4)
    requires FromSliceInBounds(|slice|)
    ensures ToArray(r) == slice[..16]
  {
    Matrix4x4(
      Vec4.Vector4(slice[0], slice[1], slice[2], slice[3]),
      Vec4.Vector4(slice[4], slice[5], slice[6], slice[7]),
      Vec4.Vector4(slice[8], slice[9], slice[10], slice[11]),
      Vec4.Vector4(slice[12], slice[13], slice[14], slice[15]))
  }

  // ---------------------------------------------------------------------
  // Transform factories (identical in the `f32` and `f64` instances unless
  // stated otherwise)

  /** `make_translation(tx, ty, tz)`: the identity with `(tx, ty, tz)` in column 3. */
  function MakeTranslation(tx: real, ty: real, tz: real): Matrix4x4 {
    Matrix4x4(
      Vec4.Vector4(1.0, 0.0, 0.0, tx),
      Vec4.Vector4(0.0, 1.0, 0.0, ty),
      Vec4.Vector4(0.0, 0.0, 1.0, tz),
      Vec4.Vector4(0.0, 0.0, 0.0, 1.0))
  }

  /** `make_rotation_x(rad)` with `c == cos(rad)` and `s == sin(rad)`. */
  function MakeRotationX(c: real, s: real): Matrix4x4 {
    Matrix4x4(
      Vec4.Vector4(1.0, 0.0, 0.0, 0.0),
      Vec4.Vector4(0.0, c, -s, 0.0),
      Vec4.Vector4(0.0, s, c, 0.0),
      Vec4.Vector4(0.0, 0.0, 0.0, 1.0))
  }

  /** `make_rotation_y(rad)` with `c == cos(rad)` and `s == sin(rad)`. */
  function MakeRotationY(c: real, s: real): Matrix4x4 {
    Matrix4x4(
      Vec4.Vector4(c, 0.0, s, 0.0),
      Vec4.Vector4(0.0, 1.0, 0.0, 0.0),
      Vec4.Vector4(-s, 0.0, c, 0.0),
      Vec4.Vector4(0.0, 0.0, 0.0, 1.0))
  }

  /** `make_rotation_z(rad)` with `c == cos(rad)` and `s == sin(rad)`. */
  function MakeRotationZ(c: real, s: real): Matrix4x4 {
    Matrix4x4(
      Vec4.Vector4(c, -s, 0.0, 0.0),
      Vec4.Vector4(s, c, 0.0, 0.0),
      Vec4.Vector4(0.0, 0.0, 1.0, 0.0),
      Vec4.Vector4(0.0, 0.0, 0.0, 1.0))
  }

  /**
   * Row 0 of `make_rotation(rad, axis)`, with `c == cos(rad)`, `s == sin(rad)`
   * and `t` the source's `one_minus_cos`.
   */
  function RotationRow0(c: real, s: real, t: real, axis: Vec3.Vector3): Vec4.Vector4 {
    Vec4.Vector4(c + axis.x * axis.x * t, axis.y * axis.x * t + axis.z * s, axis.z * axis.x * t - axis.y * s, 0.0)
  }

  /** Row 1 of `make_rotation(rad, axis)`. */
  function RotationRow1(c: real, s: real, t: real, axis: Vec3.Vector3): Vec4.Vector4 {
    Vec4.Vector4(axis.x * axis.y * t - axis.z * s, c + axis.y * axis.y * t, axis.z * axis.y * t + axis.x * s, 0.0)
  }

  /** Row 2 of `make_rotation(rad, axis)`. */
  function RotationRow2(c: real, s: real, t: real, axis: Vec3.Vector3): Vec4.Vector4 {
    Vec4.Vector4(axis.x * axis.z * t + axis.y * s, axis.y * axis.z * t - axis.x * s, c + axis.z * axis.z * t, 0.0)
  }

  /**
   * Row 0 of the `f64` instance of `make_rotation` as written: entry `[0][2]`
   * adds `y * sin` where the `f32` instance subtracts it.
   */
  function RotationRow0F64AsWritten(c: real, s: real, t: real, axis: Vec3.Vector3): Vec4.Vector4 {
    Vec4.Vector4(c + axis.x * axis.x * t, axis.y * axis.x * t + axis.z * s, axis.z * axis.x * t + axis.y * s, 0.0)
  }

  /**
   * `make_rotation(rad, axis)` of the `f32` instance, with `c == cos(rad)` and
   * `s == sin(rad)`.
   */
  function MakeRotation(c: real, s: real, axis: Vec3.Vector3): Matrix4x4 {
    Matrix4x4(
      RotationRow0(c, s, 1.0 - c, axis),
      RotationRow1(c, s, 1.0 - c, axis),
      RotationRow2(c, s, 1.0 - c, axis),
      Vec4.Vector4(0.0, 0.0, 0.0, 1.0))
  }

  /**
   * `make_rotation(rad, axis)` of the `f64` instance as written: it differs
   * from the `f32` one only in entry `[0][2]`.
   */
  function MakeRotationF64AsWritten(c: real, s: real, axis: Vec3.Vector3): Matrix4x4 {
    Matrix4x4(
      RotationRow0F64AsWritten(c, s, 1.0 - c, axis),
      RotationRow1(c, s, 1.0 - c, axis),
      RotationRow2(c, s, 1.0 - c, axis),
      Vec4.Vector4(0.0, 0.0, 0.0, 1.0))
  }

  /** `make_scaling(sx, sy, sz)`. */
  function MakeScaling(sx: real, sy: real, sz: real): Matrix4x4 {
    Matrix4x4(
      Vec4.Vector4(sx, 0.0, 0.0, 0.0),
      Vec4.Vector4(0.0, sy, 0.0, 0.0),
      Vec4.Vector4(0.0, 0.0, sz, 0.0),
      Vec4.Vector4(0.0, 0.0, 0.0, 1.0))
  }

  /** `make_scaling_axis(axis, factor)`, which debug-asserts a normalized axis. */
  function MakeScalingAxis(axis: Vec3.Vector3, factor: real): Matrix4x4
    requires Vec3.IsNormalized(axis)
  {
    var x, y, z := axis.x * factor, axis.y * factor, axis.z * factor;
    Matrix4x4(
      Vec4.Vector4(x, 0.0, 0.0, 0.0),
      Vec4.Vector4(0.0, y, 0.0, 0.0),
      Vec4.Vector4(0.0, 0.0, z, 0.0),
      Vec4.Vector4(0.0, 0.0, 0.0, 1.0))
  }

  /** `make_reflection(normal)`, which debug-asserts a normalized normal. */
  function MakeReflection(normal: Vec3.Vector3): Matrix4x4
    requires Vec3.IsNormalized(normal)
  {
    var x, y, z := normal.x * -2.0, normal.y * -2.0, normal.z * -2.0;
    Matrix4x4(
      Vec4.Vector4(1.0 + x * normal.x, x * normal.y, x * normal.z, 0.0),
      Vec4.Vector4(y * normal.x, 1.0 + y * normal.y, y * normal.z, 0.0),
      Vec4.Vector4(z * normal.x, z * normal.y, 1.0 + z * normal.z, 0.0),
      Vec4.Vector4(0.0, 0.0, 0.0, 1.0))
  }

  /**
   * `make_skew(rad, direction, pivot)` with `tan == tan(rad)`. It
   * debug-asserts a normalized direction, a pivot of positive magnitude (a
   * non-zero pivot) and a pivot perpendicular to the direction.
   */
  function MakeSkew(tan: real, direction: Vec3.Vector3, pivot: Vec3.Vector3): Matrix4x4
    requires Vec3.IsNormalized(direction)
    requires Vec3.NormSquared(pivot) > 0.0
    requires Vec3.Dot(pivot, direction) == 0.0
  {
    var x, y, z := direction.x * tan, direction.y * tan, direction.z * tan;
    Matrix4x4(
      Vec4.Vector4(x * pivot.x + 1.0, x * pivot.y, x * pivot.z, 0.0),
      Vec4.Vector4(y * pivot.x, y * pivot.y + 1.0, y * pivot.z, 0.0),
      Vec4.Vector4(z * pivot.x, z * pivot.y, z * pivot.z + 1.0, 0.0),
      Vec4.Vector4(0.0, 0.0, 0.0, 1.0))
  }

  // ---------------------------------------------------------------------
  // Indexing and the array conversions

  /** `m[i]` reads entry `i` of `rows()`. */
  lemma RowIndexesRows(m: Matrix4x4, i: nat)
    requires i < 4
    ensures Row(m, i) == Rows(m)[i]
  {
  }

  /** Writing entry `(i, j)` changes that entry only. */
  lemma WithEntryThenEntry(m: Matrix4x4, i: nat, j: nat, value: real, k: nat, l: nat)
    requires i < 4 && j < 4 && k < 4 && l < 4
    ensures Entry(WithEntry(m, i, j, value), k, l) == if i == k && j == l then value else Entry(m, k, l)
  {
    Vec4.WithThenAt(Row(m, i), j, l, value);
    assert Row(WithEntry(m, i, j, value), k) == if i == k then Vec4.With(Row(m, i), j, value) else Row(m, k);
  }

  /** `to_array()` is row-major: entry `4 i + j` is `m[i][j]`. */
  lemma ToArrayIsRowMajor(m: Matrix4x4, i: nat, j: nat)
    requires i < 4 && j < 4
    ensures ToArray(m)[4 * i + j] == Entry(m, i, j)
  {
    var a := ToArray(m);
    assert a[0..4] == Vec4.ToArray(m.r0) && a[4..8] == Vec4.ToArray(m.r1);
    assert a[8..12] == Vec4.ToArray(m.r2) && a[12..16] == Vec4.ToArray(m.r3);
    assert a[4 * i + j] == a[4 * i..4 * i + 4][j];
    assert a[4 * i..4 * i + 4] == Vec4.ToArray(Row(m, i));
    Vec4.AtIndexesArray(Row(m, i), j);
  }

  /** The flat array conversions are inverse to each other, in both directions. */
  lemma ArrayRoundTrip(m: Matrix4x4, arr: seq<real>)
    requires |arr| == 16
    ensures FromArray(ToArray(m)) == m
    ensures ToArray(FromArray(arr)) == arr
  {
    var a := ToArray(m);
    assert a[0..4] == Vec4.ToArray(m.r0) && a[4..8] == Vec4.ToArray(m.r1);
    assert a[8..12] == Vec4.ToArray(m.r2) && a[12..16] == Vec4.ToArray(m.r3);
    Vec4.ArrayRoundTrip(m.r0, arr[0..4]);
    Vec4.ArrayRoundTrip(m.r1, arr[4..8]);
    Vec4.ArrayRoundTrip(m.r2, arr[8..12]);
    Vec4.ArrayRoundTrip(m.r3, arr[12..16]);
    assert arr == arr[0..4] + arr[4..8] + arr[8..12] + arr[12..16];
  }

  /** The nested array conversions are inverse to each other, in both directions. */
  lemma MatRoundTrip(m: Matrix4x4, mat: seq<seq<real>>)
    requires IsMat(mat)
    ensures FromMat(ToMat(m)) == m
    ensures ToMat(FromMat(mat)) == mat
  {
    Vec4.ArrayRoundTrip(m.r0, mat[0]);
    Vec4.ArrayRoundTrip(m.r1, mat[1]);
    Vec4.ArrayRoundTrip(m.r2, mat[2]);
    Vec4.ArrayRoundTrip(m.r3, mat[3]);
  }

  /** The corrected `from_slice` reads the first sixteen elements, like `from_array` of that prefix. */
  lemma FromSliceTakesPrefix(slice: seq<real>)
    requires FromSliceInBounds(|slice|)
    ensures FromSlice(slice) == FromArray(slice[..16])
  {
    ArrayRoundTrip(FromSlice(slice), slice[..16]);
  }

  /**
   * As written, no slice gets through `from_slice` in a debug build: the
   * guard admits only lengths below 16, and those make `slice[15]` out of
   * bounds. A 16-element slice, the one the message asks for, is rejected.
   */
  lemma FromSliceGuardRejectsEverySlice(len: nat)
    ensures !(FromSliceGuardAsWritten(len) && FromSliceInBounds(len))
    ensures FromSliceInBounds(16) && !FromSliceGuardAsWritten(16)
  {
  }

  // ---------------------------------------------------------------------
  // Arithmetic

  /** Addition acts on each of the sixteen entries. */
  lemma AddIsEntrywise(a: Matrix4x4, b: Matrix4x4, i: nat, j: nat)
    requires i < 4 && j < 4
    ensures Entry(Add(a, b), i, j) == Entry(a, i, j) + Entry(b, i, j)
  {
  }

  /** Subtraction acts on each of the sixteen entries. */
  lemma SubIsEntrywise(a: Matrix4x4, b: Matrix4x4, i: nat, j: nat)
    requires i < 4 && j < 4
    ensures Entry(Sub(a, b), i, j) == Entry(a, i, j) - Entry(b, i, j)
  {
  }

  /** Scaling by a scalar acts on each of the sixteen entries. */
  lemma ScaleIsEntrywise(a: Matrix4x4, k: real, i: nat, j: nat)
    requires i < 4 && j < 4
    ensures Entry(Scale(a, k), i, j) == Entry(a, i, j) * k
  {
    if i == 0 {
      assert Entry(Scale(a, k), i, j) == Vec4.At(Vec4.Scale(a.r0, k), j);
    } else if i == 1 {
      assert Entry(Scale(a, k), i, j) == Vec4.At(Vec4.Scale(a.r1, k), j);
    } else if i == 2 {
      assert Entry(Scale(a, k), i, j) == Vec4.At(Vec4.Scale(a.r2, k), j);
    } else {
      assert Entry(Scale(a, k), i, j) == Vec4.At(Vec4.Scale(a.r3, k), j);
    }
  }

  /** Component `j` of a product row combines column `j` of `b`. */
  lemma ProductRowEntry(r: Vec4.Vector4, b: Matrix4x4, j: nat)
    requires j < 4
    ensures Vec4.At(ProductRow(r, b), j)
         == r.x * Entry(b, 0, j) + r.y * Entry(b, 1, j) + r.z * Entry(b, 2, j) + r.w * Entry(b, 3, j)
  {
  }

  /** Entry `(i, j)` of `a * b` is the sum over `k` of `a[i][k] * b[k][j]`. */
  lemma MulIsRowColumnSum(a: Matrix4x4, b: Matrix4x4, i: nat, j: nat)
    requires i < 4 && j < 4
    ensures Entry(Mul(a, b), i, j)
         == Entry(a, i, 0) * Entry(b, 0, j) + Entry(a, i, 1) * Entry(b, 1, j)
          + Entry(a, i, 2) * Entry(b, 2, j) + Entry(a, i, 3) * Entry(b, 3, j)
  {
    ProductRowEntry(Row(a, i), b, j);
    if i == 0 {
      assert Entry(Mul(a, b), i, j) == Vec4.At(ProductRow(a.r0, b), j);
    } else if i == 1 {
      assert Entry(Mul(a, b), i, j) == Vec4.At(ProductRow(a.r1, b), j);
    } else if i == 2 {
      assert Entry(Mul(a, b), i, j) == Vec4.At(ProductRow(a.r2, b), j);
    } else {
      assert Entry(Mul(a, b), i, j) == Vec4.At(ProductRow(a.r3, b), j);
    }
  }

  /** Entry `(i, j)` of `a * b` is row `i` of `a` dotted with column `j` of `b`. */
  lemma MulIsRowDotColumn(a: Matrix4x4, b: Matrix4x4, i: nat, j: nat)
    requires i < 4 && j < 4
    ensures Entry(Mul(a, b), i, j) == Vec4.Dot(Row(a, i), Column(b, j))
  {
    MulIsRowColumnSum(a, b, i, j);
    var r := Row(a, i);
    assert r.x == Entry(a, i, 0) && r.y == Entry(a, i, 1) && r.z == Entry(a, i, 2) && r.w == Entry(a, i, 3);
  }

  /** Component `i` of `m * v` is row `i` dotted with `v`. */
  lemma MulVecIsRowDot(m: Matrix4x4, v: Vec4.Vector4, i: nat)
    requires i < 4
    ensures Vec4.At(MulVec(m, v), i) == Vec4.Dot(Row(m, i), v)
  {
  }

  /** Multiplying a vector from the left is multiplying the transpose from the right. */
  lemma VecMulIsTransposedMulVec(v: Vec4.Vector4, m: Matrix4x4)
    ensures VecMul(v, m) == MulVec(Transpose(m), v)
  {
  }

  /** Entries of the identity: one on the diagonal, zero elsewhere. */
  lemma IdentityEntries(t: Number.NumberType, i: nat, j: nat)
    requires Number.IsSigned(t) && i < 4 && j < 4
    ensures Entry(Identity(t), i, j) == if i == j then 1.0 else 0.0
  {
  }

  /** Every entry of `zero()` is zero, every entry of `one()` is one. */
  lemma ZeroOneEntries(t: Number.NumberType, i: nat, j: nat)
    requires Number.IsSigned(t) && i < 4 && j < 4
    ensures Entry(Zero(t), i, j) == 0.0 && Entry(One(t), i, j) == 1.0
  {
  }

  /** The identity is a unit on both sides of the product. */
  lemma IdentityIsUnit(t: Number.NumberType, m: Matrix4x4)
    requires Number.IsSigned(t)
    ensures Mul(m, Identity(t)) == m
    ensures Mul(Identity(t), m) == m
    ensures MulVec(Identity(t), Vec4.FromVector3(Vec3.Vector3(m.r0.x, m.r0.y, m.r0.z), m.r0.w)) == m.r0
  {
  }

  /** `transpose()[i][j] == m[j][i]`. */
  lemma TransposeEntry(m: Matrix4x4, i: nat, j: nat)
    requires i < 4 && j < 4
    ensures Entry(Transpose(m), i, j) == Entry(m, j, i)
  {
  }

  /** Transposing twice gives back the matrix; row `i` of the transpose is column `i`. */
  lemma TransposeInvolution(m: Matrix4x4, i: nat)
    requires i < 4
    ensures Transpose(Transpose(m)) == m
    ensures Row(Transpose(m), i) == Column(m, i)
  {
  }

  /** The identity of every signed type is the same matrix of ones and zeros. */
  lemma IdentityValue(t: Number.NumberType)
    requires Number.IsSigned(t)
    ensures Identity(t) == Identity(Number.F64)
    ensures Identity(t) == Matrix4x4(Vec4.Vector4(1.0, 0.0, 0.0, 0.0), Vec4.Vector4(0.0, 1.0, 0.0, 0.0),
                                     Vec4.Vector4(0.0, 0.0, 1.0, 0.0), Vec4.Vector4(0.0, 0.0, 0.0, 1.0))
  {
  }

  /** The determinant of the identity is one. */
  lemma DeterminantOfIdentity(t: Number.NumberType)
    requires Number.IsSigned(t)
    ensures Determinant(Identity(t)) == 1.0
  {
    IdentityValue(t);
    LiteralIdentityDeterminant();
  }

  lemma LiteralIdentityDeterminant()
    ensures Determinant(Matrix4x4(Vec4.Vector4(1.0, 0.0, 0.0, 0.0), Vec4.Vector4(0.0, 1.0, 0.0, 0.0),
                                  Vec4.Vector4(0.0, 0.0, 1.0, 0.0), Vec4.Vector4(0.0, 0.0, 0.0, 1.0))) == 1.0
  {
  }

  // ---------------------------------------------------------------------
  // The source's concrete cases

  /** The matrix with entries 1 to 16 in row-major order. */
  function Counting(): Matrix4x4 {
    Matrix4x4(
      Vec4.Vector4(1.0, 2.0, 3.0, 4.0), Vec4.Vector4(5.0, 6.0, 7.0, 8.0),
      Vec4.Vector4(9.0, 10.0, 11.0, 12.0), Vec4.Vector4(13.0, 14.0, 15.0, 16.0))
  }

  /** 1..16 plus 19..4 (the same entries counted down from 19) is 20 everywhere. */
  lemma AdditionExample(i: nat, j: nat)
    requires i < 4 && j < 4
    ensures var b := Matrix4x4(
              Vec4.Vector4(19.0, 18.0, 17.0, 16.0), Vec4.Vector4(15.0, 14.0, 13.0, 12.0),
              Vec4.Vector4(11.0, 10.0, 9.0, 8.0), Vec4.Vector4(7.0, 6.0, 5.0, 4.0));
            Entry(Add(Counting(), b), i, j) == 20.0
  {
  }

  /** The product of the two sparse matrices of the multiplication test. */
  lemma ProductExample(a: Matrix4x4, b: Matrix4x4)
    requires a == Matrix4x4(Vec4.Vector4(1.0, 2.0, 3.0, 0.0), Vec4.Vector4(0.0, 1.0, 0.0, 0.0),
                            Vec4.Vector4(4.0, 5.0, 6.0, 0.0), Vec4.Vector4(0.0, 7.0, 0.0, 8.0))
    requires b == Matrix4x4(Vec4.Vector4(7.0, 8.0, 9.0, 0.0), Vec4.Vector4(0.0, 1.0, 0.0, 0.0),
                            Vec4.Vector4(1.0, 2.0, 3.0, 0.0), Vec4.Vector4(0.0, 0.0, 0.0, 1.0))
    ensures Mul(a, b)
         == Matrix4x4(Vec4.Vector4(10.0, 16.0, 18.0, 0.0), Vec4.Vector4(0.0, 1.0, 0.0, 0.0),
                      Vec4.Vector4(34.0, 49.0, 54.0, 0.0), Vec4.Vector4(0.0, 7.0, 0.0, 8.0))
  {
  }

  /** The transpose of 1..16 counts down the columns. */
  lemma TransposeExample()
    ensures Transpose(Counting())
         == Matrix4x4(Vec4.Vector4(1.0, 5.0, 9.0, 13.0), Vec4.Vector4(2.0, 6.0, 10.0, 14.0),
                      Vec4.Vector4(3.0, 7.0, 11.0, 15.0), Vec4.Vector4(4.0, 8.0, 12.0, 16.0))
  {
  }

  /** The 1..16 matrix is singular: both determinants are zero and `inverse` returns `None`. */
  lemma SingularExample(t: Number.NumberType)
    requires Number.IsSigned(t)
    ensures Determinant(Counting()) == 0.0
    ensures BlockDeterminant(Counting()) == 0.0
    ensures Inverse(t, Counting()) == None
  {
    var m := Counting();
    assert UpperColumn(m, 0) == Vec3.Vector3(1.0, 5.0, 9.0) && UpperColumn(m, 1) == Vec3.Vector3(2.0, 6.0, 10.0);
    assert UpperColumn(m, 2) == Vec3.Vector3(3.0, 7.0, 11.0) && UpperColumn(m, 3) == Vec3.Vector3(4.0, 8.0, 12.0);
    assert Vec3.Cross(Vec3.Vector3(1.0, 5.0, 9.0), Vec3.Vector3(2.0, 6.0, 10.0)) == Vec3.Vector3(-4.0, 8.0, -4.0);
    assert Vec3.Cross(Vec3.Vector3(3.0, 7.0, 11.0), Vec3.Vector3(4.0, 8.0, 12.0)) == Vec3.Vector3(-4.0, 8.0, -4.0);
  }

  /**
   * A `Matrix4x4` updated in place: `mat` is its array of four rows, which
   * the compound assignments, `IndexMut` and `as_mut_slice()` overwrite.
   */
  class MutableMatrix4x4 {
    const mat: array<Vec4.Vector4>

    ghost predicate Valid()
      reads this
    {
      mat.Length == 4
    }

    function Value(): Matrix4x4
      reads this, mat
      requires Valid()
    {
      Matrix4x4(mat[0], mat[1], mat[2], mat[3])
    }

    constructor (m: Matrix4x4)
      ensures Valid() && fresh(mat)
      ensures Value() == m
    {
      mat := new Vec4.Vector4[4] [m.r0, m.r1, m.r2, m.r3];
    }

    /** `self += rhs`: each row `+=` the matching row of `rhs`. */
    method AddAssign(rhs: Matrix4x4)
      requires Valid()
      modifies mat
      ensures Valid()
      ensures Value() == Add(old(Value()), rhs)
    {
      mat[0] := Vec4.Add(mat[0], rhs.r0);
      mat[1] := Vec4.Add(mat[1], rhs.r1);
      mat[2] := Vec4.Add(mat[2], rhs.r2);
      mat[3] := Vec4.Add(mat[3], rhs.r3);
    }

    /** `self -= rhs`: each row `-=` the matching row of `rhs`. */
    method SubAssign(rhs: Matrix4x4)
      requires Valid()
      modifies mat
      ensures Valid()
      ensures Value() == Sub(old(Value()), rhs)
    {
      mat[0] := Vec4.Sub(mat[0], rhs.r0);
      mat[1] := Vec4.Sub(mat[1], rhs.r1);
      mat[2] := Vec4.Sub(mat[2], rhs.r2);
      mat[3] := Vec4.Sub(mat[3], rhs.r3);
    }

    /** `self *= k` for a scalar `k`: each row `*= k`. */
    method MulAssign(k: real)
      requires Valid()
      modifies mat
      ensures Valid()
      ensures Value() == Scale(old(Value()), k)
    {
      mat[0] := Vec4.Scale(mat[0], k);
      mat[1] := Vec4.Scale(mat[1], k);
      mat[2] := Vec4.Scale(mat[2], k);
      mat[3] := Vec4.Scale(mat[3], k);
    }

    /** `self *= rhs` for a matrix `rhs`, which assigns `self * rhs` to the whole of `self`. */
    method MulAssignMatrix(rhs: Matrix4x4)
      requires Valid()
      modifies mat
      ensures Valid()
      ensures Value() == Mul(old(Value()), rhs)
    {
      var product := Mul(Value(), rhs);
      mat[0], mat[1], mat[2], mat[3] := product.r0, product.r1, product.r2, product.r3;
    }

    /** `self[i] = row` through `IndexMut<usize>` or `rows_mut()`, which debug-asserts `i < 4`. */
    method SetRow(i: nat, row: Vec4.Vector4)
      requires Valid() && i < 4
      modifies mat
      ensures Valid()
      ensures Value() == WithRow(old(Value()), i, row)
    {
      mat[i] := row;
    }

    /** `self[(i, j)] = value` through `IndexMut<(usize, usize)>`, which debug-asserts `i < 4 && j < 4`. */
    method SetEntry(i: nat, j: nat, value: real)
      requires Valid() && i < 4 && j < 4
      modifies mat
      ensures Valid()
      ensures Value() == WithEntry(old(Value()), i, j, value)
    {
      mat[i] := Vec4.With(mat[i], j, value);
    }

    /** `self.as_mut_slice()[k] = value`: the flat row-major view, so row `k / 4`, column `k % 4`. */
    method SetSliceEntry(k: nat, value: real)
      requires Valid() && k < 16
      modifies mat
      ensures Valid()
      ensures ToArray(Value()) == old(ToArray(Value()))[k := value]
    {
      ghost var before := Value();
      mat[k / 4] := Vec4.With(mat[k / 4], k % 4, value);
      WithEntryIsSliceWrite(before, k, value);
    }
  }

  /** Writing entry `(k / 4, k % 4)` writes element `k` of the row-major array. */
  lemma WithEntryIsSliceWrite(m: Matrix4x4, k: nat, value: real)
    requires k < 16
    ensures WithEntry(m, k / 4, k % 4, value) == WithRow(m, k / 4, Vec4.With(Row(m, k / 4), k % 4, value))
    ensures ToArray(WithEntry(m, k / 4, k % 4, value)) == ToArray(m)[k := value]
  {
    var r := WithEntry(m, k / 4, k % 4, value);
    var a, b := ToArray(r), ToArray(m)[k := value];
    forall n | 0 <= n < 16
      ensures a[n] == b[n]
    {
      ToArrayIsRowMajor(r, n / 4, n % 4);
      ToArrayIsRowMajor(m, n / 4, n % 4);
      WithEntryThenEntry(m, k / 4, k % 4, value, n / 4, n % 4);
    }
  }

  /**
   * In-place updates of the 1..16 matrix: `m += m` doubles it, and
   * `m *= identity()` then leaves it unchanged.
   */
  method AssignOpsExample() returns (r: Matrix4x4)
    ensures r == Scale(Counting(), 2.0)
  {
    var m := new MutableMatrix4x4(Counting());
    m.AddAssign(Counting());
    m.MulAssignMatrix(Identity(Number.F64));
    IdentityIsUnit(Number.F64, Add(Counting(), Counting()));
    r := m.Value();
  }
}
