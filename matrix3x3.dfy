/**
 * `Matrix3x3<T>`: three rows of `Vector3<T>` with entrywise arithmetic, the
 * matrix-vector and matrix-matrix products, and row indexing. The value is
 * the datatype `Matrix3x3`; the compound assignments and `IndexMut`, which
 * overwrite entries of `self.mat` in place, are methods of the class
 * `MutableMatrix3x3` over an array of three rows.
 */
module Mat3 {
  import Number
  import Vec3

  datatype Matrix3x3 = Matrix3x3(r0: Vec3.Vector3, r1: Vec3.Vector3, r2: Vec3.Vector3)

  /** `m.as_slice()`: the three rows. */
  function Rows(m: Matrix3x3): (r: seq<Vec3.Vector3>)
    ensures |r| == 3
  {
    [m.r0, m.r1, m.r2]
  }

  /** `m[i]`, which debug-asserts `i < 3` and then indexes the slice of rows. */
  function Row(m: Matrix3x3, i: nat): Vec3.Vector3
    requires i < 3
  {
    if i == 0 then m.r0 else if i == 1 then m.r1 else m.r2
  }

  /** `m[i][j]`. */
  function Entry(m: Matrix3x3, i: nat, j: nat): real
    requires i < 3 && j < 3
  {
    Vec3.At(Row(m, i), j)
  }

  /** The matrix after `m[i] = row` through `IndexMut`. */
  function WithRow(m: Matrix3x3, i: nat, row: Vec3.Vector3): (r: Matrix3x3)
    requires i < 3
    ensures Rows(r) == Rows(m)[i := row]
  {
    if i == 0 then m.(r0 := row) else if i == 1 then m.(r1 := row) else m.(r2 := row)
  }

  /** Column `j` of `m` as a vector. */
  function Column(m: Matrix3x3, j: nat): (r: Vec3.Vector3)
    requires j < 3
    ensures r == Vec3.Vector3(Entry(m, 0, j), Entry(m, 1, j), Entry(m, 2, j))
  {
    Vec3.Vector3(Vec3.At(m.r0, j), Vec3.At(m.r1, j), Vec3.At(m.r2, j))
  }

  /** `-m`, which needs `T: Neg`: only the signed instances have it. */
  function Neg(t: Number.NumberType, m: Matrix3x3): Matrix3x3
    requires Number.IsSigned(t)
  {
    Matrix3x3(Vec3.Neg(t, m.r0), Vec3.Neg(t, m.r1), Vec3.Neg(t, m.r2))
  }

  function Add(a: Matrix3x3, b: Matrix3x3): Matrix3x3 {
    Matrix3x3(Vec3.Add(a.r0, b.r0), Vec3.Add(a.r1, b.r1), Vec3.Add(a.r2, b.r2))
  }

  function Sub(a: Matrix3x3, b: Matrix3x3): Matrix3x3 {
    Matrix3x3(Vec3.Sub(a.r0, b.r0), Vec3.Sub(a.r1, b.r1), Vec3.Sub(a.r2, b.r2))
  }

  /** `m * k` for a scalar `k`. */
  function Scale(m: Matrix3x3, k: real): Matrix3x3 {
    Matrix3x3(Vec3.Scale(m.r0, k), Vec3.Scale(m.r1, k), Vec3.Scale(m.r2, k))
  }

  /** `m / k` for a scalar `k`, truncating for the integer types. */
  function Div(t: Number.NumberType, m: Matrix3x3, k: real): Matrix3x3
    requires k != 0.0
  {
    Matrix3x3(Vec3.Div(t, m.r0, k), Vec3.Div(t, m.r1, k), Vec3.Div(t, m.r2, k))
  }

  /** `m * v`: component `i` is the sum of row `i` times `v`, entry by entry. */
  function MulVec(m: Matrix3x3, v: Vec3.Vector3): Vec3.Vector3 {
    Vec3.Vector3(
      m.r0.x * v.x + m.r0.y * v.y + m.r0.z * v.z,
      m.r1.x * v.x + m.r1.y * v.y + m.r1.z * v.z,
      m.r2.x * v.x + m.r2.y * v.y + m.r2.z * v.z)
  }

  /** One row of `a * b`: the row `r` of `a` combined with the rows of `b`. */
  function ProductRow(r: Vec3.Vector3, b: Matrix3x3): Vec3.Vector3 {
    Vec3.Vector3(
      r.x * b.r0.x + r.y * b.r1.x + r.z * b.r2.x,
      r.x * b.r0.y + r.y * b.r1.y + r.z * b.r2.y,
      r.x * b.r0.z + r.y * b.r1.z + r.z * b.r2.z)
  }

  /** `a * b`. */
  function Mul(a: Matrix3x3, b: Matrix3x3): Matrix3x3 {
    Matrix3x3(ProductRow(a.r0, b), ProductRow(a.r1, b), ProductRow(a.r2, b))
  }

  // ---------------------------------------------------------------------
  // Properties

  /** Addition and subtraction act on each of the nine entries. */
  lemma AddSubAreEntrywise(a: Matrix3x3, b: Matrix3x3, i: nat, j: nat)
    requires i < 3 && j < 3
    ensures Entry(Add(a, b), i, j) == Entry(a, i, j) + Entry(b, i, j)
    ensures Entry(Sub(a, b), i, j) == Entry(a, i, j) - Entry(b, i, j)
  {
  }

  /** Scaling by a scalar acts on each of the nine entries. */
  lemma ScaleIsEntrywise(a: Matrix3x3, k: real, i: nat, j: nat)
    requires i < 3 && j < 3
    ensures Entry(Scale(a, k), i, j) == Entry(a, i, j) * k
  {
    if i == 0 {
      assert Entry(Scale(a, k), i, j) == Vec3.At(Vec3.Scale(a.r0, k), j);
    } else if i == 1 {
      assert Entry(Scale(a, k), i, j) == Vec3.At(Vec3.Scale(a.r1, k), j);
    } else {
      assert Entry(Scale(a, k), i, j) == Vec3.At(Vec3.Scale(a.r2, k), j);
    }
  }

  /** Division by a scalar acts on each of the nine entries. */
  lemma DivIsEntrywise(t: Number.NumberType, a: Matrix3x3, k: real, i: nat, j: nat)
    requires k != 0.0 && i < 3 && j < 3
    ensures Entry(Div(t, a, k), i, j) == Number.Div(t, Entry(a, i, j), k)
  {
    if i == 0 {
      assert Entry(Div(t, a, k), i, j) == Vec3.At(Vec3.Div(t, a.r0, k), j);
    } else if i == 1 {
      assert Entry(Div(t, a, k), i, j) == Vec3.At(Vec3.Div(t, a.r1, k), j);
    } else {
      assert Entry(Div(t, a, k), i, j) == Vec3.At(Vec3.Div(t, a.r2, k), j);
    }
  }

  /** Negation acts on each of the nine entries. */
  lemma NegIsEntrywise(t: Number.NumberType, a: Matrix3x3, i: nat, j: nat)
    requires Number.IsSigned(t) && i < 3 && j < 3
    ensures Entry(Neg(t, a), i, j) == -Entry(a, i, j)
  {
  }

  /** `m[i]` reads entry `i` of `as_slice()`. */
  lemma RowIndexesRows(m: Matrix3x3, i: nat)
    requires i < 3
    ensures Row(m, i) == Rows(m)[i]
  {
  }

  /** Writing row `i` changes that row only. */
  lemma WithRowThenRow(m: Matrix3x3, i: nat, j: nat, row: Vec3.Vector3)
    requires i < 3 && j < 3
    ensures Row(WithRow(m, i, row), j) == if i == j then row else Row(m, j)
  {
  }

  /** Component `i` of `m * v` is row `i` dotted with `v`. */
  lemma MulVecIsRowDot(m: Matrix3x3, v: Vec3.Vector3, i: nat)
    requires i < 3
    ensures Vec3.At(MulVec(m, v), i) == Vec3.Dot(Row(m, i), v)
  {
  }

  /** Entry `(i, j)` of `a * b` is the sum over `k` of `a[i][k] * b[k][j]`. */
  lemma MulIsRowColumnDot(a: Matrix3x3, b: Matrix3x3, i: nat, j: nat)
    requires i < 3 && j < 3
    ensures Entry(Mul(a, b), i, j)
         == Entry(a, i, 0) * Entry(b, 0, j) + Entry(a, i, 1) * Entry(b, 1, j) + Entry(a, i, 2) * Entry(b, 2, j)
  {
    ProductRowEntry(Row(a, i), b, j);
    if i == 0 {
      assert Entry(Mul(a, b), i, j) == Vec3.At(ProductRow(a.r0, b), j);
    } else if i == 1 {
      assert Entry(Mul(a, b), i, j) == Vec3.At(ProductRow(a.r1, b), j);
    } else {
      assert Entry(Mul(a, b), i, j) == Vec3.At(ProductRow(a.r2, b), j);
    }
  }

  /** Entry `(i, j)` of `a * b` is row `i` of `a` dotted with column `j` of `b`. */
  lemma MulIsRowDotColumn(a: Matrix3x3, b: Matrix3x3, i: nat, j: nat)
    requires i < 3 && j < 3
    ensures Entry(Mul(a, b), i, j) == Vec3.Dot(Row(a, i), Column(b, j))
  {
    MulIsRowColumnDot(a, b, i, j);
    var r := Row(a, i);
    assert r.x == Entry(a, i, 0) && r.y == Entry(a, i, 1) && r.z == Entry(a, i, 2);
  }

  /** Component `j` of a product row combines column `j` of `b`. */
  lemma ProductRowEntry(r: Vec3.Vector3, b: Matrix3x3, j: nat)
    requires j < 3
    ensures Vec3.At(ProductRow(r, b), j) == r.x * Entry(b, 0, j) + r.y * Entry(b, 1, j) + r.z * Entry(b, 2, j)
  {
  }

  /** The two products agree: `(a * b) * v == a * (b * v)`. */
  lemma ProductsAgree(a: Matrix3x3, b: Matrix3x3, v: Vec3.Vector3)
    ensures MulVec(Mul(a, b), v) == MulVec(a, MulVec(b, v))
  {
    RowProductAgrees(a.r0, b, v);
    RowProductAgrees(a.r1, b, v);
    RowProductAgrees(a.r2, b, v);
  }

  /** For one row `r` of `a`: `row(a * b) . v == r . (b * v)`. */
  lemma RowProductAgrees(r: Vec3.Vector3, b: Matrix3x3, v: Vec3.Vector3)
    ensures Vec3.Dot(ProductRow(r, b), v) == Vec3.Dot(r, MulVec(b, v))
    ensures var p := ProductRow(r, b); var w := MulVec(b, v);
      p.x * v.x + p.y * v.y + p.z * v.z == r.x * w.x + r.y * w.y + r.z * w.z
  {
    var p, w := ProductRow(r, b), MulVec(b, v);
    Regroup(r.x, r.y, r.z, b.r0.x, b.r0.y, b.r0.z, b.r1.x, b.r1.y, b.r1.z,
            b.r2.x, b.r2.y, b.r2.z, v.x, v.y, v.z, p, w);
  }

  /** The regrouping of nine products that makes the two product formulas agree. */
  lemma Regroup(p: real, q: real, r: real,
                b00: real, b01: real, b02: real, b10: real, b11: real, b12: real,
                b20: real, b21: real, b22: real, x: real, y: real, z: real,
                pr: Vec3.Vector3, bv: Vec3.Vector3)
    requires pr == Vec3.Vector3(p * b00 + q * b10 + r * b20, p * b01 + q * b11 + r * b21, p * b02 + q * b12 + r * b22)
    requires bv == Vec3.Vector3(b00 * x + b01 * y + b02 * z, b10 * x + b11 * y + b12 * z, b20 * x + b21 * y + b22 * z)
    ensures pr.x * x + pr.y * y + pr.z * z == p * bv.x + q * bv.y + r * bv.z
  {
    assert (p * b00 + q * b10 + r * b20) * x + (p * b01 + q * b11 + r * b21) * y + (p * b02 + q * b12 + r * b22) * z
        == p * (b00 * x + b01 * y + b02 * z) + q * (b10 * x + b11 * y + b12 * z) + r * (b20 * x + b21 * y + b22 * z);
  }

  /** [[1,2,3],[0,1,4],[5,6,0]] * [[7,8,9],[2,3,4],[1,0,0]] == [[14,14,17],[6,3,4],[47,58,69]]. */
  lemma ProductExample()
    ensures Mul(Matrix3x3(Vec3.Vector3(1.0, 2.0, 3.0), Vec3.Vector3(0.0, 1.0, 4.0), Vec3.Vector3(5.0, 6.0, 0.0)),
                Matrix3x3(Vec3.Vector3(7.0, 8.0, 9.0), Vec3.Vector3(2.0, 3.0, 4.0), Vec3.Vector3(1.0, 0.0, 0.0)))
         == Matrix3x3(Vec3.Vector3(14.0, 14.0, 17.0), Vec3.Vector3(6.0, 3.0, 4.0), Vec3.Vector3(47.0, 58.0, 69.0))
  {
  }

  /**
   * A `Matrix3x3` updated in place: `mat` is its array of three rows, which
   * `+=`, `*=`, `/=` and `IndexMut` overwrite.
   */
  class MutableMatrix3x3 {
    const mat: array<Vec3.Vector3>

    ghost predicate Valid()
      reads this
    {
      mat.Length == 3
    }

    function Value(): Matrix3x3
      reads this, mat
      requires Valid()
    {
      Matrix3x3(mat[0], mat[1], mat[2])
    }

    constructor (m: Matrix3x3)
      ensures Valid() && fresh(mat)
      ensures Value() == m
    {
      mat := new Vec3.Vector3[3] [m.r0, m.r1, m.r2];
    }

    /** `self += rhs`, entry by entry. */
    method AddAssign(rhs: Matrix3x3)
      requires Valid()
      modifies mat
      ensures Valid()
      ensures Value() == Add(old(Value()), rhs)
    {
      mat[0] := mat[0].(x := mat[0].x + rhs.r0.x);
      mat[0] := mat[0].(y := mat[0].y + rhs.r0.y);
      mat[0] := mat[0].(z := mat[0].z + rhs.r0.z);
      mat[1] := mat[1].(x := mat[1].x + rhs.r1.x);
      mat[1] := mat[1].(y := mat[1].y + rhs.r1.y);
      mat[1] := mat[1].(z := mat[1].z + rhs.r1.z);
      mat[2] := mat[2].(x := mat[2].x + rhs.r2.x);
      mat[2] := mat[2].(y := mat[2].y + rhs.r2.y);
      mat[2] := mat[2].(z := mat[2].z + rhs.r2.z);
    }

    /** `self *= k`, entry by entry. */
    method MulAssign(k: real)
      requires Valid()
      modifies mat
      ensures Valid()
      ensures Value() == Scale(old(Value()), k)
    {
      mat[0] := mat[0].(x := mat[0].x * k);
      mat[0] := mat[0].(y := mat[0].y * k);
      mat[0] := mat[0].(z := mat[0].z * k);
      mat[1] := mat[1].(x := mat[1].x * k);
      mat[1] := mat[1].(y := mat[1].y * k);
      mat[1] := mat[1].(z := mat[1].z * k);
      mat[2] := mat[2].(x := mat[2].x * k);
      mat[2] := mat[2].(y := mat[2].y * k);
      mat[2] := mat[2].(z := mat[2].z * k);
    }

    /** `self /= k`, entry by entry. */
    method DivAssign(t: Number.NumberType, k: real)
      requires Valid() && k != 0.0
      modifies mat
      ensures Valid()
      ensures Value() == Div(t, old(Value()), k)
    {
      mat[0] := mat[0].(x := Number.Div(t, mat[0].x, k));
      mat[0] := mat[0].(y := Number.Div(t, mat[0].y, k));
      mat[0] := mat[0].(z := Number.Div(t, mat[0].z, k));
      mat[1] := mat[1].(x := Number.Div(t, mat[1].x, k));
      mat[1] := mat[1].(y := Number.Div(t, mat[1].y, k));
      mat[1] := mat[1].(z := Number.Div(t, mat[1].z, k));
      mat[2] := mat[2].(x := Number.Div(t, mat[2].x, k));
      mat[2] := mat[2].(y := Number.Div(t, mat[2].y, k));
      mat[2] := mat[2].(z := Number.Div(t, mat[2].z, k));
    }

    /** `self[i] = row` through `IndexMut`, which debug-asserts `i < 3`. */
    method SetRow(i: nat, row: Vec3.Vector3)
      requires Valid() && i < 3
      modifies mat
      ensures Valid()
      ensures Value() == WithRow(old(Value()), i, row)
    {
      mat[i] := row;
    }
  }
}
