/**
 * What the transform factories of `Matrix4x4` do to points `(p, 1)` and
 * directions `(d, 0)`: translation, scaling, reflection, skew and the
 * rotations, each with the parameters `c == cos(rad)`, `s == sin(rad)` or
 * `tan == tan(rad)` in place of the angle.
 */
module Mat4Transforms {
  import Number
  import Vec3
  import Vec4
  import opened Mat4

  // ---------------------------------------------------------------------
  // Translation

  /** `make_translation` moves a point by `(tx, ty, tz)` and leaves a direction unchanged. */
  lemma TranslationMovesPoints(t: Vec3.Vector3, p: Vec3.Vector3)
    ensures MulVec(MakeTranslation(t.x, t.y, t.z), Vec4.FromVector3(p, 1.0)) == Vec4.FromVector3(Vec3.Add(p, t), 1.0)
    ensures MulVec(MakeTranslation(t.x, t.y, t.z), Vec4.FromVector3(p, 0.0)) == Vec4.FromVector3(p, 0.0)
  {
  }

  /** `make_translation` is the identity with `(tx, ty, tz, 1)` as column 3. */
  lemma TranslationIsIdentityWithColumn(tx: real, ty: real, tz: real, j: nat)
    requires j < 3
    ensures Column(MakeTranslation(tx, ty, tz), 3) == Vec4.Vector4(tx, ty, tz, 1.0)
    ensures Column(MakeTranslation(tx, ty, tz), j) == Column(Identity(Number.F64), j)
  {
  }

  /** Translations compose by adding their offsets; translating by `-t` undoes translating by `t`. */
  lemma TranslationsCompose(t: Vec3.Vector3, u: Vec3.Vector3)
    ensures Mul(MakeTranslation(t.x, t.y, t.z), MakeTranslation(u.x, u.y, u.z))
         == MakeTranslation(t.x + u.x, t.y + u.y, t.z + u.z)
    ensures Mul(MakeTranslation(t.x, t.y, t.z), MakeTranslation(-t.x, -t.y, -t.z)) == Identity(Number.F64)
  {
  }

  /** The source's case: `make_translation(3, 4, 5)`. */
  lemma TranslationExample()
    ensures MakeTranslation(3.0, 4.0, 5.0)
         == FromMat([[1.0, 0.0, 0.0, 3.0], [0.0, 1.0, 0.0, 4.0], [0.0, 0.0, 1.0, 5.0], [0.0, 0.0, 0.0, 1.0]])
  {
  }

  // ---------------------------------------------------------------------
  // Scaling

  /** `make_scaling` multiplies `x`, `y` and `z` by their factors and keeps `w`. */
  lemma ScalingScalesComponents(sx: real, sy: real, sz: real, v: Vec4.Vector4)
    ensures MulVec(MakeScaling(sx, sy, sz), v) == Vec4.Vector4(sx * v.x, sy * v.y, sz * v.z, v.w)
  {
  }

  /** Scalings compose by multiplying their factors; `make_scaling(1, 1, 1)` is the identity. */
  lemma ScalingsCompose(a: Vec3.Vector3, b: Vec3.Vector3)
    ensures Mul(MakeScaling(a.x, a.y, a.z), MakeScaling(b.x, b.y, b.z)) == MakeScaling(a.x * b.x, a.y * b.y, a.z * b.z)
    ensures MakeScaling(1.0, 1.0, 1.0) == Identity(Number.F64)
  {
  }

  /** The source's case: `make_scaling(2, 3, 1)`. */
  lemma ScalingExample()
    ensures MakeScaling(2.0, 3.0, 1.0)
         == FromMat([[2.0, 0.0, 0.0, 0.0], [0.0, 3.0, 0.0, 0.0], [0.0, 0.0, 1.0, 0.0], [0.0, 0.0, 0.0, 1.0]])
  {
  }

  /**
   * As written, `make_scaling_axis` scales each coordinate by the matching
   * component of the axis times the factor. For the unit axis `(1, 0, 0)`
   * it is `make_scaling(factor, 0, 0)`: every point off the axis, such as
   * `(0, 1, 0)`, collapses onto it instead of staying where it is.
   */
  lemma ScalingAxisAsWrittenCollapses(factor: real, v: Vec4.Vector4)
    ensures Vec3.IsNormalized(Vec3.Vector3(1.0, 0.0, 0.0))
    ensures MakeScalingAxis(Vec3.Vector3(1.0, 0.0, 0.0), factor) == MakeScaling(factor, 0.0, 0.0)
    ensures MulVec(MakeScalingAxis(Vec3.Vector3(1.0, 0.0, 0.0), factor), v) == Vec4.Vector4(factor * v.x, 0.0, 0.0, v.w)
  {
    var axis := Vec3.Vector3(1.0, 0.0, 0.0);
    assert Vec3.NormSquared(axis) == 1.0;
    ScalingScalesComponents(factor, 0.0, 0.0, v);
  }

  /**
   * Scaling by `factor` along a unit `axis` and by one across it:
   * `I + (factor - 1) axis axis^T`, padded with `(0, 0, 0, 1)`.
   */
  function MakeScalingAlongAxis(axis: Vec3.Vector3, factor: real): Matrix4x4
    requires Vec3.IsNormalized(axis)
  {
    var k, x, y, z := factor - 1.0, axis.x, axis.y, axis.z;
    Matrix4x4(
      Vec4.Vector4(1.0 + k * x * x, k * x * y, k * x * z, 0.0),
      Vec4.Vector4(k * y * x, 1.0 + k * y * y, k * y * z, 0.0),
      Vec4.Vector4(k * z * x, k * z * y, 1.0 + k * z * z, 0.0),
      Vec4.Vector4(0.0, 0.0, 0.0, 1.0))
  }

  /** Along the axis the corrected matrix scales by `factor`. */
  lemma ScalingAlongAxisScalesAxis(axis: Vec3.Vector3, factor: real, w: real)
    requires Vec3.IsNormalized(axis)
    ensures MulVec(MakeScalingAlongAxis(axis, factor), Vec4.FromVector3(axis, w))
         == Vec4.FromVector3(Vec3.Scale(axis, factor), w)
  {
    AlongAxisRowOnAxis0(axis, factor, w);
    AlongAxisRowOnAxis1(axis, factor, w);
    AlongAxisRowOnAxis2(axis, factor, w);
  }

  /** Row `i` of the corrected matrix dotted with `(axis, w)` is component `i` of `axis` times `factor`. */
  lemma AlongAxisRowOnAxis0(axis: Vec3.Vector3, factor: real, w: real)
    requires Vec3.IsNormalized(axis)
    ensures Vec4.Dot(MakeScalingAlongAxis(axis, factor).r0, Vec4.FromVector3(axis, w)) == axis.x * factor
  {
    var k, x, y, z := factor - 1.0, axis.x, axis.y, axis.z;
    assert x * x + y * y + z * z == 1.0;
    calc {
      Vec4.Dot(MakeScalingAlongAxis(axis, factor).r0, Vec4.FromVector3(axis, w));
      (1.0 + k * x * x) * x + k * x * y * y + k * x * z * z + 0.0 * w;
      x + k * x * (x * x + y * y + z * z);
      x + k * x;
    }
  }

  lemma AlongAxisRowOnAxis1(axis: Vec3.Vector3, factor: real, w: real)
    requires Vec3.IsNormalized(axis)
    ensures Vec4.Dot(MakeScalingAlongAxis(axis, factor).r1, Vec4.FromVector3(axis, w)) == axis.y * factor
  {
    var k, x, y, z := factor - 1.0, axis.x, axis.y, axis.z;
    assert x * x + y * y + z * z == 1.0;
    calc {
      Vec4.Dot(MakeScalingAlongAxis(axis, factor).r1, Vec4.FromVector3(axis, w));
      k * y * x * x + (1.0 + k * y * y) * y + k * y * z * z + 0.0 * w;
      y + k * y * (x * x + y * y + z * z);
      y + k * y;
    }
  }

  lemma AlongAxisRowOnAxis2(axis: Vec3.Vector3, factor: real, w: real)
    requires Vec3.IsNormalized(axis)
    ensures Vec4.Dot(MakeScalingAlongAxis(axis, factor).r2, Vec4.FromVector3(axis, w)) == axis.z * factor
  {
    var k, x, y, z := factor - 1.0, axis.x, axis.y, axis.z;
    assert x * x + y * y + z * z == 1.0;
    calc {
      Vec4.Dot(MakeScalingAlongAxis(axis, factor).r2, Vec4.FromVector3(axis, w));
      k * z * x * x + k * z * y * y + (1.0 + k * z * z) * z + 0.0 * w;
      z + k * z * (x * x + y * y + z * z);
      z + k * z;
    }
  }

  /** Across the axis (a point perpendicular to it) the corrected matrix changes nothing. */
  lemma ScalingAlongAxisFixesPlane(axis: Vec3.Vector3, factor: real, p: Vec3.Vector3, w: real)
    requires Vec3.IsNormalized(axis) && Vec3.Dot(p, axis) == 0.0
    ensures MulVec(MakeScalingAlongAxis(axis, factor), Vec4.FromVector3(p, w)) == Vec4.FromVector3(p, w)
  {
    var k, x, y, z := factor - 1.0, axis.x, axis.y, axis.z;
    var px, py, pz := p.x, p.y, p.z;
    AlongAxisRows(axis, factor, k, x, y, z);
    assert Vec4.FromVector3(p, w) == Vec4.Vector4(px, py, pz, w);
    AlongAxisRowsAcross(k, x, y, z, px, py, pz, w);
  }

  /** The rows of the corrected matrix, with `k == factor - 1`. */
  lemma AlongAxisRows(axis: Vec3.Vector3, factor: real, k: real, x: real, y: real, z: real)
    requires Vec3.IsNormalized(axis)
    requires k == factor - 1.0 && x == axis.x && y == axis.y && z == axis.z
    ensures MakeScalingAlongAxis(axis, factor)
         == Matrix4x4(
              Vec4.Vector4(1.0 + k * x * x, k * x * y, k * x * z, 0.0),
              Vec4.Vector4(k * y * x, 1.0 + k * y * y, k * y * z, 0.0),
              Vec4.Vector4(k * z * x, k * z * y, 1.0 + k * z * z, 0.0),
              Vec4.Vector4(0.0, 0.0, 0.0, 1.0))
  {
  }

  /** Each row of `I + k a a^T` dotted with `(p, w)` for `p` perpendicular to `a` gives that coordinate of `p`. */
  lemma AlongAxisRowsAcross(k: real, x: real, y: real, z: real, px: real, py: real, pz: real, w: real)
    requires px * x + py * y + pz * z == 0.0
    ensures Vec4.Dot(Vec4.Vector4(1.0 + k * x * x, k * x * y, k * x * z, 0.0), Vec4.Vector4(px, py, pz, w)) == px
    ensures Vec4.Dot(Vec4.Vector4(k * y * x, 1.0 + k * y * y, k * y * z, 0.0), Vec4.Vector4(px, py, pz, w)) == py
    ensures Vec4.Dot(Vec4.Vector4(k * z * x, k * z * y, 1.0 + k * z * z, 0.0), Vec4.Vector4(px, py, pz, w)) == pz
  {
    assert k * x * (px * x + py * y + pz * z) == 0.0;
    assert k * y * (px * x + py * y + pz * z) == 0.0;
    assert k * z * (px * x + py * y + pz * z) == 0.0;
  }

  /** For the axis `(1, 0, 0)` the corrected matrix is `make_scaling(factor, 1, 1)`. */
  lemma ScalingAlongCoordinateAxis(factor: real)
    ensures Vec3.IsNormalized(Vec3.Vector3(1.0, 0.0, 0.0))
    ensures MakeScalingAlongAxis(Vec3.Vector3(1.0, 0.0, 0.0), factor) == MakeScaling(factor, 1.0, 1.0)
  {
  }

  // ---------------------------------------------------------------------
  // Reflection

  /** Reflecting twice gives back every point: `R * R == I`. */
  lemma ReflectionIsInvolution(n: Vec3.Vector3)
    requires Vec3.IsNormalized(n)
    ensures Mul(MakeReflection(n), MakeReflection(n)) == Identity(Number.F64)
  {
  }

  /** The normal is reversed: `R * (n, 0) == -(n, 0)`. */
  lemma ReflectionReversesNormal(n: Vec3.Vector3)
    requires Vec3.IsNormalized(n)
    ensures MulVec(MakeReflection(n), Vec4.FromVector3(n, 0.0)) == Vec4.Neg(Number.F64, Vec4.FromVector3(n, 0.0))
  {
    var x, y, z := n.x, n.y, n.z;
    ReflectionRows(n, x, y, z);
    HouseholderOnNormal(x, y, z);
  }

  /** A point of the mirror plane (perpendicular to the normal) stays where it is. */
  lemma ReflectionFixesPlane(n: Vec3.Vector3, p: Vec3.Vector3, w: real)
    requires Vec3.IsNormalized(n) && Vec3.Dot(p, n) == 0.0
    ensures MulVec(MakeReflection(n), Vec4.FromVector3(p, w)) == Vec4.FromVector3(p, w)
  {
    var x, y, z := n.x, n.y, n.z;
    var px, py, pz := p.x, p.y, p.z;
    ReflectionRows(n, x, y, z);
    assert Vec4.FromVector3(p, w) == Vec4.Vector4(px, py, pz, w);
    HouseholderAcross(x, y, z, px, py, pz, w);
  }

  /** The rows of `make_reflection(n)` in terms of the components of `n`. */
  lemma ReflectionRows(n: Vec3.Vector3, x: real, y: real, z: real)
    requires Vec3.IsNormalized(n) && x == n.x && y == n.y && z == n.z
    ensures MakeReflection(n)
         == Matrix4x4(
              Vec4.Vector4(1.0 + x * -2.0 * x, x * -2.0 * y, x * -2.0 * z, 0.0),
              Vec4.Vector4(y * -2.0 * x, 1.0 + y * -2.0 * y, y * -2.0 * z, 0.0),
              Vec4.Vector4(z * -2.0 * x, z * -2.0 * y, 1.0 + z * -2.0 * z, 0.0),
              Vec4.Vector4(0.0, 0.0, 0.0, 1.0))
  {
  }

  /** Each row of `I - 2 n n^T` dotted with the unit normal gives minus that component. */
  lemma HouseholderOnNormal(x: real, y: real, z: real)
    requires x * x + y * y + z * z == 1.0
    ensures Vec4.Dot(Vec4.Vector4(1.0 + x * -2.0 * x, x * -2.0 * y, x * -2.0 * z, 0.0), Vec4.Vector4(x, y, z, 0.0)) == -x
    ensures Vec4.Dot(Vec4.Vector4(y * -2.0 * x, 1.0 + y * -2.0 * y, y * -2.0 * z, 0.0), Vec4.Vector4(x, y, z, 0.0)) == -y
    ensures Vec4.Dot(Vec4.Vector4(z * -2.0 * x, z * -2.0 * y, 1.0 + z * -2.0 * z, 0.0), Vec4.Vector4(x, y, z, 0.0)) == -z
  {
    assert x - 2.0 * x * (x * x + y * y + z * z) == -x;
    assert y - 2.0 * y * (x * x + y * y + z * z) == -y;
    assert z - 2.0 * z * (x * x + y * y + z * z) == -z;
  }

  /** Each row of `I - 2 n n^T` dotted with `(p, w)` for `p` perpendicular to `n` gives that coordinate of `p`. */
  lemma HouseholderAcross(x: real, y: real, z: real, px: real, py: real, pz: real, w: real)
    requires px * x + py * y + pz * z == 0.0
    ensures Vec4.Dot(Vec4.Vector4(1.0 + x * -2.0 * x, x * -2.0 * y, x * -2.0 * z, 0.0), Vec4.Vector4(px, py, pz, w)) == px
    ensures Vec4.Dot(Vec4.Vector4(y * -2.0 * x, 1.0 + y * -2.0 * y, y * -2.0 * z, 0.0), Vec4.Vector4(px, py, pz, w)) == py
    ensures Vec4.Dot(Vec4.Vector4(z * -2.0 * x, z * -2.0 * y, 1.0 + z * -2.0 * z, 0.0), Vec4.Vector4(px, py, pz, w)) == pz
  {
    assert x * (px * x + py * y + pz * z) == 0.0;
    assert y * (px * x + py * y + pz * z) == 0.0;
    assert z * (px * x + py * y + pz * z) == 0.0;
  }

  /** The source's cases for the normals `(1, 0, 0)` and `(0, 1, 0)`: a mirror flips one coordinate. */
  lemma ReflectionCoordinateExamples(nx: Vec3.Vector3, ny: Vec3.Vector3)
    requires nx == Vec3.Vector3(1.0, 0.0, 0.0) && ny == Vec3.Vector3(0.0, 1.0, 0.0)
    ensures Vec3.IsNormalized(nx) && Vec3.IsNormalized(ny)
    ensures MakeReflection(nx) == MakeScaling(-1.0, 1.0, 1.0)
    ensures MakeReflection(ny) == MakeScaling(1.0, -1.0, 1.0)
  {
  }

  /**
   * The source's case for the normalized `(1, 1, 0)`, whose components `h`
   * satisfy `h * h == 1/2`: the mirror swaps `x` and `y` and negates them.
   */
  lemma ReflectionDiagonalExample(h: real, n: Vec3.Vector3)
    requires h * h == 0.5 && n == Vec3.Vector3(h, h, 0.0)
    ensures Vec3.IsNormalized(n)
    ensures MakeReflection(n)
         == Matrix4x4(Vec4.Vector4(0.0, -1.0, 0.0, 0.0), Vec4.Vector4(-1.0, 0.0, 0.0, 0.0),
                      Vec4.Vector4(0.0, 0.0, 1.0, 0.0), Vec4.Vector4(0.0, 0.0, 0.0, 1.0))
  {
  }

  /** The source's rejected normals: the zero vector and `(2, 0, 0)`. */
  lemma ReflectionRejectsExamples(zero: Vec3.Vector3, long: Vec3.Vector3)
    requires zero == Vec3.Vector3(0.0, 0.0, 0.0) && long == Vec3.Vector3(2.0, 0.0, 0.0)
    ensures !Vec3.IsNormalized(zero) && !Vec3.IsNormalized(long)
  {
  }

  // ---------------------------------------------------------------------
  // Skew

  /**
   * `make_skew(tan, direction, pivot)` moves a point `(p, w)` along
   * `direction` by `tan` times its distance `pivot . p` along the pivot
   * axis; `w` is kept.
   */
  lemma SkewMovesAlongDirection(tan: real, direction: Vec3.Vector3, pivot: Vec3.Vector3, p: Vec3.Vector3, w: real)
    requires Vec3.IsNormalized(direction)
    requires Vec3.NormSquared(pivot) > 0.0
    requires Vec3.Dot(pivot, direction) == 0.0
    ensures MulVec(MakeSkew(tan, direction, pivot), Vec4.FromVector3(p, w))
         == Vec4.FromVector3(Vec3.Add(p, Vec3.Scale(direction, tan * Vec3.Dot(pivot, p))), w)
  {
    assert MakeSkew(tan, direction, pivot) == SkewRows(tan, direction, pivot);
    SkewRowsMoveAlongDirection(tan, direction, pivot, p, w);
  }

  /** Points on the pivot plane through the origin (`pivot . p == 0`) are fixed. */
  lemma SkewFixesPivotPlane(tan: real, direction: Vec3.Vector3, pivot: Vec3.Vector3, p: Vec3.Vector3, w: real)
    requires Vec3.IsNormalized(direction)
    requires Vec3.NormSquared(pivot) > 0.0
    requires Vec3.Dot(pivot, direction) == 0.0
    requires Vec3.Dot(pivot, p) == 0.0
    ensures MulVec(MakeSkew(tan, direction, pivot), Vec4.FromVector3(p, w)) == Vec4.FromVector3(p, w)
  {
    SkewMovesAlongDirection(tan, direction, pivot, p, w);
  }

  lemma AddScaledKeepsDot(a: Vec3.Vector3, p: Vec3.Vector3, d: Vec3.Vector3, k: real)
    requires Vec3.Dot(a, d) == 0.0
    ensures Vec3.Dot(a, Vec3.Add(p, Vec3.Scale(d, k))) == Vec3.Dot(a, p)
  {
    assert Vec3.Dot(a, Vec3.Add(p, Vec3.Scale(d, k))) == Vec3.Dot(a, p) + k * Vec3.Dot(a, d);
  }

  /** The skew moves points only along its direction: the pivot component is kept. */
  lemma SkewKeepsPivotComponent(tan: real, direction: Vec3.Vector3, pivot: Vec3.Vector3, p: Vec3.Vector3)
    requires Vec3.IsNormalized(direction)
    requires Vec3.NormSquared(pivot) > 0.0
    requires Vec3.Dot(pivot, direction) == 0.0
    ensures var q := MulVec(MakeSkew(tan, direction, pivot), Vec4.FromVector3(p, 1.0));
            Vec3.Dot(pivot, Vec3.Vector3(q.x, q.y, q.z)) == Vec3.Dot(pivot, p)
  {
    SkewMovesAlongDirection(tan, direction, pivot, p, 1.0);
    AddScaledKeepsDot(pivot, p, direction, tan * Vec3.Dot(pivot, p));
  }

  /** The entries of `make_skew`, without its debug assertions. */
  function SkewRows(tan: real, d: Vec3.Vector3, pivot: Vec3.Vector3): Matrix4x4 {
    Matrix4x4(
      Vec4.Vector4(d.x * tan * pivot.x + 1.0, d.x * tan * pivot.y, d.x * tan * pivot.z, 0.0),
      Vec4.Vector4(d.y * tan * pivot.x, d.y * tan * pivot.y + 1.0, d.y * tan * pivot.z, 0.0),
      Vec4.Vector4(d.z * tan * pivot.x, d.z * tan * pivot.y, d.z * tan * pivot.z + 1.0, 0.0),
      Vec4.Vector4(0.0, 0.0, 0.0, 1.0))
  }

  lemma SkewRowsMoveAlongDirection(tan: real, d: Vec3.Vector3, pivot: Vec3.Vector3, p: Vec3.Vector3, w: real)
    ensures MulVec(SkewRows(tan, d, pivot), Vec4.FromVector3(p, w))
         == Vec4.FromVector3(Vec3.Add(p, Vec3.Scale(d, tan * Vec3.Dot(pivot, p))), w)
  {
    var k := tan * Vec3.Dot(pivot, p);
    SkewRow0(tan, d, pivot, p, w, k);
    SkewRow1(tan, d, pivot, p, w, k);
    SkewRow2(tan, d, pivot, p, w, k);
  }

  lemma SkewRow0(tan: real, d: Vec3.Vector3, pivot: Vec3.Vector3, p: Vec3.Vector3, w: real, k: real)
    requires k == tan * Vec3.Dot(pivot, p)
    ensures Vec4.Dot(SkewRows(tan, d, pivot).r0, Vec4.FromVector3(p, w)) == p.x + d.x * k
  {
    var e := d.x * tan;
    calc {
      Vec4.Dot(SkewRows(tan, d, pivot).r0, Vec4.FromVector3(p, w));
      (e * pivot.x + 1.0) * p.x + e * pivot.y * p.y + e * pivot.z * p.z + 0.0 * w;
      p.x + e * (pivot.x * p.x + pivot.y * p.y + pivot.z * p.z);
    }
  }

  lemma SkewRow1(tan: real, d: Vec3.Vector3, pivot: Vec3.Vector3, p: Vec3.Vector3, w: real, k: real)
    requires k == tan * Vec3.Dot(pivot, p)
    ensures Vec4.Dot(SkewRows(tan, d, pivot).r1, Vec4.FromVector3(p, w)) == p.y + d.y * k
  {
    var e := d.y * tan;
    calc {
      Vec4.Dot(SkewRows(tan, d, pivot).r1, Vec4.FromVector3(p, w));
      e * pivot.x * p.x + (e * pivot.y + 1.0) * p.y + e * pivot.z * p.z + 0.0 * w;
      p.y + e * (pivot.x * p.x + pivot.y * p.y + pivot.z * p.z);
    }
  }

  lemma SkewRow2(tan: real, d: Vec3.Vector3, pivot: Vec3.Vector3, p: Vec3.Vector3, w: real, k: real)
    requires k == tan * Vec3.Dot(pivot, p)
    ensures Vec4.Dot(SkewRows(tan, d, pivot).r2, Vec4.FromVector3(p, w)) == p.z + d.z * k
  {
    var e := d.z * tan;
    calc {
      Vec4.Dot(SkewRows(tan, d, pivot).r2, Vec4.FromVector3(p, w));
      e * pivot.x * p.x + e * pivot.y * p.y + (e * pivot.z + 1.0) * p.z + 0.0 * w;
      p.z + e * (pivot.x * p.x + pivot.y * p.y + pivot.z * p.z);
    }
  }

  /** The source's case: direction `(0, 0, 1)`, pivot `(1, 0.5, 0)` and `tan(pi/4) == 1`. */
  lemma SkewExample(direction: Vec3.Vector3, pivot: Vec3.Vector3)
    requires direction == Vec3.Vector3(0.0, 0.0, 1.0) && pivot == Vec3.Vector3(1.0, 0.5, 0.0)
    ensures Vec3.IsNormalized(direction) && Vec3.NormSquared(pivot) > 0.0 && Vec3.Dot(pivot, direction) == 0.0
    ensures MakeSkew(1.0, direction, pivot)
         == Matrix4x4(Vec4.Vector4(1.0, 0.0, 0.0, 0.0), Vec4.Vector4(0.0, 1.0, 0.0, 0.0),
                      Vec4.Vector4(1.0, 0.5, 1.0, 0.0), Vec4.Vector4(0.0, 0.0, 0.0, 1.0))
  {
  }

  /**
   * The source's rejected cases: a zero direction, a zero pivot, the
   * direction `(0, 0, 10)` and the pivot `(1, 0.5, 1)`, which is not
   * perpendicular to `(0, 0, 1)`.
   */
  lemma SkewRejectsExamples(zero: Vec3.Vector3, long: Vec3.Vector3, slanted: Vec3.Vector3)
    requires zero == Vec3.Vector3(0.0, 0.0, 0.0)
    requires long == Vec3.Vector3(0.0, 0.0, 10.0)
    requires slanted == Vec3.Vector3(1.0, 0.5, 1.0)
    ensures !Vec3.IsNormalized(zero) && !(Vec3.NormSquared(zero) > 0.0)
    ensures !Vec3.IsNormalized(long)
    ensures Vec3.Dot(slanted, Vec3.Vector3(0.0, 0.0, 1.0)) != 0.0
  {
  }

  // ---------------------------------------------------------------------
  // Rotations about the coordinate axes

  /** `make_rotation_x` keeps `x` and `w`; for `c^2 + s^2 == 1` it keeps the length of `(y, z)`. */
  lemma RotationXKeepsAxis(c: real, s: real, v: Vec4.Vector4)
    ensures var r := MulVec(MakeRotationX(c, s), v); r.x == v.x && r.w == v.w
    ensures c * c + s * s == 1.0 ==>
              var r := MulVec(MakeRotationX(c, s), v); r.y * r.y + r.z * r.z == v.y * v.y + v.z * v.z
  {
    var r := MulVec(MakeRotationX(c, s), v);
    assert r.y == c * v.y - s * v.z && r.z == s * v.y + c * v.z;
    PlaneRotationKeepsLength(c, s, v.y, v.z);
  }

  /** `make_rotation_y` keeps `y` and `w`; for `c^2 + s^2 == 1` it keeps the length of `(x, z)`. */
  lemma RotationYKeepsAxis(c: real, s: real, v: Vec4.Vector4)
    ensures var r := MulVec(MakeRotationY(c, s), v); r.y == v.y && r.w == v.w
    ensures c * c + s * s == 1.0 ==>
              var r := MulVec(MakeRotationY(c, s), v); r.x * r.x + r.z * r.z == v.x * v.x + v.z * v.z
  {
    var r := MulVec(MakeRotationY(c, s), v);
    assert r.z == c * v.z - s * v.x && r.x == s * v.z + c * v.x;
    PlaneRotationKeepsLength(c, s, v.z, v.x);
  }

  /** `make_rotation_z` keeps `z` and `w`; for `c^2 + s^2 == 1` it keeps the length of `(x, y)`. */
  lemma RotationZKeepsAxis(c: real, s: real, v: Vec4.Vector4)
    ensures var r := MulVec(MakeRotationZ(c, s), v); r.z == v.z && r.w == v.w
    ensures c * c + s * s == 1.0 ==>
              var r := MulVec(MakeRotationZ(c, s), v); r.x * r.x + r.y * r.y == v.x * v.x + v.y * v.y
  {
    var r := MulVec(MakeRotationZ(c, s), v);
    assert r.x == c * v.x - s * v.y && r.y == s * v.x + c * v.y;
    PlaneRotationKeepsLength(c, s, v.x, v.y);
  }

  /** A plane rotation `(c a - s b, s a + c b)` with `c^2 + s^2 == 1` keeps `a^2 + b^2`. */
  lemma PlaneRotationKeepsLength(c: real, s: real, a: real, b: real)
    ensures c * c + s * s == 1.0 ==>
              (c * a - s * b) * (c * a - s * b) + (s * a + c * b) * (s * a + c * b) == a * a + b * b
  {
    calc {
      (c * a - s * b) * (c * a - s * b) + (s * a + c * b) * (s * a + c * b);
      (c * c + s * s) * (a * a + b * b);
    }
  }

  /** Rotations about the same coordinate axis compose by adding their angles. */
  lemma AxisRotationsCompose(c1: real, s1: real, c2: real, s2: real)
    ensures Mul(MakeRotationX(c1, s1), MakeRotationX(c2, s2)) == MakeRotationX(c1 * c2 - s1 * s2, s1 * c2 + c1 * s2)
    ensures Mul(MakeRotationY(c1, s1), MakeRotationY(c2, s2)) == MakeRotationY(c1 * c2 - s1 * s2, s1 * c2 + c1 * s2)
    ensures Mul(MakeRotationZ(c1, s1), MakeRotationZ(c2, s2)) == MakeRotationZ(c1 * c2 - s1 * s2, s1 * c2 + c1 * s2)
  {
  }

  /**
   * The transpose of an axis rotation is the rotation by the opposite angle,
   * and for `c^2 + s^2 == 1` it is the inverse.
   */
  lemma AxisRotationsAreOrthogonal(c: real, s: real)
    ensures Transpose(MakeRotationX(c, s)) == MakeRotationX(c, -s)
    ensures Transpose(MakeRotationY(c, s)) == MakeRotationY(c, -s)
    ensures Transpose(MakeRotationZ(c, s)) == MakeRotationZ(c, -s)
    ensures c * c + s * s == 1.0 ==> Mul(MakeRotationZ(c, s), MakeRotationZ(c, -s)) == Identity(Number.F64)
    ensures c * c + s * s == 1.0 ==> Mul(MakeRotationX(c, s), MakeRotationX(c, -s)) == Identity(Number.F64)
    ensures c * c + s * s == 1.0 ==> Mul(MakeRotationY(c, s), MakeRotationY(c, -s)) == Identity(Number.F64)
  {
    AxisRotationsCompose(c, s, c, -s);
    IdentityValue(Number.F64);
  }

  /** The zero angle (`c == 1`, `s == 0`) gives the identity. */
  lemma AxisRotationsByZero()
    ensures MakeRotationX(1.0, 0.0) == Identity(Number.F64)
    ensures MakeRotationY(1.0, 0.0) == Identity(Number.F64)
    ensures MakeRotationZ(1.0, 0.0) == Identity(Number.F64)
  {
    IdentityValue(Number.F64);
  }

  /** The source's cases for `make_rotation_z`: a quarter turn (`c == 0`, `s == 1`) and a half turn (`c == -1`, `s == 0`). */
  lemma RotationZExamples()
    ensures MakeRotationZ(0.0, 1.0)
         == Matrix4x4(Vec4.Vector4(0.0, -1.0, 0.0, 0.0), Vec4.Vector4(1.0, 0.0, 0.0, 0.0),
                      Vec4.Vector4(0.0, 0.0, 1.0, 0.0), Vec4.Vector4(0.0, 0.0, 0.0, 1.0))
    ensures MakeRotationZ(-1.0, 0.0) == MakeScaling(-1.0, -1.0, 1.0)
  {
  }

  /** The source's cases for `make_rotation_x`: a quarter turn and a half turn. */
  lemma RotationXExamples()
    ensures MakeRotationX(0.0, 1.0)
         == Matrix4x4(Vec4.Vector4(1.0, 0.0, 0.0, 0.0), Vec4.Vector4(0.0, 0.0, -1.0, 0.0),
                      Vec4.Vector4(0.0, 1.0, 0.0, 0.0), Vec4.Vector4(0.0, 0.0, 0.0, 1.0))
    ensures MakeRotationX(-1.0, 0.0) == MakeScaling(1.0, -1.0, -1.0)
  {
  }

  /** The source's cases for `make_rotation_y`: a quarter turn and a half turn. */
  lemma RotationYExamples()
    ensures MakeRotationY(0.0, 1.0)
         == Matrix4x4(Vec4.Vector4(0.0, 0.0, 1.0, 0.0), Vec4.Vector4(0.0, 1.0, 0.0, 0.0),
                      Vec4.Vector4(-1.0, 0.0, 0.0, 0.0), Vec4.Vector4(0.0, 0.0, 0.0, 1.0))
    ensures MakeRotationY(-1.0, 0.0) == MakeScaling(-1.0, 1.0, -1.0)
  {
  }

  // ---------------------------------------------------------------------
  // Rotation about an arbitrary axis

  /** Row `r` times `transpose(m)` dots `r` with each row of `m`. */
  lemma ProductRowWithTranspose(r: Vec4.Vector4, m: Matrix4x4)
    ensures ProductRow(r, Transpose(m)) == Vec4.Vector4(Vec4.Dot(r, m.r0), Vec4.Dot(r, m.r1), Vec4.Dot(r, m.r2), Vec4.Dot(r, m.r3))
  {
  }

  /** A matrix whose rows are orthonormal satisfies `m * transpose(m) == identity()`. */
  lemma OrthonormalRows(m: Matrix4x4)
    requires Vec4.Dot(m.r0, m.r0) == 1.0 && Vec4.Dot(m.r1, m.r1) == 1.0
    requires Vec4.Dot(m.r2, m.r2) == 1.0 && Vec4.Dot(m.r3, m.r3) == 1.0
    requires Vec4.Dot(m.r0, m.r1) == 0.0 && Vec4.Dot(m.r0, m.r2) == 0.0 && Vec4.Dot(m.r0, m.r3) == 0.0
    requires Vec4.Dot(m.r1, m.r2) == 0.0 && Vec4.Dot(m.r1, m.r3) == 0.0 && Vec4.Dot(m.r2, m.r3) == 0.0
    ensures Mul(m, Transpose(m)) == Identity(Number.F64)
  {
    ProductRowWithTranspose(m.r0, m);
    ProductRowWithTranspose(m.r1, m);
    ProductRowWithTranspose(m.r2, m);
    ProductRowWithTranspose(m.r3, m);
    Vec4.DotSymmetric(m.r1, m.r0);
    Vec4.DotSymmetric(m.r2, m.r0);
    Vec4.DotSymmetric(m.r3, m.r0);
    Vec4.DotSymmetric(m.r2, m.r1);
    Vec4.DotSymmetric(m.r3, m.r1);
    Vec4.DotSymmetric(m.r3, m.r2);
    IdentityValue(Number.F64);
  }

  /** For a unit axis and `cos^2 + sin^2 == 1` the rotation is orthogonal: `R * transpose(R) == identity()`. */
  lemma RotationIsOrthogonal(c: real, s: real, axis: Vec3.Vector3)
    requires Vec3.IsNormalized(axis) && c * c + s * s == 1.0
    ensures Mul(MakeRotation(c, s, axis), Transpose(MakeRotation(c, s, axis))) == Identity(Number.F64)
  {
    assert axis.x * axis.x + axis.y * axis.y + axis.z * axis.z == 1.0;
    RodriguesRowDot00(c, s, 1.0 - c, axis);
    RodriguesRowDot01(c, s, 1.0 - c, axis);
    RodriguesRowDot02(c, s, 1.0 - c, axis);
    RodriguesRowDot11(c, s, 1.0 - c, axis);
    RodriguesRowDot12(c, s, 1.0 - c, axis);
    RodriguesRowDot22(c, s, 1.0 - c, axis);
    OrthonormalRows(MakeRotation(c, s, axis));
  }

  /** The rotation keeps every point on its unit axis in place. */
  lemma RotationKeepsAxis(c: real, s: real, axis: Vec3.Vector3, w: real)
    requires Vec3.IsNormalized(axis)
    ensures MulVec(MakeRotation(c, s, axis), Vec4.FromVector3(axis, w)) == Vec4.FromVector3(axis, w)
  {
    assert axis.x * axis.x + axis.y * axis.y + axis.z * axis.z == 1.0;
    RodriguesRowAxis0(c, s, 1.0 - c, axis, w);
    RodriguesRowAxis1(c, s, 1.0 - c, axis, w);
    RodriguesRowAxis2(c, s, 1.0 - c, axis, w);
  }

  lemma RodriguesExpand00(c: real, s: real, t: real, a: Vec3.Vector3)
    ensures Vec4.Dot(RotationRow0(c, s, t, a), RotationRow0(c, s, t, a))
         == c * c + 2.0 * c * a.x * a.x * t + a.x * a.x * t * t * (a.x * a.x + a.y * a.y + a.z * a.z) + s * s * (a.y * a.y + a.z * a.z)
  {
  }

  /** Row 0 of the rotation has length one. */
  lemma RodriguesRowDot00(c: real, s: real, t: real, a: Vec3.Vector3)
    requires t == 1.0 - c && a.x * a.x + a.y * a.y + a.z * a.z == 1.0 && c * c + s * s == 1.0
    ensures Vec4.Dot(RotationRow0(c, s, t, a), RotationRow0(c, s, t, a)) == 1.0
  {
    calc {
      Vec4.Dot(RotationRow0(c, s, t, a), RotationRow0(c, s, t, a));
      { RodriguesExpand00(c, s, t, a); }
      c * c + 2.0 * c * a.x * a.x * t + a.x * a.x * t * t * (a.x * a.x + a.y * a.y + a.z * a.z) + s * s * (a.y * a.y + a.z * a.z);
      c * c + 2.0 * c * a.x * a.x * t + a.x * a.x * t * t + s * s * (1.0 - a.x * a.x);
      (c * c + s * s) + a.x * a.x * (1.0 - (c * c + s * s));
      1.0;
    }
  }

  lemma RodriguesExpand01(c: real, s: real, t: real, a: Vec3.Vector3)
    ensures Vec4.Dot(RotationRow0(c, s, t, a), RotationRow1(c, s, t, a))
         == a.x * a.y * (2.0 * c * t + t * t * (a.x * a.x + a.y * a.y + a.z * a.z) - s * s)
  {
  }

  /** Rows 0 and 1 of the rotation are perpendicular. */
  lemma RodriguesRowDot01(c: real, s: real, t: real, a: Vec3.Vector3)
    requires t == 1.0 - c && a.x * a.x + a.y * a.y + a.z * a.z == 1.0 && c * c + s * s == 1.0
    ensures Vec4.Dot(RotationRow0(c, s, t, a), RotationRow1(c, s, t, a)) == 0.0
  {
    calc {
      Vec4.Dot(RotationRow0(c, s, t, a), RotationRow1(c, s, t, a));
      { RodriguesExpand01(c, s, t, a); }
      a.x * a.y * (2.0 * c * t + t * t * (a.x * a.x + a.y * a.y + a.z * a.z) - s * s);
      a.x * a.y * (2.0 * c * t + t * t - s * s);
      a.x * a.y * (1.0 - (c * c + s * s));
      0.0;
    }
  }

  lemma RodriguesExpand02(c: real, s: real, t: real, a: Vec3.Vector3)
    ensures Vec4.Dot(RotationRow0(c, s, t, a), RotationRow2(c, s, t, a))
         == a.x * a.z * (2.0 * c * t + t * t * (a.x * a.x + a.y * a.y + a.z * a.z) - s * s)
  {
  }

  /** Rows 0 and 2 of the rotation are perpendicular. */
  lemma RodriguesRowDot02(c: real, s: real, t: real, a: Vec3.Vector3)
    requires t == 1.0 - c && a.x * a.x + a.y * a.y + a.z * a.z == 1.0 && c * c + s * s == 1.0
    ensures Vec4.Dot(RotationRow0(c, s, t, a), RotationRow2(c, s, t, a)) == 0.0
  {
    calc {
      Vec4.Dot(RotationRow0(c, s, t, a), RotationRow2(c, s, t, a));
      { RodriguesExpand02(c, s, t, a); }
      a.x * a.z * (2.0 * c * t + t * t * (a.x * a.x + a.y * a.y + a.z * a.z) - s * s);
      a.x * a.z * (2.0 * c * t + t * t - s * s);
      a.x * a.z * (1.0 - (c * c + s * s));
      0.0;
    }
  }

  lemma RodriguesExpand11(c: real, s: real, t: real, a: Vec3.Vector3)
    ensures Vec4.Dot(RotationRow1(c, s, t, a), RotationRow1(c, s, t, a))
         == c * c + 2.0 * c * a.y * a.y * t + a.y * a.y * t * t * (a.x * a.x + a.y * a.y + a.z * a.z) + s * s * (a.x * a.x + a.z * a.z)
  {
  }

  /** Row 1 of the rotation has length one. */
  lemma RodriguesRowDot11(c: real, s: real, t: real, a: Vec3.Vector3)
    requires t == 1.0 - c && a.x * a.x + a.y * a.y + a.z * a.z == 1.0 && c * c + s * s == 1.0
    ensures Vec4.Dot(RotationRow1(c, s, t, a), RotationRow1(c, s, t, a)) == 1.0
  {
    calc {
      Vec4.Dot(RotationRow1(c, s, t, a), RotationRow1(c, s, t, a));
      { RodriguesExpand11(c, s, t, a); }
      c * c + 2.0 * c * a.y * a.y * t + a.y * a.y * t * t * (a.x * a.x + a.y * a.y + a.z * a.z) + s * s * (a.x * a.x + a.z * a.z);
      c * c + 2.0 * c * a.y * a.y * t + a.y * a.y * t * t + s * s * (1.0 - a.y * a.y);
      (c * c + s * s) + a.y * a.y * (1.0 - (c * c + s * s));
      1.0;
    }
  }

  lemma RodriguesExpand12(c: real, s: real, t: real, a: Vec3.Vector3)
    ensures Vec4.Dot(RotationRow1(c, s, t, a), RotationRow2(c, s, t, a))
         == a.y * a.z * (2.0 * c * t + t * t * (a.x * a.x + a.y * a.y + a.z * a.z) - s * s)
  {
  }

  /** Rows 1 and 2 of the rotation are perpendicular. */
  lemma RodriguesRowDot12(c: real, s: real, t: real, a: Vec3.Vector3)
    requires t == 1.0 - c && a.x * a.x + a.y * a.y + a.z * a.z == 1.0 && c * c + s * s == 1.0
    ensures Vec4.Dot(RotationRow1(c, s, t, a), RotationRow2(c, s, t, a)) == 0.0
  {
    calc {
      Vec4.Dot(RotationRow1(c, s, t, a), RotationRow2(c, s, t, a));
      { RodriguesExpand12(c, s, t, a); }
      a.y * a.z * (2.0 * c * t + t * t * (a.x * a.x + a.y * a.y + a.z * a.z) - s * s);
      a.y * a.z * (2.0 * c * t + t * t - s * s);
      a.y * a.z * (1.0 - (c * c + s * s));
      0.0;
    }
  }

  lemma RodriguesExpand22(c: real, s: real, t: real, a: Vec3.Vector3)
    ensures Vec4.Dot(RotationRow2(c, s, t, a), RotationRow2(c, s, t, a))
         == c * c + 2.0 * c * a.z * a.z * t + a.z * a.z * t * t * (a.x * a.x + a.y * a.y + a.z * a.z) + s * s * (a.x * a.x + a.y * a.y)
  {
  }

  /** Row 2 of the rotation has length one. */
  lemma RodriguesRowDot22(c: real, s: real, t: real, a: Vec3.Vector3)
    requires t == 1.0 - c && a.x * a.x + a.y * a.y + a.z * a.z == 1.0 && c * c + s * s == 1.0
    ensures Vec4.Dot(RotationRow2(c, s, t, a), RotationRow2(c, s, t, a)) == 1.0
  {
    calc {
      Vec4.Dot(RotationRow2(c, s, t, a), RotationRow2(c, s, t, a));
      { RodriguesExpand22(c, s, t, a); }
      c * c + 2.0 * c * a.z * a.z * t + a.z * a.z * t * t * (a.x * a.x + a.y * a.y + a.z * a.z) + s * s * (a.x * a.x + a.y * a.y);
      c * c + 2.0 * c * a.z * a.z * t + a.z * a.z * t * t + s * s * (1.0 - a.z * a.z);
      (c * c + s * s) + a.z * a.z * (1.0 - (c * c + s * s));
      1.0;
    }
  }

  /** Row 0 of the rotation dotted with the unit axis gives component x of the axis. */
  lemma RodriguesRowAxis0(c: real, s: real, t: real, a: Vec3.Vector3, w: real)
    requires t == 1.0 - c && a.x * a.x + a.y * a.y + a.z * a.z == 1.0
    ensures Vec4.Dot(RotationRow0(c, s, t, a), Vec4.FromVector3(a, w)) == a.x
  {
    calc {
      Vec4.Dot(RotationRow0(c, s, t, a), Vec4.FromVector3(a, w));
      c * a.x + a.x * t * (a.x * a.x + a.y * a.y + a.z * a.z);
      a.x;
    }
  }

  /** Row 1 of the rotation dotted with the unit axis gives component y of the axis. */
  lemma RodriguesRowAxis1(c: real, s: real, t: real, a: Vec3.Vector3, w: real)
    requires t == 1.0 - c && a.x * a.x + a.y * a.y + a.z * a.z == 1.0
    ensures Vec4.Dot(RotationRow1(c, s, t, a), Vec4.FromVector3(a, w)) == a.y
  {
    calc {
      Vec4.Dot(RotationRow1(c, s, t, a), Vec4.FromVector3(a, w));
      c * a.y + a.y * t * (a.x * a.x + a.y * a.y + a.z * a.z);
      a.y;
    }
  }

  /** Row 2 of the rotation dotted with the unit axis gives component z of the axis. */
  lemma RodriguesRowAxis2(c: real, s: real, t: real, a: Vec3.Vector3, w: real)
    requires t == 1.0 - c && a.x * a.x + a.y * a.y + a.z * a.z == 1.0
    ensures Vec4.Dot(RotationRow2(c, s, t, a), Vec4.FromVector3(a, w)) == a.z
  {
    calc {
      Vec4.Dot(RotationRow2(c, s, t, a), Vec4.FromVector3(a, w));
      c * a.z + a.z * t * (a.x * a.x + a.y * a.y + a.z * a.z);
      a.z;
    }
  }

  /** The transpose of `make_rotation` is the rotation by the opposite angle about the same axis. */
  lemma RotationTransposeReverses(c: real, s: real, axis: Vec3.Vector3)
    ensures Transpose(MakeRotation(c, s, axis)) == MakeRotation(c, -s, axis)
  {
  }

  /**
   * About `(0, 0, -1)`, `make_rotation` is `make_rotation_z`; about `(0, 0, 1)`
   * it turns the other way. The source's case is the quarter turn about
   * `(0, 0, -1)`, for which the `f64` instance as written agrees.
   */
  lemma RotationAboutZAxis(c: real, s: real, down: Vec3.Vector3, up: Vec3.Vector3)
    requires down == Vec3.Vector3(0.0, 0.0, -1.0) && up == Vec3.Vector3(0.0, 0.0, 1.0)
    ensures MakeRotation(c, s, down) == MakeRotationZ(c, s)
    ensures MakeRotation(c, s, up) == MakeRotationZ(c, -s)
    ensures MakeRotationF64AsWritten(0.0, 1.0, down)
         == Matrix4x4(Vec4.Vector4(0.0, -1.0, 0.0, 0.0), Vec4.Vector4(1.0, 0.0, 0.0, 0.0),
                      Vec4.Vector4(0.0, 0.0, 1.0, 0.0), Vec4.Vector4(0.0, 0.0, 0.0, 1.0))
  {
  }

  // ---------------------------------------------------------------------
  // The f64 instance of make_rotation

  /** The `f64` instance as written agrees with the `f32` one exactly when `axis.y * sin == 0`. */
  lemma F64RotationAgreesOnlyWithoutY(c: real, s: real, axis: Vec3.Vector3)
    ensures MakeRotationF64AsWritten(c, s, axis) == MakeRotation(c, s, axis) <==> axis.y * s == 0.0
  {
  }

  /**
   * The `f64` instance as written, for a quarter turn about the unit axis
   * `(0, 0.6, 0.8)`: rows 0 and 2 are no longer perpendicular, and the axis
   * itself moves (the `x` of its image is 0.96 instead of 0).
   */
  lemma F64RotationAsWrittenCounterexample(c: real, s: real, axis: Vec3.Vector3)
    requires c == 0.0 && s == 1.0 && axis == Vec3.Vector3(0.0, 0.6, 0.8)
    ensures Vec3.IsNormalized(axis)
    ensures MakeRotationF64AsWritten(c, s, axis).r0 == Vec4.Vector4(0.0, 0.8, 0.6, 0.0)
    ensures MakeRotationF64AsWritten(c, s, axis).r2 == Vec4.Vector4(0.6, 0.48, 0.64, 0.0)
    ensures Vec4.Dot(MakeRotationF64AsWritten(c, s, axis).r0, MakeRotationF64AsWritten(c, s, axis).r2) == 0.768
    ensures MulVec(MakeRotationF64AsWritten(c, s, axis), Vec4.FromVector3(axis, 0.0)).x == 0.96
  {
    assert Vec3.NormSquared(axis) == 1.0;
  }

  /** The corrected rotation, for the same quarter turn, leaves the axis in place. */
  lemma CorrectedRotationKeepsExampleAxis(c: real, s: real, axis: Vec3.Vector3)
    requires c == 0.0 && s == 1.0 && axis == Vec3.Vector3(0.0, 0.6, 0.8)
    ensures MulVec(MakeRotation(c, s, axis), Vec4.FromVector3(axis, 0.0)) == Vec4.FromVector3(axis, 0.0)
  {
    assert Vec3.NormSquared(axis) == 1.0;
    RotationKeepsAxis(c, s, axis, 0.0);
  }
}
