/**
 * `perspective_f32` and `perspective_f64`: the projection matrix for a
 * horizontal field of view, an aspect ratio and the near and far planes.
 * The two compute the same formula and differ only in the scalar type, which
 * is exact here, so one function models both. The focal length
 * `1 / tan(horizontal_fov / 2)` is a parameter.
 *
 * A point `(x, y, z, 1)` maps to clip coordinates whose `w` is the view `z`;
 * its depth `z_clip / w_clip` is 0 on the near plane and 1 on the far plane.
 */
module Perspective {
  import Vec3
  import Vec4
  import opened Mat4

  /**
   * The projection matrix for focal length `f`. Division by a zero aspect
   * ratio or by `far - near == 0` yields an infinity in floating point,
   * which the model excludes.
   */
  function Perspective(f: real, aspectRatio: real, nearField: real, farField: real): Matrix4x4
    requires aspectRatio != 0.0 && farField != nearField
  {
    var rangeInv := 1.0 / (farField - nearField);
    var farRange := farField * rangeInv;
    Matrix4x4(
      Vec4.Vector4(f / aspectRatio, 0.0, 0.0, 0.0),
      Vec4.Vector4(0.0, f, 0.0, 0.0),
      Vec4.Vector4(0.0, 0.0, farRange, -1.0 * nearField * farRange),
      Vec4.Vector4(0.0, 0.0, 1.0, 0.0))
  }

  /** The clip coordinates of the point `p` (with `w == 1`). */
  function Clip(f: real, aspectRatio: real, nearField: real, farField: real, p: Vec3.Vector3): Vec4.Vector4
    requires aspectRatio != 0.0 && farField != nearField
  {
    MulVec(Perspective(f, aspectRatio, nearField, farField), Vec4.FromVector3(p, 1.0))
  }

  /** The depth `z_clip / w_clip` of a point at view depth `z != 0`. */
  function Depth(f: real, aspectRatio: real, nearField: real, farField: real, p: Vec3.Vector3): real
    requires aspectRatio != 0.0 && farField != nearField && p.z != 0.0
  {
    ProjectionKeepsViewZ(f, aspectRatio, nearField, farField, p);
    var c := Clip(f, aspectRatio, nearField, farField, p);
    c.z / c.w
  }

  /**
   * The clip coordinates: `w` is the view `z`, `x` is `x` scaled by
   * `f / aspect`, `y` is `y` scaled by `f`, and `z` is the view depth
   * measured from the near plane, scaled by `far / (far - near)`.
   */
  lemma ProjectionKeepsViewZ(f: real, aspectRatio: real, nearField: real, farField: real, p: Vec3.Vector3)
    requires aspectRatio != 0.0 && farField != nearField
    ensures Clip(f, aspectRatio, nearField, farField, p).w == p.z
    ensures Clip(f, aspectRatio, nearField, farField, p).x * aspectRatio == f * p.x
    ensures Clip(f, aspectRatio, nearField, farField, p).y == f * p.y
    ensures Clip(f, aspectRatio, nearField, farField, p).z * (farField - nearField) == farField * (p.z - nearField)
  {
    var rangeInv := 1.0 / (farField - nearField);
    var farRange := farField * rangeInv;
    var c := Clip(f, aspectRatio, nearField, farField, p);
    assert c == Vec4.Vector4(f / aspectRatio * p.x, f * p.y, farRange * p.z + -1.0 * nearField * farRange, p.z);
    assert c.x * aspectRatio == f * p.x;
    calc {
      c.z * (farField - nearField);
      (farRange * (p.z - nearField)) * (farField - nearField);
      farField * (p.z - nearField) * (rangeInv * (farField - nearField));
      farField * (p.z - nearField);
    }
  }

  /** The depth is `(z - near) / z` scaled by `far / (far - near)`. */
  lemma DepthFormula(f: real, aspectRatio: real, nearField: real, farField: real, p: Vec3.Vector3)
    requires aspectRatio != 0.0 && farField != nearField && p.z != 0.0
    ensures Depth(f, aspectRatio, nearField, farField, p) * p.z * (farField - nearField)
         == farField * (p.z - nearField)
  {
    ProjectionKeepsViewZ(f, aspectRatio, nearField, farField, p);
    var c := Clip(f, aspectRatio, nearField, farField, p);
    assert Depth(f, aspectRatio, nearField, farField, p) * p.z == c.z;
  }

  /** A point on the near plane has depth 0, a point on the far plane depth 1. */
  lemma DepthOfNearAndFarPlanes(f: real, aspectRatio: real, nearField: real, farField: real, p: Vec3.Vector3)
    requires aspectRatio != 0.0 && farField != nearField && nearField != 0.0 && farField != 0.0
    ensures p.z == nearField ==> Depth(f, aspectRatio, nearField, farField, p) == 0.0
    ensures p.z == farField ==> Depth(f, aspectRatio, nearField, farField, p) == 1.0
  {
    if p.z == nearField || p.z == farField {
      DepthFormula(f, aspectRatio, nearField, farField, p);
      var d := Depth(f, aspectRatio, nearField, farField, p);
      if p.z == farField {
        assert d * (p.z * (farField - nearField)) == 1.0 * (p.z * (farField - nearField));
        CancelNonZero(d, 1.0, p.z * (farField - nearField));
      } else {
        assert d * (p.z * (farField - nearField)) == 0.0 * (p.z * (farField - nearField));
        CancelNonZero(d, 0.0, p.z * (farField - nearField));
      }
    }
  }

  /**
   * For `0 < near < far`, the depth grows strictly with the view `z` in
   * front of the camera, and every point between the planes has a depth in
   * `[0, 1]`.
   */
  lemma DepthIsMonotonic(f: real, aspectRatio: real, nearField: real, farField: real, p: Vec3.Vector3, q: Vec3.Vector3)
    requires aspectRatio != 0.0 && 0.0 < nearField < farField
    requires 0.0 < p.z < q.z
    ensures Depth(f, aspectRatio, nearField, farField, p) < Depth(f, aspectRatio, nearField, farField, q)
  {
    var dp := Depth(f, aspectRatio, nearField, farField, p);
    var dq := Depth(f, aspectRatio, nearField, farField, q);
    var w := farField - nearField;
    DepthFormula(f, aspectRatio, nearField, farField, p);
    DepthFormula(f, aspectRatio, nearField, farField, q);
    // dp * p.z * w == far * (p.z - near), so dp == far / w - far * near / (w * p.z).
    var k := farField * nearField / w;
    assert k > 0.0;
    assert dp == farField / w - k / p.z by {
      assert dp * p.z * w == farField * (p.z - nearField);
      assert dp * (p.z * w) == (farField / w - k / p.z) * (p.z * w);
      CancelNonZero(dp, farField / w - k / p.z, p.z * w);
    }
    assert dq == farField / w - k / q.z by {
      assert dq * q.z * w == farField * (q.z - nearField);
      assert dq * (q.z * w) == (farField / w - k / q.z) * (q.z * w);
      CancelNonZero(dq, farField / w - k / q.z, q.z * w);
    }
    ReciprocalDecreases(k, p.z, q.z);
  }

  /** Between the planes the depth lies in `[0, 1]`. */
  lemma DepthBetweenPlanes(f: real, aspectRatio: real, nearField: real, farField: real, p: Vec3.Vector3)
    requires aspectRatio != 0.0 && 0.0 < nearField < farField
    requires nearField <= p.z <= farField
    ensures 0.0 <= Depth(f, aspectRatio, nearField, farField, p) <= 1.0
  {
    var near := Vec3.Vector3(p.x, p.y, nearField);
    var far := Vec3.Vector3(p.x, p.y, farField);
    DepthOfNearAndFarPlanes(f, aspectRatio, nearField, farField, near);
    DepthOfNearAndFarPlanes(f, aspectRatio, nearField, farField, far);
    if nearField < p.z {
      DepthIsMonotonic(f, aspectRatio, nearField, farField, near, p);
    }
    if p.z < farField {
      DepthIsMonotonic(f, aspectRatio, nearField, farField, p, far);
    }
    DepthOfNearAndFarPlanes(f, aspectRatio, nearField, farField, p);
  }

  /** A non-zero factor cancels from both sides of an equation. */
  lemma CancelNonZero(a: real, b: real, k: real)
    requires k != 0.0 && a * k == b * k
    ensures a == b
  {
    assert (a - b) * k == 0.0;
  }

  /** For `k > 0`, `k / x` strictly decreases on the positive reals. */
  lemma ReciprocalDecreases(k: real, x: real, y: real)
    requires k > 0.0 && 0.0 < x < y
    ensures k / y < k / x
  {
    assert k / x - k / y == k * (y - x) / (x * y);
    assert k * (y - x) > 0.0;
    assert x * y > 0.0;
  }
}
