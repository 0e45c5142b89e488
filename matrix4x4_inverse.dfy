/**
 * Correctness of `Matrix4x4::inverse`. The source builds the inverse from
 * the four block vectors `s`, `t`, `u`, `v` of the upper columns and row 3,
 * tests the block determinant `s . v + t . u`, and scales the blocks by
 * `one() / det`. The rows it assembles from the unscaled blocks are the
 * adjugate; this module proves that the block determinant is the cofactor
 * determinant, that `m * adj(m) == adj(m) * m == det(m) * I`, and from those
 * when `inverse` returns `None` and when its result is a two-sided inverse.
 *
 * The polynomial identities are stated entry by entry over the components of
 * the upper columns and of row 3, so that each proof obligation stays small.
 */
module Mat4Inverse {
  import Number
  import Vec3
  import Vec4
  import opened Mat4

  lemma UpperColumns(m: Matrix4x4)
    ensures UpperColumn(m, 0) == Vec3.Vector3(m.r0.x, m.r1.x, m.r2.x)
    ensures UpperColumn(m, 1) == Vec3.Vector3(m.r0.y, m.r1.y, m.r2.y)
    ensures UpperColumn(m, 2) == Vec3.Vector3(m.r0.z, m.r1.z, m.r2.z)
    ensures UpperColumn(m, 3) == Vec3.Vector3(m.r0.w, m.r1.w, m.r2.w)
  {
  }

  // ---------------------------------------------------------------------
  // Expansions of the block formulas over the upper columns c0..c3 and row 3
  // (x, y, z, w), each entry a polynomial in their components.

  lemma ExpandedBlockDeterminant(c0: Vec3.Vector3, c1: Vec3.Vector3, c2: Vec3.Vector3, c3: Vec3.Vector3, x: real, y: real, z: real, w: real)
    ensures
      var c0x, c0y, c0z := c0.x, c0.y, c0.z;
      var c1x, c1y, c1z := c1.x, c1.y, c1.z;
      var c2x, c2y, c2z := c2.x, c2.y, c2.z;
      var c3x, c3y, c3z := c3.x, c3.y, c3.z;
      var sx, sy, sz := c0y*c1z - c0z*c1y, c0z*c1x - c0x*c1z, c0x*c1y - c0y*c1x;
      var tx, ty, tz := c2y*c3z - c2z*c3y, c2z*c3x - c2x*c3z, c2x*c3y - c2y*c3x;
      var ux, uy, uz := c0x*y - c1x*x, c0y*y - c1y*x, c0z*y - c1z*x;
      var vx, vy, vz := c2x*w - c3x*z, c2y*w - c3y*z, c2z*w - c3z*z;
      Vec3.Dot(Vec3.Cross(c0, c1), Vec3.Sub(Vec3.Scale(c2, w), Vec3.Scale(c3, z))) + Vec3.Dot(Vec3.Cross(c2, c3), Vec3.Sub(Vec3.Scale(c0, y), Vec3.Scale(c1, x))) == sx*vx + sy*vy + sz*vz + tx*ux + ty*uy + tz*uz
  {
  }

  lemma ExpandedInverseRow0X(c0: Vec3.Vector3, c1: Vec3.Vector3, c2: Vec3.Vector3, c3: Vec3.Vector3, x: real, y: real, z: real, w: real)
    ensures
      var c0x, c0y, c0z := c0.x, c0.y, c0.z;
      var c1x, c1y, c1z := c1.x, c1.y, c1.z;
      var c2x, c2y, c2z := c2.x, c2.y, c2.z;
      var c3x, c3y, c3z := c3.x, c3.y, c3.z;
      var sx, sy, sz := c0y*c1z - c0z*c1y, c0z*c1x - c0x*c1z, c0x*c1y - c0y*c1x;
      var tx, ty, tz := c2y*c3z - c2z*c3y, c2z*c3x - c2x*c3z, c2x*c3y - c2y*c3x;
      var ux, uy, uz := c0x*y - c1x*x, c0y*y - c1y*x, c0z*y - c1z*x;
      var vx, vy, vz := c2x*w - c3x*z, c2y*w - c3y*z, c2z*w - c3z*z;
      Vec3.Add(Vec3.Cross(c1, Vec3.Sub(Vec3.Scale(c2, w), Vec3.Scale(c3, z))), Vec3.Scale(Vec3.Cross(c2, c3), y)).x == c1y*vz - c1z*vy + tx*y
  {
  }

  lemma ExpandedInverseRow0Y(c0: Vec3.Vector3, c1: Vec3.Vector3, c2: Vec3.Vector3, c3: Vec3.Vector3, x: real, y: real, z: real, w: real)
    ensures
      var c0x, c0y, c0z := c0.x, c0.y, c0.z;
      var c1x, c1y, c1z := c1.x, c1.y, c1.z;
      var c2x, c2y, c2z := c2.x, c2.y, c2.z;
      var c3x, c3y, c3z := c3.x, c3.y, c3.z;
      var sx, sy, sz := c0y*c1z - c0z*c1y, c0z*c1x - c0x*c1z, c0x*c1y - c0y*c1x;
      var tx, ty, tz := c2y*c3z - c2z*c3y, c2z*c3x - c2x*c3z, c2x*c3y - c2y*c3x;
      var ux, uy, uz := c0x*y - c1x*x, c0y*y - c1y*x, c0z*y - c1z*x;
      var vx, vy, vz := c2x*w - c3x*z, c2y*w - c3y*z, c2z*w - c3z*z;
      Vec3.Add(Vec3.Cross(c1, Vec3.Sub(Vec3.Scale(c2, w), Vec3.Scale(c3, z))), Vec3.Scale(Vec3.Cross(c2, c3), y)).y == c1z*vx - c1x*vz + ty*y
  {
  }

  lemma ExpandedInverseRow0Z(c0: Vec3.Vector3, c1: Vec3.Vector3, c2: Vec3.Vector3, c3: Vec3.Vector3, x: real, y: real, z: real, w: real)
    ensures
      var c0x, c0y, c0z := c0.x, c0.y, c0.z;
      var c1x, c1y, c1z := c1.x, c1.y, c1.z;
      var c2x, c2y, c2z := c2.x, c2.y, c2.z;
      var c3x, c3y, c3z := c3.x, c3.y, c3.z;
      var sx, sy, sz := c0y*c1z - c0z*c1y, c0z*c1x - c0x*c1z, c0x*c1y - c0y*c1x;
      var tx, ty, tz := c2y*c3z - c2z*c3y, c2z*c3x - c2x*c3z, c2x*c3y - c2y*c3x;
      var ux, uy, uz := c0x*y - c1x*x, c0y*y - c1y*x, c0z*y - c1z*x;
      var vx, vy, vz := c2x*w - c3x*z, c2y*w - c3y*z, c2z*w - c3z*z;
      Vec3.Add(Vec3.Cross(c1, Vec3.Sub(Vec3.Scale(c2, w), Vec3.Scale(c3, z))), Vec3.Scale(Vec3.Cross(c2, c3), y)).z == c1x*vy - c1y*vx + tz*y
  {
  }

  lemma ExpandedInverseRow0W(c0: Vec3.Vector3, c1: Vec3.Vector3, c2: Vec3.Vector3, c3: Vec3.Vector3, x: real, y: real, z: real, w: real)
    ensures
      var c0x, c0y, c0z := c0.x, c0.y, c0.z;
      var c1x, c1y, c1z := c1.x, c1.y, c1.z;
      var c2x, c2y, c2z := c2.x, c2.y, c2.z;
      var c3x, c3y, c3z := c3.x, c3.y, c3.z;
      var sx, sy, sz := c0y*c1z - c0z*c1y, c0z*c1x - c0x*c1z, c0x*c1y - c0y*c1x;
      var tx, ty, tz := c2y*c3z - c2z*c3y, c2z*c3x - c2x*c3z, c2x*c3y - c2y*c3x;
      var ux, uy, uz := c0x*y - c1x*x, c0y*y - c1y*x, c0z*y - c1z*x;
      var vx, vy, vz := c2x*w - c3x*z, c2y*w - c3y*z, c2z*w - c3z*z;
      -Vec3.Dot(c1, Vec3.Cross(c2, c3)) == -(c1x*tx + c1y*ty + c1z*tz)
  {
  }

  lemma ExpandedInverseRow1X(c0: Vec3.Vector3, c1: Vec3.Vector3, c2: Vec3.Vector3, c3: Vec3.Vector3, x: real, y: real, z: real, w: real)
    ensures
      var c0x, c0y, c0z := c0.x, c0.y, c0.z;
      var c1x, c1y, c1z := c1.x, c1.y, c1.z;
      var c2x, c2y, c2z := c2.x, c2.y, c2.z;
      var c3x, c3y, c3z := c3.x, c3.y, c3.z;
      var sx, sy, sz := c0y*c1z - c0z*c1y, c0z*c1x - c0x*c1z, c0x*c1y - c0y*c1x;
      var tx, ty, tz := c2y*c3z - c2z*c3y, c2z*c3x - c2x*c3z, c2x*c3y - c2y*c3x;
      var ux, uy, uz := c0x*y - c1x*x, c0y*y - c1y*x, c0z*y - c1z*x;
      var vx, vy, vz := c2x*w - c3x*z, c2y*w - c3y*z, c2z*w - c3z*z;
      Vec3.Sub(Vec3.Cross(Vec3.Sub(Vec3.Scale(c2, w), Vec3.Scale(c3, z)), c0), Vec3.Scale(Vec3.Cross(c2, c3), x)).x == vy*c0z - vz*c0y - tx*x
  {
  }

  lemma ExpandedInverseRow1Y(c0: Vec3.Vector3, c1: Vec3.Vector3, c2: Vec3.Vector3, c3: Vec3.Vector3, x: real, y: real, z: real, w: real)
    ensures
      var c0x, c0y, c0z := c0.x, c0.y, c0.z;
      var c1x, c1y, c1z := c1.x, c1.y, c1.z;
      var c2x, c2y, c2z := c2.x, c2.y, c2.z;
      var c3x, c3y, c3z := c3.x, c3.y, c3.z;
      var sx, sy, sz := c0y*c1z - c0z*c1y, c0z*c1x - c0x*c1z, c0x*c1y - c0y*c1x;
      var tx, ty, tz := c2y*c3z - c2z*c3y, c2z*c3x - c2x*c3z, c2x*c3y - c2y*c3x;
      var ux, uy, uz := c0x*y - c1x*x, c0y*y - c1y*x, c0z*y - c1z*x;
      var vx, vy, vz := c2x*w - c3x*z, c2y*w - c3y*z, c2z*w - c3z*z;
      Vec3.Sub(Vec3.Cross(Vec3.Sub(Vec3.Scale(c2, w), Vec3.Scale(c3, z)), c0), Vec3.Scale(Vec3.Cross(c2, c3), x)).y == vz*c0x - vx*c0z - ty*x
  {
  }

  lemma ExpandedInverseRow1Z(c0: Vec3.Vector3, c1: Vec3.Vector3, c2: Vec3.Vector3, c3: Vec3.Vector3, x: real, y: real, z: real, w: real)
    ensures
      var c0x, c0y, c0z := c0.x, c0.y, c0.z;
      var c1x, c1y, c1z := c1.x, c1.y, c1.z;
      var c2x, c2y, c2z := c2.x, c2.y, c2.z;
      var c3x, c3y, c3z := c3.x, c3.y, c3.z;
      var sx, sy, sz := c0y*c1z - c0z*c1y, c0z*c1x - c0x*c1z, c0x*c1y - c0y*c1x;
      var tx, ty, tz := c2y*c3z - c2z*c3y, c2z*c3x - c2x*c3z, c2x*c3y - c2y*c3x;
      var ux, uy, uz := c0x*y - c1x*x, c0y*y - c1y*x, c0z*y - c1z*x;
      var vx, vy, vz := c2x*w - c3x*z, c2y*w - c3y*z, c2z*w - c3z*z;
      Vec3.Sub(Vec3.Cross(Vec3.Sub(Vec3.Scale(c2, w), Vec3.Scale(c3, z)), c0), Vec3.Scale(Vec3.Cross(c2, c3), x)).z == vx*c0y - vy*c0x - tz*x
  {
  }

  lemma ExpandedInverseRow1W(c0: Vec3.Vector3, c1: Vec3.Vector3, c2: Vec3.Vector3, c3: Vec3.Vector3, x: real, y: real, z: real, w: real)
    ensures
      var c0x, c0y, c0z := c0.x, c0.y, c0.z;
      var c1x, c1y, c1z := c1.x, c1.y, c1.z;
      var c2x, c2y, c2z := c2.x, c2.y, c2.z;
      var c3x, c3y, c3z := c3.x, c3.y, c3.z;
      var sx, sy, sz := c0y*c1z - c0z*c1y, c0z*c1x - c0x*c1z, c0x*c1y - c0y*c1x;
      var tx, ty, tz := c2y*c3z - c2z*c3y, c2z*c3x - c2x*c3z, c2x*c3y - c2y*c3x;
      var ux, uy, uz := c0x*y - c1x*x, c0y*y - c1y*x, c0z*y - c1z*x;
      var vx, vy, vz := c2x*w - c3x*z, c2y*w - c3y*z, c2z*w - c3z*z;
      Vec3.Dot(c0, Vec3.Cross(c2, c3)) == c0x*tx + c0y*ty + c0z*tz
  {
  }

  lemma ExpandedInverseRow2X(c0: Vec3.Vector3, c1: Vec3.Vector3, c2: Vec3.Vector3, c3: Vec3.Vector3, x: real, y: real, z: real, w: real)
    ensures
      var c0x, c0y, c0z := c0.x, c0.y, c0.z;
      var c1x, c1y, c1z := c1.x, c1.y, c1.z;
      var c2x, c2y, c2z := c2.x, c2.y, c2.z;
      var c3x, c3y, c3z := c3.x, c3.y, c3.z;
      var sx, sy, sz := c0y*c1z - c0z*c1y, c0z*c1x - c0x*c1z, c0x*c1y - c0y*c1x;
      var tx, ty, tz := c2y*c3z - c2z*c3y, c2z*c3x - c2x*c3z, c2x*c3y - c2y*c3x;
      var ux, uy, uz := c0x*y - c1x*x, c0y*y - c1y*x, c0z*y - c1z*x;
      var vx, vy, vz := c2x*w - c3x*z, c2y*w - c3y*z, c2z*w - c3z*z;
      Vec3.Add(Vec3.Cross(c3, Vec3.Sub(Vec3.Scale(c0, y), Vec3.Scale(c1, x))), Vec3.Scale(Vec3.Cross(c0, c1), w)).x == c3y*uz - c3z*uy + sx*w
  {
  }

  lemma ExpandedInverseRow2Y(c0: Vec3.Vector3, c1: Vec3.Vector3, c2: Vec3.Vector3, c3: Vec3.Vector3, x: real, y: real, z: real, w: real)
    ensures
      var c0x, c0y, c0z := c0.x, c0.y, c0.z;
      var c1x, c1y, c1z := c1.x, c1.y, c1.z;
      var c2x, c2y, c2z := c2.x, c2.y, c2.z;
      var c3x, c3y, c3z := c3.x, c3.y, c3.z;
      var sx, sy, sz := c0y*c1z - c0z*c1y, c0z*c1x - c0x*c1z, c0x*c1y - c0y*c1x;
      var tx, ty, tz := c2y*c3z - c2z*c3y, c2z*c3x - c2x*c3z, c2x*c3y - c2y*c3x;
      var ux, uy, uz := c0x*y - c1x*x, c0y*y - c1y*x, c0z*y - c1z*x;
      var vx, vy, vz := c2x*w - c3x*z, c2y*w - c3y*z, c2z*w - c3z*z;
      Vec3.Add(Vec3.Cross(c3, Vec3.Sub(Vec3.Scale(c0, y), Vec3.Scale(c1, x))), Vec3.Scale(Vec3.Cross(c0, c1), w)).y == c3z*ux - c3x*uz + sy*w
  {
  }

  lemma ExpandedInverseRow2Z(c0: Vec3.Vector3, c1: Vec3.Vector3, c2: Vec3.Vector3, c3: Vec3.Vector3, x: real, y: real, z: real, w: real)
    ensures
      var c0x, c0y, c0z := c0.x, c0.y, c0.z;
      var c1x, c1y, c1z := c1.x, c1.y, c1.z;
      var c2x, c2y, c2z := c2.x, c2.y, c2.z;
      var c3x, c3y, c3z := c3.x, c3.y, c3.z;
      var sx, sy, sz := c0y*c1z - c0z*c1y, c0z*c1x - c0x*c1z, c0x*c1y - c0y*c1x;
      var tx, ty, tz := c2y*c3z - c2z*c3y, c2z*c3x - c2x*c3z, c2x*c3y - c2y*c3x;
      var ux, uy, uz := c0x*y - c1x*x, c0y*y - c1y*x, c0z*y - c1z*x;
      var vx, vy, vz := c2x*w - c3x*z, c2y*w - c3y*z, c2z*w - c3z*z;
      Vec3.Add(Vec3.Cross(c3, Vec3.Sub(Vec3.Scale(c0, y), Vec3.Scale(c1, x))), Vec3.Scale(Vec3.Cross(c0, c1), w)).z == c3x*uy - c3y*ux + sz*w
  {
  }

  lemma ExpandedInverseRow2W(c0: Vec3.Vector3, c1: Vec3.Vector3, c2: Vec3.Vector3, c3: Vec3.Vector3, x: real, y: real, z: real, w: real)
    ensures
      var c0x, c0y, c0z := c0.x, c0.y, c0.z;
      var c1x, c1y, c1z := c1.x, c1.y, c1.z;
      var c2x, c2y, c2z := c2.x, c2.y, c2.z;
      var c3x, c3y, c3z := c3.x, c3.y, c3.z;
      var sx, sy, sz := c0y*c1z - c0z*c1y, c0z*c1x - c0x*c1z, c0x*c1y - c0y*c1x;
      var tx, ty, tz := c2y*c3z - c2z*c3y, c2z*c3x - c2x*c3z, c2x*c3y - c2y*c3x;
      var ux, uy, uz := c0x*y - c1x*x, c0y*y - c1y*x, c0z*y - c1z*x;
      var vx, vy, vz := c2x*w - c3x*z, c2y*w - c3y*z, c2z*w - c3z*z;
      -Vec3.Dot(c3, Vec3.Cross(c0, c1)) == -(c3x*sx + c3y*sy + c3z*sz)
  {
  }

  lemma ExpandedInverseRow3X(c0: Vec3.Vector3, c1: Vec3.Vector3, c2: Vec3.Vector3, c3: Vec3.Vector3, x: real, y: real, z: real, w: real)
    ensures
      var c0x, c0y, c0z := c0.x, c0.y, c0.z;
      var c1x, c1y, c1z := c1.x, c1.y, c1.z;
      var c2x, c2y, c2z := c2.x, c2.y, c2.z;
      var c3x, c3y, c3z := c3.x, c3.y, c3.z;
      var sx, sy, sz := c0y*c1z - c0z*c1y, c0z*c1x - c0x*c1z, c0x*c1y - c0y*c1x;
      var tx, ty, tz := c2y*c3z - c2z*c3y, c2z*c3x - c2x*c3z, c2x*c3y - c2y*c3x;
      var ux, uy, uz := c0x*y - c1x*x, c0y*y - c1y*x, c0z*y - c1z*x;
      var vx, vy, vz := c2x*w - c3x*z, c2y*w - c3y*z, c2z*w - c3z*z;
      Vec3.Sub(Vec3.Cross(Vec3.Sub(Vec3.Scale(c0, y), Vec3.Scale(c1, x)), c2), Vec3.Scale(Vec3.Cross(c0, c1), z)).x == uy*c2z - uz*c2y - sx*z
  {
  }

  lemma ExpandedInverseRow3Y(c0: Vec3.Vector3, c1: Vec3.Vector3, c2: Vec3.Vector3, c3: Vec3.Vector3, x: real, y: real, z: real, w: real)
    ensures
      var c0x, c0y, c0z := c0.x, c0.y, c0.z;
      var c1x, c1y, c1z := c1.x, c1.y, c1.z;
      var c2x, c2y, c2z := c2.x, c2.y, c2.z;
      var c3x, c3y, c3z := c3.x, c3.y, c3.z;
      var sx, sy, sz := c0y*c1z - c0z*c1y, c0z*c1x - c0x*c1z, c0x*c1y - c0y*c1x;
      var tx, ty, tz := c2y*c3z - c2z*c3y, c2z*c3x - c2x*c3z, c2x*c3y - c2y*c3x;
      var ux, uy, uz := c0x*y - c1x*x, c0y*y - c1y*x, c0z*y - c1z*x;
      var vx, vy, vz := c2x*w - c3x*z, c2y*w - c3y*z, c2z*w - c3z*z;
      Vec3.Sub(Vec3.Cross(Vec3.Sub(Vec3.Scale(c0, y), Vec3.Scale(c1, x)), c2), Vec3.Scale(Vec3.Cross(c0, c1), z)).y == uz*c2x - ux*c2z - sy*z
  {
  }

  lemma ExpandedInverseRow3Z(c0: Vec3.Vector3, c1: Vec3.Vector3, c2: Vec3.Vector3, c3: Vec3.Vector3, x: real, y: real, z: real, w: real)
    ensures
      var c0x, c0y, c0z := c0.x, c0.y, c0.z;
      var c1x, c1y, c1z := c1.x, c1.y, c1.z;
      var c2x, c2y, c2z := c2.x, c2.y, c2.z;
      var c3x, c3y, c3z := c3.x, c3.y, c3.z;
      var sx, sy, sz := c0y*c1z - c0z*c1y, c0z*c1x - c0x*c1z, c0x*c1y - c0y*c1x;
      var tx, ty, tz := c2y*c3z - c2z*c3y, c2z*c3x - c2x*c3z, c2x*c3y - c2y*c3x;
      var ux, uy, uz := c0x*y - c1x*x, c0y*y - c1y*x, c0z*y - c1z*x;
      var vx, vy, vz := c2x*w - c3x*z, c2y*w - c3y*z, c2z*w - c3z*z;
      Vec3.Sub(Vec3.Cross(Vec3.Sub(Vec3.Scale(c0, y), Vec3.Scale(c1, x)), c2), Vec3.Scale(Vec3.Cross(c0, c1), z)).z == ux*c2y - uy*c2x - sz*z
  {
  }

  lemma ExpandedInverseRow3W(c0: Vec3.Vector3, c1: Vec3.Vector3, c2: Vec3.Vector3, c3: Vec3.Vector3, x: real, y: real, z: real, w: real)
    ensures
      var c0x, c0y, c0z := c0.x, c0.y, c0.z;
      var c1x, c1y, c1z := c1.x, c1.y, c1.z;
      var c2x, c2y, c2z := c2.x, c2.y, c2.z;
      var c3x, c3y, c3z := c3.x, c3.y, c3.z;
      var sx, sy, sz := c0y*c1z - c0z*c1y, c0z*c1x - c0x*c1z, c0x*c1y - c0y*c1x;
      var tx, ty, tz := c2y*c3z - c2z*c3y, c2z*c3x - c2x*c3z, c2x*c3y - c2y*c3x;
      var ux, uy, uz := c0x*y - c1x*x, c0y*y - c1y*x, c0z*y - c1z*x;
      var vx, vy, vz := c2x*w - c3x*z, c2y*w - c3y*z, c2z*w - c3z*z;
      Vec3.Dot(c2, Vec3.Cross(c0, c1)) == c2x*sx + c2y*sy + c2z*sz
  {
  }

  // ---------------------------------------------------------------------
  // The same polynomials in the entries of a matrix.

  /** The block determinant as a polynomial in the entries of `m`. */
  lemma BlockDeterminantPolynomial(m: Matrix4x4)
    ensures
      var c0x, c0y, c0z := m.r0.x, m.r1.x, m.r2.x;
      var c1x, c1y, c1z := m.r0.y, m.r1.y, m.r2.y;
      var c2x, c2y, c2z := m.r0.z, m.r1.z, m.r2.z;
      var c3x, c3y, c3z := m.r0.w, m.r1.w, m.r2.w;
      var x, y, z, w := m.r3.x, m.r3.y, m.r3.z, m.r3.w;
      var sx, sy, sz := c0y*c1z - c0z*c1y, c0z*c1x - c0x*c1z, c0x*c1y - c0y*c1x;
      var tx, ty, tz := c2y*c3z - c2z*c3y, c2z*c3x - c2x*c3z, c2x*c3y - c2y*c3x;
      var ux, uy, uz := c0x*y - c1x*x, c0y*y - c1y*x, c0z*y - c1z*x;
      var vx, vy, vz := c2x*w - c3x*z, c2y*w - c3y*z, c2z*w - c3z*z;
      BlockDeterminant(m) == sx*vx + sy*vy + sz*vz + tx*ux + ty*uy + tz*uz
  {
    UpperColumns(m);
    ExpandedBlockDeterminant(Vec3.Vector3(m.r0.x, m.r1.x, m.r2.x), Vec3.Vector3(m.r0.y, m.r1.y, m.r2.y), Vec3.Vector3(m.r0.z, m.r1.z, m.r2.z), Vec3.Vector3(m.r0.w, m.r1.w, m.r2.w), m.r3.x, m.r3.y, m.r3.z, m.r3.w);
  }

  /** The cofactor determinant is the same polynomial. */
  lemma DeterminantPolynomial(m: Matrix4x4)
    ensures
      var c0x, c0y, c0z := m.r0.x, m.r1.x, m.r2.x;
      var c1x, c1y, c1z := m.r0.y, m.r1.y, m.r2.y;
      var c2x, c2y, c2z := m.r0.z, m.r1.z, m.r2.z;
      var c3x, c3y, c3z := m.r0.w, m.r1.w, m.r2.w;
      var x, y, z, w := m.r3.x, m.r3.y, m.r3.z, m.r3.w;
      var sx, sy, sz := c0y*c1z - c0z*c1y, c0z*c1x - c0x*c1z, c0x*c1y - c0y*c1x;
      var tx, ty, tz := c2y*c3z - c2z*c3y, c2z*c3x - c2x*c3z, c2x*c3y - c2y*c3x;
      var ux, uy, uz := c0x*y - c1x*x, c0y*y - c1y*x, c0z*y - c1z*x;
      var vx, vy, vz := c2x*w - c3x*z, c2y*w - c3y*z, c2z*w - c3z*z;
      Determinant(m) == sx*vx + sy*vy + sz*vz + tx*ux + ty*uy + tz*uz
  {
  }

  lemma AdjugateEntry00(m: Matrix4x4)
    ensures
      var c0x, c0y, c0z := m.r0.x, m.r1.x, m.r2.x;
      var c1x, c1y, c1z := m.r0.y, m.r1.y, m.r2.y;
      var c2x, c2y, c2z := m.r0.z, m.r1.z, m.r2.z;
      var c3x, c3y, c3z := m.r0.w, m.r1.w, m.r2.w;
      var x, y, z, w := m.r3.x, m.r3.y, m.r3.z, m.r3.w;
      var sx, sy, sz := c0y*c1z - c0z*c1y, c0z*c1x - c0x*c1z, c0x*c1y - c0y*c1x;
      var tx, ty, tz := c2y*c3z - c2z*c3y, c2z*c3x - c2x*c3z, c2x*c3y - c2y*c3x;
      var ux, uy, uz := c0x*y - c1x*x, c0y*y - c1y*x, c0z*y - c1z*x;
      var vx, vy, vz := c2x*w - c3x*z, c2y*w - c3y*z, c2z*w - c3z*z;
      Adjugate(m).r0.x == c1y*vz - c1z*vy + tx*y
  {
    UpperColumns(m);
    var c0, c1, c2, c3 := UpperColumn(m, 0), UpperColumn(m, 1), UpperColumn(m, 2), UpperColumn(m, 3);
    var b := BlockVectors(m);
    assert b == Blocks(Vec3.Cross(c0, c1), Vec3.Cross(c2, c3), Vec3.Sub(Vec3.Scale(c0, m.r3.y), Vec3.Scale(c1, m.r3.x)),
                       Vec3.Sub(Vec3.Scale(c2, m.r3.w), Vec3.Scale(c3, m.r3.z)));
    assert Adjugate(m).r0.x == Vec3.Add(Vec3.Cross(c1, b.v), Vec3.Scale(b.t, m.r3.y)).x;
    ExpandedInverseRow0X(Vec3.Vector3(m.r0.x, m.r1.x, m.r2.x), Vec3.Vector3(m.r0.y, m.r1.y, m.r2.y), Vec3.Vector3(m.r0.z, m.r1.z, m.r2.z), Vec3.Vector3(m.r0.w, m.r1.w, m.r2.w), m.r3.x, m.r3.y, m.r3.z, m.r3.w);
  }

  lemma AdjugateEntry01(m: Matrix4x4)
    ensures
      var c0x, c0y, c0z := m.r0.x, m.r1.x, m.r2.x;
      var c1x, c1y, c1z := m.r0.y, m.r1.y, m.r2.y;
      var c2x, c2y, c2z := m.r0.z, m.r1.z, m.r2.z;
      var c3x, c3y, c3z := m.r0.w, m.r1.w, m.r2.w;
      var x, y, z, w := m.r3.x, m.r3.y, m.r3.z, m.r3.w;
      var sx, sy, sz := c0y*c1z - c0z*c1y, c0z*c1x - c0x*c1z, c0x*c1y - c0y*c1x;
      var tx, ty, tz := c2y*c3z - c2z*c3y, c2z*c3x - c2x*c3z, c2x*c3y - c2y*c3x;
      var ux, uy, uz := c0x*y - c1x*x, c0y*y - c1y*x, c0z*y - c1z*x;
      var vx, vy, vz := c2x*w - c3x*z, c2y*w - c3y*z, c2z*w - c3z*z;
      Adjugate(m).r0.y == c1z*vx - c1x*vz + ty*y
  {
    UpperColumns(m);
    var c0, c1, c2, c3 := UpperColumn(m, 0), UpperColumn(m, 1), UpperColumn(m, 2), UpperColumn(m, 3);
    var b := BlockVectors(m);
    assert b == Blocks(Vec3.Cross(c0, c1), Vec3.Cross(c2, c3), Vec3.Sub(Vec3.Scale(c0, m.r3.y), Vec3.Scale(c1, m.r3.x)),
                       Vec3.Sub(Vec3.Scale(c2, m.r3.w), Vec3.Scale(c3, m.r3.z)));
    assert Adjugate(m).r0.y == Vec3.Add(Vec3.Cross(c1, b.v), Vec3.Scale(b.t, m.r3.y)).y;
    ExpandedInverseRow0Y(Vec3.Vector3(m.r0.x, m.r1.x, m.r2.x), Vec3.Vector3(m.r0.y, m.r1.y, m.r2.y), Vec3.Vector3(m.r0.z, m.r1.z, m.r2.z), Vec3.Vector3(m.r0.w, m.r1.w, m.r2.w), m.r3.x, m.r3.y, m.r3.z, m.r3.w);
  }

  lemma AdjugateEntry02(m: Matrix4x4)
    ensures
      var c0x, c0y, c0z := m.r0.x, m.r1.x, m.r2.x;
      var c1x, c1y, c1z := m.r0.y, m.r1.y, m.r2.y;
      var c2x, c2y, c2z := m.r0.z, m.r1.z, m.r2.z;
      var c3x, c3y, c3z := m.r0.w, m.r1.w, m.r2.w;
      var x, y, z, w := m.r3.x, m.r3.y, m.r3.z, m.r3.w;
      var sx, sy, sz := c0y*c1z - c0z*c1y, c0z*c1x - c0x*c1z, c0x*c1y - c0y*c1x;
      var tx, ty, tz := c2y*c3z - c2z*c3y, c2z*c3x - c2x*c3z, c2x*c3y - c2y*c3x;
      var ux, uy, uz := c0x*y - c1x*x, c0y*y - c1y*x, c0z*y - c1z*x;
      var vx, vy, vz := c2x*w - c3x*z, c2y*w - c3y*z, c2z*w - c3z*z;
      Adjugate(m).r0.z == c1x*vy - c1y*vx + tz*y
  {
    UpperColumns(m);
    var c0, c1, c2, c3 := UpperColumn(m, 0), UpperColumn(m, 1), UpperColumn(m, 2), UpperColumn(m, 3);
    var b := BlockVectors(m);
    assert b == Blocks(Vec3.Cross(c0, c1), Vec3.Cross(c2, c3), Vec3.Sub(Vec3.Scale(c0, m.r3.y), Vec3.Scale(c1, m.r3.x)),
                       Vec3.Sub(Vec3.Scale(c2, m.r3.w), Vec3.Scale(c3, m.r3.z)));
    assert Adjugate(m).r0.z == Vec3.Add(Vec3.Cross(c1, b.v), Vec3.Scale(b.t, m.r3.y)).z;
    ExpandedInverseRow0Z(Vec3.Vector3(m.r0.x, m.r1.x, m.r2.x), Vec3.Vector3(m.r0.y, m.r1.y, m.r2.y), Vec3.Vector3(m.r0.z, m.r1.z, m.r2.z), Vec3.Vector3(m.r0.w, m.r1.w, m.r2.w), m.r3.x, m.r3.y, m.r3.z, m.r3.w);
  }

  lemma AdjugateEntry03(m: Matrix4x4)
    ensures
      var c0x, c0y, c0z := m.r0.x, m.r1.x, m.r2.x;
      var c1x, c1y, c1z := m.r0.y, m.r1.y, m.r2.y;
      var c2x, c2y, c2z := m.r0.z, m.r1.z, m.r2.z;
      var c3x, c3y, c3z := m.r0.w, m.r1.w, m.r2.w;
      var x, y, z, w := m.r3.x, m.r3.y, m.r3.z, m.r3.w;
      var sx, sy, sz := c0y*c1z - c0z*c1y, c0z*c1x - c0x*c1z, c0x*c1y - c0y*c1x;
      var tx, ty, tz := c2y*c3z - c2z*c3y, c2z*c3x - c2x*c3z, c2x*c3y - c2y*c3x;
      var ux, uy, uz := c0x*y - c1x*x, c0y*y - c1y*x, c0z*y - c1z*x;
      var vx, vy, vz := c2x*w - c3x*z, c2y*w - c3y*z, c2z*w - c3z*z;
      Adjugate(m).r0.w == -(c1x*tx + c1y*ty + c1z*tz)
  {
    UpperColumns(m);
    var c0, c1, c2, c3 := UpperColumn(m, 0), UpperColumn(m, 1), UpperColumn(m, 2), UpperColumn(m, 3);
    var b := BlockVectors(m);
    assert b == Blocks(Vec3.Cross(c0, c1), Vec3.Cross(c2, c3), Vec3.Sub(Vec3.Scale(c0, m.r3.y), Vec3.Scale(c1, m.r3.x)),
                       Vec3.Sub(Vec3.Scale(c2, m.r3.w), Vec3.Scale(c3, m.r3.z)));
    assert Adjugate(m).r0.w == -Vec3.Dot(c1, b.t);
    ExpandedInverseRow0W(Vec3.Vector3(m.r0.x, m.r1.x, m.r2.x), Vec3.Vector3(m.r0.y, m.r1.y, m.r2.y), Vec3.Vector3(m.r0.z, m.r1.z, m.r2.z), Vec3.Vector3(m.r0.w, m.r1.w, m.r2.w), m.r3.x, m.r3.y, m.r3.z, m.r3.w);
  }

  lemma AdjugateEntry10(m: Matrix4x4)
    ensures
      var c0x, c0y, c0z := m.r0.x, m.r1.x, m.r2.x;
      var c1x, c1y, c1z := m.r0.y, m.r1.y, m.r2.y;
      var c2x, c2y, c2z := m.r0.z, m.r1.z, m.r2.z;
      var c3x, c3y, c3z := m.r0.w, m.r1.w, m.r2.w;
      var x, y, z, w := m.r3.x, m.r3.y, m.r3.z, m.r3.w;
      var sx, sy, sz := c0y*c1z - c0z*c1y, c0z*c1x - c0x*c1z, c0x*c1y - c0y*c1x;
      var tx, ty, tz := c2y*c3z - c2z*c3y, c2z*c3x - c2x*c3z, c2x*c3y - c2y*c3x;
      var ux, uy, uz := c0x*y - c1x*x, c0y*y - c1y*x, c0z*y - c1z*x;
      var vx, vy, vz := c2x*w - c3x*z, c2y*w - c3y*z, c2z*w - c3z*z;
      Adjugate(m).r1.x == vy*c0z - vz*c0y - tx*x
  {
    UpperColumns(m);
    var c0, c1, c2, c3 := UpperColumn(m, 0), UpperColumn(m, 1), UpperColumn(m, 2), UpperColumn(m, 3);
    var b := BlockVectors(m);
    assert b == Blocks(Vec3.Cross(c0, c1), Vec3.Cross(c2, c3), Vec3.Sub(Vec3.Scale(c0, m.r3.y), Vec3.Scale(c1, m.r3.x)),
                       Vec3.Sub(Vec3.Scale(c2, m.r3.w), Vec3.Scale(c3, m.r3.z)));
    assert Adjugate(m).r1.x == Vec3.Sub(Vec3.Cross(b.v, c0), Vec3.Scale(b.t, m.r3.x)).x;
    ExpandedInverseRow1X(Vec3.Vector3(m.r0.x, m.r1.x, m.r2.x), Vec3.Vector3(m.r0.y, m.r1.y, m.r2.y), Vec3.Vector3(m.r0.z, m.r1.z, m.r2.z), Vec3.Vector3(m.r0.w, m.r1.w, m.r2.w), m.r3.x, m.r3.y, m.r3.z, m.r3.w);
  }

  lemma AdjugateEntry11(m: Matrix4x4)
    ensures
      var c0x, c0y, c0z := m.r0.x, m.r1.x, m.r2.x;
      var c1x, c1y, c1z := m.r0.y, m.r1.y, m.r2.y;
      var c2x, c2y, c2z := m.r0.z, m.r1.z, m.r2.z;
      var c3x, c3y, c3z := m.r0.w, m.r1.w, m.r2.w;
      var x, y, z, w := m.r3.x, m.r3.y, m.r3.z, m.r3.w;
      var sx, sy, sz := c0y*c1z - c0z*c1y, c0z*c1x - c0x*c1z, c0x*c1y - c0y*c1x;
      var tx, ty, tz := c2y*c3z - c2z*c3y, c2z*c3x - c2x*c3z, c2x*c3y - c2y*c3x;
      var ux, uy, uz := c0x*y - c1x*x, c0y*y - c1y*x, c0z*y - c1z*x;
      var vx, vy, vz := c2x*w - c3x*z, c2y*w - c3y*z, c2z*w - c3z*z;
      Adjugate(m).r1.y == vz*c0x - vx*c0z - ty*x
  {
    UpperColumns(m);
    var c0, c1, c2, c3 := UpperColumn(m, 0), UpperColumn(m, 1), UpperColumn(m, 2), UpperColumn(m, 3);
    var b := BlockVectors(m);
    assert b == Blocks(Vec3.Cross(c0, c1), Vec3.Cross(c2, c3), Vec3.Sub(Vec3.Scale(c0, m.r3.y), Vec3.Scale(c1, m.r3.x)),
                       Vec3.Sub(Vec3.Scale(c2, m.r3.w), Vec3.Scale(c3, m.r3.z)));
    assert Adjugate(m).r1.y == Vec3.Sub(Vec3.Cross(b.v, c0), Vec3.Scale(b.t, m.r3.x)).y;
    ExpandedInverseRow1Y(Vec3.Vector3(m.r0.x, m.r1.x, m.r2.x), Vec3.Vector3(m.r0.y, m.r1.y, m.r2.y), Vec3.Vector3(m.r0.z, m.r1.z, m.r2.z), Vec3.Vector3(m.r0.w, m.r1.w, m.r2.w), m.r3.x, m.r3.y, m.r3.z, m.r3.w);
  }

  lemma AdjugateEntry12(m: Matrix4x4)
    ensures
      var c0x, c0y, c0z := m.r0.x, m.r1.x, m.r2.x;
      var c1x, c1y, c1z := m.r0.y, m.r1.y, m.r2.y;
      var c2x, c2y, c2z := m.r0.z, m.r1.z, m.r2.z;
      var c3x, c3y, c3z := m.r0.w, m.r1.w, m.r2.w;
      var x, y, z, w := m.r3.x, m.r3.y, m.r3.z, m.r3.w;
      var sx, sy, sz := c0y*c1z - c0z*c1y, c0z*c1x - c0x*c1z, c0x*c1y - c0y*c1x;
      var tx, ty, tz := c2y*c3z - c2z*c3y, c2z*c3x - c2x*c3z, c2x*c3y - c2y*c3x;
      var ux, uy, uz := c0x*y - c1x*x, c0y*y - c1y*x, c0z*y - c1z*x;
      var vx, vy, vz := c2x*w - c3x*z, c2y*w - c3y*z, c2z*w - c3z*z;
      Adjugate(m).r1.z == vx*c0y - vy*c0x - tz*x
  {
    UpperColumns(m);
    var c0, c1, c2, c3 := UpperColumn(m, 0), UpperColumn(m, 1), UpperColumn(m, 2), UpperColumn(m, 3);
    var b := BlockVectors(m);
    assert b == Blocks(Vec3.Cross(c0, c1), Vec3.Cross(c2, c3), Vec3.Sub(Vec3.Scale(c0, m.r3.y), Vec3.Scale(c1, m.r3.x)),
                       Vec3.Sub(Vec3.Scale(c2, m.r3.w), Vec3.Scale(c3, m.r3.z)));
    assert Adjugate(m).r1.z == Vec3.Sub(Vec3.Cross(b.v, c0), Vec3.Scale(b.t, m.r3.x)).z;
    ExpandedInverseRow1Z(Vec3.Vector3(m.r0.x, m.r1.x, m.r2.x), Vec3.Vector3(m.r0.y, m.r1.y, m.r2.y), Vec3.Vector3(m.r0.z, m.r1.z, m.r2.z), Vec3.Vector3(m.r0.w, m.r1.w, m.r2.w), m.r3.x, m.r3.y, m.r3.z, m.r3.w);
  }

  lemma AdjugateEntry13(m: Matrix4x4)
    ensures
      var c0x, c0y, c0z := m.r0.x, m.r1.x, m.r2.x;
      var c1x, c1y, c1z := m.r0.y, m.r1.y, m.r2.y;
      var c2x, c2y, c2z := m.r0.z, m.r1.z, m.r2.z;
      var c3x, c3y, c3z := m.r0.w, m.r1.w, m.r2.w;
      var x, y, z, w := m.r3.x, m.r3.y, m.r3.z, m.r3.w;
      var sx, sy, sz := c0y*c1z - c0z*c1y, c0z*c1x - c0x*c1z, c0x*c1y - c0y*c1x;
      var tx, ty, tz := c2y*c3z - c2z*c3y, c2z*c3x - c2x*c3z, c2x*c3y - c2y*c3x;
      var ux, uy, uz := c0x*y - c1x*x, c0y*y - c1y*x, c0z*y - c1z*x;
      var vx, vy, vz := c2x*w - c3x*z, c2y*w - c3y*z, c2z*w - c3z*z;
      Adjugate(m).r1.w == c0x*tx + c0y*ty + c0z*tz
  {
    UpperColumns(m);
    var c0, c1, c2, c3 := UpperColumn(m, 0), UpperColumn(m, 1), UpperColumn(m, 2), UpperColumn(m, 3);
    var b := BlockVectors(m);
    assert b == Blocks(Vec3.Cross(c0, c1), Vec3.Cross(c2, c3), Vec3.Sub(Vec3.Scale(c0, m.r3.y), Vec3.Scale(c1, m.r3.x)),
                       Vec3.Sub(Vec3.Scale(c2, m.r3.w), Vec3.Scale(c3, m.r3.z)));
    assert Adjugate(m).r1.w == Vec3.Dot(c0, b.t);
    ExpandedInverseRow1W(Vec3.Vector3(m.r0.x, m.r1.x, m.r2.x), Vec3.Vector3(m.r0.y, m.r1.y, m.r2.y), Vec3.Vector3(m.r0.z, m.r1.z, m.r2.z), Vec3.Vector3(m.r0.w, m.r1.w, m.r2.w), m.r3.x, m.r3.y, m.r3.z, m.r3.w);
  }

  lemma AdjugateEntry20(m: Matrix4x4)
    ensures
      var c0x, c0y, c0z := m.r0.x, m.r1.x, m.r2.x;
      var c1x, c1y, c1z := m.r0.y, m.r1.y, m.r2.y;
      var c2x, c2y, c2z := m.r0.z, m.r1.z, m.r2.z;
      var c3x, c3y, c3z := m.r0.w, m.r1.w, m.r2.w;
      var x, y, z, w := m.r3.x, m.r3.y, m.r3.z, m.r3.w;
      var sx, sy, sz := c0y*c1z - c0z*c1y, c0z*c1x - c0x*c1z, c0x*c1y - c0y*c1x;
      var tx, ty, tz := c2y*c3z - c2z*c3y, c2z*c3x - c2x*c3z, c2x*c3y - c2y*c3x;
      var ux, uy, uz := c0x*y - c1x*x, c0y*y - c1y*x, c0z*y - c1z*x;
      var vx, vy, vz := c2x*w - c3x*z, c2y*w - c3y*z, c2z*w - c3z*z;
      Adjugate(m).r2.x == c3y*uz - c3z*uy + sx*w
  {
    UpperColumns(m);
    var c0, c1, c2, c3 := UpperColumn(m, 0), UpperColumn(m, 1), UpperColumn(m, 2), UpperColumn(m, 3);
    var b := BlockVectors(m);
    assert b == Blocks(Vec3.Cross(c0, c1), Vec3.Cross(c2, c3), Vec3.Sub(Vec3.Scale(c0, m.r3.y), Vec3.Scale(c1, m.r3.x)),
                       Vec3.Sub(Vec3.Scale(c2, m.r3.w), Vec3.Scale(c3, m.r3.z)));
    assert Adjugate(m).r2.x == Vec3.Add(Vec3.Cross(c3, b.u), Vec3.Scale(b.s, m.r3.w)).x;
    ExpandedInverseRow2X(Vec3.Vector3(m.r0.x, m.r1.x, m.r2.x), Vec3.Vector3(m.r0.y, m.r1.y, m.r2.y), Vec3.Vector3(m.r0.z, m.r1.z, m.r2.z), Vec3.Vector3(m.r0.w, m.r1.w, m.r2.w), m.r3.x, m.r3.y, m.r3.z, m.r3.w);
  }

  lemma AdjugateEntry21(m: Matrix4x4)
    ensures
      var c0x, c0y, c0z := m.r0.x, m.r1.x, m.r2.x;
      var c1x, c1y, c1z := m.r0.y, m.r1.y, m.r2.y;
      var c2x, c2y, c2z := m.r0.z, m.r1.z, m.r2.z;
      var c3x, c3y, c3z := m.r0.w, m.r1.w, m.r2.w;
      var x, y, z, w := m.r3.x, m.r3.y, m.r3.z, m.r3.w;
      var sx, sy, sz := c0y*c1z - c0z*c1y, c0z*c1x - c0x*c1z, c0x*c1y - c0y*c1x;
      var tx, ty, tz := c2y*c3z - c2z*c3y, c2z*c3x - c2x*c3z, c2x*c3y - c2y*c3x;
      var ux, uy, uz := c0x*y - c1x*x, c0y*y - c1y*x, c0z*y - c1z*x;
      var vx, vy, vz := c2x*w - c3x*z, c2y*w - c3y*z, c2z*w - c3z*z;
      Adjugate(m).r2.y == c3z*ux - c3x*uz + sy*w
  {
    UpperColumns(m);
    var c0, c1, c2, c3 := UpperColumn(m, 0), UpperColumn(m, 1), UpperColumn(m, 2), UpperColumn(m, 3);
    var b := BlockVectors(m);
    assert b == Blocks(Vec3.Cross(c0, c1), Vec3.Cross(c2, c3), Vec3.Sub(Vec3.Scale(c0, m.r3.y), Vec3.Scale(c1, m.r3.x)),
                       Vec3.Sub(Vec3.Scale(c2, m.r3.w), Vec3.Scale(c3, m.r3.z)));
    assert Adjugate(m).r2.y == Vec3.Add(Vec3.Cross(c3, b.u), Vec3.Scale(b.s, m.r3.w)).y;
    ExpandedInverseRow2Y(Vec3.Vector3(m.r0.x, m.r1.x, m.r2.x), Vec3.Vector3(m.r0.y, m.r1.y, m.r2.y), Vec3.Vector3(m.r0.z, m.r1.z, m.r2.z), Vec3.Vector3(m.r0.w, m.r1.w, m.r2.w), m.r3.x, m.r3.y, m.r3.z, m.r3.w);
  }

  lemma AdjugateEntry22(m: Matrix4x4)
    ensures
      var c0x, c0y, c0z := m.r0.x, m.r1.x, m.r2.x;
      var c1x, c1y, c1z := m.r0.y, m.r1.y, m.r2.y;
      var c2x, c2y, c2z := m.r0.z, m.r1.z, m.r2.z;
      var c3x, c3y, c3z := m.r0.w, m.r1.w, m.r2.w;
      var x, y, z, w := m.r3.x, m.r3.y, m.r3.z, m.r3.w;
      var sx, sy, sz := c0y*c1z - c0z*c1y, c0z*c1x - c0x*c1z, c0x*c1y - c0y*c1x;
      var tx, ty, tz := c2y*c3z - c2z*c3y, c2z*c3x - c2x*c3z, c2x*c3y - c2y*c3x;
      var ux, uy, uz := c0x*y - c1x*x, c0y*y - c1y*x, c0z*y - c1z*x;
      var vx, vy, vz := c2x*w - c3x*z, c2y*w - c3y*z, c2z*w - c3z*z;
      Adjugate(m).r2.z == c3x*uy - c3y*ux + sz*w
  {
    UpperColumns(m);
    var c0, c1, c2, c3 := UpperColumn(m, 0), UpperColumn(m, 1), UpperColumn(m, 2), UpperColumn(m, 3);
    var b := BlockVectors(m);
    assert b == Blocks(Vec3.Cross(c0, c1), Vec3.Cross(c2, c3), Vec3.Sub(Vec3.Scale(c0, m.r3.y), Vec3.Scale(c1, m.r3.x)),
                       Vec3.Sub(Vec3.Scale(c2, m.r3.w), Vec3.Scale(c3, m.r3.z)));
    assert Adjugate(m).r2.z == Vec3.Add(Vec3.Cross(c3, b.u), Vec3.Scale(b.s, m.r3.w)).z;
    ExpandedInverseRow2Z(Vec3.Vector3(m.r0.x, m.r1.x, m.r2.x), Vec3.Vector3(m.r0.y, m.r1.y, m.r2.y), Vec3.Vector3(m.r0.z, m.r1.z, m.r2.z), Vec3.Vector3(m.r0.w, m.r1.w, m.r2.w), m.r3.x, m.r3.y, m.r3.z, m.r3.w);
  }

  lemma AdjugateEntry23(m: Matrix4x4)
    ensures
      var c0x, c0y, c0z := m.r0.x, m.r1.x, m.r2.x;
      var c1x, c1y, c1z := m.r0.y, m.r1.y, m.r2.y;
      var c2x, c2y, c2z := m.r0.z, m.r1.z, m.r2.z;
      var c3x, c3y, c3z := m.r0.w, m.r1.w, m.r2.w;
      var x, y, z, w := m.r3.x, m.r3.y, m.r3.z, m.r3.w;
      var sx, sy, sz := c0y*c1z - c0z*c1y, c0z*c1x - c0x*c1z, c0x*c1y - c0y*c1x;
      var tx, ty, tz := c2y*c3z - c2z*c3y, c2z*c3x - c2x*c3z, c2x*c3y - c2y*c3x;
      var ux, uy, uz := c0x*y - c1x*x, c0y*y - c1y*x, c0z*y - c1z*x;
      var vx, vy, vz := c2x*w - c3x*z, c2y*w - c3y*z, c2z*w - c3z*z;
      Adjugate(m).r2.w == -(c3x*sx + c3y*sy + c3z*sz)
  {
    UpperColumns(m);
    var c0, c1, c2, c3 := UpperColumn(m, 0), UpperColumn(m, 1), UpperColumn(m, 2), UpperColumn(m, 3);
    var b := BlockVectors(m);
    assert b == Blocks(Vec3.Cross(c0, c1), Vec3.Cross(c2, c3), Vec3.Sub(Vec3.Scale(c0, m.r3.y), Vec3.Scale(c1, m.r3.x)),
                       Vec3.Sub(Vec3.Scale(c2, m.r3.w), Vec3.Scale(c3, m.r3.z)));
    assert Adjugate(m).r2.w == -Vec3.Dot(c3, b.s);
    ExpandedInverseRow2W(Vec3.Vector3(m.r0.x, m.r1.x, m.r2.x), Vec3.Vector3(m.r0.y, m.r1.y, m.r2.y), Vec3.Vector3(m.r0.z, m.r1.z, m.r2.z), Vec3.Vector3(m.r0.w, m.r1.w, m.r2.w), m.r3.x, m.r3.y, m.r3.z, m.r3.w);
  }

  lemma AdjugateEntry30(m: Matrix4x4)
    ensures
      var c0x, c0y, c0z := m.r0.x, m.r1.x, m.r2.x;
      var c1x, c1y, c1z := m.r0.y, m.r1.y, m.r2.y;
      var c2x, c2y, c2z := m.r0.z, m.r1.z, m.r2.z;
      var c3x, c3y, c3z := m.r0.w, m.r1.w, m.r2.w;
      var x, y, z, w := m.r3.x, m.r3.y, m.r3.z, m.r3.w;
      var sx, sy, sz := c0y*c1z - c0z*c1y, c0z*c1x - c0x*c1z, c0x*c1y - c0y*c1x;
      var tx, ty, tz := c2y*c3z - c2z*c3y, c2z*c3x - c2x*c3z, c2x*c3y - c2y*c3x;
      var ux, uy, uz := c0x*y - c1x*x, c0y*y - c1y*x, c0z*y - c1z*x;
      var vx, vy, vz := c2x*w - c3x*z, c2y*w - c3y*z, c2z*w - c3z*z;
      Adjugate(m).r3.x == uy*c2z - uz*c2y - sx*z
  {
    UpperColumns(m);
    var c0, c1, c2, c3 := UpperColumn(m, 0), UpperColumn(m, 1), UpperColumn(m, 2), UpperColumn(m, 3);
    var b := BlockVectors(m);
    assert b == Blocks(Vec3.Cross(c0, c1), Vec3.Cross(c2, c3), Vec3.Sub(Vec3.Scale(c0, m.r3.y), Vec3.Scale(c1, m.r3.x)),
                       Vec3.Sub(Vec3.Scale(c2, m.r3.w), Vec3.Scale(c3, m.r3.z)));
    assert Adjugate(m).r3.x == Vec3.Sub(Vec3.Cross(b.u, c2), Vec3.Scale(b.s, m.r3.z)).x;
    ExpandedInverseRow3X(Vec3.Vector3(m.r0.x, m.r1.x, m.r2.x), Vec3.Vector3(m.r0.y, m.r1.y, m.r2.y), Vec3.Vector3(m.r0.z, m.r1.z, m.r2.z), Vec3.Vector3(m.r0.w, m.r1.w, m.r2.w), m.r3.x, m.r3.y, m.r3.z, m.r3.w);
  }

  lemma AdjugateEntry31(m: Matrix4x4)
    ensures
      var c0x, c0y, c0z := m.r0.x, m.r1.x, m.r2.x;
      var c1x, c1y, c1z := m.r0.y, m.r1.y, m.r2.y;
      var c2x, c2y, c2z := m.r0.z, m.r1.z, m.r2.z;
      var c3x, c3y, c3z := m.r0.w, m.r1.w, m.r2.w;
      var x, y, z, w := m.r3.x, m.r3.y, m.r3.z, m.r3.w;
      var sx, sy, sz := c0y*c1z - c0z*c1y, c0z*c1x - c0x*c1z, c0x*c1y - c0y*c1x;
      var tx, ty, tz := c2y*c3z - c2z*c3y, c2z*c3x - c2x*c3z, c2x*c3y - c2y*c3x;
      var ux, uy, uz := c0x*y - c1x*x, c0y*y - c1y*x, c0z*y - c1z*x;
      var vx, vy, vz := c2x*w - c3x*z, c2y*w - c3y*z, c2z*w - c3z*z;
      Adjugate(m).r3.y == uz*c2x - ux*c2z - sy*z
  {
    UpperColumns(m);
    var c0, c1, c2, c3 := UpperColumn(m, 0), UpperColumn(m, 1), UpperColumn(m, 2), UpperColumn(m, 3);
    var b := BlockVectors(m);
    assert b == Blocks(Vec3.Cross(c0, c1), Vec3.Cross(c2, c3), Vec3.Sub(Vec3.Scale(c0, m.r3.y), Vec3.Scale(c1, m.r3.x)),
                       Vec3.Sub(Vec3.Scale(c2, m.r3.w), Vec3.Scale(c3, m.r3.z)));
    assert Adjugate(m).r3.y == Vec3.Sub(Vec3.Cross(b.u, c2), Vec3.Scale(b.s, m.r3.z)).y;
    ExpandedInverseRow3Y(Vec3.Vector3(m.r0.x, m.r1.x, m.r2.x), Vec3.Vector3(m.r0.y, m.r1.y, m.r2.y), Vec3.Vector3(m.r0.z, m.r1.z, m.r2.z), Vec3.Vector3(m.r0.w, m.r1.w, m.r2.w), m.r3.x, m.r3.y, m.r3.z, m.r3.w);
  }

  lemma AdjugateEntry32(m: Matrix4x4)
    ensures
      var c0x, c0y, c0z := m.r0.x, m.r1.x, m.r2.x;
      var c1x, c1y, c1z := m.r0.y, m.r1.y, m.r2.y;
      var c2x, c2y, c2z := m.r0.z, m.r1.z, m.r2.z;
      var c3x, c3y, c3z := m.r0.w, m.r1.w, m.r2.w;
      var x, y, z, w := m.r3.x, m.r3.y, m.r3.z, m.r3.w;
      var sx, sy, sz := c0y*c1z - c0z*c1y, c0z*c1x - c0x*c1z, c0x*c1y - c0y*c1x;
      var tx, ty, tz := c2y*c3z - c2z*c3y, c2z*c3x - c2x*c3z, c2x*c3y - c2y*c3x;
      var ux, uy, uz := c0x*y - c1x*x, c0y*y - c1y*x, c0z*y - c1z*x;
      var vx, vy, vz := c2x*w - c3x*z, c2y*w - c3y*z, c2z*w - c3z*z;
      Adjugate(m).r3.z == ux*c2y - uy*c2x - sz*z
  {
    UpperColumns(m);
    var c0, c1, c2, c3 := UpperColumn(m, 0), UpperColumn(m, 1), UpperColumn(m, 2), UpperColumn(m, 3);
    var b := BlockVectors(m);
    assert b == Blocks(Vec3.Cross(c0, c1), Vec3.Cross(c2, c3), Vec3.Sub(Vec3.Scale(c0, m.r3.y), Vec3.Scale(c1, m.r3.x)),
                       Vec3.Sub(Vec3.Scale(c2, m.r3.w), Vec3.Scale(c3, m.r3.z)));
    assert Adjugate(m).r3.z == Vec3.Sub(Vec3.Cross(b.u, c2), Vec3.Scale(b.s, m.r3.z)).z;
    ExpandedInverseRow3Z(Vec3.Vector3(m.r0.x, m.r1.x, m.r2.x), Vec3.Vector3(m.r0.y, m.r1.y, m.r2.y), Vec3.Vector3(m.r0.z, m.r1.z, m.r2.z), Vec3.Vector3(m.r0.w, m.r1.w, m.r2.w), m.r3.x, m.r3.y, m.r3.z, m.r3.w);
  }

  lemma AdjugateEntry33(m: Matrix4x4)
    ensures
      var c0x, c0y, c0z := m.r0.x, m.r1.x, m.r2.x;
      var c1x, c1y, c1z := m.r0.y, m.r1.y, m.r2.y;
      var c2x, c2y, c2z := m.r0.z, m.r1.z, m.r2.z;
      var c3x, c3y, c3z := m.r0.w, m.r1.w, m.r2.w;
      var x, y, z, w := m.r3.x, m.r3.y, m.r3.z, m.r3.w;
      var sx, sy, sz := c0y*c1z - c0z*c1y, c0z*c1x - c0x*c1z, c0x*c1y - c0y*c1x;
      var tx, ty, tz := c2y*c3z - c2z*c3y, c2z*c3x - c2x*c3z, c2x*c3y - c2y*c3x;
      var ux, uy, uz := c0x*y - c1x*x, c0y*y - c1y*x, c0z*y - c1z*x;
      var vx, vy, vz := c2x*w - c3x*z, c2y*w - c3y*z, c2z*w - c3z*z;
      Adjugate(m).r3.w == c2x*sx + c2y*sy + c2z*sz
  {
    UpperColumns(m);
    var c0, c1, c2, c3 := UpperColumn(m, 0), UpperColumn(m, 1), UpperColumn(m, 2), UpperColumn(m, 3);
    var b := BlockVectors(m);
    assert b == Blocks(Vec3.Cross(c0, c1), Vec3.Cross(c2, c3), Vec3.Sub(Vec3.Scale(c0, m.r3.y), Vec3.Scale(c1, m.r3.x)),
                       Vec3.Sub(Vec3.Scale(c2, m.r3.w), Vec3.Scale(c3, m.r3.z)));
    assert Adjugate(m).r3.w == Vec3.Dot(c2, b.s);
    ExpandedInverseRow3W(Vec3.Vector3(m.r0.x, m.r1.x, m.r2.x), Vec3.Vector3(m.r0.y, m.r1.y, m.r2.y), Vec3.Vector3(m.r0.z, m.r1.z, m.r2.z), Vec3.Vector3(m.r0.w, m.r1.w, m.r2.w), m.r3.x, m.r3.y, m.r3.z, m.r3.w);
  }

  // ---------------------------------------------------------------------
  // The entries of `m * n` and `n * m` for a matrix `n` with the adjugate's
  // entries: polynomial identities.

  lemma ProductEntry00(a: Matrix4x4, b: Matrix4x4)
    ensures Mul(a, b).r0.x == a.r0.x*b.r0.x + a.r0.y*b.r1.x + a.r0.z*b.r2.x + a.r0.w*b.r3.x
  {
  }

  lemma ProductEntry01(a: Matrix4x4, b: Matrix4x4)
    ensures Mul(a, b).r0.y == a.r0.x*b.r0.y + a.r0.y*b.r1.y + a.r0.z*b.r2.y + a.r0.w*b.r3.y
  {
  }

  lemma ProductEntry02(a: Matrix4x4, b: Matrix4x4)
    ensures Mul(a, b).r0.z == a.r0.x*b.r0.z + a.r0.y*b.r1.z + a.r0.z*b.r2.z + a.r0.w*b.r3.z
  {
  }

  lemma ProductEntry03(a: Matrix4x4, b: Matrix4x4)
    ensures Mul(a, b).r0.w == a.r0.x*b.r0.w + a.r0.y*b.r1.w + a.r0.z*b.r2.w + a.r0.w*b.r3.w
  {
  }

  lemma ProductEntry10(a: Matrix4x4, b: Matrix4x4)
    ensures Mul(a, b).r1.x == a.r1.x*b.r0.x + a.r1.y*b.r1.x + a.r1.z*b.r2.x + a.r1.w*b.r3.x
  {
  }

  lemma ProductEntry11(a: Matrix4x4, b: Matrix4x4)
    ensures Mul(a, b).r1.y == a.r1.x*b.r0.y + a.r1.y*b.r1.y + a.r1.z*b.r2.y + a.r1.w*b.r3.y
  {
  }

  lemma ProductEntry12(a: Matrix4x4, b: Matrix4x4)
    ensures Mul(a, b).r1.z == a.r1.x*b.r0.z + a.r1.y*b.r1.z + a.r1.z*b.r2.z + a.r1.w*b.r3.z
  {
  }

  lemma ProductEntry13(a: Matrix4x4, b: Matrix4x4)
    ensures Mul(a, b).r1.w == a.r1.x*b.r0.w + a.r1.y*b.r1.w + a.r1.z*b.r2.w + a.r1.w*b.r3.w
  {
  }

  lemma ProductEntry20(a: Matrix4x4, b: Matrix4x4)
    ensures Mul(a, b).r2.x == a.r2.x*b.r0.x + a.r2.y*b.r1.x + a.r2.z*b.r2.x + a.r2.w*b.r3.x
  {
  }

  lemma ProductEntry21(a: Matrix4x4, b: Matrix4x4)
    ensures Mul(a, b).r2.y == a.r2.x*b.r0.y + a.r2.y*b.r1.y + a.r2.z*b.r2.y + a.r2.w*b.r3.y
  {
  }

  lemma ProductEntry22(a: Matrix4x4, b: Matrix4x4)
    ensures Mul(a, b).r2.z == a.r2.x*b.r0.z + a.r2.y*b.r1.z + a.r2.z*b.r2.z + a.r2.w*b.r3.z
  {
  }

  lemma ProductEntry23(a: Matrix4x4, b: Matrix4x4)
    ensures Mul(a, b).r2.w == a.r2.x*b.r0.w + a.r2.y*b.r1.w + a.r2.z*b.r2.w + a.r2.w*b.r3.w
  {
  }

  lemma ProductEntry30(a: Matrix4x4, b: Matrix4x4)
    ensures Mul(a, b).r3.x == a.r3.x*b.r0.x + a.r3.y*b.r1.x + a.r3.z*b.r2.x + a.r3.w*b.r3.x
  {
  }

  lemma ProductEntry31(a: Matrix4x4, b: Matrix4x4)
    ensures Mul(a, b).r3.y == a.r3.x*b.r0.y + a.r3.y*b.r1.y + a.r3.z*b.r2.y + a.r3.w*b.r3.y
  {
  }

  lemma ProductEntry32(a: Matrix4x4, b: Matrix4x4)
    ensures Mul(a, b).r3.z == a.r3.x*b.r0.z + a.r3.y*b.r1.z + a.r3.z*b.r2.z + a.r3.w*b.r3.z
  {
  }

  lemma ProductEntry33(a: Matrix4x4, b: Matrix4x4)
    ensures Mul(a, b).r3.w == a.r3.x*b.r0.w + a.r3.y*b.r1.w + a.r3.z*b.r2.w + a.r3.w*b.r3.w
  {
  }

  lemma RightProduct00(m: Matrix4x4, n: Matrix4x4)
    requires
      var c0x, c0y, c0z := m.r0.x, m.r1.x, m.r2.x;
      var c1x, c1y, c1z := m.r0.y, m.r1.y, m.r2.y;
      var c2x, c2y, c2z := m.r0.z, m.r1.z, m.r2.z;
      var c3x, c3y, c3z := m.r0.w, m.r1.w, m.r2.w;
      var x, y, z, w := m.r3.x, m.r3.y, m.r3.z, m.r3.w;
      var sx, sy, sz := c0y*c1z - c0z*c1y, c0z*c1x - c0x*c1z, c0x*c1y - c0y*c1x;
      var tx, ty, tz := c2y*c3z - c2z*c3y, c2z*c3x - c2x*c3z, c2x*c3y - c2y*c3x;
      var ux, uy, uz := c0x*y - c1x*x, c0y*y - c1y*x, c0z*y - c1z*x;
      var vx, vy, vz := c2x*w - c3x*z, c2y*w - c3y*z, c2z*w - c3z*z;
      n.r0.x == c1y*vz - c1z*vy + tx*y && n.r1.x == vy*c0z - vz*c0y - tx*x && n.r2.x == c3y*uz - c3z*uy + sx*w && n.r3.x == uy*c2z - uz*c2y - sx*z
    ensures
      var c0x, c0y, c0z := m.r0.x, m.r1.x, m.r2.x;
      var c1x, c1y, c1z := m.r0.y, m.r1.y, m.r2.y;
      var c2x, c2y, c2z := m.r0.z, m.r1.z, m.r2.z;
      var c3x, c3y, c3z := m.r0.w, m.r1.w, m.r2.w;
      var x, y, z, w := m.r3.x, m.r3.y, m.r3.z, m.r3.w;
      var sx, sy, sz := c0y*c1z - c0z*c1y, c0z*c1x - c0x*c1z, c0x*c1y - c0y*c1x;
      var tx, ty, tz := c2y*c3z - c2z*c3y, c2z*c3x - c2x*c3z, c2x*c3y - c2y*c3x;
      var ux, uy, uz := c0x*y - c1x*x, c0y*y - c1y*x, c0z*y - c1z*x;
      var vx, vy, vz := c2x*w - c3x*z, c2y*w - c3y*z, c2z*w - c3z*z;
      m.r0.x*n.r0.x + m.r0.y*n.r1.x + m.r0.z*n.r2.x + m.r0.w*n.r3.x == sx*vx + sy*vy + sz*vz + tx*ux + ty*uy + tz*uz
  {
  }

  lemma RightProduct01(m: Matrix4x4, n: Matrix4x4)
    requires
      var c0x, c0y, c0z := m.r0.x, m.r1.x, m.r2.x;
      var c1x, c1y, c1z := m.r0.y, m.r1.y, m.r2.y;
      var c2x, c2y, c2z := m.r0.z, m.r1.z, m.r2.z;
      var c3x, c3y, c3z := m.r0.w, m.r1.w, m.r2.w;
      var x, y, z, w := m.r3.x, m.r3.y, m.r3.z, m.r3.w;
      var sx, sy, sz := c0y*c1z - c0z*c1y, c0z*c1x - c0x*c1z, c0x*c1y - c0y*c1x;
      var tx, ty, tz := c2y*c3z - c2z*c3y, c2z*c3x - c2x*c3z, c2x*c3y - c2y*c3x;
      var ux, uy, uz := c0x*y - c1x*x, c0y*y - c1y*x, c0z*y - c1z*x;
      var vx, vy, vz := c2x*w - c3x*z, c2y*w - c3y*z, c2z*w - c3z*z;
      n.r0.y == c1z*vx - c1x*vz + ty*y && n.r1.y == vz*c0x - vx*c0z - ty*x && n.r2.y == c3z*ux - c3x*uz + sy*w && n.r3.y == uz*c2x - ux*c2z - sy*z
    ensures
      var c0x, c0y, c0z := m.r0.x, m.r1.x, m.r2.x;
      var c1x, c1y, c1z := m.r0.y, m.r1.y, m.r2.y;
      var c2x, c2y, c2z := m.r0.z, m.r1.z, m.r2.z;
      var c3x, c3y, c3z := m.r0.w, m.r1.w, m.r2.w;
      var x, y, z, w := m.r3.x, m.r3.y, m.r3.z, m.r3.w;
      var sx, sy, sz := c0y*c1z - c0z*c1y, c0z*c1x - c0x*c1z, c0x*c1y - c0y*c1x;
      var tx, ty, tz := c2y*c3z - c2z*c3y, c2z*c3x - c2x*c3z, c2x*c3y - c2y*c3x;
      var ux, uy, uz := c0x*y - c1x*x, c0y*y - c1y*x, c0z*y - c1z*x;
      var vx, vy, vz := c2x*w - c3x*z, c2y*w - c3y*z, c2z*w - c3z*z;
      m.r0.x*n.r0.y + m.r0.y*n.r1.y + m.r0.z*n.r2.y + m.r0.w*n.r3.y == 0.0
  {
  }

  lemma RightProduct02(m: Matrix4x4, n: Matrix4x4)
    requires
      var c0x, c0y, c0z := m.r0.x, m.r1.x, m.r2.x;
      var c1x, c1y, c1z := m.r0.y, m.r1.y, m.r2.y;
      var c2x, c2y, c2z := m.r0.z, m.r1.z, m.r2.z;
      var c3x, c3y, c3z := m.r0.w, m.r1.w, m.r2.w;
      var x, y, z, w := m.r3.x, m.r3.y, m.r3.z, m.r3.w;
      var sx, sy, sz := c0y*c1z - c0z*c1y, c0z*c1x - c0x*c1z, c0x*c1y - c0y*c1x;
      var tx, ty, tz := c2y*c3z - c2z*c3y, c2z*c3x - c2x*c3z, c2x*c3y - c2y*c3x;
      var ux, uy, uz := c0x*y - c1x*x, c0y*y - c1y*x, c0z*y - c1z*x;
      var vx, vy, vz := c2x*w - c3x*z, c2y*w - c3y*z, c2z*w - c3z*z;
      n.r0.z == c1x*vy - c1y*vx + tz*y && n.r1.z == vx*c0y - vy*c0x - tz*x && n.r2.z == c3x*uy - c3y*ux + sz*w && n.r3.z == ux*c2y - uy*c2x - sz*z
    ensures
      var c0x, c0y, c0z := m.r0.x, m.r1.x, m.r2.x;
      var c1x, c1y, c1z := m.r0.y, m.r1.y, m.r2.y;
      var c2x, c2y, c2z := m.r0.z, m.r1.z, m.r2.z;
      var c3x, c3y, c3z := m.r0.w, m.r1.w, m.r2.w;
      var x, y, z, w := m.r3.x, m.r3.y, m.r3.z, m.r3.w;
      var sx, sy, sz := c0y*c1z - c0z*c1y, c0z*c1x - c0x*c1z, c0x*c1y - c0y*c1x;
      var tx, ty, tz := c2y*c3z - c2z*c3y, c2z*c3x - c2x*c3z, c2x*c3y - c2y*c3x;
      var ux, uy, uz := c0x*y - c1x*x, c0y*y - c1y*x, c0z*y - c1z*x;
      var vx, vy, vz := c2x*w - c3x*z, c2y*w - c3y*z, c2z*w - c3z*z;
      m.r0.x*n.r0.z + m.r0.y*n.r1.z + m.r0.z*n.r2.z + m.r0.w*n.r3.z == 0.0
  {
  }

  lemma RightProduct03(m: Matrix4x4, n: Matrix4x4)
    requires
      var c0x, c0y, c0z := m.r0.x, m.r1.x, m.r2.x;
      var c1x, c1y, c1z := m.r0.y, m.r1.y, m.r2.y;
      var c2x, c2y, c2z := m.r0.z, m.r1.z, m.r2.z;
      var c3x, c3y, c3z := m.r0.w, m.r1.w, m.r2.w;
      var x, y, z, w := m.r3.x, m.r3.y, m.r3.z, m.r3.w;
      var sx, sy, sz := c0y*c1z - c0z*c1y, c0z*c1x - c0x*c1z, c0x*c1y - c0y*c1x;
      var tx, ty, tz := c2y*c3z - c2z*c3y, c2z*c3x - c2x*c3z, c2x*c3y - c2y*c3x;
      var ux, uy, uz := c0x*y - c1x*x, c0y*y - c1y*x, c0z*y - c1z*x;
      var vx, vy, vz := c2x*w - c3x*z, c2y*w - c3y*z, c2z*w - c3z*z;
      n.r0.w == -(c1x*tx + c1y*ty + c1z*tz) && n.r1.w == c0x*tx + c0y*ty + c0z*tz && n.r2.w == -(c3x*sx + c3y*sy + c3z*sz) && n.r3.w == c2x*sx + c2y*sy + c2z*sz
    ensures
      var c0x, c0y, c0z := m.r0.x, m.r1.x, m.r2.x;
      var c1x, c1y, c1z := m.r0.y, m.r1.y, m.r2.y;
      var c2x, c2y, c2z := m.r0.z, m.r1.z, m.r2.z;
      var c3x, c3y, c3z := m.r0.w, m.r1.w, m.r2.w;
      var x, y, z, w := m.r3.x, m.r3.y, m.r3.z, m.r3.w;
      var sx, sy, sz := c0y*c1z - c0z*c1y, c0z*c1x - c0x*c1z, c0x*c1y - c0y*c1x;
      var tx, ty, tz := c2y*c3z - c2z*c3y, c2z*c3x - c2x*c3z, c2x*c3y - c2y*c3x;
      var ux, uy, uz := c0x*y - c1x*x, c0y*y - c1y*x, c0z*y - c1z*x;
      var vx, vy, vz := c2x*w - c3x*z, c2y*w - c3y*z, c2z*w - c3z*z;
      m.r0.x*n.r0.w + m.r0.y*n.r1.w + m.r0.z*n.r2.w + m.r0.w*n.r3.w == 0.0
  {
  }

  lemma RightProduct10(m: Matrix4x4, n: Matrix4x4)
    requires
      var c0x, c0y, c0z := m.r0.x, m.r1.x, m.r2.x;
      var c1x, c1y, c1z := m.r0.y, m.r1.y, m.r2.y;
      var c2x, c2y, c2z := m.r0.z, m.r1.z, m.r2.z;
      var c3x, c3y, c3z := m.r0.w, m.r1.w, m.r2.w;
      var x, y, z, w := m.r3.x, m.r3.y, m.r3.z, m.r3.w;
      var sx, sy, sz := c0y*c1z - c0z*c1y, c0z*c1x - c0x*c1z, c0x*c1y - c0y*c1x;
      var tx, ty, tz := c2y*c3z - c2z*c3y, c2z*c3x - c2x*c3z, c2x*c3y - c2y*c3x;
      var ux, uy, uz := c0x*y - c1x*x, c0y*y - c1y*x, c0z*y - c1z*x;
      var vx, vy, vz := c2x*w - c3x*z, c2y*w - c3y*z, c2z*w - c3z*z;
      n.r0.x == c1y*vz - c1z*vy + tx*y && n.r1.x == vy*c0z - vz*c0y - tx*x && n.r2.x == c3y*uz - c3z*uy + sx*w && n.r3.x == uy*c2z - uz*c2y - sx*z
    ensures
      var c0x, c0y, c0z := m.r0.x, m.r1.x, m.r2.x;
      var c1x, c1y, c1z := m.r0.y, m.r1.y, m.r2.y;
      var c2x, c2y, c2z := m.r0.z, m.r1.z, m.r2.z;
      var c3x, c3y, c3z := m.r0.w, m.r1.w, m.r2.w;
      var x, y, z, w := m.r3.x, m.r3.y, m.r3.z, m.r3.w;
      var sx, sy, sz := c0y*c1z - c0z*c1y, c0z*c1x - c0x*c1z, c0x*c1y - c0y*c1x;
      var tx, ty, tz := c2y*c3z - c2z*c3y, c2z*c3x - c2x*c3z, c2x*c3y - c2y*c3x;
      var ux, uy, uz := c0x*y - c1x*x, c0y*y - c1y*x, c0z*y - c1z*x;
      var vx, vy, vz := c2x*w - c3x*z, c2y*w - c3y*z, c2z*w - c3z*z;
      m.r1.x*n.r0.x + m.r1.y*n.r1.x + m.r1.z*n.r2.x + m.r1.w*n.r3.x == 0.0
  {
  }

  lemma RightProduct11(m: Matrix4x4, n: Matrix4x4)
    requires
      var c0x, c0y, c0z := m.r0.x, m.r1.x, m.r2.x;
      var c1x, c1y, c1z := m.r0.y, m.r1.y, m.r2.y;
      var c2x, c2y, c2z := m.r0.z, m.r1.z, m.r2.z;
      var c3x, c3y, c3z := m.r0.w, m.r1.w, m.r2.w;
      var x, y, z, w := m.r3.x, m.r3.y, m.r3.z, m.r3.w;
      var sx, sy, sz := c0y*c1z - c0z*c1y, c0z*c1x - c0x*c1z, c0x*c1y - c0y*c1x;
      var tx, ty, tz := c2y*c3z - c2z*c3y, c2z*c3x - c2x*c3z, c2x*c3y - c2y*c3x;
      var ux, uy, uz := c0x*y - c1x*x, c0y*y - c1y*x, c0z*y - c1z*x;
      var vx, vy, vz := c2x*w - c3x*z, c2y*w - c3y*z, c2z*w - c3z*z;
      n.r0.y == c1z*vx - c1x*vz + ty*y && n.r1.y == vz*c0x - vx*c0z - ty*x && n.r2.y == c3z*ux - c3x*uz + sy*w && n.r3.y == uz*c2x - ux*c2z - sy*z
    ensures
      var c0x, c0y, c0z := m.r0.x, m.r1.x, m.r2.x;
      var c1x, c1y, c1z := m.r0.y, m.r1.y, m.r2.y;
      var c2x, c2y, c2z := m.r0.z, m.r1.z, m.r2.z;
      var c3x, c3y, c3z := m.r0.w, m.r1.w, m.r2.w;
      var x, y, z, w := m.r3.x, m.r3.y, m.r3.z, m.r3.w;
      var sx, sy, sz := c0y*c1z - c0z*c1y, c0z*c1x - c0x*c1z, c0x*c1y - c0y*c1x;
      var tx, ty, tz := c2y*c3z - c2z*c3y, c2z*c3x - c2x*c3z, c2x*c3y - c2y*c3x;
      var ux, uy, uz := c0x*y - c1x*x, c0y*y - c1y*x, c0z*y - c1z*x;
      var vx, vy, vz := c2x*w - c3x*z, c2y*w - c3y*z, c2z*w - c3z*z;
      m.r1.x*n.r0.y + m.r1.y*n.r1.y + m.r1.z*n.r2.y + m.r1.w*n.r3.y == sx*vx + sy*vy + sz*vz + tx*ux + ty*uy + tz*uz
  {
  }

  lemma RightProduct12(m: Matrix4x4, n: Matrix4x4)
    requires
      var c0x, c0y, c0z := m.r0.x, m.r1.x, m.r2.x;
      var c1x, c1y, c1z := m.r0.y, m.r1.y, m.r2.y;
      var c2x, c2y, c2z := m.r0.z, m.r1.z, m.r2.z;
      var c3x, c3y, c3z := m.r0.w, m.r1.w, m.r2.w;
      var x, y, z, w := m.r3.x, m.r3.y, m.r3.z, m.r3.w;
      var sx, sy, sz := c0y*c1z - c0z*c1y, c0z*c1x - c0x*c1z, c0x*c1y - c0y*c1x;
      var tx, ty, tz := c2y*c3z - c2z*c3y, c2z*c3x - c2x*c3z, c2x*c3y - c2y*c3x;
      var ux, uy, uz := c0x*y - c1x*x, c0y*y - c1y*x, c0z*y - c1z*x;
      var vx, vy, vz := c2x*w - c3x*z, c2y*w - c3y*z, c2z*w - c3z*z;
      n.r0.z == c1x*vy - c1y*vx + tz*y && n.r1.z == vx*c0y - vy*c0x - tz*x && n.r2.z == c3x*uy - c3y*ux + sz*w && n.r3.z == ux*c2y - uy*c2x - sz*z
    ensures
      var c0x, c0y, c0z := m.r0.x, m.r1.x, m.r2.x;
      var c1x, c1y, c1z := m.r0.y, m.r1.y, m.r2.y;
      var c2x, c2y, c2z := m.r0.z, m.r1.z, m.r2.z;
      var c3x, c3y, c3z := m.r0.w, m.r1.w, m.r2.w;
      var x, y, z, w := m.r3.x, m.r3.y, m.r3.z, m.r3.w;
      var sx, sy, sz := c0y*c1z - c0z*c1y, c0z*c1x - c0x*c1z, c0x*c1y - c0y*c1x;
      var tx, ty, tz := c2y*c3z - c2z*c3y, c2z*c3x - c2x*c3z, c2x*c3y - c2y*c3x;
      var ux, uy, uz := c0x*y - c1x*x, c0y*y - c1y*x, c0z*y - c1z*x;
      var vx, vy, vz := c2x*w - c3x*z, c2y*w - c3y*z, c2z*w - c3z*z;
      m.r1.x*n.r0.z + m.r1.y*n.r1.z + m.r1.z*n.r2.z + m.r1.w*n.r3.z == 0.0
  {
  }

  lemma RightProduct13(m: Matrix4x4, n: Matrix4x4)
    requires
      var c0x, c0y, c0z := m.r0.x, m.r1.x, m.r2.x;
      var c1x, c1y, c1z := m.r0.y, m.r1.y, m.r2.y;
      var c2x, c2y, c2z := m.r0.z, m.r1.z, m.r2.z;
      var c3x, c3y, c3z := m.r0.w, m.r1.w, m.r2.w;
      var x, y, z, w := m.r3.x, m.r3.y, m.r3.z, m.r3.w;
      var sx, sy, sz := c0y*c1z - c0z*c1y, c0z*c1x - c0x*c1z, c0x*c1y - c0y*c1x;
      var tx, ty, tz := c2y*c3z - c2z*c3y, c2z*c3x - c2x*c3z, c2x*c3y - c2y*c3x;
      var ux, uy, uz := c0x*y - c1x*x, c0y*y - c1y*x, c0z*y - c1z*x;
      var vx, vy, vz := c2x*w - c3x*z, c2y*w - c3y*z, c2z*w - c3z*z;
      n.r0.w == -(c1x*tx + c1y*ty + c1z*tz) && n.r1.w == c0x*tx + c0y*ty + c0z*tz && n.r2.w == -(c3x*sx + c3y*sy + c3z*sz) && n.r3.w == c2x*sx + c2y*sy + c2z*sz
    ensures
      var c0x, c0y, c0z := m.r0.x, m.r1.x, m.r2.x;
      var c1x, c1y, c1z := m.r0.y, m.r1.y, m.r2.y;
      var c2x, c2y, c2z := m.r0.z, m.r1.z, m.r2.z;
      var c3x, c3y, c3z := m.r0.w, m.r1.w, m.r2.w;
      var x, y, z, w := m.r3.x, m.r3.y, m.r3.z, m.r3.w;
      var sx, sy, sz := c0y*c1z - c0z*c1y, c0z*c1x - c0x*c1z, c0x*c1y - c0y*c1x;
      var tx, ty, tz := c2y*c3z - c2z*c3y, c2z*c3x - c2x*c3z, c2x*c3y - c2y*c3x;
      var ux, uy, uz := c0x*y - c1x*x, c0y*y - c1y*x, c0z*y - c1z*x;
      var vx, vy, vz := c2x*w - c3x*z, c2y*w - c3y*z, c2z*w - c3z*z;
      m.r1.x*n.r0.w + m.r1.y*n.r1.w + m.r1.z*n.r2.w + m.r1.w*n.r3.w == 0.0
  {
  }

  lemma RightProduct20(m: Matrix4x4, n: Matrix4x4)
    requires
      var c0x, c0y, c0z := m.r0.x, m.r1.x, m.r2.x;
      var c1x, c1y, c1z := m.r0.y, m.r1.y, m.r2.y;
      var c2x, c2y, c2z := m.r0.z, m.r1.z, m.r2.z;
      var c3x, c3y, c3z := m.r0.w, m.r1.w, m.r2.w;
      var x, y, z, w := m.r3.x, m.r3.y, m.r3.z, m.r3.w;
      var sx, sy, sz := c0y*c1z - c0z*c1y, c0z*c1x - c0x*c1z, c0x*c1y - c0y*c1x;
      var tx, ty, tz := c2y*c3z - c2z*c3y, c2z*c3x - c2x*c3z, c2x*c3y - c2y*c3x;
      var ux, uy, uz := c0x*y - c1x*x, c0y*y - c1y*x, c0z*y - c1z*x;
      var vx, vy, vz := c2x*w - c3x*z, c2y*w - c3y*z, c2z*w - c3z*z;
      n.r0.x == c1y*vz - c1z*vy + tx*y && n.r1.x == vy*c0z - vz*c0y - tx*x && n.r2.x == c3y*uz - c3z*uy + sx*w && n.r3.x == uy*c2z - uz*c2y - sx*z
    ensures
      var c0x, c0y, c0z := m.r0.x, m.r1.x, m.r2.x;
      var c1x, c1y, c1z := m.r0.y, m.r1.y, m.r2.y;
      var c2x, c2y, c2z := m.r0.z, m.r1.z, m.r2.z;
      var c3x, c3y, c3z := m.r0.w, m.r1.w, m.r2.w;
      var x, y, z, w := m.r3.x, m.r3.y, m.r3.z, m.r3.w;
      var sx, sy, sz := c0y*c1z - c0z*c1y, c0z*c1x - c0x*c1z, c0x*c1y - c0y*c1x;
      var tx, ty, tz := c2y*c3z - c2z*c3y, c2z*c3x - c2x*c3z, c2x*c3y - c2y*c3x;
      var ux, uy, uz := c0x*y - c1x*x, c0y*y - c1y*x, c0z*y - c1z*x;
      var vx, vy, vz := c2x*w - c3x*z, c2y*w - c3y*z, c2z*w - c3z*z;
      m.r2.x*n.r0.x + m.r2.y*n.r1.x + m.r2.z*n.r2.x + m.r2.w*n.r3.x == 0.0
  {
  }

  lemma RightProduct21(m: Matrix4x4, n: Matrix4x4)
    requires
      var c0x, c0y, c0z := m.r0.x, m.r1.x, m.r2.x;
      var c1x, c1y, c1z := m.r0.y, m.r1.y, m.r2.y;
      var c2x, c2y, c2z := m.r0.z, m.r1.z, m.r2.z;
      var c3x, c3y, c3z := m.r0.w, m.r1.w, m.r2.w;
      var x, y, z, w := m.r3.x, m.r3.y, m.r3.z, m.r3.w;
      var sx, sy, sz := c0y*c1z - c0z*c1y, c0z*c1x - c0x*c1z, c0x*c1y - c0y*c1x;
      var tx, ty, tz := c2y*c3z - c2z*c3y, c2z*c3x - c2x*c3z, c2x*c3y - c2y*c3x;
      var ux, uy, uz := c0x*y - c1x*x, c0y*y - c1y*x, c0z*y - c1z*x;
      var vx, vy, vz := c2x*w - c3x*z, c2y*w - c3y*z, c2z*w - c3z*z;
      n.r0.y == c1z*vx - c1x*vz + ty*y && n.r1.y == vz*c0x - vx*c0z - ty*x && n.r2.y == c3z*ux - c3x*uz + sy*w && n.r3.y == uz*c2x - ux*c2z - sy*z
    ensures
      var c0x, c0y, c0z := m.r0.x, m.r1.x, m.r2.x;
      var c1x, c1y, c1z := m.r0.y, m.r1.y, m.r2.y;
      var c2x, c2y, c2z := m.r0.z, m.r1.z, m.r2.z;
      var c3x, c3y, c3z := m.r0.w, m.r1.w, m.r2.w;
      var x, y, z, w := m.r3.x, m.r3.y, m.r3.z, m.r3.w;
      var sx, sy, sz := c0y*c1z - c0z*c1y, c0z*c1x - c0x*c1z, c0x*c1y - c0y*c1x;
      var tx, ty, tz := c2y*c3z - c2z*c3y, c2z*c3x - c2x*c3z, c2x*c3y - c2y*c3x;
      var ux, uy, uz := c0x*y - c1x*x, c0y*y - c1y*x, c0z*y - c1z*x;
      var vx, vy, vz := c2x*w - c3x*z, c2y*w - c3y*z, c2z*w - c3z*z;
      m.r2.x*n.r0.y + m.r2.y*n.r1.y + m.r2.z*n.r2.y + m.r2.w*n.r3.y == 0.0
  {
  }

  lemma RightProduct22(m: Matrix4x4, n: Matrix4x4)
    requires
      var c0x, c0y, c0z := m.r0.x, m.r1.x, m.r2.x;
      var c1x, c1y, c1z := m.r0.y, m.r1.y, m.r2.y;
      var c2x, c2y, c2z := m.r0.z, m.r1.z, m.r2.z;
      var c3x, c3y, c3z := m.r0.w, m.r1.w, m.r2.w;
      var x, y, z, w := m.r3.x, m.r3.y, m.r3.z, m.r3.w;
      var sx, sy, sz := c0y*c1z - c0z*c1y, c0z*c1x - c0x*c1z, c0x*c1y - c0y*c1x;
      var tx, ty, tz := c2y*c3z - c2z*c3y, c2z*c3x - c2x*c3z, c2x*c3y - c2y*c3x;
      var ux, uy, uz := c0x*y - c1x*x, c0y*y - c1y*x, c0z*y - c1z*x;
      var vx, vy, vz := c2x*w - c3x*z, c2y*w - c3y*z, c2z*w - c3z*z;
      n.r0.z == c1x*vy - c1y*vx + tz*y && n.r1.z == vx*c0y - vy*c0x - tz*x && n.r2.z == c3x*uy - c3y*ux + sz*w && n.r3.z == ux*c2y - uy*c2x - sz*z
    ensures
      var c0x, c0y, c0z := m.r0.x, m.r1.x, m.r2.x;
      var c1x, c1y, c1z := m.r0.y, m.r1.y, m.r2.y;
      var c2x, c2y, c2z := m.r0.z, m.r1.z, m.r2.z;
      var c3x, c3y, c3z := m.r0.w, m.r1.w, m.r2.w;
      var x, y, z, w := m.r3.x, m.r3.y, m.r3.z, m.r3.w;
      var sx, sy, sz := c0y*c1z - c0z*c1y, c0z*c1x - c0x*c1z, c0x*c1y - c0y*c1x;
      var tx, ty, tz := c2y*c3z - c2z*c3y, c2z*c3x - c2x*c3z, c2x*c3y - c2y*c3x;
      var ux, uy, uz := c0x*y - c1x*x, c0y*y - c1y*x, c0z*y - c1z*x;
      var vx, vy, vz := c2x*w - c3x*z, c2y*w - c3y*z, c2z*w - c3z*z;
      m.r2.x*n.r0.z + m.r2.y*n.r1.z + m.r2.z*n.r2.z + m.r2.w*n.r3.z == sx*vx + sy*vy + sz*vz + tx*ux + ty*uy + tz*uz
  {
  }

  lemma RightProduct23(m: Matrix4x4, n: Matrix4x4)
    requires
      var c0x, c0y, c0z := m.r0.x, m.r1.x, m.r2.x;
      var c1x, c1y, c1z := m.r0.y, m.r1.y, m.r2.y;
      var c2x, c2y, c2z := m.r0.z, m.r1.z, m.r2.z;
      var c3x, c3y, c3z := m.r0.w, m.r1.w, m.r2.w;
      var x, y, z, w := m.r3.x, m.r3.y, m.r3.z, m.r3.w;
      var sx, sy, sz := c0y*c1z - c0z*c1y, c0z*c1x - c0x*c1z, c0x*c1y - c0y*c1x;
      var tx, ty, tz := c2y*c3z - c2z*c3y, c2z*c3x - c2x*c3z, c2x*c3y - c2y*c3x;
      var ux, uy, uz := c0x*y - c1x*x, c0y*y - c1y*x, c0z*y - c1z*x;
      var vx, vy, vz := c2x*w - c3x*z, c2y*w - c3y*z, c2z*w - c3z*z;
      n.r0.w == -(c1x*tx + c1y*ty + c1z*tz) && n.r1.w == c0x*tx + c0y*ty + c0z*tz && n.r2.w == -(c3x*sx + c3y*sy + c3z*sz) && n.r3.w == c2x*sx + c2y*sy + c2z*sz
    ensures
      var c0x, c0y, c0z := m.r0.x, m.r1.x, m.r2.x;
      var c1x, c1y, c1z := m.r0.y, m.r1.y, m.r2.y;
      var c2x, c2y, c2z := m.r0.z, m.r1.z, m.r2.z;
      var c3x, c3y, c3z := m.r0.w, m.r1.w, m.r2.w;
      var x, y, z, w := m.r3.x, m.r3.y, m.r3.z, m.r3.w;
      var sx, sy, sz := c0y*c1z - c0z*c1y, c0z*c1x - c0x*c1z, c0x*c1y - c0y*c1x;
      var tx, ty, tz := c2y*c3z - c2z*c3y, c2z*c3x - c2x*c3z, c2x*c3y - c2y*c3x;
      var ux, uy, uz := c0x*y - c1x*x, c0y*y - c1y*x, c0z*y - c1z*x;
      var vx, vy, vz := c2x*w - c3x*z, c2y*w - c3y*z, c2z*w - c3z*z;
      m.r2.x*n.r0.w + m.r2.y*n.r1.w + m.r2.z*n.r2.w + m.r2.w*n.r3.w == 0.0
  {
  }

  lemma RightProduct30(m: Matrix4x4, n: Matrix4x4)
    requires
      var c0x, c0y, c0z := m.r0.x, m.r1.x, m.r2.x;
      var c1x, c1y, c1z := m.r0.y, m.r1.y, m.r2.y;
      var c2x, c2y, c2z := m.r0.z, m.r1.z, m.r2.z;
      var c3x, c3y, c3z := m.r0.w, m.r1.w, m.r2.w;
      var x, y, z, w := m.r3.x, m.r3.y, m.r3.z, m.r3.w;
      var sx, sy, sz := c0y*c1z - c0z*c1y, c0z*c1x - c0x*c1z, c0x*c1y - c0y*c1x;
      var tx, ty, tz := c2y*c3z - c2z*c3y, c2z*c3x - c2x*c3z, c2x*c3y - c2y*c3x;
      var ux, uy, uz := c0x*y - c1x*x, c0y*y - c1y*x, c0z*y - c1z*x;
      var vx, vy, vz := c2x*w - c3x*z, c2y*w - c3y*z, c2z*w - c3z*z;
      n.r0.x == c1y*vz - c1z*vy + tx*y && n.r1.x == vy*c0z - vz*c0y - tx*x && n.r2.x == c3y*uz - c3z*uy + sx*w && n.r3.x == uy*c2z - uz*c2y - sx*z
    ensures
      var c0x, c0y, c0z := m.r0.x, m.r1.x, m.r2.x;
      var c1x, c1y, c1z := m.r0.y, m.r1.y, m.r2.y;
      var c2x, c2y, c2z := m.r0.z, m.r1.z, m.r2.z;
      var c3x, c3y, c3z := m.r0.w, m.r1.w, m.r2.w;
      var x, y, z, w := m.r3.x, m.r3.y, m.r3.z, m.r3.w;
      var sx, sy, sz := c0y*c1z - c0z*c1y, c0z*c1x - c0x*c1z, c0x*c1y - c0y*c1x;
      var tx, ty, tz := c2y*c3z - c2z*c3y, c2z*c3x - c2x*c3z, c2x*c3y - c2y*c3x;
      var ux, uy, uz := c0x*y - c1x*x, c0y*y - c1y*x, c0z*y - c1z*x;
      var vx, vy, vz := c2x*w - c3x*z, c2y*w - c3y*z, c2z*w - c3z*z;
      m.r3.x*n.r0.x + m.r3.y*n.r1.x + m.r3.z*n.r2.x + m.r3.w*n.r3.x == 0.0
  {
  }

  lemma RightProduct31(m: Matrix4x4, n: Matrix4x4)
    requires
      var c0x, c0y, c0z := m.r0.x, m.r1.x, m.r2.x;
      var c1x, c1y, c1z := m.r0.y, m.r1.y, m.r2.y;
      var c2x, c2y, c2z := m.r0.z, m.r1.z, m.r2.z;
      var c3x, c3y, c3z := m.r0.w, m.r1.w, m.r2.w;
      var x, y, z, w := m.r3.x, m.r3.y, m.r3.z, m.r3.w;
      var sx, sy, sz := c0y*c1z - c0z*c1y, c0z*c1x - c0x*c1z, c0x*c1y - c0y*c1x;
      var tx, ty, tz := c2y*c3z - c2z*c3y, c2z*c3x - c2x*c3z, c2x*c3y - c2y*c3x;
      var ux, uy, uz := c0x*y - c1x*x, c0y*y - c1y*x, c0z*y - c1z*x;
      var vx, vy, vz := c2x*w - c3x*z, c2y*w - c3y*z, c2z*w - c3z*z;
      n.r0.y == c1z*vx - c1x*vz + ty*y && n.r1.y == vz*c0x - vx*c0z - ty*x && n.r2.y == c3z*ux - c3x*uz + sy*w && n.r3.y == uz*c2x - ux*c2z - sy*z
    ensures
      var c0x, c0y, c0z := m.r0.x, m.r1.x, m.r2.x;
      var c1x, c1y, c1z := m.r0.y, m.r1.y, m.r2.y;
      var c2x, c2y, c2z := m.r0.z, m.r1.z, m.r2.z;
      var c3x, c3y, c3z := m.r0.w, m.r1.w, m.r2.w;
      var x, y, z, w := m.r3.x, m.r3.y, m.r3.z, m.r3.w;
      var sx, sy, sz := c0y*c1z - c0z*c1y, c0z*c1x - c0x*c1z, c0x*c1y - c0y*c1x;
      var tx, ty, tz := c2y*c3z - c2z*c3y, c2z*c3x - c2x*c3z, c2x*c3y - c2y*c3x;
      var ux, uy, uz := c0x*y - c1x*x, c0y*y - c1y*x, c0z*y - c1z*x;
      var vx, vy, vz := c2x*w - c3x*z, c2y*w - c3y*z, c2z*w - c3z*z;
      m.r3.x*n.r0.y + m.r3.y*n.r1.y + m.r3.z*n.r2.y + m.r3.w*n.r3.y == 0.0
  {
  }

  lemma RightProduct32(m: Matrix4x4, n: Matrix4x4)
    requires
      var c0x, c0y, c0z := m.r0.x, m.r1.x, m.r2.x;
      var c1x, c1y, c1z := m.r0.y, m.r1.y, m.r2.y;
      var c2x, c2y, c2z := m.r0.z, m.r1.z, m.r2.z;
      var c3x, c3y, c3z := m.r0.w, m.r1.w, m.r2.w;
      var x, y, z, w := m.r3.x, m.r3.y, m.r3.z, m.r3.w;
      var sx, sy, sz := c0y*c1z - c0z*c1y, c0z*c1x - c0x*c1z, c0x*c1y - c0y*c1x;
      var tx, ty, tz := c2y*c3z - c2z*c3y, c2z*c3x - c2x*c3z, c2x*c3y - c2y*c3x;
      var ux, uy, uz := c0x*y - c1x*x, c0y*y - c1y*x, c0z*y - c1z*x;
      var vx, vy, vz := c2x*w - c3x*z, c2y*w - c3y*z, c2z*w - c3z*z;
      n.r0.z == c1x*vy - c1y*vx + tz*y && n.r1.z == vx*c0y - vy*c0x - tz*x && n.r2.z == c3x*uy - c3y*ux + sz*w && n.r3.z == ux*c2y - uy*c2x - sz*z
    ensures
      var c0x, c0y, c0z := m.r0.x, m.r1.x, m.r2.x;
      var c1x, c1y, c1z := m.r0.y, m.r1.y, m.r2.y;
      var c2x, c2y, c2z := m.r0.z, m.r1.z, m.r2.z;
      var c3x, c3y, c3z := m.r0.w, m.r1.w, m.r2.w;
      var x, y, z, w := m.r3.x, m.r3.y, m.r3.z, m.r3.w;
      var sx, sy, sz := c0y*c1z - c0z*c1y, c0z*c1x - c0x*c1z, c0x*c1y - c0y*c1x;
      var tx, ty, tz := c2y*c3z - c2z*c3y, c2z*c3x - c2x*c3z, c2x*c3y - c2y*c3x;
      var ux, uy, uz := c0x*y - c1x*x, c0y*y - c1y*x, c0z*y - c1z*x;
      var vx, vy, vz := c2x*w - c3x*z, c2y*w - c3y*z, c2z*w - c3z*z;
      m.r3.x*n.r0.z + m.r3.y*n.r1.z + m.r3.z*n.r2.z + m.r3.w*n.r3.z == 0.0
  {
  }

  lemma RightProduct33(m: Matrix4x4, n: Matrix4x4)
    requires
      var c0x, c0y, c0z := m.r0.x, m.r1.x, m.r2.x;
      var c1x, c1y, c1z := m.r0.y, m.r1.y, m.r2.y;
      var c2x, c2y, c2z := m.r0.z, m.r1.z, m.r2.z;
      var c3x, c3y, c3z := m.r0.w, m.r1.w, m.r2.w;
      var x, y, z, w := m.r3.x, m.r3.y, m.r3.z, m.r3.w;
      var sx, sy, sz := c0y*c1z - c0z*c1y, c0z*c1x - c0x*c1z, c0x*c1y - c0y*c1x;
      var tx, ty, tz := c2y*c3z - c2z*c3y, c2z*c3x - c2x*c3z, c2x*c3y - c2y*c3x;
      var ux, uy, uz := c0x*y - c1x*x, c0y*y - c1y*x, c0z*y - c1z*x;
      var vx, vy, vz := c2x*w - c3x*z, c2y*w - c3y*z, c2z*w - c3z*z;
      n.r0.w == -(c1x*tx + c1y*ty + c1z*tz) && n.r1.w == c0x*tx + c0y*ty + c0z*tz && n.r2.w == -(c3x*sx + c3y*sy + c3z*sz) && n.r3.w == c2x*sx + c2y*sy + c2z*sz
    ensures
      var c0x, c0y, c0z := m.r0.x, m.r1.x, m.r2.x;
      var c1x, c1y, c1z := m.r0.y, m.r1.y, m.r2.y;
      var c2x, c2y, c2z := m.r0.z, m.r1.z, m.r2.z;
      var c3x, c3y, c3z := m.r0.w, m.r1.w, m.r2.w;
      var x, y, z, w := m.r3.x, m.r3.y, m.r3.z, m.r3.w;
      var sx, sy, sz := c0y*c1z - c0z*c1y, c0z*c1x - c0x*c1z, c0x*c1y - c0y*c1x;
      var tx, ty, tz := c2y*c3z - c2z*c3y, c2z*c3x - c2x*c3z, c2x*c3y - c2y*c3x;
      var ux, uy, uz := c0x*y - c1x*x, c0y*y - c1y*x, c0z*y - c1z*x;
      var vx, vy, vz := c2x*w - c3x*z, c2y*w - c3y*z, c2z*w - c3z*z;
      m.r3.x*n.r0.w + m.r3.y*n.r1.w + m.r3.z*n.r2.w + m.r3.w*n.r3.w == sx*vx + sy*vy + sz*vz + tx*ux + ty*uy + tz*uz
  {
  }

  lemma LeftProduct00(m: Matrix4x4, n: Matrix4x4)
    requires
      var c0x, c0y, c0z := m.r0.x, m.r1.x, m.r2.x;
      var c1x, c1y, c1z := m.r0.y, m.r1.y, m.r2.y;
      var c2x, c2y, c2z := m.r0.z, m.r1.z, m.r2.z;
      var c3x, c3y, c3z := m.r0.w, m.r1.w, m.r2.w;
      var x, y, z, w := m.r3.x, m.r3.y, m.r3.z, m.r3.w;
      var sx, sy, sz := c0y*c1z - c0z*c1y, c0z*c1x - c0x*c1z, c0x*c1y - c0y*c1x;
      var tx, ty, tz := c2y*c3z - c2z*c3y, c2z*c3x - c2x*c3z, c2x*c3y - c2y*c3x;
      var ux, uy, uz := c0x*y - c1x*x, c0y*y - c1y*x, c0z*y - c1z*x;
      var vx, vy, vz := c2x*w - c3x*z, c2y*w - c3y*z, c2z*w - c3z*z;
      n.r0.x == c1y*vz - c1z*vy + tx*y && n.r0.y == c1z*vx - c1x*vz + ty*y && n.r0.z == c1x*vy - c1y*vx + tz*y && n.r0.w == -(c1x*tx + c1y*ty + c1z*tz)
    ensures
      var c0x, c0y, c0z := m.r0.x, m.r1.x, m.r2.x;
      var c1x, c1y, c1z := m.r0.y, m.r1.y, m.r2.y;
      var c2x, c2y, c2z := m.r0.z, m.r1.z, m.r2.z;
      var c3x, c3y, c3z := m.r0.w, m.r1.w, m.r2.w;
      var x, y, z, w := m.r3.x, m.r3.y, m.r3.z, m.r3.w;
      var sx, sy, sz := c0y*c1z - c0z*c1y, c0z*c1x - c0x*c1z, c0x*c1y - c0y*c1x;
      var tx, ty, tz := c2y*c3z - c2z*c3y, c2z*c3x - c2x*c3z, c2x*c3y - c2y*c3x;
      var ux, uy, uz := c0x*y - c1x*x, c0y*y - c1y*x, c0z*y - c1z*x;
      var vx, vy, vz := c2x*w - c3x*z, c2y*w - c3y*z, c2z*w - c3z*z;
      n.r0.x*m.r0.x + n.r0.y*m.r1.x + n.r0.z*m.r2.x + n.r0.w*m.r3.x == sx*vx + sy*vy + sz*vz + tx*ux + ty*uy + tz*uz
  {
  }

  lemma LeftProduct01(m: Matrix4x4, n: Matrix4x4)
    requires
      var c0x, c0y, c0z := m.r0.x, m.r1.x, m.r2.x;
      var c1x, c1y, c1z := m.r0.y, m.r1.y, m.r2.y;
      var c2x, c2y, c2z := m.r0.z, m.r1.z, m.r2.z;
      var c3x, c3y, c3z := m.r0.w, m.r1.w, m.r2.w;
      var x, y, z, w := m.r3.x, m.r3.y, m.r3.z, m.r3.w;
      var sx, sy, sz := c0y*c1z - c0z*c1y, c0z*c1x - c0x*c1z, c0x*c1y - c0y*c1x;
      var tx, ty, tz := c2y*c3z - c2z*c3y, c2z*c3x - c2x*c3z, c2x*c3y - c2y*c3x;
      var ux, uy, uz := c0x*y - c1x*x, c0y*y - c1y*x, c0z*y - c1z*x;
      var vx, vy, vz := c2x*w - c3x*z, c2y*w - c3y*z, c2z*w - c3z*z;
      n.r0.x == c1y*vz - c1z*vy + tx*y && n.r0.y == c1z*vx - c1x*vz + ty*y && n.r0.z == c1x*vy - c1y*vx + tz*y && n.r0.w == -(c1x*tx + c1y*ty + c1z*tz)
    ensures
      var c0x, c0y, c0z := m.r0.x, m.r1.x, m.r2.x;
      var c1x, c1y, c1z := m.r0.y, m.r1.y, m.r2.y;
      var c2x, c2y, c2z := m.r0.z, m.r1.z, m.r2.z;
      var c3x, c3y, c3z := m.r0.w, m.r1.w, m.r2.w;
      var x, y, z, w := m.r3.x, m.r3.y, m.r3.z, m.r3.w;
      var sx, sy, sz := c0y*c1z - c0z*c1y, c0z*c1x - c0x*c1z, c0x*c1y - c0y*c1x;
      var tx, ty, tz := c2y*c3z - c2z*c3y, c2z*c3x - c2x*c3z, c2x*c3y - c2y*c3x;
      var ux, uy, uz := c0x*y - c1x*x, c0y*y - c1y*x, c0z*y - c1z*x;
      var vx, vy, vz := c2x*w - c3x*z, c2y*w - c3y*z, c2z*w - c3z*z;
      n.r0.x*m.r0.y + n.r0.y*m.r1.y + n.r0.z*m.r2.y + n.r0.w*m.r3.y == 0.0
  {
  }

  lemma LeftProduct02(m: Matrix4x4, n: Matrix4x4)
    requires
      var c0x, c0y, c0z := m.r0.x, m.r1.x, m.r2.x;
      var c1x, c1y, c1z := m.r0.y, m.r1.y, m.r2.y;
      var c2x, c2y, c2z := m.r0.z, m.r1.z, m.r2.z;
      var c3x, c3y, c3z := m.r0.w, m.r1.w, m.r2.w;
      var x, y, z, w := m.r3.x, m.r3.y, m.r3.z, m.r3.w;
      var sx, sy, sz := c0y*c1z - c0z*c1y, c0z*c1x - c0x*c1z, c0x*c1y - c0y*c1x;
      var tx, ty, tz := c2y*c3z - c2z*c3y, c2z*c3x - c2x*c3z, c2x*c3y - c2y*c3x;
      var ux, uy, uz := c0x*y - c1x*x, c0y*y - c1y*x, c0z*y - c1z*x;
      var vx, vy, vz := c2x*w - c3x*z, c2y*w - c3y*z, c2z*w - c3z*z;
      n.r0.x == c1y*vz - c1z*vy + tx*y && n.r0.y == c1z*vx - c1x*vz + ty*y && n.r0.z == c1x*vy - c1y*vx + tz*y && n.r0.w == -(c1x*tx + c1y*ty + c1z*tz)
    ensures
      var c0x, c0y, c0z := m.r0.x, m.r1.x, m.r2.x;
      var c1x, c1y, c1z := m.r0.y, m.r1.y, m.r2.y;
      var c2x, c2y, c2z := m.r0.z, m.r1.z, m.r2.z;
      var c3x, c3y, c3z := m.r0.w, m.r1.w, m.r2.w;
      var x, y, z, w := m.r3.x, m.r3.y, m.r3.z, m.r3.w;
      var sx, sy, sz := c0y*c1z - c0z*c1y, c0z*c1x - c0x*c1z, c0x*c1y - c0y*c1x;
      var tx, ty, tz := c2y*c3z - c2z*c3y, c2z*c3x - c2x*c3z, c2x*c3y - c2y*c3x;
      var ux, uy, uz := c0x*y - c1x*x, c0y*y - c1y*x, c0z*y - c1z*x;
      var vx, vy, vz := c2x*w - c3x*z, c2y*w - c3y*z, c2z*w - c3z*z;
      n.r0.x*m.r0.z + n.r0.y*m.r1.z + n.r0.z*m.r2.z + n.r0.w*m.r3.z == 0.0
  {
  }

  lemma LeftProduct03(m: Matrix4x4, n: Matrix4x4)
    requires
      var c0x, c0y, c0z := m.r0.x, m.r1.x, m.r2.x;
      var c1x, c1y, c1z := m.r0.y, m.r1.y, m.r2.y;
      var c2x, c2y, c2z := m.r0.z, m.r1.z, m.r2.z;
      var c3x, c3y, c3z := m.r0.w, m.r1.w, m.r2.w;
      var x, y, z, w := m.r3.x, m.r3.y, m.r3.z, m.r3.w;
      var sx, sy, sz := c0y*c1z - c0z*c1y, c0z*c1x - c0x*c1z, c0x*c1y - c0y*c1x;
      var tx, ty, tz := c2y*c3z - c2z*c3y, c2z*c3x - c2x*c3z, c2x*c3y - c2y*c3x;
      var ux, uy, uz := c0x*y - c1x*x, c0y*y - c1y*x, c0z*y - c1z*x;
      var vx, vy, vz := c2x*w - c3x*z, c2y*w - c3y*z, c2z*w - c3z*z;
      n.r0.x == c1y*vz - c1z*vy + tx*y && n.r0.y == c1z*vx - c1x*vz + ty*y && n.r0.z == c1x*vy - c1y*vx + tz*y && n.r0.w == -(c1x*tx + c1y*ty + c1z*tz)
    ensures
      var c0x, c0y, c0z := m.r0.x, m.r1.x, m.r2.x;
      var c1x, c1y, c1z := m.r0.y, m.r1.y, m.r2.y;
      var c2x, c2y, c2z := m.r0.z, m.r1.z, m.r2.z;
      var c3x, c3y, c3z := m.r0.w, m.r1.w, m.r2.w;
      var x, y, z, w := m.r3.x, m.r3.y, m.r3.z, m.r3.w;
      var sx, sy, sz := c0y*c1z - c0z*c1y, c0z*c1x - c0x*c1z, c0x*c1y - c0y*c1x;
      var tx, ty, tz := c2y*c3z - c2z*c3y, c2z*c3x - c2x*c3z, c2x*c3y - c2y*c3x;
      var ux, uy, uz := c0x*y - c1x*x, c0y*y - c1y*x, c0z*y - c1z*x;
      var vx, vy, vz := c2x*w - c3x*z, c2y*w - c3y*z, c2z*w - c3z*z;
      n.r0.x*m.r0.w + n.r0.y*m.r1.w + n.r0.z*m.r2.w + n.r0.w*m.r3.w == 0.0
  {
  }

  lemma LeftProduct10(m: Matrix4x4, n: Matrix4x4)
    requires
      var c0x, c0y, c0z := m.r0.x, m.r1.x, m.r2.x;
      var c1x, c1y, c1z := m.r0.y, m.r1.y, m.r2.y;
      var c2x, c2y, c2z := m.r0.z, m.r1.z, m.r2.z;
      var c3x, c3y, c3z := m.r0.w, m.r1.w, m.r2.w;
      var x, y, z, w := m.r3.x, m.r3.y, m.r3.z, m.r3.w;
      var sx, sy, sz := c0y*c1z - c0z*c1y, c0z*c1x - c0x*c1z, c0x*c1y - c0y*c1x;
      var tx, ty, tz := c2y*c3z - c2z*c3y, c2z*c3x - c2x*c3z, c2x*c3y - c2y*c3x;
      var ux, uy, uz := c0x*y - c1x*x, c0y*y - c1y*x, c0z*y - c1z*x;
      var vx, vy, vz := c2x*w - c3x*z, c2y*w - c3y*z, c2z*w - c3z*z;
      n.r1.x == vy*c0z - vz*c0y - tx*x && n.r1.y == vz*c0x - vx*c0z - ty*x && n.r1.z == vx*c0y - vy*c0x - tz*x && n.r1.w == c0x*tx + c0y*ty + c0z*tz
    ensures
      var c0x, c0y, c0z := m.r0.x, m.r1.x, m.r2.x;
      var c1x, c1y, c1z := m.r0.y, m.r1.y, m.r2.y;
      var c2x, c2y, c2z := m.r0.z, m.r1.z, m.r2.z;
      var c3x, c3y, c3z := m.r0.w, m.r1.w, m.r2.w;
      var x, y, z, w := m.r3.x, m.r3.y, m.r3.z, m.r3.w;
      var sx, sy, sz := c0y*c1z - c0z*c1y, c0z*c1x - c0x*c1z, c0x*c1y - c0y*c1x;
      var tx, ty, tz := c2y*c3z - c2z*c3y, c2z*c3x - c2x*c3z, c2x*c3y - c2y*c3x;
      var ux, uy, uz := c0x*y - c1x*x, c0y*y - c1y*x, c0z*y - c1z*x;
      var vx, vy, vz := c2x*w - c3x*z, c2y*w - c3y*z, c2z*w - c3z*z;
      n.r1.x*m.r0.x + n.r1.y*m.r1.x + n.r1.z*m.r2.x + n.r1.w*m.r3.x == 0.0
  {
  }

  lemma LeftProduct11(m: Matrix4x4, n: Matrix4x4)
    requires
      var c0x, c0y, c0z := m.r0.x, m.r1.x, m.r2.x;
      var c1x, c1y, c1z := m.r0.y, m.r1.y, m.r2.y;
      var c2x, c2y, c2z := m.r0.z, m.r1.z, m.r2.z;
      var c3x, c3y, c3z := m.r0.w, m.r1.w, m.r2.w;
      var x, y, z, w := m.r3.x, m.r3.y, m.r3.z, m.r3.w;
      var sx, sy, sz := c0y*c1z - c0z*c1y, c0z*c1x - c0x*c1z, c0x*c1y - c0y*c1x;
      var tx, ty, tz := c2y*c3z - c2z*c3y, c2z*c3x - c2x*c3z, c2x*c3y - c2y*c3x;
      var ux, uy, uz := c0x*y - c1x*x, c0y*y - c1y*x, c0z*y - c1z*x;
      var vx, vy, vz := c2x*w - c3x*z, c2y*w - c3y*z, c2z*w - c3z*z;
      n.r1.x == vy*c0z - vz*c0y - tx*x && n.r1.y == vz*c0x - vx*c0z - ty*x && n.r1.z == vx*c0y - vy*c0x - tz*x && n.r1.w == c0x*tx + c0y*ty + c0z*tz
    ensures
      var c0x, c0y, c0z := m.r0.x, m.r1.x, m.r2.x;
      var c1x, c1y, c1z := m.r0.y, m.r1.y, m.r2.y;
      var c2x, c2y, c2z := m.r0.z, m.r1.z, m.r2.z;
      var c3x, c3y, c3z := m.r0.w, m.r1.w, m.r2.w;
      var x, y, z, w := m.r3.x, m.r3.y, m.r3.z, m.r3.w;
      var sx, sy, sz := c0y*c1z - c0z*c1y, c0z*c1x - c0x*c1z, c0x*c1y - c0y*c1x;
      var tx, ty, tz := c2y*c3z - c2z*c3y, c2z*c3x - c2x*c3z, c2x*c3y - c2y*c3x;
      var ux, uy, uz := c0x*y - c1x*x, c0y*y - c1y*x, c0z*y - c1z*x;
      var vx, vy, vz := c2x*w - c3x*z, c2y*w - c3y*z, c2z*w - c3z*z;
      n.r1.x*m.r0.y + n.r1.y*m.r1.y + n.r1.z*m.r2.y + n.r1.w*m.r3.y == sx*vx + sy*vy + sz*vz + tx*ux + ty*uy + tz*uz
  {
  }

  lemma LeftProduct12(m: Matrix4x4, n: Matrix4x4)
    requires
      var c0x, c0y, c0z := m.r0.x, m.r1.x, m.r2.x;
      var c1x, c1y, c1z := m.r0.y, m.r1.y, m.r2.y;
      var c2x, c2y, c2z := m.r0.z, m.r1.z, m.r2.z;
      var c3x, c3y, c3z := m.r0.w, m.r1.w, m.r2.w;
      var x, y, z, w := m.r3.x, m.r3.y, m.r3.z, m.r3.w;
      var sx, sy, sz := c0y*c1z - c0z*c1y, c0z*c1x - c0x*c1z, c0x*c1y - c0y*c1x;
      var tx, ty, tz := c2y*c3z - c2z*c3y, c2z*c3x - c2x*c3z, c2x*c3y - c2y*c3x;
      var ux, uy, uz := c0x*y - c1x*x, c0y*y - c1y*x, c0z*y - c1z*x;
      var vx, vy, vz := c2x*w - c3x*z, c2y*w - c3y*z, c2z*w - c3z*z;
      n.r1.x == vy*c0z - vz*c0y - tx*x && n.r1.y == vz*c0x - vx*c0z - ty*x && n.r1.z == vx*c0y - vy*c0x - tz*x && n.r1.w == c0x*tx + c0y*ty + c0z*tz
    ensures
      var c0x, c0y, c0z := m.r0.x, m.r1.x, m.r2.x;
      var c1x, c1y, c1z := m.r0.y, m.r1.y, m.r2.y;
      var c2x, c2y, c2z := m.r0.z, m.r1.z, m.r2.z;
      var c3x, c3y, c3z := m.r0.w, m.r1.w, m.r2.w;
      var x, y, z, w := m.r3.x, m.r3.y, m.r3.z, m.r3.w;
      var sx, sy, sz := c0y*c1z - c0z*c1y, c0z*c1x - c0x*c1z, c0x*c1y - c0y*c1x;
      var tx, ty, tz := c2y*c3z - c2z*c3y, c2z*c3x - c2x*c3z, c2x*c3y - c2y*c3x;
      var ux, uy, uz := c0x*y - c1x*x, c0y*y - c1y*x, c0z*y - c1z*x;
      var vx, vy, vz := c2x*w - c3x*z, c2y*w - c3y*z, c2z*w - c3z*z;
      n.r1.x*m.r0.z + n.r1.y*m.r1.z + n.r1.z*m.r2.z + n.r1.w*m.r3.z == 0.0
  {
  }

  lemma LeftProduct13(m: Matrix4x4, n: Matrix4x4)
    requires
      var c0x, c0y, c0z := m.r0.x, m.r1.x, m.r2.x;
      var c1x, c1y, c1z := m.r0.y, m.r1.y, m.r2.y;
      var c2x, c2y, c2z := m.r0.z, m.r1.z, m.r2.z;
      var c3x, c3y, c3z := m.r0.w, m.r1.w, m.r2.w;
      var x, y, z, w := m.r3.x, m.r3.y, m.r3.z, m.r3.w;
      var sx, sy, sz := c0y*c1z - c0z*c1y, c0z*c1x - c0x*c1z, c0x*c1y - c0y*c1x;
      var tx, ty, tz := c2y*c3z - c2z*c3y, c2z*c3x - c2x*c3z, c2x*c3y - c2y*c3x;
      var ux, uy, uz := c0x*y - c1x*x, c0y*y - c1y*x, c0z*y - c1z*x;
      var vx, vy, vz := c2x*w - c3x*z, c2y*w - c3y*z, c2z*w - c3z*z;
      n.r1.x == vy*c0z - vz*c0y - tx*x && n.r1.y == vz*c0x - vx*c0z - ty*x && n.r1.z == vx*c0y - vy*c0x - tz*x && n.r1.w == c0x*tx + c0y*ty + c0z*tz
    ensures
      var c0x, c0y, c0z := m.r0.x, m.r1.x, m.r2.x;
      var c1x, c1y, c1z := m.r0.y, m.r1.y, m.r2.y;
      var c2x, c2y, c2z := m.r0.z, m.r1.z, m.r2.z;
      var c3x, c3y, c3z := m.r0.w, m.r1.w, m.r2.w;
      var x, y, z, w := m.r3.x, m.r3.y, m.r3.z, m.r3.w;
      var sx, sy, sz := c0y*c1z - c0z*c1y, c0z*c1x - c0x*c1z, c0x*c1y - c0y*c1x;
      var tx, ty, tz := c2y*c3z - c2z*c3y, c2z*c3x - c2x*c3z, c2x*c3y - c2y*c3x;
      var ux, uy, uz := c0x*y - c1x*x, c0y*y - c1y*x, c0z*y - c1z*x;
      var vx, vy, vz := c2x*w - c3x*z, c2y*w - c3y*z, c2z*w - c3z*z;
      n.r1.x*m.r0.w + n.r1.y*m.r1.w + n.r1.z*m.r2.w + n.r1.w*m.r3.w == 0.0
  {
  }

  lemma LeftProduct20(m: Matrix4x4, n: Matrix4x4)
    requires
      var c0x, c0y, c0z := m.r0.x, m.r1.x, m.r2.x;
      var c1x, c1y, c1z := m.r0.y, m.r1.y, m.r2.y;
      var c2x, c2y, c2z := m.r0.z, m.r1.z, m.r2.z;
      var c3x, c3y, c3z := m.r0.w, m.r1.w, m.r2.w;
      var x, y, z, w := m.r3.x, m.r3.y, m.r3.z, m.r3.w;
      var sx, sy, sz := c0y*c1z - c0z*c1y, c0z*c1x - c0x*c1z, c0x*c1y - c0y*c1x;
      var tx, ty, tz := c2y*c3z - c2z*c3y, c2z*c3x - c2x*c3z, c2x*c3y - c2y*c3x;
      var ux, uy, uz := c0x*y - c1x*x, c0y*y - c1y*x, c0z*y - c1z*x;
      var vx, vy, vz := c2x*w - c3x*z, c2y*w - c3y*z, c2z*w - c3z*z;
      n.r2.x == c3y*uz - c3z*uy + sx*w && n.r2.y == c3z*ux - c3x*uz + sy*w && n.r2.z == c3x*uy - c3y*ux + sz*w && n.r2.w == -(c3x*sx + c3y*sy + c3z*sz)
    ensures
      var c0x, c0y, c0z := m.r0.x, m.r1.x, m.r2.x;
      var c1x, c1y, c1z := m.r0.y, m.r1.y, m.r2.y;
      var c2x, c2y, c2z := m.r0.z, m.r1.z, m.r2.z;
      var c3x, c3y, c3z := m.r0.w, m.r1.w, m.r2.w;
      var x, y, z, w := m.r3.x, m.r3.y, m.r3.z, m.r3.w;
      var sx, sy, sz := c0y*c1z - c0z*c1y, c0z*c1x - c0x*c1z, c0x*c1y - c0y*c1x;
      var tx, ty, tz := c2y*c3z - c2z*c3y, c2z*c3x - c2x*c3z, c2x*c3y - c2y*c3x;
      var ux, uy, uz := c0x*y - c1x*x, c0y*y - c1y*x, c0z*y - c1z*x;
      var vx, vy, vz := c2x*w - c3x*z, c2y*w - c3y*z, c2z*w - c3z*z;
      n.r2.x*m.r0.x + n.r2.y*m.r1.x + n.r2.z*m.r2.x + n.r2.w*m.r3.x == 0.0
  {
  }

  lemma LeftProduct21(m: Matrix4x4, n: Matrix4x4)
    requires
      var c0x, c0y, c0z := m.r0.x, m.r1.x, m.r2.x;
      var c1x, c1y, c1z := m.r0.y, m.r1.y, m.r2.y;
      var c2x, c2y, c2z := m.r0.z, m.r1.z, m.r2.z;
      var c3x, c3y, c3z := m.r0.w, m.r1.w, m.r2.w;
      var x, y, z, w := m.r3.x, m.r3.y, m.r3.z, m.r3.w;
      var sx, sy, sz := c0y*c1z - c0z*c1y, c0z*c1x - c0x*c1z, c0x*c1y - c0y*c1x;
      var tx, ty, tz := c2y*c3z - c2z*c3y, c2z*c3x - c2x*c3z, c2x*c3y - c2y*c3x;
      var ux, uy, uz := c0x*y - c1x*x, c0y*y - c1y*x, c0z*y - c1z*x;
      var vx, vy, vz := c2x*w - c3x*z, c2y*w - c3y*z, c2z*w - c3z*z;
      n.r2.x == c3y*uz - c3z*uy + sx*w && n.r2.y == c3z*ux - c3x*uz + sy*w && n.r2.z == c3x*uy - c3y*ux + sz*w && n.r2.w == -(c3x*sx + c3y*sy + c3z*sz)
    ensures
      var c0x, c0y, c0z := m.r0.x, m.r1.x, m.r2.x;
      var c1x, c1y, c1z := m.r0.y, m.r1.y, m.r2.y;
      var c2x, c2y, c2z := m.r0.z, m.r1.z, m.r2.z;
      var c3x, c3y, c3z := m.r0.w, m.r1.w, m.r2.w;
      var x, y, z, w := m.r3.x, m.r3.y, m.r3.z, m.r3.w;
      var sx, sy, sz := c0y*c1z - c0z*c1y, c0z*c1x - c0x*c1z, c0x*c1y - c0y*c1x;
      var tx, ty, tz := c2y*c3z - c2z*c3y, c2z*c3x - c2x*c3z, c2x*c3y - c2y*c3x;
      var ux, uy, uz := c0x*y - c1x*x, c0y*y - c1y*x, c0z*y - c1z*x;
      var vx, vy, vz := c2x*w - c3x*z, c2y*w - c3y*z, c2z*w - c3z*z;
      n.r2.x*m.r0.y + n.r2.y*m.r1.y + n.r2.z*m.r2.y + n.r2.w*m.r3.y == 0.0
  {
  }

  lemma LeftProduct22(m: Matrix4x4, n: Matrix4x4)
    requires
      var c0x, c0y, c0z := m.r0.x, m.r1.x, m.r2.x;
      var c1x, c1y, c1z := m.r0.y, m.r1.y, m.r2.y;
      var c2x, c2y, c2z := m.r0.z, m.r1.z, m.r2.z;
      var c3x, c3y, c3z := m.r0.w, m.r1.w, m.r2.w;
      var x, y, z, w := m.r3.x, m.r3.y, m.r3.z, m.r3.w;
      var sx, sy, sz := c0y*c1z - c0z*c1y, c0z*c1x - c0x*c1z, c0x*c1y - c0y*c1x;
      var tx, ty, tz := c2y*c3z - c2z*c3y, c2z*c3x - c2x*c3z, c2x*c3y - c2y*c3x;
      var ux, uy, uz := c0x*y - c1x*x, c0y*y - c1y*x, c0z*y - c1z*x;
      var vx, vy, vz := c2x*w - c3x*z, c2y*w - c3y*z, c2z*w - c3z*z;
      n.r2.x == c3y*uz - c3z*uy + sx*w && n.r2.y == c3z*ux - c3x*uz + sy*w && n.r2.z == c3x*uy - c3y*ux + sz*w && n.r2.w == -(c3x*sx + c3y*sy + c3z*sz)
    ensures
      var c0x, c0y, c0z := m.r0.x, m.r1.x, m.r2.x;
      var c1x, c1y, c1z := m.r0.y, m.r1.y, m.r2.y;
      var c2x, c2y, c2z := m.r0.z, m.r1.z, m.r2.z;
      var c3x, c3y, c3z := m.r0.w, m.r1.w, m.r2.w;
      var x, y, z, w := m.r3.x, m.r3.y, m.r3.z, m.r3.w;
      var sx, sy, sz := c0y*c1z - c0z*c1y, c0z*c1x - c0x*c1z, c0x*c1y - c0y*c1x;
      var tx, ty, tz := c2y*c3z - c2z*c3y, c2z*c3x - c2x*c3z, c2x*c3y - c2y*c3x;
      var ux, uy, uz := c0x*y - c1x*x, c0y*y - c1y*x, c0z*y - c1z*x;
      var vx, vy, vz := c2x*w - c3x*z, c2y*w - c3y*z, c2z*w - c3z*z;
      n.r2.x*m.r0.z + n.r2.y*m.r1.z + n.r2.z*m.r2.z + n.r2.w*m.r3.z == sx*vx + sy*vy + sz*vz + tx*ux + ty*uy + tz*uz
  {
  }

  lemma LeftProduct23(m: Matrix4x4, n: Matrix4x4)
    requires
      var c0x, c0y, c0z := m.r0.x, m.r1.x, m.r2.x;
      var c1x, c1y, c1z := m.r0.y, m.r1.y, m.r2.y;
      var c2x, c2y, c2z := m.r0.z, m.r1.z, m.r2.z;
      var c3x, c3y, c3z := m.r0.w, m.r1.w, m.r2.w;
      var x, y, z, w := m.r3.x, m.r3.y, m.r3.z, m.r3.w;
      var sx, sy, sz := c0y*c1z - c0z*c1y, c0z*c1x - c0x*c1z, c0x*c1y - c0y*c1x;
      var tx, ty, tz := c2y*c3z - c2z*c3y, c2z*c3x - c2x*c3z, c2x*c3y - c2y*c3x;
      var ux, uy, uz := c0x*y - c1x*x, c0y*y - c1y*x, c0z*y - c1z*x;
      var vx, vy, vz := c2x*w - c3x*z, c2y*w - c3y*z, c2z*w - c3z*z;
      n.r2.x == c3y*uz - c3z*uy + sx*w && n.r2.y == c3z*ux - c3x*uz + sy*w && n.r2.z == c3x*uy - c3y*ux + sz*w && n.r2.w == -(c3x*sx + c3y*sy + c3z*sz)
    ensures
      var c0x, c0y, c0z := m.r0.x, m.r1.x, m.r2.x;
      var c1x, c1y, c1z := m.r0.y, m.r1.y, m.r2.y;
      var c2x, c2y, c2z := m.r0.z, m.r1.z, m.r2.z;
      var c3x, c3y, c3z := m.r0.w, m.r1.w, m.r2.w;
      var x, y, z, w := m.r3.x, m.r3.y, m.r3.z, m.r3.w;
      var sx, sy, sz := c0y*c1z - c0z*c1y, c0z*c1x - c0x*c1z, c0x*c1y - c0y*c1x;
      var tx, ty, tz := c2y*c3z - c2z*c3y, c2z*c3x - c2x*c3z, c2x*c3y - c2y*c3x;
      var ux, uy, uz := c0x*y - c1x*x, c0y*y - c1y*x, c0z*y - c1z*x;
      var vx, vy, vz := c2x*w - c3x*z, c2y*w - c3y*z, c2z*w - c3z*z;
      n.r2.x*m.r0.w + n.r2.y*m.r1.w + n.r2.z*m.r2.w + n.r2.w*m.r3.w == 0.0
  {
  }

  lemma LeftProduct30(m: Matrix4x4, n: Matrix4x4)
    requires
      var c0x, c0y, c0z := m.r0.x, m.r1.x, m.r2.x;
      var c1x, c1y, c1z := m.r0.y, m.r1.y, m.r2.y;
      var c2x, c2y, c2z := m.r0.z, m.r1.z, m.r2.z;
      var c3x, c3y, c3z := m.r0.w, m.r1.w, m.r2.w;
      var x, y, z, w := m.r3.x, m.r3.y, m.r3.z, m.r3.w;
      var sx, sy, sz := c0y*c1z - c0z*c1y, c0z*c1x - c0x*c1z, c0x*c1y - c0y*c1x;
      var tx, ty, tz := c2y*c3z - c2z*c3y, c2z*c3x - c2x*c3z, c2x*c3y - c2y*c3x;
      var ux, uy, uz := c0x*y - c1x*x, c0y*y - c1y*x, c0z*y - c1z*x;
      var vx, vy, vz := c2x*w - c3x*z, c2y*w - c3y*z, c2z*w - c3z*z;
      n.r3.x == uy*c2z - uz*c2y - sx*z && n.r3.y == uz*c2x - ux*c2z - sy*z && n.r3.z == ux*c2y - uy*c2x - sz*z && n.r3.w == c2x*sx + c2y*sy + c2z*sz
    ensures
      var c0x, c0y, c0z := m.r0.x, m.r1.x, m.r2.x;
      var c1x, c1y, c1z := m.r0.y, m.r1.y, m.r2.y;
      var c2x, c2y, c2z := m.r0.z, m.r1.z, m.r2.z;
      var c3x, c3y, c3z := m.r0.w, m.r1.w, m.r2.w;
      var x, y, z, w := m.r3.x, m.r3.y, m.r3.z, m.r3.w;
      var sx, sy, sz := c0y*c1z - c0z*c1y, c0z*c1x - c0x*c1z, c0x*c1y - c0y*c1x;
      var tx, ty, tz := c2y*c3z - c2z*c3y, c2z*c3x - c2x*c3z, c2x*c3y - c2y*c3x;
      var ux, uy, uz := c0x*y - c1x*x, c0y*y - c1y*x, c0z*y - c1z*x;
      var vx, vy, vz := c2x*w - c3x*z, c2y*w - c3y*z, c2z*w - c3z*z;
      n.r3.x*m.r0.x + n.r3.y*m.r1.x + n.r3.z*m.r2.x + n.r3.w*m.r3.x == 0.0
  {
  }

  lemma LeftProduct31(m: Matrix4x4, n: Matrix4x4)
    requires
      var c0x, c0y, c0z := m.r0.x, m.r1.x, m.r2.x;
      var c1x, c1y, c1z := m.r0.y, m.r1.y, m.r2.y;
      var c2x, c2y, c2z := m.r0.z, m.r1.z, m.r2.z;
      var c3x, c3y, c3z := m.r0.w, m.r1.w, m.r2.w;
      var x, y, z, w := m.r3.x, m.r3.y, m.r3.z, m.r3.w;
      var sx, sy, sz := c0y*c1z - c0z*c1y, c0z*c1x - c0x*c1z, c0x*c1y - c0y*c1x;
      var tx, ty, tz := c2y*c3z - c2z*c3y, c2z*c3x - c2x*c3z, c2x*c3y - c2y*c3x;
      var ux, uy, uz := c0x*y - c1x*x, c0y*y - c1y*x, c0z*y - c1z*x;
      var vx, vy, vz := c2x*w - c3x*z, c2y*w - c3y*z, c2z*w - c3z*z;
      n.r3.x == uy*c2z - uz*c2y - sx*z && n.r3.y == uz*c2x - ux*c2z - sy*z && n.r3.z == ux*c2y - uy*c2x - sz*z && n.r3.w == c2x*sx + c2y*sy + c2z*sz
    ensures
      var c0x, c0y, c0z := m.r0.x, m.r1.x, m.r2.x;
      var c1x, c1y, c1z := m.r0.y, m.r1.y, m.r2.y;
      var c2x, c2y, c2z := m.r0.z, m.r1.z, m.r2.z;
      var c3x, c3y, c3z := m.r0.w, m.r1.w, m.r2.w;
      var x, y, z, w := m.r3.x, m.r3.y, m.r3.z, m.r3.w;
      var sx, sy, sz := c0y*c1z - c0z*c1y, c0z*c1x - c0x*c1z, c0x*c1y - c0y*c1x;
      var tx, ty, tz := c2y*c3z - c2z*c3y, c2z*c3x - c2x*c3z, c2x*c3y - c2y*c3x;
      var ux, uy, uz := c0x*y - c1x*x, c0y*y - c1y*x, c0z*y - c1z*x;
      var vx, vy, vz := c2x*w - c3x*z, c2y*w - c3y*z, c2z*w - c3z*z;
      n.r3.x*m.r0.y + n.r3.y*m.r1.y + n.r3.z*m.r2.y + n.r3.w*m.r3.y == 0.0
  {
  }

  lemma LeftProduct32(m: Matrix4x4, n: Matrix4x4)
    requires
      var c0x, c0y, c0z := m.r0.x, m.r1.x, m.r2.x;
      var c1x, c1y, c1z := m.r0.y, m.r1.y, m.r2.y;
      var c2x, c2y, c2z := m.r0.z, m.r1.z, m.r2.z;
      var c3x, c3y, c3z := m.r0.w, m.r1.w, m.r2.w;
      var x, y, z, w := m.r3.x, m.r3.y, m.r3.z, m.r3.w;
      var sx, sy, sz := c0y*c1z - c0z*c1y, c0z*c1x - c0x*c1z, c0x*c1y - c0y*c1x;
      var tx, ty, tz := c2y*c3z - c2z*c3y, c2z*c3x - c2x*c3z, c2x*c3y - c2y*c3x;
      var ux, uy, uz := c0x*y - c1x*x, c0y*y - c1y*x, c0z*y - c1z*x;
      var vx, vy, vz := c2x*w - c3x*z, c2y*w - c3y*z, c2z*w - c3z*z;
      n.r3.x == uy*c2z - uz*c2y - sx*z && n.r3.y == uz*c2x - ux*c2z - sy*z && n.r3.z == ux*c2y - uy*c2x - sz*z && n.r3.w == c2x*sx + c2y*sy + c2z*sz
    ensures
      var c0x, c0y, c0z := m.r0.x, m.r1.x, m.r2.x;
      var c1x, c1y, c1z := m.r0.y, m.r1.y, m.r2.y;
      var c2x, c2y, c2z := m.r0.z, m.r1.z, m.r2.z;
      var c3x, c3y, c3z := m.r0.w, m.r1.w, m.r2.w;
      var x, y, z, w := m.r3.x, m.r3.y, m.r3.z, m.r3.w;
      var sx, sy, sz := c0y*c1z - c0z*c1y, c0z*c1x - c0x*c1z, c0x*c1y - c0y*c1x;
      var tx, ty, tz := c2y*c3z - c2z*c3y, c2z*c3x - c2x*c3z, c2x*c3y - c2y*c3x;
      var ux, uy, uz := c0x*y - c1x*x, c0y*y - c1y*x, c0z*y - c1z*x;
      var vx, vy, vz := c2x*w - c3x*z, c2y*w - c3y*z, c2z*w - c3z*z;
      n.r3.x*m.r0.z + n.r3.y*m.r1.z + n.r3.z*m.r2.z + n.r3.w*m.r3.z == 0.0
  {
  }

  lemma LeftProduct33(m: Matrix4x4, n: Matrix4x4)
    requires
      var c0x, c0y, c0z := m.r0.x, m.r1.x, m.r2.x;
      var c1x, c1y, c1z := m.r0.y, m.r1.y, m.r2.y;
      var c2x, c2y, c2z := m.r0.z, m.r1.z, m.r2.z;
      var c3x, c3y, c3z := m.r0.w, m.r1.w, m.r2.w;
      var x, y, z, w := m.r3.x, m.r3.y, m.r3.z, m.r3.w;
      var sx, sy, sz := c0y*c1z - c0z*c1y, c0z*c1x - c0x*c1z, c0x*c1y - c0y*c1x;
      var tx, ty, tz := c2y*c3z - c2z*c3y, c2z*c3x - c2x*c3z, c2x*c3y - c2y*c3x;
      var ux, uy, uz := c0x*y - c1x*x, c0y*y - c1y*x, c0z*y - c1z*x;
      var vx, vy, vz := c2x*w - c3x*z, c2y*w - c3y*z, c2z*w - c3z*z;
      n.r3.x == uy*c2z - uz*c2y - sx*z && n.r3.y == uz*c2x - ux*c2z - sy*z && n.r3.z == ux*c2y - uy*c2x - sz*z && n.r3.w == c2x*sx + c2y*sy + c2z*sz
    ensures
      var c0x, c0y, c0z := m.r0.x, m.r1.x, m.r2.x;
      var c1x, c1y, c1z := m.r0.y, m.r1.y, m.r2.y;
      var c2x, c2y, c2z := m.r0.z, m.r1.z, m.r2.z;
      var c3x, c3y, c3z := m.r0.w, m.r1.w, m.r2.w;
      var x, y, z, w := m.r3.x, m.r3.y, m.r3.z, m.r3.w;
      var sx, sy, sz := c0y*c1z - c0z*c1y, c0z*c1x - c0x*c1z, c0x*c1y - c0y*c1x;
      var tx, ty, tz := c2y*c3z - c2z*c3y, c2z*c3x - c2x*c3z, c2x*c3y - c2y*c3x;
      var ux, uy, uz := c0x*y - c1x*x, c0y*y - c1y*x, c0z*y - c1z*x;
      var vx, vy, vz := c2x*w - c3x*z, c2y*w - c3y*z, c2z*w - c3z*z;
      n.r3.x*m.r0.w + n.r3.y*m.r1.w + n.r3.z*m.r2.w + n.r3.w*m.r3.w == sx*vx + sy*vy + sz*vz + tx*ux + ty*uy + tz*uz
  {
  }

  /** Both products of `m` with a matrix that has the adjugate's entries, entry by entry. */
  lemma ProductsWithAdjugateEntries(m: Matrix4x4, n: Matrix4x4)
    requires
      var c0x, c0y, c0z := m.r0.x, m.r1.x, m.r2.x;
      var c1x, c1y, c1z := m.r0.y, m.r1.y, m.r2.y;
      var c2x, c2y, c2z := m.r0.z, m.r1.z, m.r2.z;
      var c3x, c3y, c3z := m.r0.w, m.r1.w, m.r2.w;
      var x, y, z, w := m.r3.x, m.r3.y, m.r3.z, m.r3.w;
      var sx, sy, sz := c0y*c1z - c0z*c1y, c0z*c1x - c0x*c1z, c0x*c1y - c0y*c1x;
      var tx, ty, tz := c2y*c3z - c2z*c3y, c2z*c3x - c2x*c3z, c2x*c3y - c2y*c3x;
      var ux, uy, uz := c0x*y - c1x*x, c0y*y - c1y*x, c0z*y - c1z*x;
      var vx, vy, vz := c2x*w - c3x*z, c2y*w - c3y*z, c2z*w - c3z*z;
      n.r0.x == c1y*vz - c1z*vy + tx*y && n.r0.y == c1z*vx - c1x*vz + ty*y && n.r0.z == c1x*vy - c1y*vx + tz*y && n.r0.w == -(c1x*tx + c1y*ty + c1z*tz) &&
      n.r1.x == vy*c0z - vz*c0y - tx*x && n.r1.y == vz*c0x - vx*c0z - ty*x && n.r1.z == vx*c0y - vy*c0x - tz*x && n.r1.w == c0x*tx + c0y*ty + c0z*tz &&
      n.r2.x == c3y*uz - c3z*uy + sx*w && n.r2.y == c3z*ux - c3x*uz + sy*w && n.r2.z == c3x*uy - c3y*ux + sz*w && n.r2.w == -(c3x*sx + c3y*sy + c3z*sz) &&
      n.r3.x == uy*c2z - uz*c2y - sx*z && n.r3.y == uz*c2x - ux*c2z - sy*z && n.r3.z == ux*c2y - uy*c2x - sz*z && n.r3.w == c2x*sx + c2y*sy + c2z*sz
    ensures
      Mul(m, n).r0.x == BlockDeterminant(m) && Mul(m, n).r0.y == 0.0 && Mul(m, n).r0.z == 0.0 && Mul(m, n).r0.w == 0.0 &&
      Mul(m, n).r1.x == 0.0 && Mul(m, n).r1.y == BlockDeterminant(m) && Mul(m, n).r1.z == 0.0 && Mul(m, n).r1.w == 0.0 &&
      Mul(m, n).r2.x == 0.0 && Mul(m, n).r2.y == 0.0 && Mul(m, n).r2.z == BlockDeterminant(m) && Mul(m, n).r2.w == 0.0 &&
      Mul(m, n).r3.x == 0.0 && Mul(m, n).r3.y == 0.0 && Mul(m, n).r3.z == 0.0 && Mul(m, n).r3.w == BlockDeterminant(m) &&
      Mul(n, m).r0.x == BlockDeterminant(m) && Mul(n, m).r0.y == 0.0 && Mul(n, m).r0.z == 0.0 && Mul(n, m).r0.w == 0.0 &&
      Mul(n, m).r1.x == 0.0 && Mul(n, m).r1.y == BlockDeterminant(m) && Mul(n, m).r1.z == 0.0 && Mul(n, m).r1.w == 0.0 &&
      Mul(n, m).r2.x == 0.0 && Mul(n, m).r2.y == 0.0 && Mul(n, m).r2.z == BlockDeterminant(m) && Mul(n, m).r2.w == 0.0 &&
      Mul(n, m).r3.x == 0.0 && Mul(n, m).r3.y == 0.0 && Mul(n, m).r3.z == 0.0 && Mul(n, m).r3.w == BlockDeterminant(m)
  {
    ProductEntry00(m, n);
    ProductEntry00(n, m);
    ProductEntry01(m, n);
    ProductEntry01(n, m);
    ProductEntry02(m, n);
    ProductEntry02(n, m);
    ProductEntry03(m, n);
    ProductEntry03(n, m);
    ProductEntry10(m, n);
    ProductEntry10(n, m);
    ProductEntry11(m, n);
    ProductEntry11(n, m);
    ProductEntry12(m, n);
    ProductEntry12(n, m);
    ProductEntry13(m, n);
    ProductEntry13(n, m);
    ProductEntry20(m, n);
    ProductEntry20(n, m);
    ProductEntry21(m, n);
    ProductEntry21(n, m);
    ProductEntry22(m, n);
    ProductEntry22(n, m);
    ProductEntry23(m, n);
    ProductEntry23(n, m);
    ProductEntry30(m, n);
    ProductEntry30(n, m);
    ProductEntry31(m, n);
    ProductEntry31(n, m);
    ProductEntry32(m, n);
    ProductEntry32(n, m);
    ProductEntry33(m, n);
    ProductEntry33(n, m);
    RightProduct00(m, n);
    RightProduct01(m, n);
    RightProduct02(m, n);
    RightProduct03(m, n);
    RightProduct10(m, n);
    RightProduct11(m, n);
    RightProduct12(m, n);
    RightProduct13(m, n);
    RightProduct20(m, n);
    RightProduct21(m, n);
    RightProduct22(m, n);
    RightProduct23(m, n);
    RightProduct30(m, n);
    RightProduct31(m, n);
    RightProduct32(m, n);
    RightProduct33(m, n);
    LeftProduct00(m, n);
    LeftProduct01(m, n);
    LeftProduct02(m, n);
    LeftProduct03(m, n);
    LeftProduct10(m, n);
    LeftProduct11(m, n);
    LeftProduct12(m, n);
    LeftProduct13(m, n);
    LeftProduct20(m, n);
    LeftProduct21(m, n);
    LeftProduct22(m, n);
    LeftProduct23(m, n);
    LeftProduct30(m, n);
    LeftProduct31(m, n);
    LeftProduct32(m, n);
    LeftProduct33(m, n);
    BlockDeterminantPolynomial(m);
  }

  /** The adjugate's sixteen entries, together. */
  lemma AdjugateEntries(m: Matrix4x4)
    ensures
      var c0x, c0y, c0z := m.r0.x, m.r1.x, m.r2.x;
      var c1x, c1y, c1z := m.r0.y, m.r1.y, m.r2.y;
      var c2x, c2y, c2z := m.r0.z, m.r1.z, m.r2.z;
      var c3x, c3y, c3z := m.r0.w, m.r1.w, m.r2.w;
      var x, y, z, w := m.r3.x, m.r3.y, m.r3.z, m.r3.w;
      var sx, sy, sz := c0y*c1z - c0z*c1y, c0z*c1x - c0x*c1z, c0x*c1y - c0y*c1x;
      var tx, ty, tz := c2y*c3z - c2z*c3y, c2z*c3x - c2x*c3z, c2x*c3y - c2y*c3x;
      var ux, uy, uz := c0x*y - c1x*x, c0y*y - c1y*x, c0z*y - c1z*x;
      var vx, vy, vz := c2x*w - c3x*z, c2y*w - c3y*z, c2z*w - c3z*z;
      Adjugate(m).r0.x == c1y*vz - c1z*vy + tx*y && Adjugate(m).r0.y == c1z*vx - c1x*vz + ty*y && Adjugate(m).r0.z == c1x*vy - c1y*vx + tz*y && Adjugate(m).r0.w == -(c1x*tx + c1y*ty + c1z*tz) &&
      Adjugate(m).r1.x == vy*c0z - vz*c0y - tx*x && Adjugate(m).r1.y == vz*c0x - vx*c0z - ty*x && Adjugate(m).r1.z == vx*c0y - vy*c0x - tz*x && Adjugate(m).r1.w == c0x*tx + c0y*ty + c0z*tz &&
      Adjugate(m).r2.x == c3y*uz - c3z*uy + sx*w && Adjugate(m).r2.y == c3z*ux - c3x*uz + sy*w && Adjugate(m).r2.z == c3x*uy - c3y*ux + sz*w && Adjugate(m).r2.w == -(c3x*sx + c3y*sy + c3z*sz) &&
      Adjugate(m).r3.x == uy*c2z - uz*c2y - sx*z && Adjugate(m).r3.y == uz*c2x - ux*c2z - sy*z && Adjugate(m).r3.z == ux*c2y - uy*c2x - sz*z && Adjugate(m).r3.w == c2x*sx + c2y*sy + c2z*sz
  {
    AdjugateEntry00(m);
    AdjugateEntry01(m);
    AdjugateEntry02(m);
    AdjugateEntry03(m);
    AdjugateEntry10(m);
    AdjugateEntry11(m);
    AdjugateEntry12(m);
    AdjugateEntry13(m);
    AdjugateEntry20(m);
    AdjugateEntry21(m);
    AdjugateEntry22(m);
    AdjugateEntry23(m);
    AdjugateEntry30(m);
    AdjugateEntry31(m);
    AdjugateEntry32(m);
    AdjugateEntry33(m);
  }

  // ---------------------------------------------------------------------
  // Consequences

  /** `d` times the identity. */
  function Diagonal(d: real): (r: Matrix4x4)
    ensures r == Scale(Identity(Number.F64), d)
  {
    Matrix4x4(Vec4.Vector4(d, 0.0, 0.0, 0.0), Vec4.Vector4(0.0, d, 0.0, 0.0),
              Vec4.Vector4(0.0, 0.0, d, 0.0), Vec4.Vector4(0.0, 0.0, 0.0, d))
  }

  /** A matrix with `d` on the diagonal and zero elsewhere is `Diagonal(d)`. */
  lemma DiagonalFromEntries(a: Matrix4x4, d: real)
    requires a.r0.x == d && a.r0.y == 0.0 && a.r0.z == 0.0 && a.r0.w == 0.0
    requires a.r1.x == 0.0 && a.r1.y == d && a.r1.z == 0.0 && a.r1.w == 0.0
    requires a.r2.x == 0.0 && a.r2.y == 0.0 && a.r2.z == d && a.r2.w == 0.0
    requires a.r3.x == 0.0 && a.r3.y == 0.0 && a.r3.z == 0.0 && a.r3.w == d
    ensures a == Diagonal(d)
  {
  }

  /** `Diagonal(1)` is the identity of every signed type. */
  lemma DiagonalOfOne(t: Number.NumberType, d: real)
    requires Number.IsSigned(t) && d == 1.0
    ensures Diagonal(d) == Identity(t)
  {
  }

  /** Scaling `Diagonal(d)` by `k` gives `Diagonal(d * k)`. */
  lemma ScaleDiagonal(d: real, k: real)
    ensures Scale(Diagonal(d), k) == Diagonal(d * k)
  {
  }

  /** The block determinant `inverse` tests is the cofactor determinant of `determinant()`. */
  lemma BlockDeterminantIsDeterminant(m: Matrix4x4)
    ensures BlockDeterminant(m) == Determinant(m)
  {
    BlockDeterminantPolynomial(m);
    DeterminantPolynomial(m);
  }

  /** The adjugate: `m * adj(m) == adj(m) * m == det(m) * identity`, for every matrix. */
  lemma AdjugateProducts(m: Matrix4x4)
    ensures Mul(m, Adjugate(m)) == Diagonal(BlockDeterminant(m))
    ensures Mul(Adjugate(m), m) == Diagonal(BlockDeterminant(m))
    ensures Mul(m, Adjugate(m)) == Scale(Identity(Number.F64), Determinant(m))
  {
    AdjugateEntries(m);
    ProductsWithAdjugateEntries(m, Adjugate(m));
    DiagonalFromEntries(Mul(m, Adjugate(m)), BlockDeterminant(m));
    DiagonalFromEntries(Mul(Adjugate(m), m), BlockDeterminant(m));
    BlockDeterminantIsDeterminant(m);
  }

  // ---------------------------------------------------------------------
  // Linearity in the block vectors and in a scalar factor

  lemma CrossScaledRight(a: Vec3.Vector3, b: Vec3.Vector3, k: real)
    ensures Vec3.Cross(a, Vec3.Scale(b, k)) == Vec3.Scale(Vec3.Cross(a, b), k)
  {
    assert Vec3.Scale(b, k) == Vec3.Vector3(b.x * k, b.y * k, b.z * k);
    assert Vec3.Cross(a, Vec3.Scale(b, k))
        == Vec3.Vector3(a.y * (b.z * k) - a.z * (b.y * k), a.z * (b.x * k) - a.x * (b.z * k), a.x * (b.y * k) - a.y * (b.x * k));
  }

  lemma CrossScaledLeft(a: Vec3.Vector3, b: Vec3.Vector3, k: real)
    ensures Vec3.Cross(Vec3.Scale(a, k), b) == Vec3.Scale(Vec3.Cross(a, b), k)
  {
    assert Vec3.Scale(a, k) == Vec3.Vector3(a.x * k, a.y * k, a.z * k);
    assert Vec3.Cross(Vec3.Scale(a, k), b)
        == Vec3.Vector3((a.y * k) * b.z - (a.z * k) * b.y, (a.z * k) * b.x - (a.x * k) * b.z, (a.x * k) * b.y - (a.y * k) * b.x);
  }

  lemma ScaleScaled(a: Vec3.Vector3, ak: Vec3.Vector3, k: real, y: real)
    requires ak == Vec3.Scale(a, k)
    ensures Vec3.Scale(ak, y) == Vec3.Scale(Vec3.Scale(a, y), k)
  {
  }

  lemma AddScaled(a: Vec3.Vector3, ak: Vec3.Vector3, b: Vec3.Vector3, bk: Vec3.Vector3, k: real)
    requires ak == Vec3.Scale(a, k) && bk == Vec3.Scale(b, k)
    ensures Vec3.Add(ak, bk) == Vec3.Scale(Vec3.Add(a, b), k)
    ensures Vec3.Sub(ak, bk) == Vec3.Scale(Vec3.Sub(a, b), k)
  {
  }

  lemma DotScaled(a: Vec3.Vector3, b: Vec3.Vector3, bk: Vec3.Vector3, k: real)
    requires bk == Vec3.Scale(b, k)
    ensures Vec3.Dot(a, bk) == Vec3.Dot(a, b) * k
  {
  }

  /** A row `(r, c . t)` with `r` and `t` scaled by `k` is the row scaled by `k`. */
  lemma RowScaled(r: Vec3.Vector3, rk: Vec3.Vector3, c: Vec3.Vector3, t: Vec3.Vector3, tk: Vec3.Vector3, k: real)
    requires rk == Vec3.Scale(r, k) && tk == Vec3.Scale(t, k)
    ensures Vec4.FromVector3(rk, Vec3.Dot(c, tk)) == Vec4.Scale(Vec4.FromVector3(r, Vec3.Dot(c, t)), k)
  {
    DotScaled(c, t, tk, k);
  }

  /** A row `(r, -(c . t))` with `r` and `t` scaled by `k` is the row scaled by `k`. */
  lemma NegatedRowScaled(r: Vec3.Vector3, rk: Vec3.Vector3, c: Vec3.Vector3, t: Vec3.Vector3, tk: Vec3.Vector3, k: real)
    requires rk == Vec3.Scale(r, k) && tk == Vec3.Scale(t, k)
    ensures Vec4.FromVector3(rk, -Vec3.Dot(c, tk)) == Vec4.Scale(Vec4.FromVector3(r, -Vec3.Dot(c, t)), k)
  {
    DotScaled(c, t, tk, k);
  }

  /** Rows 0 and 2 of `inverse`: `(c x v + t * y, -(c . t))`, linear in the block vectors `v` and `t`. */
  lemma SumRowScaled(c: Vec3.Vector3, y: real, v: Vec3.Vector3, vk: Vec3.Vector3, t: Vec3.Vector3, tk: Vec3.Vector3, k: real)
    requires vk == Vec3.Scale(v, k) && tk == Vec3.Scale(t, k)
    ensures Vec4.FromVector3(Vec3.Add(Vec3.Cross(c, vk), Vec3.Scale(tk, y)), -Vec3.Dot(c, tk))
         == Vec4.Scale(Vec4.FromVector3(Vec3.Add(Vec3.Cross(c, v), Vec3.Scale(t, y)), -Vec3.Dot(c, t)), k)
  {
    CrossScaledRight(c, v, k);
    ScaleScaled(t, tk, k, y);
    AddScaled(Vec3.Cross(c, v), Vec3.Cross(c, vk), Vec3.Scale(t, y), Vec3.Scale(tk, y), k);
    NegatedRowScaled(Vec3.Add(Vec3.Cross(c, v), Vec3.Scale(t, y)), Vec3.Add(Vec3.Cross(c, vk), Vec3.Scale(tk, y)),
                     c, t, tk, k);
  }

  /** Rows 1 and 3 of `inverse`: `(v x c - t * x, c . t)`, linear in the block vectors `v` and `t`. */
  lemma DiffRowScaled(c: Vec3.Vector3, x: real, v: Vec3.Vector3, vk: Vec3.Vector3, t: Vec3.Vector3, tk: Vec3.Vector3, k: real)
    requires vk == Vec3.Scale(v, k) && tk == Vec3.Scale(t, k)
    ensures Vec4.FromVector3(Vec3.Sub(Vec3.Cross(vk, c), Vec3.Scale(tk, x)), Vec3.Dot(c, tk))
         == Vec4.Scale(Vec4.FromVector3(Vec3.Sub(Vec3.Cross(v, c), Vec3.Scale(t, x)), Vec3.Dot(c, t)), k)
  {
    CrossScaledLeft(v, c, k);
    ScaleScaled(t, tk, k, x);
    AddScaled(Vec3.Cross(v, c), Vec3.Cross(vk, c), Vec3.Scale(t, x), Vec3.Scale(tk, x), k);
    RowScaled(Vec3.Sub(Vec3.Cross(v, c), Vec3.Scale(t, x)), Vec3.Sub(Vec3.Cross(vk, c), Vec3.Scale(tk, x)),
              c, t, tk, k);
  }

  /** Scaling the block vectors by `k` scales every row `inverse` assembles by `k`. */
  lemma InverseRowsScale(m: Matrix4x4, b: Blocks, k: real)
    ensures InverseRows(m, ScaleBlocks(b, k)) == Scale(InverseRows(m, b), k)
  {
    var sb := ScaleBlocks(b, k);
    SumRowScaled(UpperColumn(m, 1), m.r3.y, b.v, sb.v, b.t, sb.t, k);
    DiffRowScaled(UpperColumn(m, 0), m.r3.x, b.v, sb.v, b.t, sb.t, k);
    SumRowScaled(UpperColumn(m, 3), m.r3.w, b.u, sb.u, b.s, sb.s, k);
    DiffRowScaled(UpperColumn(m, 2), m.r3.z, b.u, sb.u, b.s, sb.s, k);
  }

  lemma ScaleScaledVector(v: Vec4.Vector4, a: real, k: real)
    ensures Vec4.Scale(Vec4.Scale(v, k), a) == Vec4.Scale(Vec4.Scale(v, a), k)
  {
  }

  lemma ScaleAdd(u: Vec4.Vector4, v: Vec4.Vector4, k: real)
    ensures Vec4.Scale(Vec4.Add(u, v), k) == Vec4.Add(Vec4.Scale(u, k), Vec4.Scale(v, k))
  {
  }

  lemma ScaleByComponentX(v: Vec4.Vector4, r: Vec4.Vector4, k: real)
    ensures Vec4.Scale(v, Vec4.Scale(r, k).x) == Vec4.Scale(Vec4.Scale(v, r.x), k)
  {
  }

  lemma ScaleByComponentY(v: Vec4.Vector4, r: Vec4.Vector4, k: real)
    ensures Vec4.Scale(v, Vec4.Scale(r, k).y) == Vec4.Scale(Vec4.Scale(v, r.y), k)
  {
  }

  lemma ScaleByComponentZ(v: Vec4.Vector4, r: Vec4.Vector4, k: real)
    ensures Vec4.Scale(v, Vec4.Scale(r, k).z) == Vec4.Scale(Vec4.Scale(v, r.z), k)
  {
  }

  lemma ScaleByComponentW(v: Vec4.Vector4, r: Vec4.Vector4, k: real)
    ensures Vec4.Scale(v, Vec4.Scale(r, k).w) == Vec4.Scale(Vec4.Scale(v, r.w), k)
  {
  }

  /** `r * b` as the combination of the rows of `b` with the entries of `r` as coefficients. */
  function Combination(r: Vec4.Vector4, b: Matrix4x4): Vec4.Vector4 {
    Vec4.Add(Vec4.Add(Vec4.Add(Vec4.Scale(b.r0, r.x), Vec4.Scale(b.r1, r.y)), Vec4.Scale(b.r2, r.z)), Vec4.Scale(b.r3, r.w))
  }

  lemma ProductRowIsCombination(r: Vec4.Vector4, b: Matrix4x4)
    ensures ProductRow(r, b) == Combination(r, b)
  {
  }

  lemma CombinationScaled(u0: Vec4.Vector4, u1: Vec4.Vector4, u2: Vec4.Vector4, u3: Vec4.Vector4, k: real)
    ensures Vec4.Add(Vec4.Add(Vec4.Add(Vec4.Scale(u0, k), Vec4.Scale(u1, k)), Vec4.Scale(u2, k)), Vec4.Scale(u3, k))
         == Vec4.Scale(Vec4.Add(Vec4.Add(Vec4.Add(u0, u1), u2), u3), k)
  {
    ScaleAdd(u0, u1, k);
    ScaleAdd(Vec4.Add(u0, u1), u2, k);
    ScaleAdd(Vec4.Add(Vec4.Add(u0, u1), u2), u3, k);
  }

  lemma ProductRowScaledRight(r: Vec4.Vector4, c: Matrix4x4, k: real)
    ensures ProductRow(r, Scale(c, k)) == Vec4.Scale(ProductRow(r, c), k)
  {
    ProductRowIsCombination(r, Scale(c, k));
    ProductRowIsCombination(r, c);
    ScaleScaledVector(c.r0, r.x, k);
    ScaleScaledVector(c.r1, r.y, k);
    ScaleScaledVector(c.r2, r.z, k);
    ScaleScaledVector(c.r3, r.w, k);
    CombinationScaled(Vec4.Scale(c.r0, r.x), Vec4.Scale(c.r1, r.y), Vec4.Scale(c.r2, r.z), Vec4.Scale(c.r3, r.w), k);
  }

  lemma ProductRowScaledLeft(r: Vec4.Vector4, c: Matrix4x4, k: real)
    ensures ProductRow(Vec4.Scale(r, k), c) == Vec4.Scale(ProductRow(r, c), k)
  {
    ProductRowIsCombination(Vec4.Scale(r, k), c);
    ProductRowIsCombination(r, c);
    ScaleByComponentX(c.r0, r, k);
    ScaleByComponentY(c.r1, r, k);
    ScaleByComponentZ(c.r2, r, k);
    ScaleByComponentW(c.r3, r, k);
    CombinationScaled(Vec4.Scale(c.r0, r.x), Vec4.Scale(c.r1, r.y), Vec4.Scale(c.r2, r.z), Vec4.Scale(c.r3, r.w), k);
  }

  /** A scalar factor on either operand moves out of a product. */
  lemma MulScaled(a: Matrix4x4, c: Matrix4x4, k: real)
    ensures Mul(a, Scale(c, k)) == Scale(Mul(a, c), k)
    ensures Mul(Scale(c, k), a) == Scale(Mul(c, a), k)
  {
    ProductRowScaledRight(a.r0, c, k);
    ProductRowScaledRight(a.r1, c, k);
    ProductRowScaledRight(a.r2, c, k);
    ProductRowScaledRight(a.r3, c, k);
    ProductRowScaledLeft(c.r0, a, k);
    ProductRowScaledLeft(c.r1, a, k);
    ProductRowScaledLeft(c.r2, a, k);
    ProductRowScaledLeft(c.r3, a, k);
  }

  /**
   * With the block vectors scaled by any `k`, both products of `m` with the
   * rows `inverse` assembles are `det(m) * k` times the identity.
   */
  lemma ScaledInverseProducts(m: Matrix4x4, k: real)
    ensures var n := InverseRows(m, ScaleBlocks(BlockVectors(m), k));
      Mul(m, n) == Scale(Diagonal(BlockDeterminant(m)), k) && Mul(n, m) == Scale(Diagonal(BlockDeterminant(m)), k)
  {
    InverseRowsScale(m, BlockVectors(m), k);
    AdjugateProducts(m);
    MulScaled(m, Adjugate(m), k);
  }

  /** `inverse` returns `None` exactly for the singular matrices. */
  lemma InverseExistsIffNonsingular(t: Number.NumberType, m: Matrix4x4)
    requires Number.IsSigned(t)
    ensures Inverse(t, m).None? <==> Determinant(m) == 0.0
  {
    BlockDeterminantIsDeterminant(m);
  }

  /**
   * Where `one() / det` is exact — every float type, and the integer types
   * when `det` is 1 or -1 — the result of `inverse` is a two-sided inverse.
   */
  lemma InverseIsTwoSided(t: Number.NumberType, m: Matrix4x4)
    requires Number.IsSigned(t) && Determinant(m) != 0.0
    requires Number.IsFloat(t) || Determinant(m) == 1.0 || Determinant(m) == -1.0
    ensures Inverse(t, m).Some?
    ensures Mul(m, Inverse(t, m).value) == Identity(t)
    ensures Mul(Inverse(t, m).value, m) == Identity(t)
  {
    BlockDeterminantIsDeterminant(m);
    BlockInverseIsTwoSided(t, m);
  }

  /** `InverseIsTwoSided`, with the condition on the block determinant `inverse` computes. */
  lemma BlockInverseIsTwoSided(t: Number.NumberType, m: Matrix4x4)
    requires Number.IsSigned(t) && BlockDeterminant(m) != 0.0
    requires Number.IsFloat(t) || BlockDeterminant(m) == 1.0 || BlockDeterminant(m) == -1.0
    ensures Inverse(t, m).Some?
    ensures Mul(m, Inverse(t, m).value) == Identity(t)
    ensures Mul(Inverse(t, m).value, m) == Identity(t)
  {
    var d := BlockDeterminant(m);
    var k := Number.Div(t, Number.One(t), d);
    var n := InverseRows(m, ScaleBlocks(BlockVectors(m), k));
    InverseOfNonsingular(t, m);
    ReciprocalIsExact(t, d);
    ScaledInverseProducts(m, k);
    ProductsAreIdentity(t, m, n, d, k);
  }

  /** For a non-zero block determinant, `inverse` returns the rows built from the scaled block vectors. */
  lemma InverseOfNonsingular(t: Number.NumberType, m: Matrix4x4)
    requires Number.IsSigned(t) && BlockDeterminant(m) != 0.0
    ensures Inverse(t, m).Some?
    ensures Inverse(t, m).value == InverseRows(m, ScaleBlocks(BlockVectors(m), Number.Div(t, Number.One(t), BlockDeterminant(m))))
  {
  }

  /** Two matrices whose products are `d * k` times the identity, with `d * k == 1`, are inverse to each other. */
  lemma ProductsAreIdentity(t: Number.NumberType, m: Matrix4x4, n: Matrix4x4, d: real, k: real)
    requires Number.IsSigned(t) && d * k == 1.0
    requires Mul(m, n) == Scale(Diagonal(d), k) && Mul(n, m) == Scale(Diagonal(d), k)
    ensures Mul(m, n) == Identity(t) && Mul(n, m) == Identity(t)
  {
    ScaleDiagonal(d, k);
    DiagonalOfOne(t, d * k);
  }

  /** `one() / d` is an exact reciprocal in every float type, and in the integer types for `d` of 1 or -1. */
  lemma ReciprocalIsExact(t: Number.NumberType, d: real)
    requires d != 0.0 && (Number.IsFloat(t) || d == 1.0 || d == -1.0)
    ensures d * Number.Div(t, Number.One(t), d) == 1.0
  {
    if !Number.IsFloat(t) {
      if d == 1.0 {
        assert Number.Div(t, Number.One(t), d) == Number.Truncate(1.0) as real;
      } else {
        assert Number.Div(t, Number.One(t), d) == Number.Truncate(-1.0) as real;
      }
    }
  }

  /**
   * For an integer type, `one() / det` truncates to zero once `|det| > 1`,
   * so `inverse` returns the zero matrix rather than `None`.
   */
  lemma IntegerInverseVanishes(t: Number.NumberType, m: Matrix4x4)
    requires Number.IsSigned(t) && !Number.IsFloat(t)
    requires Number.RealAbs(Determinant(m)) > 1.0
    ensures Inverse(t, m) == Some(Zero(t))
  {
    BlockDeterminantIsDeterminant(m);
    var d := BlockDeterminant(m);
    ReciprocalBelowOne(d);
    var k := Number.Div(t, Number.One(t), d);
    assert k.Floor == 0;
    assert k == 0.0;
    var b := ScaleBlocks(BlockVectors(m), 0.0);
    assert b == Blocks(Vec3.Vector3(0.0, 0.0, 0.0), Vec3.Vector3(0.0, 0.0, 0.0),
                       Vec3.Vector3(0.0, 0.0, 0.0), Vec3.Vector3(0.0, 0.0, 0.0));
  }

  /** The reciprocal of a scalar beyond one in absolute value is below one in absolute value. */
  lemma ReciprocalBelowOne(d: real)
    requires Number.RealAbs(d) > 1.0
    ensures Number.RealAbs(1.0 / d) < 1.0
  {
    var a := Number.RealAbs(d);
    assert Number.RealAbs(1.0 / d) == 1.0 / a;
    assert (1.0 / a) * a == 1.0;
    if 1.0 / a >= 1.0 {
      Number.MulMonotone(1.0 / a, 1.0, a);
    }
  }

  /** The inverse of the identity is the identity, for every signed type. */
  lemma InverseOfIdentity(t: Number.NumberType)
    requires Number.IsSigned(t)
    ensures Inverse(t, Identity(t)) == Some(Identity(t))
  {
    DeterminantOfIdentity(t);
    InverseIsTwoSided(t, Identity(t));
    IdentityIsUnit(t, Inverse(t, Identity(t)).value);
  }

  /**
   * The source's known matrix, whose determinant is one: its inverse exists
   * for every signed type and multiplies it to the identity.
   */
  lemma KnownMatrixInverse(t: Number.NumberType, m: Matrix4x4)
    requires Number.IsSigned(t)
    requires m == Matrix4x4(Vec4.Vector4(1.0, 2.0, 3.0, 0.0), Vec4.Vector4(0.0, 1.0, 4.0, 0.0),
                            Vec4.Vector4(5.0, 6.0, 0.0, 0.0), Vec4.Vector4(0.0, 0.0, 0.0, 1.0))
    ensures Inverse(t, m).Some?
    ensures Mul(m, Inverse(t, m).value) == Identity(t)
    ensures Mul(Inverse(t, m).value, m) == Identity(t)
  {
    assert Determinant(m) == 1.0;
    InverseIsTwoSided(t, m);
  }
}
