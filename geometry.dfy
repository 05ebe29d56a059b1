/** Points, homogeneous vectors and 4x4 matrices over the reals. */
module Geometry {

  /** A 3-D point in the stereo rig's frame (millimetres). */
  datatype Point3 = Point3(x: real, y: real, z: real)

  /** The zero vector, used by the triangulation as the "no reliable depth" sentinel. */
  const Origin: Point3 := Point3(0.0, 0.0, 0.0)

  /** A homogeneous 4-vector (X, Y, Z, W). */
  datatype Vec4 = Vec4(x: real, y: real, z: real, w: real)

  /** A 4x4 matrix given by its rows, such as the reprojection matrix Q. */
  datatype Mat4 = Mat4(r0: Vec4, r1: Vec4, r2: Vec4, r3: Vec4)

  function Dot(a: Vec4, b: Vec4): real {
    a.x * b.x + a.y * b.y + a.z * b.z + a.w * b.w
  }

  /** The matrix-vector product m * v. */
  function Apply(m: Mat4, v: Vec4): Vec4 {
    Vec4(Dot(m.r0, v), Dot(m.r1, v), Dot(m.r2, v), Dot(m.r3, v))
  }

  function Abs(x: real): (r: real)
    ensures r >= 0.0 && (r == x || r == -x)
  {
    if x < 0.0 then -x else x
  }
}
