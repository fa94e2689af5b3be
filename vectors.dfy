/** Three-component vectors (the engine's Vector3) over exact reals. */
module Vectors {

  import RealArith

  datatype Vec3 = Vec3(x: real, y: real, z: real)

  const Zero: Vec3 := Vec3(0.0, 0.0, 0.0)

  function Add(a: Vec3, b: Vec3): Vec3 { Vec3(a.x + b.x, a.y + b.y, a.z + b.z) }

  function Sub(a: Vec3, b: Vec3): Vec3 { Vec3(a.x - b.x, a.y - b.y, a.z - b.z) }

  /** `k * v`, the scalar-times-vector product. */
  function Scale(v: Vec3, k: real): Vec3 { Vec3(k * v.x, k * v.y, k * v.z) }

  function Dot(a: Vec3, b: Vec3): real { a.x * b.x + a.y * b.y + a.z * b.z }

  function SqrMagnitude(v: Vec3): (r: real)
    ensures r >= 0.0
  {
    Dot(v, v)
  }

  /** The vector with its vertical (Y) component set to zero: its projection onto the ground plane. */
  function Planar(v: Vec3): (r: Vec3)
    ensures r.y == 0.0 && r.x == v.x && r.z == v.z
  {
    v.(y := 0.0)
  }

  /**
   * `v.magnitude > d` without a square root: a length is never negative, so it
   * exceeds a negative bound always and a non-negative one exactly when its
   * square exceeds the bound's square.
   */
  predicate MagnitudeExceeds(v: Vec3, d: real)
  {
    d < 0.0 || SqrMagnitude(v) > d * d
  }

  /** MagnitudeExceeds agrees with comparing the true length (any non-negative square root) to the bound. */
  lemma MagnitudeExceedsIsLengthTest(v: Vec3, d: real, m: real)
    requires m >= 0.0 && m * m == SqrMagnitude(v)
    ensures MagnitudeExceeds(v, d) <==> m > d
  {
    if d >= 0.0 {
      if m > d {
        RealArith.SquareMonotone(d, m);
      } else if m < d {
        RealArith.SquareMonotone(m, d);
      }
    }
  }
}
