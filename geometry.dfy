/** Scene coordinates, clamping and the fixed dimensions of the crane scene. */
module Geometry {

  datatype Axis = X | Y | Z

  /** A position, an Euler rotation or a scale: one real per axis. */
  datatype Vec3 = Vec3(x: real, y: real, z: real)

  const Zero: Vec3 := Vec3(0.0, 0.0, 0.0)
  const One: Vec3 := Vec3(1.0, 1.0, 1.0)

  function Get(v: Vec3, a: Axis): real
  {
    match a
    case X => v.x
    case Y => v.y
    case Z => v.z
  }

  function Add(u: Vec3, v: Vec3): Vec3
  {
    Vec3(u.x + v.x, u.y + v.y, u.z + v.z)
  }

  function Scale(v: Vec3, k: real): Vec3
  {
    Vec3(v.x * k, v.y * k, v.z * k)
  }

  function Min(a: real, b: real): real { if a <= b then a else b }
  function Max(a: real, b: real): real { if a >= b then a else b }
  function Abs(a: real): real { if a < 0.0 then -a else a }

  /** The scene library's clamp: max(lo, min(hi, v)). */
  function Clamp(v: real, lo: real, hi: real): (r: real)
    ensures lo <= hi ==> lo <= r <= hi
    ensures lo <= v <= hi ==> r == v
    ensures lo <= hi && hi <= v ==> r == hi
    ensures v <= lo ==> r == lo
  {
    Max(lo, Min(hi, v))
  }

  /** Math.PI, as an exact real; the proofs use only that it is positive. */
  const Pi: real := 3.141592653589793

  // The dimensions of the scene that the animation core reads.
  const BaseW: real := 6.0
  const BaseD: real := 6.0
  const CabW: real := 4.0
  const JibW: real := 19.0
  const TrolleyW: real := 3.0
  const TrolleyH: real := 2.0
  /** The cable's length when the scene is built; it is also the cable's upper bound. */
  const CableH0: real := 10.0
  const ClawWristR: real := 0.5
  const ClawCollisionR: real := 2.5
  const ContainerFloorW: real := 10.0
  const ContainerFloorD: real := 6.0
  /** Where the container group is placed in the scene. */
  const ContainerX: real := 12.0
  const ContainerZ: real := 15.0
}
