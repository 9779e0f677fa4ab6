/**
 * Three-component vectors over the reals, standing for the engine's Vector3,
 * and the few scalar helpers (absolute value, sign) the game logic uses.
 * Floating-point rounding is not modelled: components are exact reals.
 */
module Vectors {

  datatype Vec3 = Vec3(x: real, y: real, z: real)

  const Zero: Vec3 := Vec3(0.0, 0.0, 0.0)
  const Right: Vec3 := Vec3(1.0, 0.0, 0.0)
  const Left: Vec3 := Vec3(-1.0, 0.0, 0.0)
  const Forward: Vec3 := Vec3(0.0, 0.0, 1.0)
  const Back: Vec3 := Vec3(0.0, 0.0, -1.0)

  function Abs(r: real): real {
    if r < 0.0 then -r else r
  }

  /** The engine's Mathf.Sign: 1 for zero and positive values, -1 for negative ones. */
  function Sign(r: real): real {
    if r >= 0.0 then 1.0 else -1.0
  }

  function Add(a: Vec3, b: Vec3): Vec3 {
    Vec3(a.x + b.x, a.y + b.y, a.z + b.z)
  }

  function Scale(v: Vec3, k: real): Vec3 {
    Vec3(v.x * k, v.y * k, v.z * k)
  }

  /** Component-wise product, the engine's Vector3.Scale. */
  function Mul(a: Vec3, b: Vec3): Vec3 {
    Vec3(a.x * b.x, a.y * b.y, a.z * b.z)
  }

  /** One of the four unit steps on the tile grid: along x or along z, either way. */
  predicate IsGridStep(v: Vec3) {
    v == Right || v == Left || v == Forward || v == Back
  }
}
