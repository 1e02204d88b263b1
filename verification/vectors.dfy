/** Three-component real vectors: the values stored at control points and
    returned by sampling (numpy arrays of shape (3,) in central_model.py). */
module Vectors {

  datatype Vec3 = Vec3(x: real, y: real, z: real)

  const Zero: Vec3 := Vec3(0.0, 0.0, 0.0)

  /** Component-wise sum. */
  function Add(a: Vec3, b: Vec3): (r: Vec3) {
    Vec3(a.x + b.x, a.y + b.y, a.z + b.z)
  }

  /** Every component multiplied by the scalar `s`. */
  function Scale(a: Vec3, s: real): (r: Vec3) {
    Vec3(a.x * s, a.y * s, a.z * s)
  }
}
