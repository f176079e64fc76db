/** Three-wide vectors of reals: the `float v[3]` buffers of the stabiliser (roll, pitch, yaw). */
module Vectors {

  type Vec3 = v: seq<real> | |v| == 3 witness [0.0, 0.0, 0.0]

  const Zero3: Vec3 := [0.0, 0.0, 0.0]

  /** Component-wise difference, as the per-axis `x[i] - y[i]` loops compute it. */
  function Sub(x: Vec3, y: Vec3): Vec3
  {
    [x[0] - y[0], x[1] - y[1], x[2] - y[2]]
  }
}
