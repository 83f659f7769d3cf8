/** Points and directions in the simulation space, over exact reals. */
module Geometry {

  datatype Vec3 = Vec3(x: real, y: real, z: real)

  /** Component-wise sum, as the framework's `Double3 + Double3`. */
  function Add(a: Vec3, b: Vec3): Vec3
  {
    Vec3(a.x + b.x, a.y + b.y, a.z + b.z)
  }

  /** `pow(t, 2)` on one coordinate difference. */
  function Square(t: real): (r: real)
    ensures r >= 0.0
  {
    t * t
  }

  /** Sum of the three squared coordinate differences (no square root is taken). */
  function SquaredDistance(a: Vec3, b: Vec3): (r: real)
    ensures r >= 0.0
  {
    Square(a.x - b.x) + Square(a.y - b.y) + Square(a.z - b.z)
  }
}
