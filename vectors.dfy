/** OpenFOAM's three-component vector, with real components. */
module Vectors {

  datatype Vec = Vec(x: real, y: real, z: real)

  const Zero := Vec(0.0, 0.0, 0.0)

  function Add(a: Vec, b: Vec): Vec
  {
    Vec(a.x + b.x, a.y + b.y, a.z + b.z)
  }

  function Sub(a: Vec, b: Vec): Vec
  {
    Vec(a.x - b.x, a.y - b.y, a.z - b.z)
  }

  /** A scalar times a vector. */
  function Scale(s: real, a: Vec): Vec
  {
    Vec(s * a.x, s * a.y, s * a.z)
  }

  /** Component-by-component product (cmptMultiply). */
  function CmptMultiply(a: Vec, b: Vec): Vec
  {
    Vec(a.x * b.x, a.y * b.y, a.z * b.z)
  }
}
