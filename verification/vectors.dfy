/** The engine's 2-D and 3-D vectors, over the reals. */
module Vectors {

  datatype Vec2 = Vec2(x: real, y: real)

  datatype Vec3 = Vec3(x: real, y: real, z: real)

  function Add(a: Vec3, b: Vec3): Vec3
  {
    Vec3(a.x + b.x, a.y + b.y, a.z + b.z)
  }

  function Sub(a: Vec3, b: Vec3): Vec3
  {
    Vec3(a.x - b.x, a.y - b.y, a.z - b.z)
  }

  /** `p + Vector3.Right * dx` (a negative `dx` moves along `Vector3.Left`). */
  function ShiftX(p: Vec3, dx: real): Vec3
  {
    Vec3(p.x + dx, p.y, p.z)
  }

  /** `new Vector2(v)`: drops the z component. */
  function Flat(v: Vec3): Vec2
  {
    Vec2(v.x, v.y)
  }

  /** `new Vector3(v.X, v.Y, z)`. */
  function Lift(v: Vec2, z: real): Vec3
  {
    Vec3(v.x, v.y, z)
  }

  /** Squared Euclidean distance in the plane. */
  function SqDist2(a: Vec2, b: Vec2): real
  {
    (a.x - b.x) * (a.x - b.x) + (a.y - b.y) * (a.y - b.y)
  }

  /** Squared Euclidean distance in space. */
  function SqDist3(a: Vec3, b: Vec3): real
  {
    (a.x - b.x) * (a.x - b.x) + (a.y - b.y) * (a.y - b.y) + (a.z - b.z) * (a.z - b.z)
  }

  function Abs(r: real): real
  {
    if r < 0.0 then -r else r
  }
}
