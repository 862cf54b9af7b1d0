/** The JOML vector types as the voxel code uses them. Components are exact
 *  reals (Java's `float` rounding is not modelled); cells are unbounded ints. */
module Vectors {
  /** A point or direction in world space (Vector3f). */
  datatype Vec3 = Vec3(x: real, y: real, z: real)

  /** A pair of reals (Vector2f); the camera keeps pitch in x and yaw in y. */
  datatype Vec2 = Vec2(x: real, y: real)

  /** An integer cell coordinate (Vector3i). */
  datatype Cell3 = Cell3(x: int, y: int, z: int)

  const Zero: Vec3 := Vec3(0.0, 0.0, 0.0)

  function Add(a: Vec3, b: Vec3): Vec3 { Vec3(a.x + b.x, a.y + b.y, a.z + b.z) }

  function Sub(a: Vec3, b: Vec3): Vec3 { Vec3(a.x - b.x, a.y - b.y, a.z - b.z) }

  function Scale(k: real, v: Vec3): Vec3 { Vec3(k * v.x, k * v.y, k * v.z) }

  function Dot(a: Vec3, b: Vec3): real { a.x * b.x + a.y * b.y + a.z * b.z }

  function LengthSquared(v: Vec3): real { Dot(v, v) }

  /** The cell containing a point: `(int) Math.floor(c)` on each axis. */
  function Floor(p: Vec3): (c: Cell3)
    ensures c.x as real <= p.x < c.x as real + 1.0
    ensures c.y as real <= p.y < c.y as real + 1.0
    ensures c.z as real <= p.z < c.z as real + 1.0
  {
    Cell3(p.x.Floor, p.y.Floor, p.z.Floor)
  }

  /** A real in [lo, hi + 1) has its floor in [lo, hi]. */
  lemma FloorBetween(r: real, lo: int, hi: int)
    requires lo as real <= r < hi as real + 1.0
    ensures lo <= r.Floor <= hi
  {
  }

  function CellAdd(a: Cell3, b: Cell3): Cell3 { Cell3(a.x + b.x, a.y + b.y, a.z + b.z) }

  function CellSub(a: Cell3, b: Cell3): Cell3 { Cell3(a.x - b.x, a.y - b.y, a.z - b.z) }

  /** The sign of r as -1, 0 or 1: `(int) Math.signum(r)`. */
  function Signum(r: real): (s: int)
    ensures -1 <= s <= 1
    ensures s == 1 <==> r > 0.0
    ensures s == -1 <==> r < 0.0
  {
    if r > 0.0 then 1 else if r < 0.0 then -1 else 0
  }

  /** `(int) Math.signum` on each component. */
  function SignumCell(v: Vec3): Cell3 { Cell3(Signum(v.x), Signum(v.y), Signum(v.z)) }
}
