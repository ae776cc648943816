/**
  Plain vector values shared by every component: raylib's `Vector2`,
  `Vector3`, `Ray`, `BoundingBox` and `RayCollision` records, with floats
  modelled as `real`.
 */
module Vectors {

  datatype Vec2 = Vec2(x: real, y: real)

  datatype Vec3 = Vec3(x: real, y: real, z: real)

  /** A ray: start point and (not necessarily normalised) direction. */
  datatype Ray = Ray(position: Vec3, direction: Vec3)

  /** An axis-aligned bounding box given by its two extreme corners. */
  datatype Box = Box(min: Vec3, max: Vec3)

  /** raylib's result of intersecting a ray with a box. */
  datatype RayCollision = RayCollision(hit: bool, distance: real, point: Vec3, normal: Vec3)

  const Zero3 := Vec3(0.0, 0.0, 0.0)

  function Add(a: Vec3, b: Vec3): Vec3 {
    Vec3(a.x + b.x, a.y + b.y, a.z + b.z)
  }

  function Sub(a: Vec3, b: Vec3): Vec3 {
    Vec3(a.x - b.x, a.y - b.y, a.z - b.z)
  }

  function Scale(a: Vec3, k: real): Vec3 {
    Vec3(a.x * k, a.y * k, a.z * k)
  }

  function Dot(a: Vec3, b: Vec3): real {
    a.x * b.x + a.y * b.y + a.z * b.z
  }

  function Cross(a: Vec3, b: Vec3): Vec3 {
    Vec3(a.y * b.z - a.z * b.y, a.z * b.x - a.x * b.z, a.x * b.y - a.y * b.x)
  }

  /** A vector that only moves along y. */
  function Up(dy: real): Vec3 {
    Vec3(0.0, dy, 0.0)
  }

  /** Component `c` (0 = x, 1 = y, 2 = z) of a vector, as a flat float buffer stores it. */
  function Comp(v: Vec3, c: int): real
    requires 0 <= c < 3
  {
    if c == 0 then v.x else if c == 1 then v.y else v.z
  }

  /** Moving two points by the same vector keeps the offset between them. */
  lemma AddKeepsOffset(p: Vec3, q: Vec3, m: Vec3)
    ensures Sub(Add(q, m), Add(p, m)) == Sub(q, p)
  {
  }

  /** The C cast `(int)f` truncates toward zero. */
  function TruncToInt(r: real): (i: int)
    ensures r >= 0.0 ==> 0 <= i && i as real <= r < i as real + 1.0
    ensures r < 0.0 ==> i <= 0 && i as real - 1.0 < r <= i as real
  {
    if r >= 0.0 then r.Floor else -((-r).Floor)
  }

  /** The three floats at `i` of a flat buffer, read as a vector. */
  function VecAt(s: seq<real>, i: int): Vec3
    requires 0 <= i && i + 3 <= |s|
  {
    Vec3(s[i], s[i + 1], s[i + 2])
  }

  /** The two floats at `i` of a flat buffer, read as a texture coordinate. */
  function Vec2At(s: seq<real>, i: int): Vec2
    requires 0 <= i && i + 2 <= |s|
  {
    Vec2(s[i], s[i + 1])
  }
}
