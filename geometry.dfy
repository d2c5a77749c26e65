/** Points of the three.js scene, with real coordinates */
module Geometry {

  datatype Vec3 = Vec3(x: real, y: real, z: real)

  /** The square of `a.distanceTo(b)`; comparing squares of the two
      non-negative distances orders them as the distances themselves. */
  function DistanceSquared(a: Vec3, b: Vec3): (d: real)
    ensures d >= 0.0
    ensures a == b ==> d == 0.0
  {
    (a.x - b.x) * (a.x - b.x) + (a.y - b.y) * (a.y - b.y) + (a.z - b.z) * (a.z - b.z)
  }

  /** The squared distance of a point offset from `c` by `(dx, dy, dz)` */
  lemma DistanceOfOffset(c: Vec3, dx: real, dy: real, dz: real)
    ensures DistanceSquared(Vec3(c.x + dx, c.y + dy, c.z + dz), c) == dx * dx + dy * dy + dz * dz
  {
    var p := Vec3(c.x + dx, c.y + dy, c.z + dz);
    assert p.x - c.x == dx && p.y - c.y == dy && p.z - c.z == dz;
  }
}
