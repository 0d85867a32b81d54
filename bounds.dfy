/** The plain value types of the box header: a 3D point and the three
    query result records. `QVector3D` components are taken as reals, since
    the core only compares them and sums their squares. */
module Bounds {

  datatype Vec3 = Vec3(x: real, y: real, z: real)

  const Origin: Vec3 := Vec3(0.0, 0.0, 0.0)

  /** `QVector3D::lengthSquared`. */
  function LengthSquared(v: Vec3): real {
    v.x * v.x + v.y * v.y + v.z * v.z
  }

  /** Two corners, stored exactly as given (no reordering happens here). */
  datatype BoundingBox = BoundingBox(a: Vec3, b: Vec3)

  /** One axis of a point classification: `bottom` first, then `top`. */
  datatype BoundAxis = BoundAxis(bottom: bool, top: bool) {
    predicate Inside() { bottom && top }
  }

  /** The x, y and z axis classifications, in that order. */
  datatype Bound = Bound(x: BoundAxis, y: BoundAxis, z: BoundAxis) {
    predicate Inside() { x.Inside() && y.Inside() && z.Inside() }
  }

  /** t lies in the closed interval [lo, hi]. */
  predicate InClosed(t: real, lo: real, hi: real) { lo <= t <= hi }

  /** t lies in the open interval (lo, hi). */
  predicate InOpen(t: real, lo: real, hi: real) { lo < t < hi }

  /** p lies in the closed box spanned by box.a and box.b. */
  predicate InClosedBox(p: Vec3, box: BoundingBox) {
    InClosed(p.x, box.a.x, box.b.x) && InClosed(p.y, box.a.y, box.b.y) && InClosed(p.z, box.a.z, box.b.z)
  }

  /** p lies strictly inside the box spanned by box.a and box.b. */
  predicate InOpenBox(p: Vec3, box: BoundingBox) {
    InOpen(p.x, box.a.x, box.b.x) && InOpen(p.y, box.a.y, box.b.y) && InOpen(p.z, box.a.z, box.b.z)
  }

  /** Corners ordered componentwise with a positive extent on every axis. */
  predicate PositiveExtent(box: BoundingBox) {
    box.a.x < box.b.x && box.a.y < box.b.y && box.a.z < box.b.z
  }

  /** Corners ordered componentwise (zero extent allowed). */
  predicate Ordered(box: BoundingBox) {
    box.a.x <= box.b.x && box.a.y <= box.b.y && box.a.z <= box.b.z
  }
}
