/** Vectors, axis-aligned boxes and the rectangle of floor the ball may occupy. */
module Geometry {

  /** A point or a displacement in world space. */
  datatype Vec3 = Vec3(x: real, y: real, z: real)
  {
    function Plus(d: Vec3): Vec3 {
      Vec3(x + d.x, y + d.y, z + d.z)
    }
  }

  const Origin: Vec3 := Vec3(0.0, 0.0, 0.0)

  /** An axis-aligned box given by its lowest and its highest corner. */
  datatype Box = Box(min: Vec3, max: Vec3)

  /** Box overlap as the rendering library tests it: the boxes are disjoint
      only when one lies strictly beyond the other on some axis, so boxes
      that merely touch still intersect. */
  predicate Intersects(a: Box, b: Box) {
    !(b.max.x < a.min.x || b.min.x > a.max.x ||
      b.max.y < a.min.y || b.min.y > a.max.y ||
      b.max.z < a.min.z || b.min.z > a.max.z)
  }

  lemma IntersectsSymmetric(a: Box, b: Box)
    ensures Intersects(a, b) <==> Intersects(b, a)
  {
  }

  /** The floor bounds; the vertical axis is not constrained. */
  const MinX: real := -1000.0
  const MaxX: real := 1000.0
  const MinZ: real := -1000.0
  const MaxZ: real := 1000.0

  /** The test the movement handler applies to a candidate position. */
  predicate OutOfBounds(p: Vec3) {
    p.x < MinX || p.x > MaxX || p.z < MinZ || p.z > MaxZ
  }

  /** Being on the floor, stated directly. */
  predicate InBounds(p: Vec3) {
    MinX <= p.x <= MaxX && MinZ <= p.z <= MaxZ
  }

  /** The position the ball takes when it tries to move from `p` by `d`:
      the whole candidate, or nothing at all when the candidate leaves the
      floor. */
  function Commit(p: Vec3, d: Vec3): (r: Vec3)
    ensures InBounds(p) ==> InBounds(r)
    ensures r == p || r == p.Plus(d)
    ensures InBounds(p.Plus(d)) ==> r == p.Plus(d)
  {
    var candidate := p.Plus(d);
    if OutOfBounds(candidate) then p else candidate
  }

  /** A rejected move leaves every coordinate exactly where it was: there
      is no clamping to the edge and no sliding along it. */
  lemma RejectedMoveKeepsPosition(p: Vec3, d: Vec3)
    ensures !InBounds(p.Plus(d)) ==> Commit(p, d) == p
  {
  }
}
