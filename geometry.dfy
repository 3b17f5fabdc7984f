/**
  Plane geometry of the court: two-component vectors and the axis-aligned
  bounding boxes that every collideable entity carries (its centre, its
  half-extents and its `enabled` flag).
*/
module Geometry {

  /** A 2d-vector; positions, extents and directions are exact reals. */
  datatype Vec = Vec(x: real, y: real)

  function Abs(r: real): (a: real)
    ensures a >= 0.0 && (a == r || a == -r)
  {
    if r < 0.0 then -r else r
  }

  /** The part of a collideable entity that the collision test looks at. */
  datatype Aabb = Aabb(center: Vec, extent: Vec, enabled: bool)

  /** Both extents are positive: the box has a non-empty interior. */
  predicate Proper(a: Aabb) {
    a.extent.x > 0.0 && a.extent.y > 0.0
  }

  /** The point `p` lies strictly inside the box (not on its border). */
  predicate Inside(a: Aabb, p: Vec) {
    Abs(p.x - a.center.x) < a.extent.x && Abs(p.y - a.center.y) < a.extent.y
  }

  /**
    The collision test of a collideable against another: never when either
    is disabled, otherwise the distance of the centres is compared with the
    summed half-extents, strictly, on each axis.
  */
  predicate Collides(a: Aabb, b: Aabb) {
    if !a.enabled || !b.enabled then false
    else
      var overlapX := Abs(a.center.x - b.center.x) < a.extent.x + b.extent.x;
      var overlapY := Abs(a.center.y - b.center.y) < a.extent.y + b.extent.y;
      overlapX && overlapY
  }

  /** A disabled entity collides with nothing, wherever it is. */
  lemma DisabledNeverCollides(a: Aabb, b: Aabb)
    requires !a.enabled || !b.enabled
    ensures !Collides(a, b) && !Collides(b, a)
  {
  }

  /** The collision test does not depend on which entity asks. */
  lemma CollidesSymmetric(a: Aabb, b: Aabb)
    ensures Collides(a, b) == Collides(b, a)
  {
  }

  /**
    The strict centre-distance test agrees with the geometric meaning of an
    overlap: two enabled boxes with non-empty interiors collide exactly when
    their open interiors share a point. Boxes that only touch along an edge
    do not collide.
  */
  lemma CollidesIffInteriorsMeet(a: Aabb, b: Aabb)
    requires Proper(a) && Proper(b)
    ensures Collides(a, b) <==> a.enabled && b.enabled && exists p :: Inside(a, p) && Inside(b, p)
  {
    if a.enabled && b.enabled {
      if Collides(a, b) {
        var p := Vec(Between(a.center.x, a.extent.x, b.center.x, b.extent.x),
                     Between(a.center.y, a.extent.y, b.center.y, b.extent.y));
        assert Inside(a, p) && Inside(b, p);
      }
      if p :| Inside(a, p) && Inside(b, p) {
        assert Abs(a.center.x - b.center.x) <= Abs(p.x - a.center.x) + Abs(p.x - b.center.x);
        assert Abs(a.center.y - b.center.y) <= Abs(p.y - a.center.y) + Abs(p.y - b.center.y);
      }
    }
  }

  /**
    Boxes placed side by side, one's left edge on the other's right edge,
    touch but do not collide.
  */
  lemma FlushApart(a: Aabb, b: Aabb)
    requires a.center.x - a.extent.x == b.center.x + b.extent.x
    ensures !Collides(a, b) && !Collides(b, a)
  {
  }

  /**
    A coordinate strictly inside both open intervals (ca - ea, ca + ea) and
    (cb - eb, cb + eb) when they overlap: the midpoint of their intersection.
  */
  function Between(ca: real, ea: real, cb: real, eb: real): (m: real)
    requires ea > 0.0 && eb > 0.0 && Abs(ca - cb) < ea + eb
    ensures Abs(m - ca) < ea && Abs(m - cb) < eb
  {
    var lo := if ca - ea < cb - eb then cb - eb else ca - ea;
    var hi := if ca + ea < cb + eb then ca + ea else cb + eb;
    (lo + hi) / 2.0
  }
}
