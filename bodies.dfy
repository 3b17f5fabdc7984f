/**
  The entity hierarchy of the court, by composition: a static `Wall` (also
  used for the out-of-bounds detector) is a value, and a `Movable` is the
  positional, collideable and movable state that the ball and the paddle own.
*/
module Bodies {
  import opened Geometry

  /** A coordinate after `dt` of motion along a direction component at a velocity. */
  function Advance(p: real, dt: real, d: real, velocity: real): real {
    p + dt * d * velocity
  }

  /**
    A static collideable rectangle anchored at its top-left corner. Its
    half-extents and centre are derived exactly as the collideable
    constructor derives them, and it is never disabled.
  */
  datatype Wall = Wall(x: real, y: real, width: real, height: real) {
    /** The box covers exactly the wall's rectangle, and a wall is always enabled. */
    function Box(): (b: Aabb)
      ensures b.enabled
      ensures b.center.x - b.extent.x == x && b.center.x + b.extent.x == x + width
      ensures b.center.y - b.extent.y == y && b.center.y + b.extent.y == y + height
    {
      Aabb(Vec(x + width / 2.0, y + height / 2.0), Vec(width / 2.0, height / 2.0), true)
    }
  }

  /**
    The mutable state of a movable entity: its rectangle, the mirrored
    centre and half-extents, the direction and the scalar velocity, and the
    visibility flag. The `enabled` flag of the ball and of the paddle is
    never cleared, so it is not a field here.
  */
  class Movable {
    var x: real
    var y: real
    var width: real
    var height: real
    var extent: Vec
    var center: Vec
    var direction: Vec
    var velocity: real
    var visible: bool

    /**
      The centre is a manually mirrored field: it must equal the top-left
      corner plus the half-extents after every mutation, and the half-extents
      are half the size.
    */
    ghost predicate Valid()
      reads this
    {
      && width > 0.0 && height > 0.0
      && extent == Vec(width / 2.0, height / 2.0)
      && center == Vec(x + extent.x, y + extent.y)
    }

    /** A consistent entity's box covers exactly its rectangle; the ball and the paddle are always enabled. */
    function Box(): (b: Aabb)
      reads this
      ensures b.enabled
      ensures Valid() ==> b.center.x - b.extent.x == x && b.center.x + b.extent.x == x + width
      ensures Valid() ==> b.center.y - b.extent.y == y && b.center.y + b.extent.y == y + height
    {
      Aabb(center, extent, true)
    }

    /** A movable entity at rest: no direction, no velocity, visible. */
    constructor (x: real, y: real, width: real, height: real)
      requires width > 0.0 && height > 0.0
      ensures Valid()
      ensures this.x == x && this.y == y && this.width == width && this.height == height
      ensures direction == Vec(0.0, 0.0) && velocity == 0.0 && visible
    {
      this.x := x;
      this.y := y;
      this.width := width;
      this.height := height;
      extent := Vec(width / 2.0, height / 2.0);
      center := Vec(x + width / 2.0, y + height / 2.0);
      direction := Vec(0.0, 0.0);
      velocity := 0.0;
      visible := true;
    }

    /**
      Advance along each non-zero axis of the direction by
      `dt * direction * velocity`, moving the corner and the mirrored centre
      together. An axis with a zero component does not move, which is what
      the same formula gives, so the guard does not change the result.
    */
    method Move(dt: real)
      requires Valid()
      modifies this
      ensures Valid()
      ensures x == Advance(old(x), dt, direction.x, velocity)
      ensures y == Advance(old(y), dt, direction.y, velocity)
      ensures width == old(width) && height == old(height)
      ensures direction == old(direction) && velocity == old(velocity) && visible == old(visible)
    {
      if direction.x != 0.0 {
        var diffX := dt * direction.x * velocity;
        x := x + diffX;
        center := center.(x := center.x + diffX);
      }
      if direction.y != 0.0 {
        var diffY := dt * direction.y * velocity;
        y := y + diffY;
        center := center.(y := center.y + diffY);
      }
    }
  }
}
