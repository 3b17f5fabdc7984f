/**
  The player's paddle: a movable entity that is clamped against the side
  walls, shrinks to half its width once, and is recentred between balls.
*/
module Paddles {
  import opened Geometry
  import opened Bodies

  class Paddle {
    const body: Movable
    /** The width the paddle was built with. */
    const originalWidth: real
    /** The width of the canvas; the paddle is recentred on its midpoint. */
    const canvasWidth: real

    ghost predicate Valid()
      reads this, body
    {
      body.Valid() && originalWidth > 0.0
    }

    constructor (x: real, y: real, width: real, height: real, canvasWidth: real, canvasHeight: real)
      requires width > 0.0 && height > 0.0
      ensures Valid() && fresh(body)
      ensures body.x == x && body.y == y && body.width == width && body.height == height
      ensures originalWidth == width && this.canvasWidth == canvasWidth
      ensures body.direction == Vec(0.0, 0.0) && body.velocity == canvasHeight / 1350.0 && body.visible
    {
      body := new Movable(x, y, width, height);
      originalWidth := width;
      this.canvasWidth := canvasWidth;
      new;
      body.velocity := canvasHeight / 1350.0;
    }

    /**
      Halve the width, keeping the centre, but only while the paddle still
      has its original width: a second call changes nothing.
    */
    method Shrink()
      requires Valid()
      modifies body
      ensures Valid()
      ensures body.width == if old(body.width) == originalWidth then originalWidth / 2.0 else old(body.width)
      ensures body.center == old(body.center)
      ensures old(body.width) != originalWidth ==> body.x == old(body.x)
      ensures body.y == old(body.y) && body.height == old(body.height)
      ensures body.direction == old(body.direction) && body.velocity == old(body.velocity)
      ensures body.visible == old(body.visible)
    {
      if body.width == originalWidth {
        body.width := body.width / 2.0;
        body.extent := body.extent.(x := body.width / 2.0);
        body.x := body.center.x - body.extent.x;
      }
    }

    /** Stretch the paddle to span `width` from `x`, keeping its height and vertical place. */
    method Span(x: real, width: real)
      requires Valid() && width > 0.0
      modifies body
      ensures Valid() && body.x == x && body.width == width
      ensures body.y == old(body.y) && body.height == old(body.height)
      ensures body.direction == old(body.direction) && body.velocity == old(body.velocity)
      ensures body.visible == old(body.visible)
    {
      body.width := width;
      body.x := x;
      body.extent := body.extent.(x := body.width / 2.0);
      body.center := body.center.(x := body.x + body.extent.x);
    }

    /** Restore the original width and recentre horizontally on the canvas. */
    method Reset()
      requires Valid()
      modifies body
      ensures Valid()
      ensures body.width == originalWidth && body.center.x == canvasWidth / 2.0
      ensures body.y == old(body.y) && body.height == old(body.height) && body.center.y == old(body.center.y)
      ensures body.direction == old(body.direction) && body.velocity == old(body.velocity)
      ensures body.visible == old(body.visible)
    {
      if body.width != originalWidth {
        body.width := originalWidth;
        body.extent := body.extent.(x := body.width / 2.0);
      }
      body.x := (canvasWidth / 2.0) - body.extent.x;
      body.center := body.center.(x := body.x + body.extent.x);
    }

    /**
      Where an update leaves a paddle that was at (x0, y0): moved along its
      direction at its velocity, then, if moving left into the left wall,
      flush against the wall's right edge, and if moving right into the
      right wall, flush against its left edge. A clamped paddle no longer
      collides with that wall.
    */
    ghost predicate MovedFrom(x0: real, y0: real, dt: real, leftWall: Wall, rightWall: Wall)
      reads this, body
    {
      var movedX := Advance(x0, dt, body.direction.x, body.velocity);
      var movedY := Advance(y0, dt, body.direction.y, body.velocity);
      var moved := Aabb(Vec(movedX + body.extent.x, movedY + body.extent.y), body.extent, true);
      var hitLeft := body.direction.x < 0.0 && Collides(moved, leftWall.Box());
      var hitRight := body.direction.x > 0.0 && Collides(moved, rightWall.Box());
      && body.y == movedY
      && body.x == (if hitLeft then leftWall.x + leftWall.width
                    else if hitRight then rightWall.x - body.width
                    else movedX)
      && (hitLeft ==> !Collides(body.Box(), leftWall.Box()))
      && (hitRight ==> !Collides(body.Box(), rightWall.Box()))
    }

    /** Move, then clamp against the side walls, as `MovedFrom` describes. */
    method Update(dt: real, leftWall: Wall, rightWall: Wall)
      requires Valid()
      modifies body
      ensures Valid()
      ensures MovedFrom(old(body.x), old(body.y), dt, leftWall, rightWall)
      ensures body.width == old(body.width) && body.height == old(body.height)
      ensures body.direction == old(body.direction) && body.velocity == old(body.velocity)
      ensures body.visible == old(body.visible)
    {
      body.Move(dt);
      Clamp(leftWall, rightWall);
    }

    /** The clamping half of an update, on the paddle where the move left it. */
    method Clamp(leftWall: Wall, rightWall: Wall)
      requires Valid()
      modifies body
      ensures Valid()
      ensures var hitLeft := body.direction.x < 0.0 && Collides(old(body.Box()), leftWall.Box());
              var hitRight := body.direction.x > 0.0 && Collides(old(body.Box()), rightWall.Box());
              && body.x == (if hitLeft then leftWall.x + leftWall.width
                            else if hitRight then rightWall.x - body.width
                            else old(body.x))
              && (hitLeft ==> !Collides(body.Box(), leftWall.Box()))
              && (hitRight ==> !Collides(body.Box(), rightWall.Box()))
      ensures body.y == old(body.y) && body.width == old(body.width) && body.height == old(body.height)
      ensures body.extent == old(body.extent)
      ensures body.direction == old(body.direction) && body.velocity == old(body.velocity)
      ensures body.visible == old(body.visible)
    {
      if body.direction.x < 0.0 && Collides(body.Box(), leftWall.Box()) {
        body.x := leftWall.x + leftWall.Box().extent.x * 2.0;
        body.center := body.center.(x := body.x + body.extent.x);
        FlushApart(body.Box(), leftWall.Box());
      }
      if body.direction.x > 0.0 && Collides(body.Box(), rightWall.Box()) {
        body.x := rightWall.x - body.extent.x * 2.0;
        body.center := body.center.(x := body.x + body.extent.x);
        FlushApart(rightWall.Box(), body.Box());
      }
    }
  }
}
