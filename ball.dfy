/**
  The ball: a movable entity with a hit counter, two one-time tier bonus
  flags and a latch that keeps it from scoring a second brick before it has
  bounced off a wall or the paddle. Its speed is a function of the hit
  counter and the two flags; `Ball.Valid` states that function.
*/
module Balls {
  import opened Geometry
  import opened Bodies
  import opened Paddles
  import opened Bricks

  /** `BrickHit` latches after a brick bounce until a wall or paddle bounce. */
  datatype BallState = Normal | BrickHit

  /**
    The three seed headings of a fresh ball, before normalisation, picked by
    a roll of 1..10 (ten times a uniform random number, floored, plus one)
    taken modulo 3: straight down for 3, 6 and 9, down-right for 1, 4, 7
    and 10, down-left for 2, 5 and 8.
  */
  function InitHeading(roll: int): (v: Vec)
    requires 1 <= roll <= 10
    ensures v.y > 0.0 && (v.x == 0.0 || v.x == v.y || v.x == -v.y)
    ensures v.x == 0.0 <==> roll in {3, 6, 9}
    ensures v.x > 0.0 <==> roll in {1, 4, 7, 10}
    ensures v.x < 0.0 <==> roll in {2, 5, 8}
  {
    match roll % 3
    case 0 => Vec(0.0, 1.0)
    case 1 => Vec(0.5, 0.5)
    case _ => Vec(-0.5, 0.5)
  }

  /**
    A direction points the way of the roll's seed heading: downwards, and a
    positive multiple of the heading (its two components in the heading's
    proportion).
  */
  predicate Heads(d: Vec, roll: int)
    requires 1 <= roll <= 10
  {
    var h := InitHeading(roll);
    d.y > 0.0 && d.x * h.y == d.y * h.x
  }

  /** A positive multiple of the roll's seed heading points its way. */
  lemma ScaledHeads(k: real, roll: int)
    requires 1 <= roll <= 10 && k > 0.0
    ensures Heads(Vec(k * InitHeading(roll).x, k * InitHeading(roll).y), roll)
  {
    var h := InitHeading(roll);
    SignOfScaled(k, h.y);
    assert (k * h.x) * h.y == (k * h.y) * h.x;
  }

  /**
    Normalisation of a direction, abstracted: the result is the input scaled
    by some positive factor (the inverse of its length), so every component
    keeps its sign and a zero component stays zero.
  */
  method Normalize(v: Vec) returns (u: Vec, ghost scale: real)
    ensures scale > 0.0 && u == Vec(scale * v.x, scale * v.y)
  {
    assert Positive(1.0);
    var k: real :| Positive(k);
    assert Positive(k);
    u, scale := Vec(k * v.x, k * v.y), k;
  }

  predicate Positive(k: real) {
    k > 0.0
  }

  /** How many of the hit-count milestones 4 and 12 a count has reached. */
  function HitBumps(hits: int): (n: nat)
    ensures n <= 2
  {
    (if hits >= 4 then 1 else 0) + (if hits >= 12 then 1 else 0)
  }

  /** One more hit reaches a milestone exactly when the new count is 4 or 12. */
  lemma HitBumpsStep(hits: nat)
    ensures HitBumps(hits + 1) == HitBumps(hits) + (if hits + 1 == 4 || hits + 1 == 12 then 1 else 0)
  {
  }

  function Flag(b: bool): nat {
    if b then 1 else 0
  }

  class Ball {
    const body: Movable
    const initialVelocity: real
    const velocityStep: real
    const canvasWidth: real
    const canvasHeight: real
    var state: BallState
    var endGameMode: bool
    var hitCounter: int
    var redBricksHit: bool
    var orangeBricksHit: bool

    /**
      The speed of a launched ball: the initial velocity plus one step per
      hit-count milestone reached and one per tier bonus taken.
    */
    ghost function Speed(): real
      reads this
    {
      initialVelocity + velocityStep * ((HitBumps(hitCounter) + Flag(orangeBricksHit) + Flag(redBricksHit)) as real)
    }

    /**
      A ball at rest (after a reset) has no velocity, no hits and no bonus
      taken; a ball in play moves at `Speed()`.
    */
    ghost predicate Valid()
      reads this, body
    {
      && body.Valid()
      && initialVelocity > 0.0 && velocityStep > 0.0
      && hitCounter >= 0
      && (body.visible ==> body.velocity == Speed())
      && (!body.visible ==> body.velocity == 0.0 && hitCounter == 0 && !orangeBricksHit && !redBricksHit)
    }

    /** The placement of the ball: corner, centre and size. */
    ghost function Place(): (Vec, Vec, real, real)
      reads this, body
    {
      (Vec(body.x, body.y), body.center, body.width, body.height)
    }

    constructor (x: real, y: real, width: real, height: real, canvasWidth: real, canvasHeight: real, roll: int)
      requires width > 0.0 && height > 0.0 && canvasHeight > 0.0 && 1 <= roll <= 10
      ensures Valid() && fresh(body)
      ensures body.x == x && body.y == y && body.width == width && body.height == height
      ensures this.canvasWidth == canvasWidth && this.canvasHeight == canvasHeight
      ensures initialVelocity == canvasHeight / 2370.0 && velocityStep == canvasHeight / 6330.0
      ensures !body.visible && body.velocity == 0.0
      ensures Heads(body.direction, roll)
      ensures state == Normal && !endGameMode && hitCounter == 0 && !orangeBricksHit && !redBricksHit
    {
      body := new Movable(x, y, width, height);
      initialVelocity := canvasHeight / 2370.0;
      velocityStep := canvasHeight / 6330.0;
      this.canvasWidth := canvasWidth;
      this.canvasHeight := canvasHeight;
      new;
      body.velocity := 0.0;
      body.visible := false;
      var heading := InitHeading(roll);
      var direction;
      ghost var scale;
      direction, scale := Normalize(heading);
      ScaledHeads(scale, roll);
      body.direction := direction;
      state := Normal;
      endGameMode := false;
      hitCounter := 0;
      redBricksHit := false;
      orangeBricksHit := false;
    }

    /** Raise the velocity by one step. */
    method IncrementVelocity()
      modifies body
      ensures body.velocity == old(body.velocity) + velocityStep
      ensures Place() == old(Place()) && body.extent == old(body.extent)
      ensures body.direction == old(body.direction) && body.visible == old(body.visible)
    {
      body.velocity := body.velocity + velocityStep;
    }

    /**
      Launch a ball at rest: it becomes visible and moves at the initial
      velocity. A ball in play is not affected.
    */
    method Launch()
      requires Valid()
      modifies body
      ensures Valid()
      ensures var atRest := old(body.velocity) == 0.0 && !old(body.visible);
              && body.visible == (atRest || old(body.visible))
              && body.velocity == (if atRest then initialVelocity else old(body.velocity))
      ensures Place() == old(Place()) && body.extent == old(body.extent) && body.direction == old(body.direction)
    {
      if body.velocity == 0.0 && body.visible == false {
        body.velocity := initialVelocity;
        body.visible := true;
      }
    }

    /**
      A brick was hit: the ball latches (no further brick counts until a
      wall or paddle bounce) and its vertical direction flips.
    */
    method LatchBrick()
      requires Valid()
      modifies this, body
      ensures Valid() && state == BrickHit
      ensures body.direction == Vec(old(body.direction.x), -old(body.direction.y))
      ensures Place() == old(Place()) && body.velocity == old(body.velocity) && body.visible == old(body.visible)
      ensures hitCounter == old(hitCounter) && endGameMode == old(endGameMode)
      ensures orangeBricksHit == old(orangeBricksHit) && redBricksHit == old(redBricksHit)
    {
      state := BrickHit;
      body.direction := body.direction.(y := -body.direction.y);
    }

    /** Move the ball along its direction at its velocity. */
    method Move(dt: real)
      requires Valid()
      modifies body
      ensures Valid()
      ensures body.x == Advance(old(body.x), dt, body.direction.x, body.velocity)
      ensures body.y == Advance(old(body.y), dt, body.direction.y, body.velocity)
      ensures body.width == old(body.width) && body.height == old(body.height)
      ensures body.direction == old(body.direction) && body.velocity == old(body.velocity)
      ensures body.visible == old(body.visible)
    {
      body.Move(dt);
    }

    /**
      Put a ball at rest in play for the end of the game: visible, at the
      initial velocity, and in end-game mode, where it no longer breaks
      bricks.
    */
    method EnterEndGame()
      requires Valid() && !body.visible
      modifies this, body
      ensures Valid() && body.visible && body.velocity == initialVelocity && endGameMode
      ensures Place() == old(Place()) && body.extent == old(body.extent) && body.direction == old(body.direction)
      ensures state == old(state) && hitCounter == old(hitCounter)
      ensures orangeBricksHit == old(orangeBricksHit) && redBricksHit == old(redBricksHit)
    {
      body.velocity := initialVelocity;
      body.visible := true;
      endGameMode := true;
    }

    /**
      The one-time speed bonus for the tier of a destroyed brick: the first
      orange brick and the first red brick of a ball's life each raise the
      velocity by one step.
    */
    method TierBonus(tier: Tier)
      requires Valid() && body.visible
      modifies this, body
      ensures Valid() && body.visible
      ensures orangeBricksHit == (old(orangeBricksHit) || tier == Orange)
      ensures redBricksHit == (old(redBricksHit) || tier == Red)
      ensures var first := (tier == Orange && !old(orangeBricksHit)) || (tier == Red && !old(redBricksHit));
              body.velocity == old(body.velocity) + (if first then velocityStep else 0.0)
      ensures hitCounter == old(hitCounter) && state == old(state) && endGameMode == old(endGameMode)
      ensures Place() == old(Place()) && body.direction == old(body.direction)
    {
      if tier == Orange {
        if orangeBricksHit == false {
          IncrementVelocity();
          orangeBricksHit := true;
        }
      } else if tier == Red {
        if redBricksHit == false {
          IncrementVelocity();
          redBricksHit := true;
        }
      }
    }

    /** Count a hit; the velocity rises by one step when the count becomes 4 or 12. */
    method IncrementHitCount()
      requires Valid() && body.visible
      modifies this, body
      ensures Valid() && body.visible
      ensures hitCounter == old(hitCounter) + 1
      ensures body.velocity == old(body.velocity) + (if hitCounter == 4 || hitCounter == 12 then velocityStep else 0.0)
      ensures Place() == old(Place()) && body.direction == old(body.direction)
      ensures state == old(state) && endGameMode == old(endGameMode)
      ensures orangeBricksHit == old(orangeBricksHit) && redBricksHit == old(redBricksHit)
    {
      hitCounter := hitCounter + 1;
      HitBumpsStep(hitCounter - 1);
      if hitCounter == 4 || hitCounter == 12 {
        IncrementVelocity();
      }
    }

    /**
      Put the ball at rest in the middle of the canvas with a fresh heading
      from `roll`: hidden, no velocity, no latch, no hits, no bonus taken.
      End-game mode is kept.
    */
    method Reset(roll: int) returns (ghost scale: real)
      requires Valid() && 1 <= roll <= 10
      modifies this, body
      ensures Valid()
      ensures body.center == Vec(canvasWidth / 2.0, canvasHeight / 2.0)
      ensures body.width == old(body.width) && body.height == old(body.height)
      ensures !body.visible && body.velocity == 0.0
      ensures scale > 0.0 && body.direction == Vec(scale * InitHeading(roll).x, scale * InitHeading(roll).y)
      ensures Heads(body.direction, roll)
      ensures state == Normal && hitCounter == 0 && !redBricksHit && !orangeBricksHit
      ensures endGameMode == old(endGameMode)
    {
      body.x := (canvasWidth / 2.0) - body.extent.x;
      body.y := (canvasHeight / 2.0) - body.extent.y;
      body.center := Vec(canvasWidth / 2.0, canvasHeight / 2.0);
      body.velocity := 0.0;
      body.visible := false;
      body.direction, scale := Normalize(InitHeading(roll));
      ScaledHeads(scale, roll);
      state := Normal;
      hitCounter := 0;
      redBricksHit := false;
      orangeBricksHit := false;
    }

    /**
      A ball moving up that collides with the top wall turns down, clears
      the brick latch, counts a hit and shrinks the paddle.
    */
    method ReflectOffTopWall(topWall: Wall, paddle: Paddle)
      requires Valid() && body.visible && paddle.Valid() && paddle.body != body
      modifies this, body, paddle.body
      ensures Valid() && body.visible && paddle.Valid()
      ensures var hit := old(body.direction.y) < 0.0 && Collides(old(body.Box()), topWall.Box());
              && body.direction == (if hit then old(body.direction).(y := -old(body.direction.y)) else old(body.direction))
              && state == (if hit then Normal else old(state))
              && hitCounter == old(hitCounter) + (if hit then 1 else 0)
              && paddle.body.width == (if hit && old(paddle.body.width) == paddle.originalWidth
                                       then paddle.originalWidth / 2.0 else old(paddle.body.width))
      ensures Place() == old(Place()) && endGameMode == old(endGameMode)
      ensures orangeBricksHit == old(orangeBricksHit) && redBricksHit == old(redBricksHit)
      ensures paddle.body.center == old(paddle.body.center) && paddle.body.y == old(paddle.body.y)
      ensures paddle.body.height == old(paddle.body.height) && paddle.body.visible == old(paddle.body.visible)
      ensures paddle.body.direction == old(paddle.body.direction) && paddle.body.velocity == old(paddle.body.velocity)
    {
      if body.direction.y < 0.0 && Collides(body.Box(), topWall.Box()) {
        body.direction := body.direction.(y := -body.direction.y);
        state := Normal;
        IncrementHitCount();
        paddle.Shrink();
      }
    }

    /** A ball moving left that collides with the left wall turns right and counts a hit. */
    method ReflectOffLeftWall(leftWall: Wall)
      requires Valid() && body.visible
      modifies this, body
      ensures Valid() && body.visible
      ensures var hit := old(body.direction.x) < 0.0 && Collides(old(body.Box()), leftWall.Box());
              && body.direction == (if hit then old(body.direction).(x := -old(body.direction.x)) else old(body.direction))
              && state == (if hit then Normal else old(state))
              && hitCounter == old(hitCounter) + (if hit then 1 else 0)
      ensures Place() == old(Place()) && endGameMode == old(endGameMode)
      ensures orangeBricksHit == old(orangeBricksHit) && redBricksHit == old(redBricksHit)
    {
      if body.direction.x < 0.0 && Collides(body.Box(), leftWall.Box()) {
        body.direction := body.direction.(x := -body.direction.x);
        state := Normal;
        IncrementHitCount();
      }
    }

    /** A ball moving right that collides with the right wall turns left and counts a hit. */
    method ReflectOffRightWall(rightWall: Wall)
      requires Valid() && body.visible
      modifies this, body
      ensures Valid() && body.visible
      ensures var hit := old(body.direction.x) > 0.0 && Collides(old(body.Box()), rightWall.Box());
              && body.direction == (if hit then old(body.direction).(x := -old(body.direction.x)) else old(body.direction))
              && state == (if hit then Normal else old(state))
              && hitCounter == old(hitCounter) + (if hit then 1 else 0)
      ensures Place() == old(Place()) && endGameMode == old(endGameMode)
      ensures orangeBricksHit == old(orangeBricksHit) && redBricksHit == old(redBricksHit)
    {
      if body.direction.x > 0.0 && Collides(body.Box(), rightWall.Box()) {
        body.direction := body.direction.(x := -body.direction.x);
        state := Normal;
        IncrementHitCount();
      }
    }

    /**
      A ball moving down that collides with the paddle is steered by where it
      hit: the horizontal component becomes the offset of the centres over
      half the paddle width, the vertical one turns up, and the result is
      normalised. So the ball leaves upwards, to the side of the paddle's
      centre it hit, and straight up from a dead-centre hit.
    */
    method ReflectOffPaddle(paddle: Paddle)
      requires Valid() && body.visible && paddle.Valid()
      modifies this, body
      ensures Valid() && body.visible
      ensures var hit := old(body.direction.y) > 0.0 && Collides(old(body.Box()), paddle.body.Box());
              var offset := body.center.x - paddle.body.center.x;
              && (hit ==> && body.direction.y < 0.0
                          && (body.direction.x < 0.0 <==> offset < 0.0)
                          && (body.direction.x == 0.0 <==> offset == 0.0)
                          && state == Normal)
              && (!hit ==> body.direction == old(body.direction) && state == old(state))
              && hitCounter == old(hitCounter) + (if hit then 1 else 0)
      ensures Place() == old(Place()) && endGameMode == old(endGameMode)
      ensures orangeBricksHit == old(orangeBricksHit) && redBricksHit == old(redBricksHit)
    {
      if body.direction.y > 0.0 && Collides(body.Box(), paddle.body.Box()) {
        SteerOffPaddle(paddle);
        state := Normal;
        IncrementHitCount();
      }
    }

    /**
      The new direction after a paddle hit: the offset of the centres over
      half the paddle width across, the vertical component turned up, then
      normalised.
    */
    method SteerOffPaddle(paddle: Paddle)
      requires Valid() && paddle.Valid() && body.direction.y > 0.0
      modifies body
      ensures Valid() && Place() == old(Place()) && body.visible == old(body.visible)
      ensures var offset := body.center.x - paddle.body.center.x;
              && body.direction.y < 0.0
              && (body.direction.x < 0.0 <==> offset < 0.0)
              && (body.direction.x == 0.0 <==> offset == 0.0)
    {
      var xDiff := body.center.x - paddle.body.center.x;
      var steer := Vec(xDiff / (paddle.body.width / 2.0), -body.direction.y);
      ghost var scale;
      body.direction, scale := Normalize(steer);
      SteerSigns(xDiff, paddle.body.width / 2.0, steer.y, scale);
    }

    /**
      The wall and paddle bounces of one tick, in order: top wall, left
      wall, right wall, paddle. Each bounce counts a hit and clears the
      brick latch; a tick without a bounce leaves the latch as it was.
    */
    method Bounce(topWall: Wall, leftWall: Wall, rightWall: Wall, paddle: Paddle) returns (ghost bounces: nat)
      requires Valid() && body.visible && paddle.Valid() && paddle.body != body
      modifies this, body, paddle.body
      ensures Valid() && body.visible && paddle.Valid()
      ensures bounces <= 4 && hitCounter == old(hitCounter) + bounces
      ensures state == (if bounces > 0 then Normal else old(state))
      ensures bounces == 0 ==> body.direction == old(body.direction)
      ensures Place() == old(Place()) && endGameMode == old(endGameMode)
      ensures orangeBricksHit == old(orangeBricksHit) && redBricksHit == old(redBricksHit)
      ensures paddle.body.width == old(paddle.body.width)
              || (old(paddle.body.width) == paddle.originalWidth && paddle.body.width == paddle.originalWidth / 2.0)
      ensures paddle.body.center == old(paddle.body.center) && paddle.body.y == old(paddle.body.y)
      ensures paddle.body.height == old(paddle.body.height) && paddle.body.visible == old(paddle.body.visible)
      ensures paddle.body.direction == old(paddle.body.direction) && paddle.body.velocity == old(paddle.body.velocity)
    {
      var h0 := hitCounter;
      ReflectOffTopWall(topWall, paddle);
      ReflectOffLeftWall(leftWall);
      ReflectOffRightWall(rightWall);
      ReflectOffPaddle(paddle);
      bounces := hitCounter - h0;
    }
  }

  /**
    Scaling the steered direction by a positive factor: the horizontal
    component has the sign of the offset, the vertical one stays negative.
  */
  lemma SteerSigns(offset: real, half: real, up: real, k: real)
    requires half > 0.0 && up < 0.0 && k > 0.0
    ensures k * up < 0.0
    ensures (k * (offset / half) < 0.0 <==> offset < 0.0) && (k * (offset / half) == 0.0 <==> offset == 0.0)
  {
    assert offset / half * half == offset;
    SignOfScaled(half, offset / half);
    SignOfScaled(k, offset / half);
    SignOfScaled(k, up);
  }

  /** Scaling by a positive factor keeps the sign. */
  lemma SignOfScaled(k: real, a: real)
    requires k > 0.0
    ensures (k * a < 0.0 <==> a < 0.0) && (k * a == 0.0 <==> a == 0.0) && (k * a > 0.0 <==> a > 0.0)
  {
    if a < 0.0 {
      assert k * a == -(k * -a);
    }
  }
}
