/**
  The court scene: the walls, the ball, the paddle, the brick levels of
  both players, the score and status digits, and the match controller's
  per-player arrays. Its operations are the ones the ball's update calls
  into (losing a ball, scoring a brick, clearing a level, switching the
  player, ending the game, refreshing and blinking the score), the ball's
  update itself and the scene's update.
*/
module CourtScene {
  import opened Geometry
  import opened Bodies
  import opened Bricks
  import opened Paddles
  import opened Balls
  import opened Digits
  import opened ScoreText
  import Turns

  datatype Option<T> = None | Some(value: T)

  /** The scores after player `a` is awarded `points`; the other player's score is kept. */
  function AddPoints(scores: seq<nat>, a: int, points: nat): (r: seq<nat>)
    requires 0 <= a < |scores|
    ensures |r| == |scores| && r[a] == scores[a] + points
    ensures forall p | 0 <= p < |scores| && p != a :: r[p] == scores[p]
  {
    scores[a := scores[a] + points]
  }

  /**
    The brick grid's place on a canvas of the given width. A slot is a
    sixteenth of the width wide and a 45th of it high; the gap between bricks
    spreads what two walls and 14 bricks leave of the width over 13 gaps.
    The grid starts one slot height in from the left, below the status
    digits and the score digits, each five slot heights high and followed
    by a gap.
  */
  function CourtLayout(canvasWidth: real): Layout {
    var slotWidth := canvasWidth / 16.0;
    var slotHeight := canvasWidth / 45.0;
    var slotSpacing := (canvasWidth - 2.0 * slotHeight - 14.0 * slotWidth) / 13.0;
    Layout(slotHeight, slotHeight + 2.0 * (slotHeight * 5.0 + slotSpacing), slotWidth, slotHeight, slotSpacing)
  }

  /** The score of every destroyed brick is at most this; no score can exceed its count times it. */
  const MaxPoints := 7

  /** The first brick of a level, in storage order, that the box collides with, if any. */
  function FirstHit(box: Aabb, bricks: seq<Brick>): (r: Option<Brick>)
    reads set b | b in bricks
    ensures r.None? <==> forall j | 0 <= j < |bricks| :: !Collides(box, bricks[j].Box())
    ensures r.Some? ==> r.value in bricks && Collides(box, r.value.Box())
    decreases |bricks|
  {
    if |bricks| == 0 then None
    else if Collides(box, bricks[0].Box()) then Some(bricks[0])
    else
      var r := FirstHit(box, bricks[1..]);
      assert forall j | 1 <= j < |bricks| :: bricks[j] == bricks[1..][j - 1];
      r
  }

  /** Player 0's second level appended to player 1's levels: the very same brick objects, shared. */
  function BonusAppended(playerBricks: seq<seq<seq<Brick>>>): seq<seq<seq<Brick>>> {
    if |playerBricks| == 2 && |playerBricks[0]| >= 2 then playerBricks[1 := playerBricks[1] + [playerBricks[0][1]]]
    else playerBricks
  }

  /** The direction after a tick's brick collision: turned vertically when a brick was struck. */
  function Deflected(d: Vec, struck: Option<Brick>): Vec {
    if struck.Some? then d.(y := -d.y) else d
  }

  /** Find the first brick of a level the box collides with, or -1. */
  method FindHitBrick(box: Aabb, bricks: seq<Brick>) returns (index: int)
    ensures -1 <= index < |bricks|
    ensures FirstHit(box, bricks) == if index < 0 then None else Some(bricks[index])
    ensures index == -1 <==> forall j | 0 <= j < |bricks| :: !Collides(box, bricks[j].Box())
    ensures index >= 0 ==> Collides(box, bricks[index].Box())
    ensures index >= 0 ==> forall j | 0 <= j < index :: !Collides(box, bricks[j].Box())
  {
    index := -1;
    var i := 0;
    while i < |bricks|
      invariant 0 <= i <= |bricks|
      invariant forall j | 0 <= j < i :: !Collides(box, bricks[j].Box())
      invariant FirstHit(box, bricks) == FirstHit(box, bricks[i..])
    {
      if Collides(box, bricks[i].Box()) {
        index := i;
        return;
      }
      assert bricks[i..][1..] == bricks[i + 1..];
      i := i + 1;
    }
  }

  /** The number of bricks of a level that are no longer shown. */
  ghost function Destroyed(bricks: seq<Brick>): (n: nat)
    reads set b | b in bricks
    ensures n <= |bricks|
  {
    if |bricks| == 0 then 0
    else Destroyed(bricks[..|bricks| - 1]) + (if bricks[|bricks| - 1].visible then 0 else 1)
  }

  /** Every brick of a level is destroyed exactly when the count reaches the level's size. */
  lemma {:induction false} AllDestroyed(bricks: seq<Brick>)
    ensures Destroyed(bricks) == |bricks| <==> forall j | 0 <= j < |bricks| :: !bricks[j].visible
  {
    if |bricks| > 0 {
      var front := bricks[..|bricks| - 1];
      AllDestroyed(front);
      assert forall j | 0 <= j < |front| :: front[j] == bricks[j];
    }
  }

  /** Count the bricks of a level that are no longer shown. */
  method CountDestroyed(bricks: seq<Brick>) returns (count: nat)
    ensures count == Destroyed(bricks)
  {
    count := 0;
    for j := 0 to |bricks|
      invariant count == Destroyed(bricks[..j])
    {
      assert bricks[..j + 1][..j] == bricks[..j];
      if bricks[j].visible == false {
        count := count + 1;
      }
    }
    assert bricks[..|bricks|] == bricks;
  }

  lemma {:induction false} SubsetCardinality<T>(a: set<T>, b: set<T>)
    requires a <= b
    ensures |a| <= |b|
    decreases a
  {
    if a != {} {
      var x :| x in a;
      SubsetCardinality(a - {x}, b - {x});
    }
  }

  /** Each brick is shown exactly while it is enabled, and the destroyed ones are among them and disabled. */
  ghost predicate Standing(all: set<Brick>, scored: set<Brick>)
    reads all
  {
    && (forall b | b in all :: b.visible == b.enabled)
    && scored <= all
    && (forall b | b in scored :: !b.enabled)
  }

  /**
    Four score digits, thousands first, show a score's decimal digits; the
    thousands digit is hidden and still while the score is below 1000, and
    shown or blinking from 1000 on.
  */
  ghost predicate ShowsScore(digits: seq<Digit>, score: nat)
    reads digits
    requires |digits| == 4
  {
    && (forall k | 0 <= k < 4 :: digits[k].value == DigitAt(score, 3 - k))
    && (score < 1000 ==> !digits[0].visible && digits[0].blinksLeft <= 0)
    && (score >= 1000 ==> digits[0].visible || digits[0].blinksLeft > 0)
  }

  /**
    The score digits of both players, thousands first, each showing 0; the
    thousands digits start hidden.
  */
  method BuildScoreDigits() returns (digits: seq<seq<Digit>>)
    ensures |digits| == 2 && |digits[0]| == 4 && |digits[1]| == 4
    ensures forall p, k | 0 <= p < 2 && 0 <= k < 4 :: fresh(digits[p][k])
    ensures forall p, k, q, j | 0 <= p < 2 && 0 <= k < 4 && 0 <= q < 2 && 0 <= j < 4 && (p != q || k != j) ::
              digits[p][k] != digits[q][j]
    ensures forall p, k | 0 <= p < 2 && 0 <= k < 4 ::
              digits[p][k].value == 0 && digits[p][k].blinksLeft == 0 && digits[p][k].visible == (k != 0)
  {
    var d00 := new Digit();
    var d01 := new Digit();
    var d02 := new Digit();
    var d03 := new Digit();
    var d10 := new Digit();
    var d11 := new Digit();
    var d12 := new Digit();
    var d13 := new Digit();
    d00.visible := false;
    d10.visible := false;
    digits := [[d00, d01, d02, d03], [d10, d11, d12, d13]];
  }

  /**
    The player digit and the ball digit, both showing 1, and the score
    digits; all distinct.
  */
  method BuildDigits() returns (indexDigit: Digit, ballIndexDigit: Digit, scoreDigits: seq<seq<Digit>>)
    ensures fresh(indexDigit) && fresh(ballIndexDigit) && indexDigit != ballIndexDigit
    ensures indexDigit.value == 1 && ballIndexDigit.value == 1
    ensures |scoreDigits| == 2 && |scoreDigits[0]| == 4 && |scoreDigits[1]| == 4
    ensures forall p, k | 0 <= p < 2 && 0 <= k < 4 :: fresh(scoreDigits[p][k])
    ensures forall p, k, q, j | 0 <= p < 2 && 0 <= k < 4 && 0 <= q < 2 && 0 <= j < 4 && (p != q || k != j) ::
              scoreDigits[p][k] != scoreDigits[q][j]
    ensures forall p, k | 0 <= p < 2 && 0 <= k < 4 ::
              scoreDigits[p][k] != indexDigit && scoreDigits[p][k] != ballIndexDigit
    ensures forall p, k | 0 <= p < 2 && 0 <= k < 4 ::
              scoreDigits[p][k].value == 0 && scoreDigits[p][k].blinksLeft == 0 && scoreDigits[p][k].visible == (k != 0)
  {
    scoreDigits := BuildScoreDigits();
    indexDigit := new Digit();
    indexDigit.value := 1;
    ballIndexDigit := new Digit();
    ballIndexDigit.value := 1;
  }

  class Court {
    const players: int
    const canvasWidth: real
    const canvasHeight: real
    const leftWall: Wall
    const rightWall: Wall
    const topWall: Wall
    const outOfBounds: Wall
    const ball: Ball
    const paddle: Paddle
    const playerIndexDigit: Digit
    const playerBallIndexDigit: Digit
    const playerScoreDigits: seq<seq<Digit>>
    /** Every brick the court was built with. */
    ghost const allBricks: set<Brick>

    var playerBricks: seq<seq<seq<Brick>>>
    var activePlayer: int
    var playerLevel: seq<int>
    var playerBallIndex: seq<int>
    var playerScores: seq<nat>
    /** The bricks destroyed so far, by either player. */
    ghost var scoredBricks: set<Brick>

    ghost function DigitSet(): set<Digit> {
      (set p, k | 0 <= p < |playerScoreDigits| && 0 <= k < |playerScoreDigits[p]| :: playerScoreDigits[p][k])
      + {playerIndexDigit, playerBallIndexDigit}
    }

    /** The four score digits of a player, thousands first. */
    ghost function ScoreDigits(p: int): set<Digit>
      requires 0 <= p < |playerScoreDigits|
    {
      set k | 0 <= k < |playerScoreDigits[p]| :: playerScoreDigits[p][k]
    }

    /** The fixed parts of the court: sizes, walls that leave room for the paddle, distinct objects. */
    ghost predicate Wiring() {
      var wired :=
        && (players == 1 || players == 2)
        && canvasWidth > 0.0 && canvasHeight > 0.0
        && canvasWidth - rightWall.width - leftWall.width > 0.0
        && ball.body != paddle.body
        && ball.canvasWidth == canvasWidth && ball.canvasHeight == canvasHeight
        && paddle.canvasWidth == canvasWidth
        && |playerScoreDigits| == 2 && |playerScoreDigits[0]| == 4 && |playerScoreDigits[1]| == 4
        && (forall p, k, q, j | 0 <= p < 2 && 0 <= k < 4 && 0 <= q < 2 && 0 <= j < 4 && (p != q || k != j) ::
              playerScoreDigits[p][k] != playerScoreDigits[q][j])
        && (forall p, k | 0 <= p < 2 && 0 <= k < 4 ::
              playerScoreDigits[p][k] != playerIndexDigit && playerScoreDigits[p][k] != playerBallIndexDigit)
        && playerIndexDigit != playerBallIndexDigit;
      wired
    }

    /** The sizes of the per-player arrays and of the brick levels. */
    ghost predicate Shape()
      reads this
    {
      var shaped :=
        && |playerBricks| == 2 && |playerLevel| == 2 && |playerBallIndex| == 2 && |playerScores| == 2
        && (activePlayer == 0 || activePlayer == 1)
        && |playerBricks[0]| == 2 && |playerBricks[1]| >= 2
        && FullLevels(playerBricks[0]) && FullLevels(playerBricks[1]);
      shaped
    }

    /** The match controller's state as a value. */
    ghost function Turn(): Turns.Match
      reads this, ball
      requires |playerBricks| == 2
    {
      Turns.Match(players, activePlayer, playerLevel, playerBallIndex,
                  [|playerBricks[0]|, |playerBricks[1]|], ball.endGameMode)
    }

    /** The bricks the active player is playing. */
    ghost predicate HasLevel()
      reads this
    {
      && |playerBricks| == 2 && |playerLevel| == 2 && (activePlayer == 0 || activePlayer == 1)
      && 0 <= playerLevel[activePlayer] < |playerBricks[activePlayer]|
    }

    ghost function CurrentLevel(): seq<Brick>
      reads this
      requires HasLevel()
    {
      playerBricks[activePlayer][playerLevel[activePlayer]]
    }

    /**
      Every brick of every level is one of the court's bricks, shown exactly
      while it is enabled; the destroyed bricks are disabled, and each of
      them scored at most 7 points, so the two scores together are at most 7
      times their number.
    */
    ghost predicate BricksValid()
      reads this, allBricks
      requires Shape()
    {
      var standing :=
        && BricksIn(playerBricks, allBricks)
        && Standing(allBricks, scoredBricks)
        && |allBricks| <= 4 * BricksPerLevel
        && playerScores[0] + playerScores[1] <= MaxPoints * |scoredBricks|;
      standing
    }

    /**
      The display: the player digit shows the active player (counting from
      1) and each player's score digits show their score.
    */
    ghost predicate DisplayValid()
      reads this, DigitSet()
      requires Wiring() && Shape()
    {
      var shown :=
        && playerIndexDigit.value == activePlayer + 1
        && ShowsScore(playerScoreDigits[0], playerScores[0])
        && ShowsScore(playerScoreDigits[1], playerScores[1]);
      shown
    }

    /** Everything but the match controller's own rules; holds between the steps of an operation. */
    ghost predicate Consistent()
      reads this, ball, ball.body, paddle, paddle.body, allBricks, DigitSet()
    {
      var consistent := Wiring() && Shape() && BricksValid() && DisplayValid() && ball.Valid() && paddle.Valid();
      consistent
    }

    ghost predicate Valid()
      reads this, ball, ball.body, paddle, paddle.body, allBricks, DigitSet()
    {
      var valid := Consistent() && Turns.Valid(Turn());
      valid
    }

    /** The two scores are at most 7 points for each of the 448 bricks, so they fit four digits. */
    lemma ScoresBounded()
      requires Consistent()
      ensures playerScores[0] + playerScores[1] <= MaxPoints * 4 * BricksPerLevel
      ensures playerScores[0] < 10000 && playerScores[1] < 10000
    {
      SubsetCardinality(scoredBricks, allBricks);
    }

    /**
      Enter the court: walls, ball, paddle and digits sized from the canvas
      width, the four brick levels below the digits, and both players on
      their first level with their first ball and no score.
    */
    constructor (players: int, canvasWidth: real, canvasHeight: real, roll: int)
      requires players == 1 || players == 2
      requires canvasWidth > 0.0 && canvasHeight > 0.0 && 1 <= roll <= 10
      ensures Valid()
      ensures Turn() == Turns.Initial(players) && playerScores == [0, 0]
      ensures !ball.body.visible && !ball.endGameMode
      ensures GridPlaced(playerBricks, CourtLayout(canvasWidth)) && Distinct(playerBricks)
      ensures |allBricks| == 4 * BricksPerLevel && forall b | b in allBricks :: b.visible
      ensures outOfBounds == Wall(0.0, canvasHeight + canvasWidth / 45.0, canvasWidth, 1000.0)
      // the side walls run down the canvas and the top wall across it, one slot height thick
      ensures leftWall == Wall(0.0, 0.0, canvasWidth / 45.0, canvasHeight)
      ensures rightWall == Wall(canvasWidth - canvasWidth / 45.0, 0.0, canvasWidth / 45.0, canvasHeight)
      ensures topWall == Wall(0.0, 0.0, canvasWidth, canvasWidth / 45.0)
      // the ball rests in the middle with the roll's heading; the paddle is centred 100 above the bottom
      ensures ball.body.center == Vec(canvasWidth / 2.0, canvasHeight / 2.0) && Heads(ball.body.direction, roll)
      ensures ball.body.velocity == 0.0 && ball.state == Normal && ball.hitCounter == 0
      ensures !ball.orangeBricksHit && !ball.redBricksHit
      ensures paddle.body.width == canvasWidth / 16.0 && paddle.body.y == canvasHeight - 100.0 && PaddleRestored()
      // the player digit and the ball digit both show 1
      ensures playerIndexDigit.value == 1 && playerBallIndexDigit.value == 1
    {
      var slotWidth := canvasWidth / 16.0;
      var slotHeight := canvasWidth / 45.0;
      this.players := players;
      this.canvasWidth := canvasWidth;
      this.canvasHeight := canvasHeight;
      leftWall := Wall(0.0, 0.0, slotHeight, canvasHeight);
      rightWall := Wall(canvasWidth - slotHeight, 0.0, slotHeight, canvasHeight);
      topWall := Wall(0.0, 0.0, canvasWidth, slotHeight);
      ball := new Ball(canvasWidth / 2.0 - slotHeight / 2.0, canvasHeight / 2.0 - slotHeight / 2.0,
                       slotHeight, slotHeight, canvasWidth, canvasHeight, roll);
      paddle := new Paddle(canvasWidth / 2.0 - slotWidth / 2.0, canvasHeight - 100.0,
                           slotWidth, slotHeight, canvasWidth, canvasHeight);
      var indexDigit, ballIndexDigit, scoreDigits := BuildDigits();
      playerIndexDigit := indexDigit;
      playerBallIndexDigit := ballIndexDigit;
      playerScoreDigits := scoreDigits;
      var bricks, all := BuildBrickGrid(CourtLayout(canvasWidth));
      allBricks := all;
      playerBricks := bricks;
      outOfBounds := Wall(0.0, canvasHeight + slotHeight, canvasWidth, 1000.0);
      activePlayer := 0;
      playerLevel := [0, 0];
      playerBallIndex := [Turns.FirstBall, Turns.FirstBall];
      playerScores := [0, 0];
      scoredBricks := {};
      new;
      InitiallyValid();
      assert Turn() == Turns.Initial(players);
    }

    /** A court whose bricks are all standing and whose digits all show zero satisfies the invariant. */
    lemma InitiallyValid()
      requires Wiring() && Shape() && ball.Valid() && paddle.Valid()
      requires BricksIn(playerBricks, allBricks) && |allBricks| <= 4 * BricksPerLevel
      requires forall b | b in allBricks :: b.visible && b.enabled
      requires scoredBricks == {} && playerScores == [0, 0]
      requires playerIndexDigit.value == activePlayer + 1
      requires forall p, k | 0 <= p < 2 && 0 <= k < 4 ::
                 playerScoreDigits[p][k].value == 0 && playerScoreDigits[p][k].blinksLeft == 0
                 && playerScoreDigits[p][k].visible == (k != 0)
      ensures Consistent()
    {
      ZeroDigits(0);
      ZeroDigits(1);
      ZeroDigits(2);
      ZeroDigits(3);
    }

    /** The paddle spans the room between the side walls, as it does once the game is over. */
    ghost predicate PaddleSpans()
      reads this, paddle, paddle.body
    {
      paddle.body.x == rightWall.width && paddle.body.width == canvasWidth - rightWall.width - leftWall.width
    }

    /** The paddle has its original width and is centred on the canvas, as after a reset. */
    ghost predicate PaddleRestored()
      reads this, paddle, paddle.body
    {
      paddle.body.width == paddle.originalWidth && paddle.body.center.x == canvasWidth / 2.0
    }

    /** What the end of a turn keeps of the ball: its placement, heading, latch, hit count and bonus flags. */
    ghost function BallSetup(): ((Vec, Vec, real, real), Vec, BallState, int, bool, bool)
      reads this, ball, ball.body
    {
      (ball.Place(), ball.body.direction, ball.state, ball.hitCounter, ball.orangeBricksHit, ball.redBricksHit)
    }

    /** Put the ball at rest in the middle and restore and recentre the paddle. */
    method ResetBallAndPaddle(roll: int)
      requires Consistent() && 1 <= roll <= 10
      modifies ball, ball.body, paddle.body
      ensures Consistent() && Turn() == old(Turn())
      ensures !ball.body.visible && ball.body.velocity == 0.0
      ensures ball.body.center == Vec(canvasWidth / 2.0, canvasHeight / 2.0)
      ensures Heads(ball.body.direction, roll)
      ensures ball.state == Normal && ball.hitCounter == 0 && !ball.orangeBricksHit && !ball.redBricksHit
      ensures PaddleRestored() && paddle.body.y == old(paddle.body.y)
    {
      ghost var scale := ball.Reset(roll);
      paddle.Reset();
    }

    /** The active player uses up a ball; the ball digit shows the new index. */
    method IncrementBallIndex()
      requires Consistent()
      modifies this, playerBallIndexDigit
      ensures Consistent()
      ensures Turn() == Turns.IncrementBallIndex(old(Turn()))
      ensures playerBallIndexDigit.value == playerBallIndex[activePlayer]
      ensures playerBricks == old(playerBricks) && playerScores == old(playerScores)
      ensures scoredBricks == old(scoredBricks)
    {
      playerBallIndex := playerBallIndex[activePlayer := playerBallIndex[activePlayer] + 1];
      playerBallIndexDigit.value := playerBallIndex[activePlayer];
    }

    /**
      Hand the turn to the other player if they have a ball left: the player
      digit shows them and starts blinking, the ball digit shows their ball
      index. Otherwise nothing changes.
    */
    method SwitchPlayer()
      requires Consistent()
      modifies this, playerIndexDigit, playerBallIndexDigit
      ensures Consistent()
      ensures Turn() == Turns.SwitchPlayer(old(Turn()))
      ensures activePlayer != old(activePlayer) ==>
                && playerIndexDigit.Blink() == BlinkState(old(playerIndexDigit.visible), BlinkCount, 0)
                && playerBallIndexDigit.value == playerBallIndex[activePlayer]
      ensures activePlayer == old(activePlayer) ==>
                && playerIndexDigit.Blink() == old(playerIndexDigit.Blink())
                && playerBallIndexDigit.value == old(playerBallIndexDigit.value)
      ensures playerBricks == old(playerBricks) && playerScores == old(playerScores)
      ensures scoredBricks == old(scoredBricks)
    {
      if playerBallIndex[Turns.Other(activePlayer)] <= Turns.LastBall {
        activePlayer := Turns.Other(activePlayer);
        playerIndexDigit.value := activePlayer + 1;
        playerIndexDigit.SetBlink(true);
        playerBallIndexDigit.value := playerBallIndex[activePlayer];
      }
      assert ShowsScore(playerScoreDigits[0], playerScores[0]);
      assert ShowsScore(playerScoreDigits[1], playerScores[1]);
    }

    /**
      End the game: the paddle spans the whole room between the walls and
      the ball, at rest until now, is put in play at the initial velocity in
      end-game mode, where it no longer breaks bricks.
    */
    method EndGame()
      requires Consistent() && !ball.body.visible
      modifies ball, ball.body, paddle.body
      ensures Consistent()
      ensures Turn() == old(Turn()).(over := true)
      ensures ball.body.visible && ball.body.velocity == ball.initialVelocity && ball.endGameMode
      ensures PaddleSpans() && paddle.body.y == old(paddle.body.y)
      ensures BallSetup() == old(BallSetup())
    {
      paddle.Span(rightWall.width, canvasWidth - rightWall.width - leftWall.width);
      ball.EnterEndGame();
    }

    /** End a single player's game once the player is out of balls. */
    method EndIfOut()
      requires Consistent() && !ball.body.visible
      requires ball.endGameMode ==> playerBallIndex[activePlayer] > Turns.LastBall
      modifies ball, ball.body, paddle.body
      ensures Consistent() && Turn() == Turns.EndIfOut(old(Turn()))
      ensures Turn().over ==> ball.body.visible && ball.endGameMode && ball.body.velocity == ball.initialVelocity
      ensures !Turn().over ==> !ball.body.visible && ball.body.velocity == old(ball.body.velocity)
      ensures BallSetup() == old(BallSetup()) && paddle.body.y == old(paddle.body.y)
      ensures Turn().over ==> PaddleSpans()
      ensures !Turn().over ==> paddle.body.center == old(paddle.body.center) && paddle.body.width == old(paddle.body.width)
    {
      if playerBallIndex[activePlayer] > Turns.LastBall {
        EndGame();
      }
    }

    /** End a two-player game once both players are out of balls, or hand the turn over. */
    method EndOrSwitch()
      requires Consistent() && !ball.body.visible
      requires ball.endGameMode ==> playerBallIndex[0] > Turns.LastBall && playerBallIndex[1] > Turns.LastBall
      modifies this, ball, ball.body, paddle.body, playerIndexDigit, playerBallIndexDigit
      ensures Consistent() && Turn() == Turns.EndOrSwitch(old(Turn()))
      ensures playerBricks == old(playerBricks) && playerScores == old(playerScores) && scoredBricks == old(scoredBricks)
      ensures Turn().over ==> ball.body.visible && ball.endGameMode && ball.body.velocity == ball.initialVelocity
      ensures !Turn().over ==> !ball.body.visible && ball.body.velocity == old(ball.body.velocity)
      ensures BallSetup() == old(BallSetup()) && paddle.body.y == old(paddle.body.y)
      ensures Turn().over ==> PaddleSpans()
      ensures !Turn().over ==> paddle.body.center == old(paddle.body.center) && paddle.body.width == old(paddle.body.width)
    {
      if playerBallIndex[0] > Turns.LastBall && playerBallIndex[1] > Turns.LastBall {
        EndGame();
      } else {
        SwitchPlayer();
      }
    }

    /**
      After a cleared level of a two-player game: end the game once both
      players are out of balls, hand the turn over when only the active
      player is, and otherwise let the active player play on.
    */
    method EndOrSwitchIfOut()
      requires Consistent() && !ball.body.visible
      requires ball.endGameMode ==> playerBallIndex[0] > Turns.LastBall && playerBallIndex[1] > Turns.LastBall
      modifies this, ball, ball.body, paddle.body, playerIndexDigit, playerBallIndexDigit
      ensures Consistent() && Turn() == Turns.EndOrSwitchIfOut(old(Turn()))
      ensures playerBricks == old(playerBricks) && playerScores == old(playerScores) && scoredBricks == old(scoredBricks)
      ensures Turn().over ==> ball.body.visible && ball.endGameMode && ball.body.velocity == ball.initialVelocity
      ensures !Turn().over ==> !ball.body.visible && ball.body.velocity == old(ball.body.velocity)
      ensures BallSetup() == old(BallSetup()) && paddle.body.y == old(paddle.body.y)
      ensures Turn().over ==> PaddleSpans()
      ensures !Turn().over ==> paddle.body.center == old(paddle.body.center) && paddle.body.width == old(paddle.body.width)
    {
      if playerBallIndex[0] > Turns.LastBall && playerBallIndex[1] > Turns.LastBall {
        EndGame();
      } else if playerBallIndex[activePlayer] > Turns.LastBall {
        SwitchPlayer();
      }
    }

    /** Append the first player's second level to the second player's levels; the bricks are shared. */
    method AddBonusLevel()
      requires Consistent()
      modifies this
      ensures Consistent()
      ensures playerBricks == BonusAppended(old(playerBricks))
      ensures activePlayer == old(activePlayer) && playerLevel == old(playerLevel)
      ensures playerBallIndex == old(playerBallIndex) && playerScores == old(playerScores)
      ensures scoredBricks == old(scoredBricks)
    {
      playerBricks := playerBricks[1 := playerBricks[1] + [playerBricks[0][1]]];
      assert BricksIn(playerBricks, allBricks) by {
        forall p, l, k | 0 <= p < |playerBricks| && 0 <= l < |playerBricks[p]| && 0 <= k < |playerBricks[p][l]|
          ensures playerBricks[p][l][k] in allBricks
        {
          if p == 1 && l == |playerBricks[1]| - 1 {
            assert playerBricks[p][l] == old(playerBricks[0][1]);
          } else {
            assert playerBricks[p][l] == old(playerBricks[p][l]);
          }
        }
      }
    }

    /**
      The ball went out of bounds: the active player uses up a ball, the ball
      and the paddle are reset, and the turn ends as `EndTurn` describes.
    */
    method LoseBall(roll: int)
      requires Valid() && 1 <= roll <= 10
      modifies this, ball, ball.body, paddle.body, playerIndexDigit, playerBallIndexDigit
      ensures Valid()
      ensures Turn() == Turns.LoseBall(old(Turn()))
      ensures playerBricks == if Turns.BonusLevel(Turns.IncrementBallIndex(old(Turn())))
                              then BonusAppended(old(playerBricks))
                              else old(playerBricks)
      ensures playerScores == old(playerScores) && scoredBricks == old(scoredBricks)
      ensures Turn().over ==> ball.body.visible && ball.endGameMode && ball.body.velocity == ball.initialVelocity
      ensures !Turn().over ==> !ball.body.visible && ball.body.velocity == 0.0
      // the ball is recentred with a fresh heading from the roll and no hits
      ensures ball.body.center == Vec(canvasWidth / 2.0, canvasHeight / 2.0) && Heads(ball.body.direction, roll)
      ensures ball.state == Normal && ball.hitCounter == 0 && !ball.orangeBricksHit && !ball.redBricksHit
      // the paddle is restored and recentred, or spans the room once the game is over
      ensures Turn().over ==> PaddleSpans()
      ensures !Turn().over ==> PaddleRestored()
      ensures paddle.body.y == old(paddle.body.y)
    {
      ghost var m := Turn();
      IncrementBallIndex();
      ResetBallAndPaddle(roll);
      assert Turn() == Turns.IncrementBallIndex(m);
      EndTurn();
      Turns.LoseBallValid(m);
    }

    /**
      The rest of a lost ball, once the ball index is counted and the ball is
      at rest: a single player's game ends when they are out of balls; in a
      two-player game the first player's second level is appended to the
      second player's levels (the very same bricks) when the first player has
      just lost their last ball on it, and then the game ends when both
      players are out of balls, or the turn is handed over.
    */
    method EndTurn()
      requires Consistent() && !ball.body.visible && ball.body.velocity == 0.0
      requires players == 1 ==> activePlayer == 0
      requires ball.endGameMode ==> Turns.OutOfBalls(Turn())
      modifies this, ball, ball.body, paddle.body, playerIndexDigit, playerBallIndexDigit
      ensures Consistent()
      ensures Turn() == if players == 1 then Turns.EndIfOut(old(Turn())) else Turns.EndOrSwitch(Turns.AddBonus(old(Turn())))
      ensures playerBricks == if Turns.BonusLevel(old(Turn()))
                              then BonusAppended(old(playerBricks))
                              else old(playerBricks)
      ensures playerScores == old(playerScores) && scoredBricks == old(scoredBricks)
      ensures Turn().over ==> ball.body.visible && ball.endGameMode && ball.body.velocity == ball.initialVelocity
      ensures !Turn().over ==> !ball.body.visible && ball.body.velocity == 0.0
      // the ball stays where and as it is; the paddle spans the room once the game is over, and stays otherwise
      ensures BallSetup() == old(BallSetup()) && paddle.body.y == old(paddle.body.y)
      ensures Turn().over ==> PaddleSpans()
      ensures !Turn().over ==> paddle.body.center == old(paddle.body.center) && paddle.body.width == old(paddle.body.width)
    {
      if players == 1 {
        EndIfOut();
      } else {
        if activePlayer == 0 && playerBallIndex[activePlayer] > Turns.LastBall && playerLevel[activePlayer] == 1 {
          AddBonusLevel();
        }
        EndOrSwitch();
      }
    }

    /**
      The active player destroyed the last brick of their level: the ball
      and the paddle are reset, and the player goes on to their next level,
      or, on their last level, is set past their last ball. Then the game
      ends when every player in play is out of balls, or the turn is handed
      over when only the active player is.
    */
    method ClearLevel(roll: int)
      requires Valid() && !ball.endGameMode && 1 <= roll <= 10
      modifies this, ball, ball.body, paddle.body, playerIndexDigit, playerBallIndexDigit
      ensures Valid()
      ensures Turn() == Turns.ClearLevel(old(Turn()))
      ensures playerBricks == old(playerBricks) && playerScores == old(playerScores) && scoredBricks == old(scoredBricks)
      ensures Turn().over ==> ball.body.visible && ball.endGameMode && ball.body.velocity == ball.initialVelocity
      ensures !Turn().over ==> !ball.body.visible && ball.body.velocity == 0.0
      ensures ball.body.center == Vec(canvasWidth / 2.0, canvasHeight / 2.0) && Heads(ball.body.direction, roll)
      ensures ball.state == Normal && ball.hitCounter == 0 && !ball.orangeBricksHit && !ball.redBricksHit
      ensures Turn().over ==> PaddleSpans()
      ensures !Turn().over ==> PaddleRestored()
      ensures paddle.body.y == old(paddle.body.y)
    {
      ghost var m := Turn();
      ResetBallAndPaddle(roll);
      NextLevel();
      if players == 1 {
        EndIfOut();
      } else {
        EndOrSwitchIfOut();
      }
      Turns.ClearLevelValid(m);
    }

    /**
      The active player goes on to their next level or, on their last level,
      is set past their last ball; the ball digit is not updated.
    */
    method NextLevel()
      requires Consistent()
      modifies this
      ensures Consistent() && Turn() == Turns.NextLevel(old(Turn()))
      ensures playerBricks == old(playerBricks) && playerScores == old(playerScores) && scoredBricks == old(scoredBricks)
    {
      var a := activePlayer;
      if playerLevel[a] + 1 >= |playerBricks[a]| {
        playerBallIndex := playerBallIndex[a := Turns.OutOfLevels];
      } else {
        playerLevel := playerLevel[a := playerLevel[a] + 1];
      }
    }

    /**
      Show a player's score on their digits: the i-th least significant
      decimal digit of the score goes to slot 3 - i, for as many digits as
      the score has, and the slots further left keep their values; the
      thousands slot is revealed when the score has four digits. The blink
      timers are not touched.
    */
    method RefreshPlayerScoreDigits(playerIdx: int)
      requires Wiring() && |playerScores| == 2 && 0 <= playerIdx < 2 && playerScores[playerIdx] < 10000
      modifies ScoreDigits(playerIdx)
      ensures var score := playerScores[playerIdx];
              var len := |DecimalString(score)|;
              forall k | 0 <= k < 4 ::
                && playerScoreDigits[playerIdx][k].value
                     == (if 3 - k < len then DigitAt(score, 3 - k) else old(playerScoreDigits[playerIdx][k].value))
                && playerScoreDigits[playerIdx][k].visible == (old(playerScoreDigits[playerIdx][k].visible) || (k == 0 && len == 4))
                && playerScoreDigits[playerIdx][k].blinksLeft == old(playerScoreDigits[playerIdx][k].blinksLeft)
                && playerScoreDigits[playerIdx][k].blinkTimer == old(playerScoreDigits[playerIdx][k].blinkTimer)
    {
      var score := playerScores[playerIdx];
      var text := DecimalString(score);
      DecimalLength(score);
      var digits := playerScoreDigits[playerIdx];
      if |text| == 4 {
        digits[0].visible := true;
      }
      for i := 0 to |text|
        invariant forall k | 0 <= k < 4 ::
          && digits[k].value == (if 3 - k < i then DigitAt(score, 3 - k) else old(digits[k].value))
          && digits[k].visible == (old(digits[k].visible) || (k == 0 && |text| == 4))
          && digits[k].blinksLeft == old(digits[k].blinksLeft)
          && digits[k].blinkTimer == old(digits[k].blinkTimer)
      {
        CharFromRight(score, i);
        digits[3 - i].value := CharValue(text[|text| - 1 - i]);
      }
    }

    /**
      Start the blinking of the active player's score: the three lower
      digits always, the thousands digit only from 1000 points on. The
      player index given is not used; the active player's digits blink.
    */
    method BlinkPlayerScoreDigits(playerIdx: int)
      requires Wiring() && |playerScores| == 2 && (activePlayer == 0 || activePlayer == 1)
      modifies ScoreDigits(activePlayer)
      ensures forall k | 0 <= k < 4 ::
                && playerScoreDigits[activePlayer][k].value == old(playerScoreDigits[activePlayer][k].value)
                && playerScoreDigits[activePlayer][k].Blink()
                     == if k > 0 || playerScores[activePlayer] > 999
                        then BlinkState(old(playerScoreDigits[activePlayer][k].visible), BlinkCount, 0)
                        else old(playerScoreDigits[activePlayer][k].Blink())
    {
      var digits := playerScoreDigits[activePlayer];
      if playerScores[activePlayer] > 999 {
        digits[0].SetBlink(true);
      }
      digits[1].SetBlink(true);
      digits[2].SetBlink(true);
      digits[3].SetBlink(true);
    }

    /**
      Score a brick the ball hit outside end-game mode: the brick is
      destroyed (hidden and disabled), the active player's score grows by the
      brick's points, the first orange and the first red brick of the ball's
      life speed the ball up, the active player's score blinks and shows the
      new score, and the hit is counted.
    */
    method ScoreBrick(brick: Brick)
      requires Valid() && ball.body.visible && !ball.endGameMode
      requires brick in CurrentLevel() && brick.enabled
      modifies this, brick, ball, ball.body, ScoreDigits(activePlayer)
      ensures Valid() && ball.body.visible
      ensures Turn() == old(Turn()) && playerBricks == old(playerBricks)
      ensures playerScores == AddPoints(old(playerScores), activePlayer, Points(brick.tier))
      ensures !brick.visible && !brick.enabled && scoredBricks == old(scoredBricks) + {brick}
      ensures ball.hitCounter == old(ball.hitCounter) + 1 && ball.state == old(ball.state)
      ensures ball.orangeBricksHit == (old(ball.orangeBricksHit) || brick.tier == Orange)
      ensures ball.redBricksHit == (old(ball.redBricksHit) || brick.tier == Red)
      ensures ball.Place() == old(ball.Place()) && ball.body.direction == old(ball.body.direction)
      ensures forall k | 1 <= k < 4 :: playerScoreDigits[activePlayer][k].blinksLeft == BlinkCount
    {
      RecordBrick(brick);
      SpeedUpForBrick(brick.tier);
    }

    /**
      The court's half of scoring a brick: the brick is destroyed, the active
      player's score grows by its points, and their digits blink and show the
      new score.
    */
    method RecordBrick(brick: Brick)
      requires Valid() && brick in CurrentLevel() && brick.enabled
      modifies this, brick, ScoreDigits(activePlayer)
      ensures Valid()
      ensures Turn() == old(Turn()) && playerBricks == old(playerBricks)
      ensures playerScores == AddPoints(old(playerScores), activePlayer, Points(brick.tier))
      ensures !brick.visible && !brick.enabled && scoredBricks == old(scoredBricks) + {brick}
      ensures forall k | 1 <= k < 4 :: playerScoreDigits[activePlayer][k].blinksLeft == BlinkCount
    {
      ghost var before := playerScores[activePlayer];
      AwardPoints(brick);
      ShowScore(before);
    }

    /**
      The ball's half of scoring a brick: the one-time bonus of the brick's
      tier, then the hit is counted.
    */
    method SpeedUpForBrick(tier: Tier)
      requires Valid() && ball.body.visible
      modifies ball, ball.body
      ensures Valid() && ball.body.visible && Turn() == old(Turn())
      ensures ball.hitCounter == old(ball.hitCounter) + 1 && ball.state == old(ball.state)
      ensures ball.orangeBricksHit == (old(ball.orangeBricksHit) || tier == Orange)
      ensures ball.redBricksHit == (old(ball.redBricksHit) || tier == Red)
      ensures ball.Place() == old(ball.Place()) && ball.body.direction == old(ball.body.direction)
    {
      ball.TierBonus(tier);
      ball.IncrementHitCount();
    }

    /**
      The bookkeeping half of scoring a brick: the brick is destroyed and the
      active player's score grows by its points. The scores still fit four
      digits; the active player's digits still show the old score.
    */
    method AwardPoints(brick: Brick)
      requires Valid() && brick in CurrentLevel() && brick.enabled
      modifies this, brick
      ensures Wiring() && Shape() && BricksValid() && Turns.Valid(Turn())
      ensures Turn() == old(Turn()) && playerBricks == old(playerBricks)
      ensures playerScores == AddPoints(old(playerScores), activePlayer, Points(brick.tier))
      ensures playerScores[activePlayer] < 10000
      ensures !brick.visible && !brick.enabled && scoredBricks == old(scoredBricks) + {brick}
      ensures playerIndexDigit.value == activePlayer + 1
      ensures ShowsScore(playerScoreDigits[activePlayer], old(playerScores[activePlayer]))
      ensures ShowsScore(playerScoreDigits[Turns.Other(activePlayer)], playerScores[Turns.Other(activePlayer)])
    {
      DestroyBrick(brick);
      playerScores := AddPoints(playerScores, activePlayer, Points(brick.tier));
      SubsetCardinality(scoredBricks, allBricks);
    }

    /**
      A standing brick of the current level is destroyed: it is hidden and
      disabled and joins the destroyed bricks, which leaves room under the
      scores' bound for one more brick's points.
    */
    method DestroyBrick(brick: Brick)
      requires Valid() && brick in CurrentLevel() && brick.enabled
      modifies this`scoredBricks, brick
      ensures Valid()
      ensures !brick.visible && !brick.enabled && scoredBricks == old(scoredBricks) + {brick}
      ensures playerScores[0] + playerScores[1] + MaxPoints <= MaxPoints * |scoredBricks|
    {
      brick.visible := false;
      brick.enabled := false;
      scoredBricks := scoredBricks + {brick};
    }

    /**
      The display half of scoring a brick: the active player's digits, which
      showed `before`, blink and show the new, larger score.
    */
    method ShowScore(ghost before: nat)
      requires Wiring() && |playerScores| == 2 && (activePlayer == 0 || activePlayer == 1)
      requires before <= playerScores[activePlayer] < 10000
      requires ShowsScore(playerScoreDigits[activePlayer], before)
      modifies ScoreDigits(activePlayer)
      ensures ShowsScore(playerScoreDigits[activePlayer], playerScores[activePlayer])
      ensures forall k | 1 <= k < 4 :: playerScoreDigits[activePlayer][k].blinksLeft == BlinkCount
    {
      var score := playerScores[activePlayer];
      BlinkPlayerScoreDigits(activePlayer);
      RefreshPlayerScoreDigits(activePlayer);
      forall k | 0 <= k < 4
        ensures playerScoreDigits[activePlayer][k].value == DigitAt(score, 3 - k)
      {
        if 3 - k >= |DecimalString(score)| {
          DecimalLengthMonotone(before, score);
          DigitAtBeyond(score, 3 - k);
          DigitAtBeyond(before, 3 - k);
        }
      }
      DecimalLength(before);
      DecimalLength(score);
    }

    /**
      The wall and paddle bounces of a tick, seen from the court: only the
      ball and the paddle change.
    */
    method BounceBall() returns (ghost bounces: nat)
      requires Valid() && ball.body.visible
      modifies ball, ball.body, paddle.body
      ensures Valid() && ball.body.visible && Turn() == old(Turn()) && CurrentLevel() == old(CurrentLevel())
      ensures bounces <= 4 && ball.hitCounter == old(ball.hitCounter) + bounces
      ensures ball.state == (if bounces > 0 then Normal else old(ball.state))
      ensures bounces == 0 ==> ball.body.direction == old(ball.body.direction)
      ensures ball.Place() == old(ball.Place()) && ball.body.Box() == old(ball.body.Box())
      ensures FirstHit(ball.body.Box(), CurrentLevel()) == old(FirstHit(ball.body.Box(), CurrentLevel()))
      ensures ball.orangeBricksHit == old(ball.orangeBricksHit) && ball.redBricksHit == old(ball.redBricksHit)
    {
      bounces := ball.Bounce(topWall, leftWall, rightWall, paddle);
    }

    /**
      The ball hit a standing brick of the current level: outside end-game
      mode the brick is scored and the level is cleared if it was the last
      one; unless the level was cleared, the ball latches and turns.
    */
    method StrikeBrick(brick: Brick, roll: int) returns (cleared: bool)
      requires Valid() && ball.body.visible && 1 <= roll <= 10
      requires brick in CurrentLevel() && brick.enabled
      modifies this, brick, ball, ball.body, paddle.body, DigitSet()
      ensures Valid()
      ensures playerBricks == old(playerBricks)
      ensures forall b | b in allBricks && !(!old(ball.endGameMode) && b == brick) ::
                b.visible == old(b.visible) && b.enabled == old(b.enabled)
      ensures var level := old(CurrentLevel());
              var a := old(activePlayer);
              var scores := !old(ball.endGameMode);
              && scoredBricks == old(scoredBricks) + (if scores then {brick} else {})
              && playerScores == (if scores then AddPoints(old(playerScores), a, Points(brick.tier))
                                  else old(playerScores))
              && (scores ==> !brick.visible && !brick.enabled)
              && (!scores ==> brick.visible == old(brick.visible) && brick.enabled == old(brick.enabled))
              && (cleared <==> scores && forall j | 0 <= j < |level| :: !level[j].visible)
      ensures cleared ==> Turn() == Turns.ClearLevel(old(Turn()))
      ensures !cleared ==> Turn() == old(Turn()) && ball.Place() == old(ball.Place())
      ensures !cleared ==> ball.state == BrickHit && ball.body.direction == Deflected(old(ball.body.direction), Some(brick))
    {
      cleared := false;
      if ball.endGameMode == false {
        cleared := ScoreAndCheckLevel(brick, roll);
        if cleared {
          return;
        }
      }
      LatchBall();
    }

    /**
      Score the brick, count the destroyed bricks of the level and clear the
      level when all of them are.
    */
    method ScoreAndCheckLevel(brick: Brick, roll: int) returns (cleared: bool)
      requires Valid() && ball.body.visible && !ball.endGameMode && 1 <= roll <= 10
      requires brick in CurrentLevel() && brick.enabled
      modifies this, brick, ball, ball.body, paddle.body, DigitSet()
      ensures Valid()
      ensures playerBricks == old(playerBricks)
      ensures scoredBricks == old(scoredBricks) + {brick}
      ensures playerScores == AddPoints(old(playerScores), old(activePlayer), Points(brick.tier))
      ensures !brick.visible && !brick.enabled
      ensures cleared <==> forall j | 0 <= j < |old(CurrentLevel())| :: !old(CurrentLevel())[j].visible
      ensures cleared ==> Turn() == Turns.ClearLevel(old(Turn()))
      ensures !cleared ==> Turn() == old(Turn()) && ball.Place() == old(ball.Place()) && ball.body.visible
      ensures !cleared ==> ball.body.direction == old(ball.body.direction)
    {
      ghost var level := CurrentLevel();
      ScoreBrick(brick);
      assert CurrentLevel() == level;
      cleared := ClearIfDestroyed(roll);
    }

    /** Clear the level when every brick of the active player's current level is destroyed. */
    method ClearIfDestroyed(roll: int) returns (cleared: bool)
      requires Valid() && !ball.endGameMode && 1 <= roll <= 10
      modifies this, ball, ball.body, paddle.body, playerIndexDigit, playerBallIndexDigit
      ensures playerBricks == old(playerBricks)
      ensures Valid() && playerScores == old(playerScores) && scoredBricks == old(scoredBricks)
      ensures cleared <==> forall j | 0 <= j < |old(CurrentLevel())| :: !old(CurrentLevel())[j].visible
      ensures cleared ==> Turn() == Turns.ClearLevel(old(Turn()))
      ensures !cleared ==> Turn() == old(Turn()) && ball.Place() == old(ball.Place()) && ball.body.visible == old(ball.body.visible)
      ensures !cleared ==> ball.body.direction == old(ball.body.direction)
    {
      ghost var level := CurrentLevel();
      cleared := LevelCleared();
      assert CurrentLevel() == level;
      if cleared {
        assert forall j | 0 <= j < |level| :: !level[j].visible;
        ClearLevel(roll);
        assert forall j | 0 <= j < |level| :: !level[j].visible;
      }
    }

    /** Whether every brick of the active player's current level is destroyed, by counting them. */
    method LevelCleared() returns (cleared: bool)
      requires HasLevel()
      ensures cleared <==> forall j | 0 <= j < |CurrentLevel()| :: !CurrentLevel()[j].visible
    {
      var bricks := playerBricks[activePlayer][playerLevel[activePlayer]];
      assert bricks == CurrentLevel();
      var destroyed := CountDestroyed(bricks);
      AllDestroyed(bricks);
      cleared := destroyed == |bricks|;
      assert cleared <==> forall j | 0 <= j < |CurrentLevel()| :: !CurrentLevel()[j].visible;
    }

    /** A brick was hit: the ball latches and turns vertically; nothing else changes. */
    method LatchBall()
      requires Valid()
      modifies ball, ball.body
      ensures Valid() && Turn() == old(Turn())
      ensures ball.state == BrickHit
      ensures ball.body.direction == old(ball.body.direction).(y := -old(ball.body.direction.y))
      ensures ball.Place() == old(ball.Place()) && ball.body.visible == old(ball.body.visible)
    {
      ball.LatchBrick();
    }

    /**
      One tick of the ball. A hidden ball does nothing. Otherwise it
      bounces off the walls and the paddle; then, if it is moving down into
      the out-of-bounds area, the ball is lost. Otherwise, unless it is
      latched after a brick, the first brick of the current level it
      collides with is struck (`struck`); striking the last standing brick
      clears the level and ends the tick (`cleared`). Every other tick ends
      with the ball moving along its direction.
    */
    method UpdateBall(dt: real, roll: int) returns (ghost bounces: nat, ghost heading: Vec, lost: bool, struck: Option<Brick>, cleared: bool)
      requires Valid() && 1 <= roll <= 10
      modifies this, ball, ball.body, paddle.body, allBricks, DigitSet()
      ensures Valid()
      ensures playerBricks == if lost && Turns.BonusLevel(Turns.IncrementBallIndex(old(Turn())))
                              then BonusAppended(old(playerBricks)) else old(playerBricks)
      // the other bricks, and the struck one in end-game mode, keep their flags
      ensures forall b | b in allBricks && !(struck.Some? && !old(ball.endGameMode) && b == struck.value) ::
                b.visible == old(b.visible) && b.enabled == old(b.enabled)
      // a hidden ball waits for its launch
      ensures !old(ball.body.visible) ==>
                && !lost && struck == None && !cleared && bounces == 0
                && ball.Place() == old(ball.Place()) && !ball.body.visible
      // a ball in play: `heading` is its direction after the wall and paddle bounces
      ensures old(ball.body.visible) ==>
                && (bounces == 0 ==> heading == old(ball.body.direction))
                && (lost <==> heading.y > 0.0 && Collides(old(ball.body.Box()), outOfBounds.Box()))
                && (!lost && (bounces > 0 || old(ball.state) == Normal) ==> struck == old(FirstHit(ball.body.Box(), CurrentLevel())))
                && (!lost && !cleared ==>
                      && ball.body.direction == Deflected(heading, struck)
                      && ball.body.x == Advance(old(ball.body.x), dt, ball.body.direction.x, ball.body.velocity)
                      && ball.body.y == Advance(old(ball.body.y), dt, ball.body.direction.y, ball.body.velocity))
      // a lost ball and a struck brick exclude each other, and a level is only cleared by a struck brick
      ensures lost ==> struck == None && Turn() == Turns.LoseBall(old(Turn()))
      ensures cleared ==> struck.Some? && !old(ball.endGameMode) && Turn() == Turns.ClearLevel(old(Turn()))
      ensures !lost && !cleared ==> Turn() == old(Turn())
      // no brick is struck while the ball is latched and has not bounced since
      ensures struck.Some? ==> bounces > 0 || old(ball.state) == Normal
      // the struck brick was standing in the active player's current level
      ensures struck.Some? ==> struck.value in old(CurrentLevel()) && old(struck.value.enabled)
      // at most one brick is scored, and only outside end-game mode
      ensures var scores := struck.Some? && !old(ball.endGameMode);
              && scoredBricks == old(scoredBricks) + (if scores then {struck.value} else {})
              && playerScores == (if scores then AddPoints(old(playerScores), old(activePlayer), Points(struck.value.tier))
                                  else old(playerScores))
      // the level is cleared exactly when the struck brick was its last one standing
      ensures cleared <==> struck.Some? && !old(ball.endGameMode) && forall j | 0 <= j < |old(CurrentLevel())| :: !old(CurrentLevel())[j].visible
    {
      bounces, heading, lost, struck, cleared := 0, ball.body.direction, false, None, false;
      if ball.body.visible == false {
        return;
      }
      bounces, heading, lost, struck, cleared := Tick(dt, roll);
    }

    /** The tick of a ball in play: bounce, collide, and move unless the level was cleared. */
    method Tick(dt: real, roll: int) returns (ghost bounces: nat, ghost heading: Vec, lost: bool, struck: Option<Brick>, cleared: bool)
      requires Valid() && ball.body.visible && 1 <= roll <= 10
      modifies this, ball, ball.body, paddle.body, allBricks, DigitSet()
      ensures Valid()
      ensures playerBricks == if lost && Turns.BonusLevel(Turns.IncrementBallIndex(old(Turn())))
                              then BonusAppended(old(playerBricks)) else old(playerBricks)
      // the other bricks, and the struck one in end-game mode, keep their flags
      ensures forall b | b in allBricks && !(struck.Some? && !old(ball.endGameMode) && b == struck.value) ::
                b.visible == old(b.visible) && b.enabled == old(b.enabled)
      // `heading` is the direction after the wall and paddle bounces, which do not move the ball
      ensures bounces == 0 ==> heading == old(ball.body.direction)
      ensures lost <==> heading.y > 0.0 && Collides(old(ball.body.Box()), outOfBounds.Box())
      ensures !lost && (bounces > 0 || old(ball.state) == Normal) ==> struck == old(FirstHit(ball.body.Box(), CurrentLevel()))
      ensures bounces == 0 && old(ball.state) == BrickHit ==> struck == None
      ensures !lost && !cleared ==>
                && ball.body.direction == Deflected(heading, struck)
                && ball.body.x == Advance(old(ball.body.x), dt, ball.body.direction.x, ball.body.velocity)
                && ball.body.y == Advance(old(ball.body.y), dt, ball.body.direction.y, ball.body.velocity)
      ensures lost ==> struck == None && Turn() == Turns.LoseBall(old(Turn()))
      ensures cleared ==> struck.Some? && !old(ball.endGameMode) && Turn() == Turns.ClearLevel(old(Turn()))
      ensures !lost && !cleared ==> Turn() == old(Turn())
      ensures struck.Some? ==> bounces > 0 || old(ball.state) == Normal
      ensures struck.Some? ==> struck.value in old(CurrentLevel()) && old(struck.value.enabled)
      ensures var scores := struck.Some? && !old(ball.endGameMode);
              && scoredBricks == old(scoredBricks) + (if scores then {struck.value} else {})
              && playerScores == (if scores then AddPoints(old(playerScores), old(activePlayer), Points(struck.value.tier))
                                  else old(playerScores))
      ensures cleared <==> struck.Some? && !old(ball.endGameMode) && forall j | 0 <= j < |old(CurrentLevel())| :: !old(CurrentLevel())[j].visible
    {
      bounces := BounceBall();
      heading := ball.body.direction;
      assert forall b | b in allBricks :: b.visible == old(b.visible) && b.enabled == old(b.enabled);
      lost, struck, cleared := CollideAndMove(dt, roll);
    }

    /**
      The rest of a tick after the bounces: the out-of-bounds area first,
      then, unless the ball is latched, the bricks; then the ball moves,
      unless the level was cleared.
    */
    method CollideAndMove(dt: real, roll: int) returns (lost: bool, struck: Option<Brick>, cleared: bool)
      requires Valid() && ball.body.visible && 1 <= roll <= 10
      modifies this, ball, ball.body, paddle.body, allBricks, DigitSet()
      ensures Valid()
      ensures playerBricks == if lost && Turns.BonusLevel(Turns.IncrementBallIndex(old(Turn())))
                              then BonusAppended(old(playerBricks)) else old(playerBricks)
      // the other bricks, and the struck one in end-game mode, keep their flags
      ensures forall b | b in allBricks && !(struck.Some? && !old(ball.endGameMode) && b == struck.value) ::
                b.visible == old(b.visible) && b.enabled == old(b.enabled)
      ensures lost <==> old(ball.body.direction.y) > 0.0 && Collides(old(ball.body.Box()), outOfBounds.Box())
      ensures !lost && old(ball.state) == Normal ==> struck == old(FirstHit(ball.body.Box(), CurrentLevel()))
      ensures old(ball.state) == BrickHit ==> struck == None
      // unless the ball was lost or the level cleared, the ball moves along its (possibly turned) direction
      ensures !lost && !cleared ==>
                && ball.body.direction == Deflected(old(ball.body.direction), struck)
                && ball.state == (if struck.Some? then BrickHit else old(ball.state))
                && ball.body.x == Advance(old(ball.body.x), dt, ball.body.direction.x, ball.body.velocity)
                && ball.body.y == Advance(old(ball.body.y), dt, ball.body.direction.y, ball.body.velocity)
      ensures lost ==> struck == None && Turn() == Turns.LoseBall(old(Turn()))
      ensures cleared ==> struck.Some? && !old(ball.endGameMode) && Turn() == Turns.ClearLevel(old(Turn()))
      ensures !lost && !cleared ==> Turn() == old(Turn())
      ensures struck.Some? ==> old(ball.state) == Normal
      ensures struck.Some? ==> struck.value in old(CurrentLevel()) && old(struck.value.enabled)
      ensures var scores := struck.Some? && !old(ball.endGameMode);
              && scoredBricks == old(scoredBricks) + (if scores then {struck.value} else {})
              && playerScores == (if scores then AddPoints(old(playerScores), old(activePlayer), Points(struck.value.tier))
                                  else old(playerScores))
      ensures cleared <==> struck.Some? && !old(ball.endGameMode) && forall j | 0 <= j < |old(CurrentLevel())| :: !old(CurrentLevel())[j].visible
    {
      lost, struck, cleared := Collide(roll);
      if !cleared {
        MoveBall(dt);
      }
    }

    /** The out-of-bounds area first, then, unless the ball is latched, the bricks. */
    method Collide(roll: int) returns (lost: bool, struck: Option<Brick>, cleared: bool)
      requires Valid() && ball.body.visible && 1 <= roll <= 10
      modifies this, ball, ball.body, paddle.body, allBricks, DigitSet()
      ensures Valid()
      ensures playerBricks == if lost && Turns.BonusLevel(Turns.IncrementBallIndex(old(Turn())))
                              then BonusAppended(old(playerBricks)) else old(playerBricks)
      // the other bricks, and the struck one in end-game mode, keep their flags
      ensures forall b | b in allBricks && !(struck.Some? && !old(ball.endGameMode) && b == struck.value) ::
                b.visible == old(b.visible) && b.enabled == old(b.enabled)
      // the ball is lost exactly when it moves down into the out-of-bounds area
      ensures lost <==> old(ball.body.direction.y) > 0.0 && Collides(old(ball.body.Box()), outOfBounds.Box())
      // otherwise an unlatched ball strikes the first brick of the level it collides with, and a latched one none
      ensures !lost && old(ball.state) == Normal ==> struck == old(FirstHit(ball.body.Box(), CurrentLevel()))
      ensures old(ball.state) == BrickHit ==> struck == None
      ensures !lost && !cleared ==> && ball.Place() == old(ball.Place())
                                    && ball.body.direction == Deflected(old(ball.body.direction), struck)
                                    && ball.state == (if struck.Some? then BrickHit else old(ball.state))
      ensures lost ==> struck == None && Turn() == Turns.LoseBall(old(Turn()))
      ensures cleared ==> struck.Some? && !old(ball.endGameMode) && Turn() == Turns.ClearLevel(old(Turn()))
      ensures !lost && !cleared ==> Turn() == old(Turn())
      ensures struck.Some? ==> old(ball.state) == Normal
      ensures struck.Some? ==> struck.value in old(CurrentLevel()) && old(struck.value.enabled)
      ensures var scores := struck.Some? && !old(ball.endGameMode);
              && scoredBricks == old(scoredBricks) + (if scores then {struck.value} else {})
              && playerScores == (if scores then AddPoints(old(playerScores), old(activePlayer), Points(struck.value.tier))
                                  else old(playerScores))
      ensures cleared <==> struck.Some? && !old(ball.endGameMode) && forall j | 0 <= j < |old(CurrentLevel())| :: !old(CurrentLevel())[j].visible
    {
      lost, struck, cleared := false, None, false;
      if ball.body.direction.y > 0.0 && Collides(ball.body.Box(), outOfBounds.Box()) {
        lost := true;
        LoseBall(roll);
      } else if ball.state != BrickHit {
        struck, cleared := HitBrick(roll);
      }
    }

    /** Strike the first brick of the current level, in storage order, that the ball collides with. */
    method HitBrick(roll: int) returns (struck: Option<Brick>, cleared: bool)
      requires Valid() && ball.body.visible && 1 <= roll <= 10
      modifies this, ball, ball.body, paddle.body, allBricks, DigitSet()
      ensures Valid()
      ensures playerBricks == old(playerBricks)
      // the other bricks, and the struck one in end-game mode, keep their flags
      ensures forall b | b in allBricks && !(struck.Some? && !old(ball.endGameMode) && b == struck.value) ::
                b.visible == old(b.visible) && b.enabled == old(b.enabled)
      ensures cleared ==> struck.Some? && !old(ball.endGameMode) && Turn() == Turns.ClearLevel(old(Turn()))
      ensures !cleared ==> Turn() == old(Turn())
      ensures struck.Some? ==> struck.value in old(CurrentLevel()) && old(struck.value.enabled)
      ensures var scores := struck.Some? && !old(ball.endGameMode);
              && scoredBricks == old(scoredBricks) + (if scores then {struck.value} else {})
              && playerScores == (if scores then AddPoints(old(playerScores), old(activePlayer), Points(struck.value.tier))
                                  else old(playerScores))
      ensures cleared <==> struck.Some? && !old(ball.endGameMode) && forall j | 0 <= j < |old(CurrentLevel())| :: !old(CurrentLevel())[j].visible
      // the struck brick is the first one of the level the ball collides with
      ensures struck == old(FirstHit(ball.body.Box(), CurrentLevel()))
      ensures !cleared ==> && ball.Place() == old(ball.Place())
                           && ball.body.direction == Deflected(old(ball.body.direction), struck)
                           && ball.state == (if struck.Some? then BrickHit else old(ball.state))
    {
      struck, cleared := None, false;
      var bricks := playerBricks[activePlayer][playerLevel[activePlayer]];
      assert bricks == CurrentLevel();
      var i := FindHitBrick(ball.body.Box(), bricks);
      if i < 0 {
        return;
      }
      var brick := bricks[i];
      cleared := StrikeBrick(brick, roll);
      struck := Some(brick);
    }

    /** Move the ball along its direction at its velocity; only the ball's position changes. */
    method MoveBall(dt: real)
      requires Valid()
      modifies ball.body
      ensures Valid() && Turn() == old(Turn()) && CurrentLevel() == old(CurrentLevel())
      ensures playerScores == old(playerScores) && scoredBricks == old(scoredBricks)
      ensures ball.body.x == Advance(old(ball.body.x), dt, ball.body.direction.x, ball.body.velocity)
      ensures ball.body.y == Advance(old(ball.body.y), dt, ball.body.direction.y, ball.body.velocity)
      ensures ball.body.direction == old(ball.body.direction) && ball.body.velocity == old(ball.body.velocity)
      ensures ball.body.visible == old(ball.body.visible) && ball.state == old(ball.state)
      ensures playerBricks == old(playerBricks)
      ensures forall b | b in allBricks :: b.visible == old(b.visible) && b.enabled == old(b.enabled)
    {
      ball.Move(dt);
    }

    /**
      One update of the court scene: the paddle moves, the ball takes its
      tick, and the blink timers of the eight score digits and of the player
      digit tick. The ball digit is not updated.
    */
    method Update(dt: real, roll: int) returns (ghost bounces: nat, ghost heading: Vec, lost: bool, struck: Option<Brick>, cleared: bool)
      requires Valid() && 1 <= roll <= 10
      modifies this, ball, ball.body, paddle.body, allBricks, DigitSet()
      ensures Valid()
      ensures playerBricks == if lost && Turns.BonusLevel(Turns.IncrementBallIndex(old(Turn())))
                              then BonusAppended(old(playerBricks)) else old(playerBricks)
      // the other bricks, and the struck one in end-game mode, keep their flags
      ensures forall b | b in allBricks && !(struck.Some? && !old(ball.endGameMode) && b == struck.value) ::
                b.visible == old(b.visible) && b.enabled == old(b.enabled)
      ensures !old(ball.body.visible) ==> !lost && struck == None && !cleared && ball.Place() == old(ball.Place())
      ensures old(ball.body.visible) ==>
                && (bounces == 0 ==> heading == old(ball.body.direction))
                && (lost <==> heading.y > 0.0 && Collides(old(ball.body.Box()), outOfBounds.Box()))
                && (!lost && (bounces > 0 || old(ball.state) == Normal) ==> struck == old(FirstHit(ball.body.Box(), CurrentLevel())))
                && (!lost && !cleared ==>
                      && ball.body.direction == Deflected(heading, struck)
                      && ball.body.x == Advance(old(ball.body.x), dt, ball.body.direction.x, ball.body.velocity)
                      && ball.body.y == Advance(old(ball.body.y), dt, ball.body.direction.y, ball.body.velocity))
      ensures lost ==> struck == None && Turn() == Turns.LoseBall(old(Turn()))
      ensures cleared ==> struck.Some? && !old(ball.endGameMode) && Turn() == Turns.ClearLevel(old(Turn()))
      ensures !lost && !cleared ==> Turn() == old(Turn())
      ensures struck.Some? ==> struck.value in old(CurrentLevel())
      // a ball latched after a brick hit strikes nothing until it bounces
      ensures struck.Some? ==> bounces > 0 || old(ball.state) == Normal
      ensures var scores := struck.Some? && !old(ball.endGameMode);
              && scoredBricks == old(scoredBricks) + (if scores then {struck.value} else {})
              && playerScores == (if scores then AddPoints(old(playerScores), old(activePlayer), Points(struck.value.tier))
                                  else old(playerScores))
    {
      MovePaddle(dt);
      assert forall b | b in allBricks :: b.visible == old(b.visible) && b.enabled == old(b.enabled);
      bounces, heading, lost, struck, cleared := BallAndDigits(dt, roll);
    }

    /** The second half of an update, once the paddle has moved: the ball's tick, then the digits' blink timers. */
    method BallAndDigits(dt: real, roll: int) returns (ghost bounces: nat, ghost heading: Vec, lost: bool, struck: Option<Brick>, cleared: bool)
      requires Valid() && 1 <= roll <= 10
      modifies this, ball, ball.body, paddle.body, allBricks, DigitSet()
      ensures Valid()
      ensures playerBricks == if lost && Turns.BonusLevel(Turns.IncrementBallIndex(old(Turn())))
                              then BonusAppended(old(playerBricks)) else old(playerBricks)
      // the other bricks, and the struck one in end-game mode, keep their flags
      ensures forall b | b in allBricks && !(struck.Some? && !old(ball.endGameMode) && b == struck.value) ::
                b.visible == old(b.visible) && b.enabled == old(b.enabled)
      ensures !old(ball.body.visible) ==> !lost && struck == None && !cleared && ball.Place() == old(ball.Place())
      ensures old(ball.body.visible) ==>
                && (bounces == 0 ==> heading == old(ball.body.direction))
                && (lost <==> heading.y > 0.0 && Collides(old(ball.body.Box()), outOfBounds.Box()))
                && (!lost && (bounces > 0 || old(ball.state) == Normal) ==> struck == old(FirstHit(ball.body.Box(), CurrentLevel())))
                && (!lost && !cleared ==>
                      && ball.body.direction == Deflected(heading, struck)
                      && ball.body.x == Advance(old(ball.body.x), dt, ball.body.direction.x, ball.body.velocity)
                      && ball.body.y == Advance(old(ball.body.y), dt, ball.body.direction.y, ball.body.velocity))
      ensures lost ==> struck == None && Turn() == Turns.LoseBall(old(Turn()))
      ensures cleared ==> struck.Some? && !old(ball.endGameMode) && Turn() == Turns.ClearLevel(old(Turn()))
      ensures !lost && !cleared ==> Turn() == old(Turn())
      ensures struck.Some? ==> struck.value in old(CurrentLevel())
      // a ball latched after a brick hit strikes nothing until it bounces
      ensures struck.Some? ==> bounces > 0 || old(ball.state) == Normal
      ensures var scores := struck.Some? && !old(ball.endGameMode);
              && scoredBricks == old(scoredBricks) + (if scores then {struck.value} else {})
              && playerScores == (if scores then AddPoints(old(playerScores), old(activePlayer), Points(struck.value.tier))
                                  else old(playerScores))
    {
      bounces, heading, lost, struck, cleared := UpdateBall(dt, roll);
      TickDigits(dt);
    }

    /**
      The paddle moves along its direction and is clamped against the side
      walls; its size, direction and speed stay, and nothing else changes.
    */
    method MovePaddle(dt: real)
      requires Valid()
      modifies paddle.body
      ensures Valid() && Turn() == old(Turn()) && CurrentLevel() == old(CurrentLevel())
      ensures playerScores == old(playerScores) && scoredBricks == old(scoredBricks)
      ensures paddle.MovedFrom(old(paddle.body.x), old(paddle.body.y), dt, leftWall, rightWall)
      ensures paddle.body.width == old(paddle.body.width) && paddle.body.height == old(paddle.body.height)
      ensures paddle.body.direction == old(paddle.body.direction) && paddle.body.velocity == old(paddle.body.velocity)
      ensures ball.Place() == old(ball.Place()) && ball.body.Box() == old(ball.body.Box())
      ensures ball.body.visible == old(ball.body.visible) && ball.body.direction == old(ball.body.direction)
      ensures ball.state == old(ball.state)
      ensures FirstHit(ball.body.Box(), CurrentLevel()) == old(FirstHit(ball.body.Box(), CurrentLevel()))
    {
      paddle.Update(dt, leftWall, rightWall);
    }

    /** The blink timers of the score digits and of the player digit take one tick. */
    method TickDigits(dt: real)
      requires Valid()
      modifies DigitSet() - {playerBallIndexDigit}
      ensures Valid()
      ensures forall p, k | 0 <= p < 2 && 0 <= k < 4 ::
                playerScoreDigits[p][k].Blink() == BlinkStep(old(playerScoreDigits[p][k].Blink()))
      ensures playerIndexDigit.Blink() == BlinkStep(old(playerIndexDigit.Blink()))
      // only digits change: the match, the levels, the scores, the bricks and the ball are as they were
      ensures Turn() == old(Turn()) && playerBricks == old(playerBricks)
      ensures playerScores == old(playerScores) && scoredBricks == old(scoredBricks)
      ensures forall b | b in allBricks :: b.visible == old(b.visible) && b.enabled == old(b.enabled)
    {
      DigitsApart();
      TickScoreDigits(0, dt);
      TickScoreDigits(1, dt);
      TickIndexDigit(dt);
    }

    /** The two players' score digits and the player digit are distinct objects. */
    lemma DigitsApart()
      requires Wiring()
      ensures ScoreDigits(0) !! ScoreDigits(1)
      ensures playerIndexDigit !in ScoreDigits(0) && playerIndexDigit !in ScoreDigits(1)
    {
    }

    /** The blink timer of the player digit takes one tick; it keeps showing the active player. */
    method TickIndexDigit(dt: real)
      requires Valid()
      modifies playerIndexDigit
      ensures Valid()
      ensures playerIndexDigit.Blink() == BlinkStep(old(playerIndexDigit.Blink()))
    {
      playerIndexDigit.Update(dt);
    }

    /** The blink timers of one player's four score digits take one tick; the digits keep their values. */
    method TickScoreDigits(p: int, dt: real)
      requires Valid() && 0 <= p < 2
      modifies ScoreDigits(p)
      ensures Valid()
      ensures forall k | 0 <= k < 4 ::
                playerScoreDigits[p][k].Blink() == BlinkStep(old(playerScoreDigits[p][k].Blink()))
    {
      TickScoreDigit(p, 0, dt);
      TickScoreDigit(p, 1, dt);
      TickScoreDigit(p, 2, dt);
      TickScoreDigit(p, 3, dt);
    }

    /**
      The blink timer of one score digit takes one tick: its value is kept,
      and a thousands digit that is hidden and still stays so, and one that
      is shown or blinking stays shown or blinking.
    */
    method TickScoreDigit(p: int, k: int, dt: real)
      requires Valid() && 0 <= p < 2 && 0 <= k < 4
      modifies playerScoreDigits[p][k]
      ensures Valid()
      ensures playerScoreDigits[p][k].Blink() == BlinkStep(old(playerScoreDigits[p][k].Blink()))
    {
      playerScoreDigits[p][k].Update(dt);
    }
  }
}
