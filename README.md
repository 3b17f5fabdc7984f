# Breakout court, modelled in Dafny

This project models the court scene of the HTML5 Breakout game in
`game.js`: the part of the game that plays a match. It covers:

- the axis-aligned collision test every collideable entity uses;
- the moving entities (ball and paddle) and the static walls;
- the ball's per-tick update with its brick-hit latch, hit counter and speed bonuses;
- the brick levels and their scoring tiers (yellow 1, green 3, orange 5, red 7);
- the match controller's per-player arrays (active player, level, ball index, score, brick levels), with the lost-ball, level-clear, switch-player and end-game transitions;
- the score display (four digits per player, the thousands digit revealed from 1000 points) and the digits' blink timer;
- the scene's per-tick update and the scene's construction on entry.

Geometry is exact (`real`). The random pick of a fresh ball's heading is a
parameter `roll` in 1..10. Normalising a direction is modelled as scaling
by some positive factor.

Modules, one file each:

- `Geometry` (`geometry.dfy`): vectors, bounding boxes, `Collides`.
- `Bodies` (`bodies.dfy`): the `Wall` value and the `Movable` class.
- `Bricks` (`bricks.dfy`): tiers, points, the `Brick` class and the grid.
- `Paddles` (`paddle.dfy`): the `Paddle` class.
- `Balls` (`ball.dfy`): the `Ball` class.
- `Digits` (`digit.dfy`): the blink timer and the `Digit` class.
- `ScoreText` (`score_text.dfy`): decimal text and digit extraction.
- `Turns` (`turns.dfy`): the match controller's transitions as pure functions of a `Match` value.
- `CourtScene` (`court.dfy`): the `Court` class, whose fields are the scene's variables.

`Turn()` is the value view of the match controller's per-player arrays:
the active player, each player's level and ball index, the number of
levels each player has, and whether the game is over. It holds neither
the bricks of the levels nor the scores. The `Court` methods that change
the match (`IncrementBallIndex`, `SwitchPlayer`, the end-of-turn methods,
`LoseBall`, `ClearLevel`, `NextLevel` and the tick methods) are specified
by the matching `Turns` function on `Turn()`, whose properties are proved
as lemmas in `Turns`. The levels' bricks (`playerBricks`), the scores, the
destroyed bricks and the bricks' flags are stated by separate clauses of
each method; the score-display, digit and paddle methods, and
`AddBonusLevel`, are specified only by such clauses.

Three behaviours of `game.js` that are easy to misread:

- A single player's game ends on the third lost ball. The ball index
  starts at 1 and the game ends once it exceeds 3.
- The three starting headings are not equally likely. The roll `floor(10 * random) + 1`
  is taken modulo 3, which gives straight down for 3 of the 10 rolls,
  down-right for 4 and down-left for 3.
- `blinkPlayerScoreDigits` ignores its argument and blinks the active
  player's digits. It is only ever called with the active player, so
  the two are the same.

## Model

| member | source | states |
|---|---|---|
| Geometry.Collides | game.js:196-201 | false when either box is disabled; otherwise strict overlap of the centre distance against the summed half-extents on both axes |
| Geometry.DisabledNeverCollides | game.js:196-197 | a disabled entity collides with nothing, in either argument order |
| Geometry.CollidesSymmetric | game.js:196-201 | the collision test gives the same answer whichever entity asks |
| Geometry.CollidesIffInteriorsMeet | game.js:196-201 | for boxes with positive extents, collision holds exactly when both are enabled and their open interiors share a point |
| Geometry.FlushApart | game.js:196-201 | boxes that only touch along an edge do not collide |
| Bodies.Wall.Box | game.js:191-195 | a wall's box covers exactly its rectangle (left and right edges at x and x + width, top and bottom at y and y + height) and is always enabled |
| Bodies.Movable.Box | game.js:191-195 | a consistent movable entity's box covers exactly its rectangle, and it is always enabled |
| Bodies.Movable.Move | game.js:216-227 | each coordinate advances by dt * direction * velocity, the mirrored centre moves with the corner, and size, direction, velocity and visibility are kept |
| Bricks.FullLevelPoints | game.js:872-897 | a full level of 8 rows of 14 bricks (red, red, orange, orange, green, green, yellow, yellow) is worth 448 points; two levels 896, three 1344 |
| Bricks.PartialRowPoints | game.js:874-893 | within a row every brick is worth its row's tier points |
| Bricks.BuildBrickGrid | game.js:870-897 | two levels per player of 112 fresh, visible, enabled bricks each; brick k of a level has the tier of row k / 14, the slot size, and sits in column k % 14 and row k / 14, one slot plus the spacing apart from the layout's left and top; the 448 bricks are pairwise different objects |
| Bricks.Brick.Box | game.js:766-768 | a brick's box covers exactly its rectangle and takes part in collisions exactly while the brick is enabled |
| Bricks.SlotBricks | game.js:888-892 | one slot's four bricks, one per level: fresh, pairwise different, all at the same place and size with the row's tier, visible and enabled |
| Bricks.PushSlot | game.js:887-893 | filling slot 14 * i + j with four fresh visible enabled bricks at the column j, row i position keeps the four levels laid out, one slot further |
| Bricks.SlotAt | game.js:884-893 | a brick at the column j, row i position with the row's tier and the slot size sits in slot 14 * i + j |
| Bricks.LaidPush | game.js:888-892 | four new, pairwise different bricks placed in slot n extend the four laid-out levels by one slot |
| Bricks.LaidGrid | game.js:870-897 | four fully laid-out levels form a grid of full levels, 448 different bricks, every brick in its slot |
| Bricks.DistinctBySlot | game.js:888-892 | levels whose bricks are each recorded under their own (player, level, slot) share no brick and repeat none |
| Paddles.Paddle.Shrink | game.js:552-558 | the width halves only while it is the original width (a second call changes nothing), the centre is kept |
| Paddles.Paddle.Reset | game.js:559-566 | the width is the original one again and the paddle is centred on the canvas |
| Paddles.Paddle.Update | game.js:567-577 | the paddle moves by dt * direction * velocity on both axes; one moving left into the left wall then ends flush with its right edge, one moving right into the right wall flush with its left edge, and then it no longer collides with that wall; size, direction and velocity are kept |
| Paddles.Paddle.Clamp | game.js:569-576 | the clamping half of the update, against the paddle's moved position |
| Paddles.Paddle.Span | game.js:484-487 | the paddle spans the given width from the given x, keeping height and vertical place |
| Balls.InitHeading | game.js:261-270 | the seed heading always points down; straight down for rolls 3, 6, 9, down-right for 1, 4, 7, 10, down-left for 2, 5, 8 |
| Balls.ScaledHeads | game.js:261-270 | a positive multiple of the roll's seed heading, which is what normalising it gives, points down in the heading's proportion |
| Balls.Ball.constructor | game.js:250-283 | a hidden ball at rest at the given place, heading the roll's way, unlatched, not in end-game mode, with the initial velocity and step taken from the canvas height |
| Balls.HitBumpsStep | game.js:284-289 | one more hit reaches a speed milestone exactly when the new count is 4 or 12 |
| Balls.Ball.IncrementHitCount | game.js:284-289 | the count goes up by one and the velocity by one step exactly when the count becomes 4 or 12; the speed invariant is kept |
| Balls.Ball.IncrementVelocity | game.js:290-292 | the velocity goes up by exactly one step and nothing else changes |
| Balls.Ball.Reset | game.js:293-305 | the ball is centred, hidden, at rest, heading down along a positive multiple of the roll's seed heading, with no latch, no hits and no bonus taken; end-game mode is kept |
| Balls.Ball.ReflectOffTopWall | game.js:310-315 | a ball moving up into the top wall turns down, unlatches, counts a hit and shrinks the paddle; otherwise nothing changes |
| Balls.Ball.ReflectOffLeftWall | game.js:316-320 | a ball moving left into the left wall turns right, unlatches and counts a hit; otherwise nothing changes |
| Balls.Ball.ReflectOffRightWall | game.js:321-325 | a ball moving right into the right wall turns left, unlatches and counts a hit; otherwise nothing changes |
| Balls.Ball.ReflectOffPaddle | game.js:326-333 | a ball moving down into the paddle leaves upwards, to the side of the paddle centre it hit (straight up from the centre), unlatched and with one more hit; otherwise nothing changes |
| Balls.Ball.SteerOffPaddle | game.js:327-330 | the steered direction points up and its horizontal sign is the sign of the offset of the centres |
| Balls.SteerSigns | game.js:327-330 | scaling the steered vector by a positive factor keeps both signs |
| Balls.Ball.Bounce | game.js:310-333 | at most four bounces per tick, each counting one hit; any bounce unlatches the ball, none leaves latch and direction alone; the ball does not move and the paddle at most halves once |
| Balls.Ball.TierBonus | game.js:384-395 | only the first orange and the first red brick of a ball's life raise the velocity, by one step each |
| Balls.Ball.LatchBrick | game.js:440-445 | a brick hit latches the ball and flips its vertical direction only |
| Balls.Ball.Move | game.js:449 | the ball advances along its direction at its velocity |
| Balls.Ball.EnterEndGame | game.js:488-490 | the resting ball is put in play at the initial velocity in end-game mode |
| Balls.Ball.Launch | game.js:940-944 | a ball at rest becomes visible at the initial velocity; a ball in play is not affected |
| Digits.BlinkStep | game.js:637-657 | a digit without blinks is untouched; a blink is used up exactly on a hidden-to-shown change (one less on every such change, and only then), never below zero, and the last one leaves the digit shown |
| Digits.BlinkSettles | game.js:630-668 | an armed digit blinks five times and then stays shown: after 91 ticks if it was shown when armed, 81 if hidden |
| Digits.Digit.Update | game.js:637-657 | one tick of the blink timer is `BlinkStep`; the value is kept |
| Digits.Digit.SetBlink | game.js:659-668 | arming gives five blinks with the timer expired and visibility kept; cancelling leaves the digit shown with no blinks |
| ScoreText.ParseDecimalString | game.js:506-516 | parsing the decimal text of a score gives the score back |
| ScoreText.CharFromRight | game.js:514-516 | the i-th character from the right of the score's text is its i-th least significant decimal digit |
| ScoreText.DecimalLength | game.js:508-510 | the text has 4 characters exactly for scores 1000 to 9999, at most 3 below 1000 |
| ScoreText.FourDigits | game.js:504-518 | four display digits hold the whole of a score below 10000 |
| Turns.Initial | game.js:796-802 | the state a match starts in (player 0 in turn, both players on their first level with their first ball) is well formed |
| Turns.SwitchPlayer | game.js:463-473 | the turn passes to the other player exactly when they have a ball left (ball index at most 3, the last ball; the source tests `< 4`); nothing else changes |
| Turns.LoseBallValid | game.js:339-367 | a lost ball keeps the match well formed, uses exactly one of the active player's balls, only hands the turn to a player with a ball left, and adds a level to the second player exactly in the bonus case |
| Turns.LoseBallEndsGame | game.js:339-367 | a lost ball ends the game exactly when every player in play is then out of balls |
| Turns.ClearLevelValid | game.js:418-437 | a cleared level keeps the match well formed; the level advances when there is a next one, otherwise the ball index becomes 4; the game ends exactly when every player in play is out of balls |
| Turns.SinglePlayerBalls | game.js:342-345 | a single player's game is still on after two lost balls and ends with the third |
| Turns.TwoPlayerBalls | game.js:346-367 | without a cleared level the two players alternate: after k lost balls, k below 6, the game is on and player k mod 2 is in turn; the sixth lost ball ends it |
| Turns.SecondPlayerPlaysOn | game.js:362-366 | once the first player is out of balls, the second keeps the turn on every lost ball until they are out too, then the game ends |
| Turns.LossesAdd | game.js:339-367 | losing a + b balls in a row is losing a and then b |
| CourtScene.AddPoints | game.js:380-396 | the active player's score grows by the points and the other player's score is kept |
| CourtScene.FirstHit | game.js:368-373 | the first brick of a level, in storage order, the ball's box collides with: none exactly when no brick of it collides, otherwise a brick of the level that collides |
| CourtScene.FindHitBrick | game.js:370-373 | the index of the first brick, in storage order, the ball collides with, or -1 when it collides with none; it agrees with `FirstHit` |
| CourtScene.CountDestroyed | game.js:408-413 | the count of the level's bricks that are not shown |
| CourtScene.AllDestroyed | game.js:408-418 | the count equals the level's size exactly when no brick of the level is shown |
| CourtScene.Court.LevelCleared | game.js:407-418 | the level is cleared exactly when every brick of the current level is hidden |
| CourtScene.Court.ScoresBounded | game.js:504-518 | each score is below 10000, so four digits show it |
| CourtScene.Court.constructor | game.js:805-902 | the scene on entry: sizes from the canvas, a well-formed initial match, scores 0; 448 distinct standing bricks laid out on the court grid (left edge at the wall width, slots 1/16 of the canvas wide); the out-of-bounds area one slot height below the canvas, as wide as the canvas; the side walls one slot height wide down the canvas edges and the top wall across the top; the ball at rest in the middle with the roll's heading, no hits and no bonus; the paddle at its original width, centred, 100 above the bottom; the player and ball digits showing 1 |
| CourtScene.Court.ResetBallAndPaddle | game.js:453-456 | ball at rest and hidden in the middle of the canvas, heading the roll's way, with no latch, hits or bonuses; paddle back to its original width and centred, at its height; the match is unchanged |
| CourtScene.Court.IncrementBallIndex | game.js:458-461 | the active player's ball index goes up by one and the ball digit shows it |
| CourtScene.Court.SwitchPlayer | game.js:463-473 | `Turns.SwitchPlayer`; on a switch the player digit shows and blinks the new player and the ball digit shows their ball index |
| CourtScene.Court.EndGame | game.js:483-491 | the paddle spans the room between the walls at its height, and the ball, otherwise unchanged, plays on at the initial velocity in end-game mode |
| CourtScene.Court.EndIfOut | game.js:342-345 | a single player's game ends once they are out of balls (ball in play in end-game mode, paddle spanning the room); otherwise ball and paddle stay as they are |
| CourtScene.Court.EndOrSwitch | game.js:362-366 | a two-player game ends when both are out of balls (ball in end-game mode, paddle spanning), otherwise the turn is handed over and ball and paddle stay |
| CourtScene.Court.EndOrSwitchIfOut | game.js:430-434 | after a cleared level: end when both are out, switch when only the active player is, else play on; the paddle spans the room exactly in the ending case |
| CourtScene.Court.AddBonusLevel | game.js:354-360 | the first player's second level is appended to the second player's levels, sharing the same brick objects |
| CourtScene.Court.LoseBall | game.js:339-367 | `Turns.LoseBall` on the match; the bonus level is appended exactly in the bonus case; scores are kept; the ball is recentred heading the roll's way with no hits, at rest unless the game ended (then in end-game play); the paddle is restored and centred, or spans the room once the game is over |
| CourtScene.Court.EndTurn | game.js:342-367 | the end of a lost ball after the count: end, bonus level, switch; the ball keeps its place, heading and counters; the paddle spans the room when the game ends and stays put otherwise |
| CourtScene.Court.ClearLevel | game.js:418-437 | `Turns.ClearLevel` on the match; bricks and scores are kept; the ball is recentred heading the roll's way with no hits; the paddle is restored and centred, or spans the room once the game is over |
| CourtScene.Court.NextLevel | game.js:420-424 | `Turns.NextLevel`: next level, or ball index 4 on the last level |
| CourtScene.Court.RefreshPlayerScoreDigits | game.js:504-518 | slot 3 - i gets the i-th least significant digit for as many digits as the score has, the other slots keep their values, and the thousands slot is revealed at four digits |
| CourtScene.Court.BlinkPlayerScoreDigits | game.js:530-537 | the active player's three lower digits are armed, and the thousands digit only from 1000 points on; values are kept |
| CourtScene.Court.ScoreBrick | game.js:374-405 | the brick is destroyed, the active player's score grows by its tier's points, the first orange/red bonus applies, the digits blink and show the new score, and one hit is counted |
| CourtScene.Court.RecordBrick | game.js:376-402 | the court's half of a scored brick: brick destroyed, score raised, digits armed and showing the new score |
| CourtScene.Court.SpeedUpForBrick | game.js:384-405 | the ball's half of a scored brick: tier bonus, then one hit counted |
| CourtScene.Court.AwardPoints | game.js:376-396 | brick hidden and disabled, score raised by its points, scores still below 10000 |
| CourtScene.Court.DestroyBrick | game.js:376-377 | the brick is hidden and disabled and joins the destroyed bricks |
| CourtScene.Court.ShowScore | game.js:398-402 | the active player's digits show the new score and the three lower digits are armed |
| CourtScene.Court.BounceBall | game.js:310-333 | the bounces of a tick leave the match, the level, the scores and the ball's place (hence its first colliding brick) unchanged; up to four bounces, each one hit, and any bounce unlatches |
| CourtScene.Court.StrikeBrick | game.js:373-445 | outside end-game mode the brick is scored and the level cleared exactly when no brick of it is shown any more; in end-game mode the brick and the scores are untouched; unless cleared, the ball stays in place, latches and flips vertically; the levels are unchanged and every other brick keeps its flags, as does the struck one in end-game mode |
| CourtScene.Court.ScoreAndCheckLevel | game.js:374-437 | a scored brick, then the level cleared exactly when all its bricks are hidden; the levels are unchanged |
| CourtScene.Court.ClearIfDestroyed | game.js:407-437 | the level is cleared exactly when all its bricks are hidden; otherwise nothing changes; the levels are unchanged on both branches |
| CourtScene.Court.LatchBall | game.js:440-445 | the ball latches and flips vertically; the match is unchanged |
| CourtScene.Court.UpdateBall | game.js:306-450 | a hidden ball does nothing; a ball in play, after its bounces, is lost exactly when heading down into the out-of-bounds area; otherwise, if unlatched or it bounced, it strikes the first colliding brick of the current level (none if none collides); only that brick is scored, only outside end-game mode; the level is cleared exactly when it was the last one standing; unless lost or cleared the ball turns vertically on a strike and advances dt * direction * velocity; the levels change only by the bonus level on a lost ball; every brick but a scored one keeps its flags |
| CourtScene.Court.Tick | game.js:310-449 | the tick of a ball in play: bounces; lost exactly when heading down into the out-of-bounds area; otherwise the first colliding brick is struck when unlatched or after a bounce, none when still latched; unless lost or cleared the ball turns on a strike and advances; the levels change only by the bonus level on a lost ball; every brick but a scored one keeps its flags |
| CourtScene.Court.CollideAndMove | game.js:339-449 | lost exactly when moving down into the out-of-bounds area; otherwise an unlatched ball strikes the first colliding brick and a latched one none; unless lost or cleared the ball latches and turns vertically on a strike and advances dt * direction * velocity; the levels change only by the bonus level on a lost ball; every brick but a scored one keeps its flags |
| CourtScene.Court.Collide | game.js:339-448 | lost exactly when moving down into the out-of-bounds area; otherwise an unlatched ball strikes the first colliding brick of the level and a latched one none; never both; unless lost or cleared the ball stays in place, latched and turned on a strike; the levels change only by the bonus level on a lost ball; every brick but a scored one keeps its flags |
| CourtScene.Court.HitBrick | game.js:368-447 | the struck brick is the first brick of the current level the ball collides with, or none when none collides; unless the level was cleared the ball stays in place and is latched and turned vertically exactly on a strike; the levels are unchanged, and every brick but a scored one keeps its flags (in end-game mode the struck brick too) |
| CourtScene.Court.MoveBall | game.js:449 | the ball moves; the match, the level and the scores are unchanged; the levels, the latch and the bricks' flags are kept |
| CourtScene.Court.Update | game.js:950-965 | the paddle moves, the ball takes its tick with the triggers and the move `UpdateBall` states (a hidden ball stays put, and a ball latched after a brick hit strikes no brick until it bounces), and the digits' blink timers tick; the levels change only by the bonus level on a lost ball, and every brick but a scored one keeps its flags |
| CourtScene.Court.BallAndDigits | game.js:951-963 | the ball's tick and the digits' blink step, after the paddle's move: the same outcomes as `Update` states, the latched ball striking no brick before it bounces included, from the state the paddle's move left |
| CourtScene.Court.MovePaddle | game.js:951 | the paddle moves and is clamped as `Paddle.Update` states; its size and heading, the ball, the match and the scores are unchanged |
| CourtScene.Court.TickDigits | game.js:954-964 | each score digit and the player digit takes one `BlinkStep`; the ball digit is not updated; the match, the levels, the scores and the bricks' flags are unchanged |
| CourtScene.Court.TickScoreDigits | game.js:954-962 | one player's four score digits each take one `BlinkStep` |
| CourtScene.Court.TickScoreDigit | game.js:954-962 | one score digit takes one `BlinkStep` and still shows its player's score |
| CourtScene.Court.TickIndexDigit | game.js:964 | the player digit takes one `BlinkStep` and still shows the active player |

## Left out

- The welcome scene, `setScene`, `init`, canvas acquisition and the court's key listeners (game.js:50-120, 903-947, 1013-1056). These are browser plumbing. Of the key handling, only the spacebar launch is modelled, as `Ball.Launch`. The paddle's direction, which the arrow keys set, is whatever it is when `Paddle.Update` runs.
- The main loop with `requestAnimationFrame` and its fixed-step time accumulator (game.js:1064-1084). It is host-driven timing; `Court.Update` is one of its steps.
- All drawing: `Drawable.draw`, the digit segment geometry and `courtScene.draw`. Digits keep only their value and blink state. Fill styles are modelled as the brick `Tier`.
- Floating point: positions, sizes and velocities are exact reals, so rounding is not modelled.
- `normalize` (game.js:143-146): the square root is not modelled. A normalised direction is the input scaled by some positive factor, not a unit vector; `Balls.Normalize` returns that factor as a ghost value.
- `Math.random` in `createRandomInitDirection`: the roll is a parameter in 1..10 and the modulo-3 pick is modelled exactly.
- The pixel layout of the digits. Walls, paddle, ball and brick positions follow the canvas arithmetic.
- `Balls.Ball.Bounce`: states the number of bounces and the latch, not each wall's reflection; `ReflectOffTopWall`, `ReflectOffLeftWall`, `ReflectOffRightWall` and `ReflectOffPaddle` state those.
- `CourtScene.Court.UpdateBall`: the direction after the bounces (the ghost `heading`) is tied to the old direction only when nothing bounced; each reflection is stated by the four `Reflect` methods, and `Ball.Bounce` states only the count. After a loss or a cleared level, the reset of the ball and the paddle is stated by `LoseBall` and `ClearLevel`, not restated here.
- `CourtScene.Court.Tick`: the same two gaps as `UpdateBall`: `heading` is pinned only without a bounce, and the reset after a loss or a clear is left to `LoseBall` and `ClearLevel`.
- `CourtScene.Court.CollideAndMove`: the reset of the ball and the paddle after a loss or a clear is stated by `LoseBall` and `ClearLevel`, not restated here.
- `CourtScene.Court.Collide`: likewise leaves the reset after a loss or a clear to `LoseBall` and `ClearLevel`.
- `CourtScene.Court.Update`: the paddle's move and clamp are stated by `MovePaddle`, not by `Update`, because the ball's tick may then shrink, restore or stretch the paddle. `Update` does not restate the digits' blink step, which `TickDigits` states, nor that the struck brick was enabled and when the level is cleared, which `UpdateBall` states.
- `CourtScene.Court.BallAndDigits`: like `Update`, does not restate the digits' blink step, which `TickDigits` states, nor that the struck brick was enabled and when the level is cleared, which `UpdateBall` states.
- `Digit.update`'s `dt` argument is unused in the source and in the model.
