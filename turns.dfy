/**
  The match controller's bookkeeping as a value: how many players play,
  whose turn it is, each player's level and ball index, how many brick
  levels each player has, and whether the game has ended. The court class
  keeps these in its per-player arrays and its operations are specified by
  the functions here.
*/
module Turns {

  /** A player's ball index starts at 1; above 3 the player has no ball left. */
  const FirstBall := 1
  const LastBall := 3
  /** The ball index a player gets when they clear their last level. */
  const OutOfLevels := 4

  datatype Match = Match(
    players: int,
    active: int,
    level: seq<int>,
    ballIndex: seq<int>,
    levels: seq<int>,
    over: bool)

  /** The other player's index. */
  function Other(p: int): (q: int)
    requires p == 0 || p == 1
    ensures (q == 0 || q == 1) && q != p
  {
    if p == 0 then 1 else 0
  }

  /**
    The well-formed match states. The player in turn still has a ball until
    the game ends, and the game ends only when every player in play is out
    of balls.
  */
  ghost predicate Valid(m: Match) {
    && (m.players == 1 || m.players == 2)
    && (m.active == 0 || m.active == 1)
    && (m.players == 1 ==> m.active == 0)
    && |m.level| == 2 && |m.ballIndex| == 2 && |m.levels| == 2
    && m.levels[0] == 2 && m.levels[1] >= 2
    && (forall p | 0 <= p < 2 :: 0 <= m.level[p] < m.levels[p] && m.ballIndex[p] >= FirstBall)
    && (!m.over ==> m.ballIndex[m.active] <= LastBall)
    && (m.over ==> OutOfBalls(m))
  }

  /** Every player in play has used up their balls. */
  predicate OutOfBalls(m: Match)
    requires |m.ballIndex| == 2
  {
    if m.players == 1 then m.ballIndex[0] > LastBall
    else m.ballIndex[0] > LastBall && m.ballIndex[1] > LastBall
  }

  /** The state a match starts in. */
  function Initial(players: int): (m: Match)
    requires players == 1 || players == 2
    ensures Valid(m)
  {
    Match(players, 0, [0, 0], [FirstBall, FirstBall], [2, 2], false)
  }

  /**
    Hand the turn to the other player, but only when the other player still
    has a ball.
  */
  function SwitchPlayer(m: Match): (r: Match)
    requires (m.active == 0 || m.active == 1) && |m.ballIndex| == 2
    ensures r.active != m.active <==> m.ballIndex[Other(m.active)] <= LastBall
    ensures r.active != m.active ==> r.active == Other(m.active)
    ensures r == m.(active := r.active)
  {
    if m.ballIndex[Other(m.active)] <= LastBall then m.(active := Other(m.active)) else m
  }

  /** The active player's ball index goes up by one. */
  function IncrementBallIndex(m: Match): (r: Match)
    requires (m.active == 0 || m.active == 1) && |m.ballIndex| == 2
  {
    m.(ballIndex := m.ballIndex[m.active := m.ballIndex[m.active] + 1])
  }

  /** Whether losing a ball also gives the second player the first player's second level. */
  predicate BonusLevel(m: Match)
    requires |m.level| == 2 && |m.ballIndex| == 2
  {
    m.players == 2 && m.active == 0 && m.ballIndex[0] > LastBall && m.level[0] == 1
  }

  /** In the bonus case, the second player gets one more level. */
  function AddBonus(m: Match): Match
    requires |m.level| == 2 && |m.ballIndex| == 2 && |m.levels| == 2
  {
    if BonusLevel(m) then m.(levels := m.levels[1 := m.levels[1] + 1]) else m
  }

  /** A single player's game ends once they are out of balls. */
  function EndIfOut(m: Match): Match
    requires (m.active == 0 || m.active == 1) && |m.ballIndex| == 2
  {
    m.(over := m.over || m.ballIndex[m.active] > LastBall)
  }

  /** A two-player game ends once both players are out of balls; otherwise the turn is handed over. */
  function EndOrSwitch(m: Match): Match
    requires (m.active == 0 || m.active == 1) && |m.ballIndex| == 2
  {
    if m.ballIndex[0] > LastBall && m.ballIndex[1] > LastBall then m.(over := true)
    else SwitchPlayer(m)
  }

  /**
    The ball went out of bounds: count the lost ball; a single-player game
    ends when the player is out of balls; in a two-player game the first
    player's second level is added to the second player's levels when the
    first player has just run out of balls on it, and then the game ends if
    both players are out of balls, or the turn is handed over.
  */
  function LoseBall(m: Match): Match
    requires Valid(m)
  {
    var m1 := IncrementBallIndex(m);
    if m.players == 1 then EndIfOut(m1) else EndOrSwitch(AddBonus(m1))
  }

  /**
    The active player goes on to their next level or, on their last level,
    has their ball index set past the last ball.
  */
  function NextLevel(m: Match): Match
    requires (m.active == 0 || m.active == 1) && |m.level| == 2 && |m.ballIndex| == 2 && |m.levels| == 2
  {
    var a := m.active;
    if m.level[a] + 1 >= m.levels[a] then m.(ballIndex := m.ballIndex[a := OutOfLevels])
    else m.(level := m.level[a := m.level[a] + 1])
  }

  /**
    After a cleared level of a two-player game: the game ends when both
    players are out of balls, the turn is handed over when only the active
    player is, and otherwise the active player plays on.
  */
  function EndOrSwitchIfOut(m: Match): Match
    requires (m.active == 0 || m.active == 1) && |m.ballIndex| == 2
  {
    if m.ballIndex[0] > LastBall && m.ballIndex[1] > LastBall then m.(over := true)
    else if m.ballIndex[m.active] > LastBall then SwitchPlayer(m)
    else m
  }

  /**
    The active player destroyed the last brick of their level: they go on to
    their next level, or, on their last level, their ball index is set past
    the last ball. Then the game ends when every player is out of balls, or
    the turn is handed over when only the active player is.
  */
  function ClearLevel(m: Match): Match
    requires Valid(m) && !m.over
  {
    var m1 := NextLevel(m);
    if m.players == 1 then EndIfOut(m1) else EndOrSwitchIfOut(m1)
  }

  /**
    Losing a ball keeps the match well formed, uses up exactly one of the
    active player's balls and nothing of the other player's, only ever
    hands the turn to a player with a ball left, and adds a level to the
    second player exactly in the bonus case. A game that is over stays over.
  */
  lemma LoseBallValid(m: Match)
    requires Valid(m)
    ensures var r := LoseBall(m);
            && Valid(r)
            && r.ballIndex == m.ballIndex[m.active := m.ballIndex[m.active] + 1]
            && r.level == m.level
            && r.levels[0] == m.levels[0]
            && r.levels[1] == m.levels[1] + (if BonusLevel(IncrementBallIndex(m)) then 1 else 0)
            && (r.active != m.active ==> r.ballIndex[r.active] <= LastBall)
            && (m.over ==> r.over)
  {
    if m.over && m.players == 2 {
      assert OutOfBalls(m);
    }
  }

  /** The game ends on a lost ball exactly when every player in play is then out of balls. */
  lemma LoseBallEndsGame(m: Match)
    requires Valid(m)
    ensures LoseBall(m).over <==> OutOfBalls(IncrementBallIndex(m))
  {
    if m.over && m.players == 2 {
      assert OutOfBalls(m);
    }
  }

  /**
    Clearing a level keeps the match well formed: the level advances
    exactly when the player has a next level, otherwise the player is out of
    balls, and the game ends exactly when every player in play is out.
  */
  lemma ClearLevelValid(m: Match)
    requires Valid(m) && !m.over
    ensures var r := ClearLevel(m);
            var a := m.active;
            && Valid(r)
            && r.levels == m.levels
            && (m.level[a] + 1 < m.levels[a] ==> r.level == m.level[a := m.level[a] + 1] && r.ballIndex == m.ballIndex)
            && (m.level[a] + 1 >= m.levels[a] ==> r.level == m.level && r.ballIndex == m.ballIndex[a := OutOfLevels])
            && (r.over <==> OutOfBalls(r))
  {
  }

  /** n lost balls in a row. */
  function Losses(m: Match, n: nat): (r: Match)
    requires Valid(m)
    ensures Valid(r)
    decreases n
  {
    if n == 0 then m else LoseBallValid(m); Losses(LoseBall(m), n - 1)
  }

  /** A single player's game ends with the third lost ball, not before. */
  lemma SinglePlayerBalls()
    ensures !Losses(Initial(1), 2).over
    ensures Losses(Initial(1), 3).over
  {
    var m0 := Initial(1);
    var m1 := LoseBall(m0);
    var m2 := LoseBall(m1);
    assert m2.ballIndex[0] == 3 && !m2.over;
    assert Losses(m0, 2) == Losses(m1, 1) == Losses(m2, 0) == m2;
    assert Losses(m0, 3) == Losses(m2, 1) == LoseBall(m2);
  }

  /** The first five states of a two-player game in which every ball is lost without a cleared level. */
  function TwoPlayerLosses(k: nat): Match
    requires k <= 5
  {
    var index := [[1, 1], [2, 1], [2, 2], [3, 2], [3, 3], [4, 3]][k];
    Match(2, k % 2, [0, 0], index, [2, 2], false)
  }

  /** Each of the first five lost balls of a two-player game hands the turn over. */
  lemma TwoPlayerStep(k: nat)
    requires k < 5
    ensures Valid(TwoPlayerLosses(k)) && LoseBall(TwoPlayerLosses(k)) == TwoPlayerLosses(k + 1)
  {
    var r := Alternate(TwoPlayerLosses(k));
  }

  /** The first k lost balls of a two-player game, k up to 5. */
  lemma {:induction false} TwoPlayerPrefix(k: nat)
    requires k <= 5
    ensures Losses(Initial(2), k) == TwoPlayerLosses(k)
  {
    if k > 0 {
      TwoPlayerPrefix(k - 1);
      TwoPlayerStep(k - 1);
      LossesAdd(Initial(2), k - 1, 1);
      LossesOne(TwoPlayerLosses(k - 1));
    }
  }

  /**
    Without a cleared level, a two-player game alternates: the first player
    loses balls 1, 3 and 5, the second 2, 4 and 6, and the game ends with
    the sixth lost ball.
  */
  lemma TwoPlayerBalls(k: nat)
    requires 1 <= k <= 6
    ensures k < 6 ==> Losses(Initial(2), k).active == k % 2 && !Losses(Initial(2), k).over
    ensures k == 6 ==> Losses(Initial(2), k).over
  {
    if k < 6 {
      TwoPlayerPrefix(k);
    } else {
      TwoPlayerPrefix(5);
      LossesAdd(Initial(2), 5, 1);
      LossesOne(TwoPlayerLosses(5));
    }
  }

  /** Losing a + b balls is losing a balls and then b more. */
  lemma {:induction false} LossesAdd(m: Match, a: nat, b: nat)
    requires Valid(m)
    ensures Losses(m, a + b) == Losses(Losses(m, a), b)
    decreases a
  {
    if a > 0 {
      LoseBallValid(m);
      LossesAdd(LoseBall(m), a - 1, b);
    }
  }

  /**
    In a two-player game, a lost ball that does not trigger the bonus level
    hands the turn to the other player while they have a ball left.
  */
  lemma Alternate(m: Match) returns (r: Match)
    requires Valid(m) && m.players == 2 && !m.over && !BonusLevel(IncrementBallIndex(m))
    requires m.ballIndex[Other(m.active)] <= LastBall
    ensures r == LoseBall(m)
    ensures r == m.(active := Other(m.active), ballIndex := m.ballIndex[m.active := m.ballIndex[m.active] + 1])
  {
    r := LoseBall(m);
  }

  lemma LossesOne(m: Match)
    requires Valid(m)
    ensures Losses(m, 1) == LoseBall(m)
  {
  }

  /**
    Once the first player is out of balls in a two-player game, the second
    player keeps the turn on every lost ball until they are out too, and
    then the game ends.
  */
  lemma {:induction false} SecondPlayerPlaysOn(m: Match, n: nat)
    requires Valid(m) && m.players == 2 && !m.over
    requires m.active == 1 && m.ballIndex[0] > LastBall
    requires n <= LastBall + 1 - m.ballIndex[1]
    ensures var r := Losses(m, n);
            && r.ballIndex[1] == m.ballIndex[1] + n
            && (r.over <==> r.ballIndex[1] > LastBall)
            && r.active == 1
    decreases n
  {
    if n > 0 {
      var m1 := LoseBall(m);
      assert m1.active == 1 && m1.ballIndex[1] == m.ballIndex[1] + 1 && m1.ballIndex[0] == m.ballIndex[0];
      if n > 1 {
        SecondPlayerPlaysOn(m1, n - 1);
      }
    }
  }
}
