/**
  Bricks and the brick grid of a level: 8 rows of 14 bricks, the two top
  rows red, then two orange, two green and two yellow rows. The fill colour
  of a brick is its scoring tier.
*/
module Bricks {
  import opened Geometry

  const Rows := 8
  const Columns := 14
  const BricksPerLevel := 112

  /** The four fill colours, lowest scoring first. */
  datatype Tier = Yellow | Green | Orange | Red

  /** Points awarded for destroying a brick of the tier. */
  function Points(t: Tier): nat {
    match t
    case Yellow => 1
    case Green => 3
    case Orange => 5
    case Red => 7
  }

  /** The tier of a grid row; row 0 is the top row. */
  function RowTier(row: int): Tier {
    if row < 2 then Red
    else if row < 4 then Orange
    else if row < 6 then Green
    else Yellow
  }

  /** The tier of the k-th brick of a level, bricks being stored row by row. */
  function GridTier(k: nat): Tier {
    RowTier(k / Columns)
  }

  /** The k-th brick of row r sits at index Columns * r + k. */
  lemma DivRow(r: nat, k: nat)
    requires k < Columns
    ensures (Columns * r + k) / Columns == r && (Columns * r + k) % Columns == k
  {
  }

  /** The points of the first n bricks of a level. */
  function LevelPoints(n: nat): nat {
    if n == 0 then 0 else LevelPoints(n - 1) + Points(GridTier(n - 1))
  }

  /** Within one row every brick is worth the row's tier points. */
  lemma {:induction false} PartialRowPoints(r: nat, c: nat)
    requires c <= Columns
    ensures LevelPoints(Columns * r + c) == LevelPoints(Columns * r) + c * Points(RowTier(r))
  {
    if c > 0 {
      var n := Columns * r + c;
      PartialRowPoints(r, c - 1);
      DivRow(r, c - 1);
      assert GridTier(n - 1) == RowTier(r);
      MulStep(c, Points(RowTier(r)));
    }
  }

  lemma MulStep(c: nat, p: nat)
    requires c > 0
    ensures c * p == (c - 1) * p + p
  {
  }

  /**
    A full level is worth 448 points (28 bricks of each tier), so the two
    levels of a player are worth 896 and three levels 1344.
  */
  lemma FullLevelPoints()
    ensures LevelPoints(BricksPerLevel) == 448
    ensures 2 * LevelPoints(BricksPerLevel) == 896 && 3 * LevelPoints(BricksPerLevel) == 1344
  {
    PartialRowPoints(0, Columns);
    PartialRowPoints(1, Columns);
    PartialRowPoints(2, Columns);
    PartialRowPoints(3, Columns);
    PartialRowPoints(4, Columns);
    PartialRowPoints(5, Columns);
    PartialRowPoints(6, Columns);
    PartialRowPoints(7, Columns);
  }

  /** A brick: a static collideable with a scoring tier. */
  class Brick {
    const x: real
    const y: real
    const width: real
    const height: real
    const tier: Tier
    var visible: bool
    var enabled: bool

    constructor (x: real, y: real, width: real, height: real, tier: Tier)
      ensures this.x == x && this.y == y && this.width == width && this.height == height
      ensures this.tier == tier && visible && enabled
    {
      this.x := x;
      this.y := y;
      this.width := width;
      this.height := height;
      this.tier := tier;
      visible := true;
      enabled := true;
    }

    /** The box covers exactly the brick's rectangle; it takes part in collisions while the brick is enabled. */
    function Box(): (b: Aabb)
      reads this
      ensures b.enabled == enabled
      ensures b.center.x - b.extent.x == x && b.center.x + b.extent.x == x + width
      ensures b.center.y - b.extent.y == y && b.center.y + b.extent.y == y + height
    {
      Aabb(Vec(x + width / 2.0, y + height / 2.0), Vec(width / 2.0, height / 2.0), enabled)
    }
  }

  /** Every level holds a full grid of bricks. */
  predicate FullLevels(levels: seq<seq<Brick>>) {
    forall l | 0 <= l < |levels| :: |levels[l]| == BricksPerLevel
  }

  /** Every brick of every player's levels is one of the given bricks. */
  predicate BricksIn(playerBricks: seq<seq<seq<Brick>>>, all: set<Brick>) {
    forall p, l, k | 0 <= p < |playerBricks| && 0 <= l < |playerBricks[p]| && 0 <= k < |playerBricks[p][l]| ::
      playerBricks[p][l][k] in all
  }

  /** Where the grid goes: its top-left corner, the size of a brick and the spacing between bricks. */
  datatype Layout = Layout(left: real, top: real, width: real, height: real, spacing: real)

  /**
    Brick k of a level has the tier of its row and the layout's size, and
    sits in column k % 14 of row k / 14: columns one brick width plus the
    spacing apart from the left edge, rows one brick height plus the
    spacing apart from the top.
  */
  predicate InSlot(b: Brick, k: int, g: Layout) {
    && k >= 0
    && b.tier == GridTier(k)
    && b.width == g.width && b.height == g.height
    && b.x == g.left + ((k % Columns) as real) * (g.width + g.spacing)
    && b.y == g.top + ((k / Columns) as real) * (g.height + g.spacing)
  }

  /** Every player's first two levels are laid out on the grid, brick by brick. */
  predicate GridPlaced(playerBricks: seq<seq<seq<Brick>>>, g: Layout) {
    forall p, l, k | 0 <= p < |playerBricks| && 0 <= l < |playerBricks[p]| && l < 2 && 0 <= k < |playerBricks[p][l]| ::
      InSlot(playerBricks[p][l][k], k, g)
  }

  /** No brick object fills two slots: each slot of each level of each player has its own brick. */
  predicate Distinct(playerBricks: seq<seq<seq<Brick>>>) {
    forall p, l, k, q, m, j |
      && 0 <= p < |playerBricks| && 0 <= l < |playerBricks[p]| && 0 <= k < |playerBricks[p][l]|
      && 0 <= q < |playerBricks| && 0 <= m < |playerBricks[q]| && 0 <= j < |playerBricks[q][m]|
      && playerBricks[p][l][k] == playerBricks[q][m][j]
      :: p == q && l == m && k == j
  }

  /** Every brick of the level sits in the slot of its index. */
  predicate Placed(level: seq<Brick>, g: Layout) {
    forall k | 0 <= k < |level| :: InSlot(level[k], k, g)
  }

  /** Every brick of level l of player p is recorded in `slot` under its own slot (p, l, k). */
  predicate Recorded(level: seq<Brick>, slot: map<Brick, (int, int, int)>, p: int, l: int) {
    forall k | 0 <= k < |level| :: level[k] in slot && slot[level[k]] == (p, l, k)
  }

  /** Appending a brick that sits in the next slot keeps a level placed. */
  lemma PlacedPush(level: seq<Brick>, g: Layout, b: Brick)
    requires Placed(level, g) && InSlot(b, |level|, g)
    ensures Placed(level + [b], g)
  {
    assert forall k | 0 <= k < |level| :: (level + [b])[k] == level[k];
  }

  /** Appending a brick recorded under the next slot, in a map that keeps every earlier record, keeps a level recorded. */
  lemma RecordedPush(level: seq<Brick>, slot: map<Brick, (int, int, int)>, slot': map<Brick, (int, int, int)>,
                     p: int, l: int, b: Brick)
    requires Recorded(level, slot, p, l)
    requires forall c | c in slot :: c in slot' && slot'[c] == slot[c]
    requires b in slot' && slot'[b] == (p, l, |level|)
    ensures Recorded(level + [b], slot', p, l)
  {
    assert forall k | 0 <= k < |level| :: (level + [b])[k] == level[k];
  }

  /** Four bricks that are new and pairwise different add four to the count. */
  lemma AddFour(all: set<Brick>, b0: Brick, b1: Brick, b2: Brick, b3: Brick)
    requires b0 !in all && b1 !in all && b2 !in all && b3 !in all
    requires b0 != b1 && b0 != b2 && b0 != b3 && b1 != b2 && b1 != b3 && b2 != b3
    ensures |all + {b0, b1, b2, b3}| == |all| + 4
  {
    assert |all + {b0}| == |all| + 1;
    assert |all + {b0} + {b1}| == |all| + 2;
    assert |all + {b0} + {b1} + {b2}| == |all| + 3;
    assert all + {b0, b1, b2, b3} == all + {b0} + {b1} + {b2} + {b3};
  }

  /** The brick at (x, y) in column j of row i sits in slot 14 * i + j. */
  lemma SlotAt(b: Brick, i: nat, j: nat, g: Layout)
    requires j < Columns
    requires b.tier == RowTier(i) && b.width == g.width && b.height == g.height
    requires b.x == g.left + (j as real) * (g.width + g.spacing)
    requires b.y == g.top + (i as real) * (g.height + g.spacing)
    ensures InSlot(b, Columns * i + j, g)
  {
    DivRow(i, j);
  }

  /**
    Recording four new bricks under slot n of the four levels, one per
    level, keeps every level recorded once each brick is appended to its
    level.
  */
  lemma RecordSlot(l0: seq<Brick>, l1: seq<Brick>, l2: seq<Brick>, l3: seq<Brick>, slot: map<Brick, (int, int, int)>,
                   b0: Brick, b1: Brick, b2: Brick, b3: Brick)
    requires |l0| == |l1| == |l2| == |l3|
    requires Recorded(l0, slot, 0, 0) && Recorded(l1, slot, 0, 1) && Recorded(l2, slot, 1, 0) && Recorded(l3, slot, 1, 1)
    requires b0 !in slot && b1 !in slot && b2 !in slot && b3 !in slot
    requires b0 != b1 && b0 != b2 && b0 != b3 && b1 != b2 && b1 != b3 && b2 != b3
    ensures var n := |l0|;
            var slot' := slot[b0 := (0, 0, n)][b1 := (0, 1, n)][b2 := (1, 0, n)][b3 := (1, 1, n)];
            && Recorded(l0 + [b0], slot', 0, 0) && Recorded(l1 + [b1], slot', 0, 1)
            && Recorded(l2 + [b2], slot', 1, 0) && Recorded(l3 + [b3], slot', 1, 1)
  {
    var n := |l0|;
    var slot' := slot[b0 := (0, 0, n)][b1 := (0, 1, n)][b2 := (1, 0, n)][b3 := (1, 1, n)];
    assert forall c | c in slot :: c in slot' && slot'[c] == slot[c];
    RecordedPush(l0, slot, slot', 0, 0, b0);
    RecordedPush(l1, slot, slot', 0, 1, b1);
    RecordedPush(l2, slot, slot', 1, 0, b2);
    RecordedPush(l3, slot, slot', 1, 1, b3);
  }

  /** Levels whose bricks are recorded in their own slots share no brick and repeat none. */
  lemma DistinctBySlot(playerBricks: seq<seq<seq<Brick>>>, slot: map<Brick, (int, int, int)>)
    requires forall p, l | 0 <= p < |playerBricks| && 0 <= l < |playerBricks[p]| :: Recorded(playerBricks[p][l], slot, p, l)
    ensures Distinct(playerBricks)
  {
  }

  /** One step further along a row or a column of the grid. */
  lemma NextSlot(start: real, k: nat, step: real)
    ensures start + ((k + 1) as real) * step == start + (k as real) * step + step
  {
  }

  /**
    The first n slots of the four levels (player 0's two, then player 1's
    two) are filled: every level holds n bricks, each placed in its slot
    and recorded under it.
  */
  predicate Laid(l0: seq<Brick>, l1: seq<Brick>, l2: seq<Brick>, l3: seq<Brick>, slot: map<Brick, (int, int, int)>, n: int, g: Layout) {
    var ok :=
      && |l0| == |l1| == |l2| == |l3| == n && |slot| == 4 * n
      && Placed(l0, g) && Placed(l1, g) && Placed(l2, g) && Placed(l3, g)
      && Recorded(l0, slot, 0, 0) && Recorded(l1, slot, 0, 1) && Recorded(l2, slot, 1, 0) && Recorded(l3, slot, 1, 1);
    ok
  }

  /** Four new bricks placed in slot n, one per level, extend the four laid-out levels by that slot. */
  lemma LaidPush(l0: seq<Brick>, l1: seq<Brick>, l2: seq<Brick>, l3: seq<Brick>, slot: map<Brick, (int, int, int)>, n: nat, g: Layout,
                 b0: Brick, b1: Brick, b2: Brick, b3: Brick)
    requires Laid(l0, l1, l2, l3, slot, n, g)
    requires InSlot(b0, n, g) && InSlot(b1, n, g) && InSlot(b2, n, g) && InSlot(b3, n, g)
    requires b0 !in slot && b1 !in slot && b2 !in slot && b3 !in slot
    requires b0 != b1 && b0 != b2 && b0 != b3 && b1 != b2 && b1 != b3 && b2 != b3
    ensures Laid(l0 + [b0], l1 + [b1], l2 + [b2], l3 + [b3],
                 slot[b0 := (0, 0, n)][b1 := (0, 1, n)][b2 := (1, 0, n)][b3 := (1, 1, n)], n + 1, g)
  {
    AddFour(slot.Keys, b0, b1, b2, b3);
    assert (slot[b0 := (0, 0, n)][b1 := (0, 1, n)][b2 := (1, 0, n)][b3 := (1, 1, n)]).Keys == slot.Keys + {b0, b1, b2, b3};
    PlacedPush(l0, g, b0);
    PlacedPush(l1, g, b1);
    PlacedPush(l2, g, b2);
    PlacedPush(l3, g, b3);
    RecordSlot(l0, l1, l2, l3, slot, b0, b1, b2, b3);
  }

  /**
    Fill slot 14 * i + j of the four levels: one fresh, visible and enabled
    brick per level at (x, y), the column j and row i position, appended to
    its level and recorded under its slot.
  */
  method PushSlot(l0: seq<Brick>, l1: seq<Brick>, l2: seq<Brick>, l3: seq<Brick>, ghost slot: map<Brick, (int, int, int)>,
                  i: nat, j: nat, x: real, y: real, g: Layout)
    returns (l0': seq<Brick>, l1': seq<Brick>, l2': seq<Brick>, l3': seq<Brick>, ghost slot': map<Brick, (int, int, int)>)
    requires j < Columns && Laid(l0, l1, l2, l3, slot, Columns * i + j, g)
    requires x == g.left + (j as real) * (g.width + g.spacing) && y == g.top + (i as real) * (g.height + g.spacing)
    ensures Laid(l0', l1', l2', l3', slot', Columns * i + j + 1, g)
    ensures forall b | b in slot' :: b in slot || (fresh(b) && b.visible && b.enabled)
  {
    var b0, b1, b2, b3 := SlotBricks(x, y, g, RowTier(i));
    SlotAt(b0, i, j, g);
    SlotAt(b1, i, j, g);
    SlotAt(b2, i, j, g);
    SlotAt(b3, i, j, g);
    var n := Columns * i + j;
    LaidPush(l0, l1, l2, l3, slot, n, g, b0, b1, b2, b3);
    l0', l1', l2', l3' := l0 + [b0], l1 + [b1], l2 + [b2], l3 + [b3];
    slot' := slot[b0 := (0, 0, n)][b1 := (0, 1, n)][b2 := (1, 0, n)][b3 := (1, 1, n)];
  }

  /** Four fully laid-out levels make a match's grid: full, placed, and sharing no brick. */
  lemma LaidGrid(l0: seq<Brick>, l1: seq<Brick>, l2: seq<Brick>, l3: seq<Brick>, slot: map<Brick, (int, int, int)>, g: Layout)
    requires Laid(l0, l1, l2, l3, slot, BricksPerLevel, g)
    ensures var playerBricks := [[l0, l1], [l2, l3]];
            && FullLevels(playerBricks[0]) && FullLevels(playerBricks[1])
            && BricksIn(playerBricks, slot.Keys) && |slot.Keys| == 4 * BricksPerLevel
            && GridPlaced(playerBricks, g) && Distinct(playerBricks)
  {
    var playerBricks := [[l0, l1], [l2, l3]];
    assert forall p, l | 0 <= p < 2 && 0 <= l < 2 :: Placed(playerBricks[p][l], g) && Recorded(playerBricks[p][l], slot, p, l);
    DistinctBySlot(playerBricks, slot);
  }

  /** The bricks of one slot: one fresh, visible and enabled brick per level, all four at (x, y). */
  method SlotBricks(x: real, y: real, g: Layout, tier: Tier) returns (b0: Brick, b1: Brick, b2: Brick, b3: Brick)
    ensures fresh(b0) && fresh(b1) && fresh(b2) && fresh(b3)
    ensures b0 != b1 && b0 != b2 && b0 != b3 && b1 != b2 && b1 != b3 && b2 != b3
    ensures forall b | b in [b0, b1, b2, b3] ::
              && b.x == x && b.y == y && b.width == g.width && b.height == g.height
              && b.tier == tier && b.visible && b.enabled
  {
    b0 := new Brick(x, y, g.width, g.height, tier);
    b1 := new Brick(x, y, g.width, g.height, tier);
    b2 := new Brick(x, y, g.width, g.height, tier);
    b3 := new Brick(x, y, g.width, g.height, tier);
  }

  /**
    Build the brick levels of a match, two per player, all with the same
    layout: row by row from the top, each row from the left, one brick plus
    the spacing apart. Every brick is a fresh, visible and enabled object of
    its row's tier, and no two slots share a brick.
  */
  method BuildBrickGrid(g: Layout) returns (playerBricks: seq<seq<seq<Brick>>>, ghost all: set<Brick>)
    ensures |playerBricks| == 2
    ensures forall p | 0 <= p < 2 :: |playerBricks[p]| == 2
    ensures FullLevels(playerBricks[0]) && FullLevels(playerBricks[1])
    ensures BricksIn(playerBricks, all) && |all| == 4 * BricksPerLevel
    ensures GridPlaced(playerBricks, g) && Distinct(playerBricks)
    ensures forall b | b in all :: fresh(b) && b.visible && b.enabled
  {
    var l0: seq<Brick>, l1: seq<Brick>, l2: seq<Brick>, l3: seq<Brick> := [], [], [], [];
    ghost var slot: map<Brick, (int, int, int)> := map[];
    var y := g.top;
    for i := 0 to Rows
      invariant Laid(l0, l1, l2, l3, slot, Columns * i, g)
      invariant forall b | b in slot :: fresh(b) && b.visible && b.enabled
      invariant y == g.top + (i as real) * (g.height + g.spacing)
    {
      var x := g.left;
      for j := 0 to Columns
        invariant Laid(l0, l1, l2, l3, slot, Columns * i + j, g)
        invariant forall b | b in slot :: fresh(b) && b.visible && b.enabled
        invariant x == g.left + (j as real) * (g.width + g.spacing)
      {
        l0, l1, l2, l3, slot := PushSlot(l0, l1, l2, l3, slot, i, j, x, y, g);
        NextSlot(g.left, j, g.width + g.spacing);
        x := x + (g.width + g.spacing);
      }
      NextSlot(g.top, i, g.height + g.spacing);
      y := y + (g.height + g.spacing);
    }
    playerBricks := [[l0, l1], [l2, l3]];
    all := slot.Keys;
    LaidGrid(l0, l1, l2, l3, slot, g);
  }
}
