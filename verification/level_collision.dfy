/**
 * The greedy wall-rectangle merger of level_collision.rs: the grid is scanned
 * column by column, every unvisited wall cell seeds a 1x1 box, the box grows
 * left, right, up and down while it stays made of unvisited walls, and the
 * finished box is marked visited. The result partitions the wall cells.
 */
module LevelCollision {
  import opened Blocks

  type Cell = (int, int)

  /** A half-open box [x0, x1) x [y0, y1) of cells, the source's `(i32, i32, i32, i32)`. */
  datatype Box = Box(x0: int, y0: int, x1: int, y1: int)

  predicate Contains(d: Box, x: int, y: int) {
    d.x0 <= x < d.x1 && d.y0 <= y < d.y1
  }

  predicate InGrid(m: seq<seq<LevelBlock>>, d: Box)
    requires IsGrid(m)
  {
    0 <= d.x0 && d.x1 <= |m| && 0 <= d.y0 && d.y1 <= |m[0]|
  }

  /** `is_wall_block`: every cell of the box is a wall that is not yet visited. */
  predicate IsWallBlock(m: seq<seq<LevelBlock>>, v: set<Cell>, d: Box)
    requires IsGrid(m) && InGrid(m, d)
  {
    forall x, y | d.x0 <= x < d.x1 && d.y0 <= y < d.y1 :: (x, y) !in v && m[x][y] == Wall
  }

  /** The left side cannot move out by one: it is at column 0, or the wider box is not a wall block. */
  predicate LeftStuck(m: seq<seq<LevelBlock>>, v: set<Cell>, d: Box)
    requires IsGrid(m) && InGrid(m, d)
  {
    d.x0 == 0 || !IsWallBlock(m, v, d.(x0 := d.x0 - 1))
  }

  /** The right side cannot move out by one: it is at the width, or the wider box is not a wall block. */
  predicate RightStuck(m: seq<seq<LevelBlock>>, v: set<Cell>, d: Box)
    requires IsGrid(m) && InGrid(m, d)
  {
    d.x1 == |m| || !IsWallBlock(m, v, d.(x1 := d.x1 + 1))
  }

  /** The top side cannot move out by one: it is at row 0, or the taller box is not a wall block. */
  predicate TopStuck(m: seq<seq<LevelBlock>>, v: set<Cell>, d: Box)
    requires IsGrid(m) && InGrid(m, d)
  {
    d.y0 == 0 || !IsWallBlock(m, v, d.(y0 := d.y0 - 1))
  }

  /** The bottom side cannot move out by one: it is at the height, or the taller box is not a wall block. */
  predicate BottomStuck(m: seq<seq<LevelBlock>>, v: set<Cell>, d: Box)
    requires IsGrid(m) && InGrid(m, d)
  {
    d.y1 == |m[0]| || !IsWallBlock(m, v, d.(y1 := d.y1 + 1))
  }

  /** No side of the box can move out by one and leave it a wall block. */
  predicate CannotGrow(m: seq<seq<LevelBlock>>, v: set<Cell>, d: Box)
    requires IsGrid(m) && InGrid(m, d)
  {
    LeftStuck(m, v, d) && RightStuck(m, v, d) && TopStuck(m, v, d) && BottomStuck(m, v, d)
  }

  /** The left-growth loop of `find_wall_block`: extend the left side while the grown box stays a wall block. */
  function GrowLeft(m: seq<seq<LevelBlock>>, v: set<Cell>, d: Box): (r: Box)
    requires IsGrid(m) && InGrid(m, d) && IsWallBlock(m, v, d)
    ensures InGrid(m, r) && IsWallBlock(m, v, r)
    ensures r.x0 <= d.x0 && r.y0 == d.y0 && r.x1 == d.x1 && r.y1 == d.y1
    ensures LeftStuck(m, v, r)
    decreases d.x0
  {
    if d.x0 - 1 >= 0 && IsWallBlock(m, v, d.(x0 := d.x0 - 1)) then
      GrowLeft(m, v, d.(x0 := d.x0 - 1))
    else
      d
  }

  /** The right-growth loop of `find_wall_block`: extend the right side, at most up to the width. */
  function GrowRight(m: seq<seq<LevelBlock>>, v: set<Cell>, d: Box): (r: Box)
    requires IsGrid(m) && InGrid(m, d) && IsWallBlock(m, v, d)
    ensures InGrid(m, r) && IsWallBlock(m, v, r)
    ensures r.x0 == d.x0 && r.y0 == d.y0 && d.x1 <= r.x1 && r.y1 == d.y1
    ensures RightStuck(m, v, r)
    decreases |m| - d.x1
  {
    if d.x1 + 1 <= |m| && IsWallBlock(m, v, d.(x1 := d.x1 + 1)) then
      GrowRight(m, v, d.(x1 := d.x1 + 1))
    else
      d
  }

  /** The top-growth loop of `find_wall_block`: extend the top side, at most down to row 0. */
  function GrowTop(m: seq<seq<LevelBlock>>, v: set<Cell>, d: Box): (r: Box)
    requires IsGrid(m) && InGrid(m, d) && IsWallBlock(m, v, d)
    ensures InGrid(m, r) && IsWallBlock(m, v, r)
    ensures r.x0 == d.x0 && r.y0 <= d.y0 && r.x1 == d.x1 && r.y1 == d.y1
    ensures TopStuck(m, v, r)
    decreases d.y0
  {
    if d.y0 - 1 >= 0 && IsWallBlock(m, v, d.(y0 := d.y0 - 1)) then
      GrowTop(m, v, d.(y0 := d.y0 - 1))
    else
      d
  }

  /** The bottom-growth loop of `find_wall_block`: extend the bottom side, at most up to the height. */
  function GrowBottom(m: seq<seq<LevelBlock>>, v: set<Cell>, d: Box): (r: Box)
    requires IsGrid(m) && InGrid(m, d) && IsWallBlock(m, v, d)
    ensures InGrid(m, r) && IsWallBlock(m, v, r)
    ensures r.x0 == d.x0 && r.y0 == d.y0 && r.x1 == d.x1 && d.y1 <= r.y1
    ensures BottomStuck(m, v, r)
    decreases |m[0]| - d.y1
  {
    if d.y1 + 1 <= |m[0]| && IsWallBlock(m, v, d.(y1 := d.y1 + 1)) then
      GrowBottom(m, v, d.(y1 := d.y1 + 1))
    else
      d
  }

  /** A box inside a wall block is a wall block. */
  lemma WallBlockShrinks(m: seq<seq<LevelBlock>>, v: set<Cell>, d: Box, e: Box)
    requires IsGrid(m) && InGrid(m, d)
    requires d.x0 <= e.x0 && e.x1 <= d.x1 && d.y0 <= e.y0 && e.y1 <= d.y1
    ensures IsWallBlock(m, v, d) ==> IsWallBlock(m, v, e)
  {
  }

  /**
   * Growing the right side keeps the left side stuck: moving the left side
   * out now would ask for a box containing the one refused before.
   */
  lemma GrowRightKeepsStops(m: seq<seq<LevelBlock>>, v: set<Cell>, d: Box)
    requires IsGrid(m) && InGrid(m, d) && IsWallBlock(m, v, d)
    requires LeftStuck(m, v, d)
    ensures var r := GrowRight(m, v, d); LeftStuck(m, v, r) && RightStuck(m, v, r)
  {
    var r := GrowRight(m, v, d);
    if r.x0 > 0 {
      WallBlockShrinks(m, v, r.(x0 := r.x0 - 1), d.(x0 := d.x0 - 1));
    }
  }

  /** Growing the top side keeps the left and right sides stuck. */
  lemma GrowTopKeepsStops(m: seq<seq<LevelBlock>>, v: set<Cell>, d: Box)
    requires IsGrid(m) && InGrid(m, d) && IsWallBlock(m, v, d)
    requires LeftStuck(m, v, d) && RightStuck(m, v, d)
    ensures var r := GrowTop(m, v, d); LeftStuck(m, v, r) && RightStuck(m, v, r) && TopStuck(m, v, r)
  {
    var r := GrowTop(m, v, d);
    if r.x0 > 0 {
      WallBlockShrinks(m, v, r.(x0 := r.x0 - 1), d.(x0 := d.x0 - 1));
    }
    if r.x1 < |m| {
      WallBlockShrinks(m, v, r.(x1 := r.x1 + 1), d.(x1 := d.x1 + 1));
    }
  }

  /** Growing the bottom side keeps the other three sides stuck. */
  lemma GrowBottomKeepsStops(m: seq<seq<LevelBlock>>, v: set<Cell>, d: Box)
    requires IsGrid(m) && InGrid(m, d) && IsWallBlock(m, v, d)
    requires LeftStuck(m, v, d) && RightStuck(m, v, d) && TopStuck(m, v, d)
    ensures CannotGrow(m, v, GrowBottom(m, v, d))
  {
    var r := GrowBottom(m, v, d);
    if r.x0 > 0 {
      WallBlockShrinks(m, v, r.(x0 := r.x0 - 1), d.(x0 := d.x0 - 1));
    }
    if r.x1 < |m| {
      WallBlockShrinks(m, v, r.(x1 := r.x1 + 1), d.(x1 := d.x1 + 1));
    }
    if r.y0 > 0 {
      WallBlockShrinks(m, v, r.(y0 := r.y0 - 1), d.(y0 := d.y0 - 1));
    }
  }

  /**
   * `find_wall_block` without its marking step: the box grown from the seed
   * cell (sx, sy), one side at a time in the order left, right, top, bottom.
   */
  function FindWallBlock(m: seq<seq<LevelBlock>>, v: set<Cell>, sx: int, sy: int): (r: Box)
    requires IsGrid(m) && InBounds(m, sx, sy)
    requires (sx, sy) !in v && m[sx][sy] == Wall
    ensures InGrid(m, r) && IsWallBlock(m, v, r)
    ensures Contains(r, sx, sy)
    ensures BottomStuck(m, v, r)
  {
    var seed := Box(sx, sy, sx + 1, sy + 1);
    GrowBottom(m, v, GrowTop(m, v, GrowRight(m, v, GrowLeft(m, v, seed))))
  }

  /**
   * The box `find_wall_block` returns is maximal: no side can move out by one
   * and leave it a block of unvisited walls, although only the bottom side
   * was grown last.
   */
  lemma FindWallBlockMaximal(m: seq<seq<LevelBlock>>, v: set<Cell>, sx: int, sy: int)
    requires IsGrid(m) && InBounds(m, sx, sy)
    requires (sx, sy) !in v && m[sx][sy] == Wall
    ensures CannotGrow(m, v, FindWallBlock(m, v, sx, sy))
  {
    var left := GrowLeft(m, v, Box(sx, sy, sx + 1, sy + 1));
    GrowRightKeepsStops(m, v, left);
    var right := GrowRight(m, v, left);
    GrowTopKeepsStops(m, v, right);
    var top := GrowTop(m, v, right);
    GrowBottomKeepsStops(m, v, top);
  }

  /** The marking loops at the end of `find_wall_block`: every cell of the finished box joins the visited set. */
  function Mark(v: set<Cell>, d: Box): (v': set<Cell>)
    ensures forall x, y :: (x, y) in v' <==> (x, y) in v || Contains(d, x, y)
  {
    v + set x, y | d.x0 <= x < d.x1 && d.y0 <= y < d.y1 :: (x, y)
  }

  /** A box the merger may emit: inside the grid, non-empty, made of walls only. */
  ghost predicate ValidBlock(m: seq<seq<LevelBlock>>, d: Box)
    requires IsGrid(m)
  {
    && InGrid(m, d)
    && d.x0 < d.x1 && d.y0 < d.y1
    && forall x, y :: Contains(d, x, y) ==> m[x][y] == Wall
  }

  /** Two boxes share no cell. */
  ghost predicate Disjoint(d: Box, e: Box) {
    forall x, y :: Contains(d, x, y) ==> !Contains(e, x, y)
  }

  /** Some box of r holds the cell (x, y). */
  ghost predicate Covered(r: seq<Box>, x: int, y: int) {
    exists i :: 0 <= i < |r| && Contains(r[i], x, y)
  }

  /** The wall cells of the grid, exactly. */
  function WallCells(m: seq<seq<LevelBlock>>): set<Cell>
    requires IsGrid(m)
  {
    set x, y | 0 <= x < |m| && 0 <= y < |m[0]| && m[x][y] == Wall :: (x, y)
  }

  /**
   * r partitions the wall cells: every box is valid, no two boxes overlap,
   * and every wall cell lies in some box.
   */
  ghost predicate Partition(m: seq<seq<LevelBlock>>, r: seq<Box>)
    requires IsGrid(m)
  {
    && (forall i :: 0 <= i < |r| ==> ValidBlock(m, r[i]))
    && (forall i, j :: 0 <= i < j < |r| ==> Disjoint(r[i], r[j]))
    && (forall x, y :: InBounds(m, x, y) && m[x][y] == Wall ==> Covered(r, x, y))
  }

  /**
   * What holds at the scan position (x, y): the boxes found so far are valid and
   * pairwise disjoint, the visited set is exactly their union, every wall cell
   * before (x, y) in scan order is visited, and there are no more boxes than
   * visited cells.
   */
  ghost predicate ScanInv(m: seq<seq<LevelBlock>>, x: int, y: int, v: set<Cell>, r: seq<Box>)
    requires IsGrid(m)
  {
    && (forall i :: 0 <= i < |r| ==> ValidBlock(m, r[i]))
    && (forall i, j :: 0 <= i < j < |r| ==> Disjoint(r[i], r[j]))
    && (forall a, b :: (a, b) in v <==> Covered(r, a, b))
    && (forall a, b :: InBounds(m, a, b) && (a < x || (a == x && b < y)) && m[a][b] == Wall ==> (a, b) in v)
    && |r| <= |v|
  }

  /** A visited set made only of wall cells is no larger than the set of wall cells. */
  lemma VisitedWithinWalls(m: seq<seq<LevelBlock>>, v: set<Cell>, r: seq<Box>)
    requires IsGrid(m)
    requires forall i :: 0 <= i < |r| ==> ValidBlock(m, r[i])
    requires forall a, b :: (a, b) in v <==> Covered(r, a, b)
    ensures v <= WallCells(m)
    ensures |v| <= |WallCells(m)|
  {
    forall c | c in v
      ensures c in WallCells(m)
    {
      var a, b := c.0, c.1;
      assert Covered(r, a, b);
      var i :| 0 <= i < |r| && Contains(r[i], a, b);
      assert ValidBlock(m, r[i]);
    }
    SubsetCard(v, WallCells(m));
  }

  lemma {:induction false} SubsetCard<T>(a: set<T>, b: set<T>)
    requires a <= b
    ensures |a| <= |b|
    decreases a
  {
    if a != {} {
      var e :| e in a;
      SubsetCard(a - {e}, b - {e});
    }
  }

  /** A box of unvisited cells shares no cell with any box whose cells are all visited. */
  lemma FreshBoxDisjoint(v: set<Cell>, r: seq<Box>, d: Box)
    requires forall a, b :: (a, b) in v <==> Covered(r, a, b)
    requires forall a, b :: Contains(d, a, b) ==> (a, b) !in v
    requires forall i, j :: 0 <= i < j < |r| ==> Disjoint(r[i], r[j])
    ensures forall i, j :: 0 <= i < j < |r + [d]| ==> Disjoint((r + [d])[i], (r + [d])[j])
  {
    forall i, a, b | 0 <= i < |r| && Contains(r[i], a, b)
      ensures !Contains(d, a, b)
    {
      assert Covered(r, a, b);
    }
  }

  /** Marking the cells of a new box keeps the visited set equal to the union of the boxes. */
  lemma MarkIsUnion(v: set<Cell>, r: seq<Box>, d: Box)
    requires forall a, b :: (a, b) in v <==> Covered(r, a, b)
    ensures forall a, b :: (a, b) in Mark(v, d) <==> Covered(r + [d], a, b)
  {
    var r' := r + [d];
    forall a, b
      ensures (a, b) in Mark(v, d) <==> Covered(r', a, b)
    {
      if Covered(r', a, b) {
        var i :| 0 <= i < |r'| && Contains(r'[i], a, b);
        if i < |r| {
          assert Contains(r[i], a, b);
        }
      }
      if (a, b) in v {
        var i :| 0 <= i < |r| && Contains(r[i], a, b);
        assert Contains(r'[i], a, b);
      }
      if Contains(d, a, b) {
        assert Contains(r'[|r|], a, b);
      }
    }
  }

  /** Marking a box around an unvisited cell adds at least one visited cell. */
  lemma MarkGrows(v: set<Cell>, d: Box, x: int, y: int)
    requires (x, y) !in v && Contains(d, x, y)
    ensures |Mark(v, d)| >= |v| + 1
  {
    assert v + {(x, y)} <= Mark(v, d);
    SubsetCard(v + {(x, y)}, Mark(v, d));
  }

  /**
   * One step of the scan at an unvisited wall cell keeps the scan invariant,
   * for any box of unvisited walls around that cell.
   */
  lemma ScanStep(m: seq<seq<LevelBlock>>, x: int, y: int, v: set<Cell>, r: seq<Box>, d: Box)
    requires IsGrid(m) && InBounds(m, x, y)
    requires InGrid(m, d) && IsWallBlock(m, v, d) && Contains(d, x, y)
    requires ScanInv(m, x, y, v, r)
    ensures ScanInv(m, x, y + 1, Mark(v, d), r + [d])
  {
    AppendValid(m, r, d);
    FreshBoxDisjoint(v, r, d);
    MarkIsUnion(v, r, d);
    MarkCovers(m, x, y, v, d);
    MarkGrows(v, d, x, y);
  }

  lemma AppendValid(m: seq<seq<LevelBlock>>, r: seq<Box>, d: Box)
    requires IsGrid(m) && InGrid(m, d) && d.x0 < d.x1 && d.y0 < d.y1
    requires forall a, b :: Contains(d, a, b) ==> m[a][b] == Wall
    requires forall i :: 0 <= i < |r| ==> ValidBlock(m, r[i])
    ensures forall i :: 0 <= i < |r + [d]| ==> ValidBlock(m, (r + [d])[i])
  {
  }

  lemma MarkCovers(m: seq<seq<LevelBlock>>, x: int, y: int, v: set<Cell>, d: Box)
    requires IsGrid(m) && Contains(d, x, y)
    requires forall a, b :: InBounds(m, a, b) && (a < x || (a == x && b < y)) && m[a][b] == Wall ==> (a, b) in v
    ensures forall a, b :: InBounds(m, a, b) && (a < x || (a == x && b < y + 1)) && m[a][b] == Wall ==> (a, b) in Mark(v, d)
  {
  }

  /** Once every column is scanned, the boxes found partition the wall cells. */
  lemma ScanDone(m: seq<seq<LevelBlock>>, y: int, v: set<Cell>, r: seq<Box>)
    requires IsGrid(m)
    requires ScanInv(m, |m|, y, v, r)
    ensures Partition(m, r)
    ensures |r| <= |WallCells(m)|
  {
    VisitedWithinWalls(m, v, r);
  }

  /** Passing a visited or non-wall cell keeps the scan invariant. */
  lemma ScanSkip(m: seq<seq<LevelBlock>>, x: int, y: int, v: set<Cell>, r: seq<Box>)
    requires IsGrid(m) && InBounds(m, x, y)
    requires (x, y) in v || m[x][y] != Wall
    requires ScanInv(m, x, y, v, r)
    ensures ScanInv(m, x, y + 1, v, r)
  {
  }

  /** Finishing a column keeps the scan invariant. */
  lemma ScanNextColumn(m: seq<seq<LevelBlock>>, x: int, v: set<Cell>, r: seq<Box>)
    requires IsGrid(m) && 0 <= x < |m|
    requires ScanInv(m, x, |m[0]|, v, r)
    ensures ScanInv(m, x + 1, 0, v, r)
  {
  }

  /**
   * The nested scan loops of `find_wall_blocks`, from scan position (x, y) on: each
   * unvisited wall cell seeds one box, which is then marked visited.
   */
  function ScanFrom(m: seq<seq<LevelBlock>>, x: int, y: int, v: set<Cell>, r: seq<Box>): (out: seq<Box>)
    requires IsGrid(m) && 0 <= x <= |m| && 0 <= y <= |m[0]|
    decreases |m| - x, |m[0]| - y
  {
    if x == |m| then
      r
    else if y == |m[0]| then
      ScanFrom(m, x + 1, 0, v, r)
    else if (x, y) !in v && m[x][y] == Wall then
      var d := FindWallBlock(m, v, x, y);
      ScanFrom(m, x, y + 1, Mark(v, d), r + [d])
    else
      ScanFrom(m, x, y + 1, v, r)
  }

  /** From any scan position where the invariant holds, the scan ends in a partition. */
  lemma {:induction false} ScanPartitions(m: seq<seq<LevelBlock>>, x: int, y: int, v: set<Cell>, r: seq<Box>)
    requires IsGrid(m) && 0 <= x <= |m| && 0 <= y <= |m[0]|
    requires ScanInv(m, x, y, v, r)
    ensures Partition(m, ScanFrom(m, x, y, v, r))
    ensures |ScanFrom(m, x, y, v, r)| <= |WallCells(m)|
    decreases |m| - x, |m[0]| - y
  {
    if x == |m| {
      ScanDone(m, y, v, r);
    } else if y == |m[0]| {
      ScanNextColumn(m, x, v, r);
      ScanPartitions(m, x + 1, 0, v, r);
    } else if (x, y) !in v && m[x][y] == Wall {
      var d := FindWallBlock(m, v, x, y);
      ScanStep(m, x, y, v, r, d);
      ScanPartitions(m, x, y + 1, Mark(v, d), r + [d]);
    } else {
      ScanSkip(m, x, y, v, r);
      ScanPartitions(m, x, y + 1, v, r);
    }
  }

  /**
   * `find_wall_blocks`: the boxes partition the wall cells exactly, and there
   * are never more boxes than wall cells.
   */
  function FindWallBlocks(m: seq<seq<LevelBlock>>): (r: seq<Box>)
    requires IsGrid(m)
    ensures Partition(m, r)
    ensures |r| <= |WallCells(m)|
  {
    ScanPartitions(m, 0, 0, {}, []);
    ScanFrom(m, 0, 0, {}, [])
  }

  /** Once every wall cell from (x, y) on is visited, the scan adds no more boxes. */
  lemma {:induction false} ScanRest(m: seq<seq<LevelBlock>>, x: int, y: int, v: set<Cell>, r: seq<Box>)
    requires IsGrid(m) && 0 <= x <= |m| && 0 <= y <= |m[0]|
    requires forall a, b :: InBounds(m, a, b) && (a > x || (a == x && b >= y)) && m[a][b] == Wall ==> (a, b) in v
    ensures ScanFrom(m, x, y, v, r) == r
    decreases |m| - x, |m[0]| - y
  {
    if x == |m| {
    } else if y == |m[0]| {
      ScanRest(m, x + 1, 0, v, r);
    } else {
      ScanRest(m, x, y + 1, v, r);
    }
  }

  /** A level without walls has no wall boxes. */
  lemma NoWallsNoBlocks(m: seq<seq<LevelBlock>>)
    requires IsGrid(m)
    requires forall x, y :: InBounds(m, x, y) ==> m[x][y] != Wall
    ensures FindWallBlocks(m) == []
  {
    ScanRest(m, 0, 0, {}, []);
  }

  /** A level made only of walls merges into the single box covering it. */
  lemma AllWallsOneBlock(m: seq<seq<LevelBlock>>)
    requires IsGrid(m) && |m[0]| > 0
    requires forall x, y :: InBounds(m, x, y) ==> m[x][y] == Wall
    ensures FindWallBlocks(m) == [Box(0, 0, |m|, |m[0]|)]
  {
    var whole := Box(0, 0, |m|, |m[0]|);
    var seed := Box(0, 0, 1, 1);
    var a := GrowLeft(m, {}, seed);
    var b := GrowRight(m, {}, a);
    assert b.x1 == |m|;
    var c := GrowTop(m, {}, b);
    var d := GrowBottom(m, {}, c);
    assert d.y1 == |m[0]|;
    assert FindWallBlock(m, {}, 0, 0) == whole;
    assert ScanFrom(m, 0, 0, {}, []) == ScanFrom(m, 0, 1, Mark({}, whole), [] + [whole]);
    ScanRest(m, 0, 1, Mark({}, whole), [] + [whole]);
    assert [] + [whole] == [whole];
  }
}
