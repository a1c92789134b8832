module LevelCollisionTests {
  import opened Blocks
  import opened LevelCollision
  /** The level of `test_case1`, column-major. */
  const Case1: seq<seq<LevelBlock>> := [[Wall, Free, Free, Free], [Free, Wall, Wall, Wall], [Free, Wall, Wall, Free], [Free, Wall, Free, Free]]

  lemma Case1Grid(m: seq<seq<LevelBlock>>)
    requires m == Case1
    ensures IsGrid(m) && |m| == 4 && |m[0]| == 4
  {
    forall x | 0 <= x < |m| ensures |m[x]| == |m[0]| {
      assert x == 0 || x == 1 || x == 2 || x == 3;
    }
  }

  lemma ScanPast(m: seq<seq<LevelBlock>>, x: int, y: int, v: set<Cell>, r: seq<Box>)
    requires IsGrid(m) && InBounds(m, x, y) && ((x, y) in v || m[x][y] != Wall)
    ensures ScanFrom(m, x, y, v, r) == ScanFrom(m, x, y + 1, v, r)
  {
  }

  lemma ScanAt(m: seq<seq<LevelBlock>>, x: int, y: int, v: set<Cell>, r: seq<Box>, d: Box)
    requires IsGrid(m) && InBounds(m, x, y) && (x, y) !in v && m[x][y] == Wall
    requires FindWallBlock(m, v, x, y) == d
    ensures ScanFrom(m, x, y, v, r) == ScanFrom(m, x, y + 1, Mark(v, d), r + [d])
  {
  }

  lemma ScanNext(m: seq<seq<LevelBlock>>, x: int, v: set<Cell>, r: seq<Box>)
    requires IsGrid(m) && 0 <= x < |m|
    ensures ScanFrom(m, x, |m[0]|, v, r) == ScanFrom(m, x + 1, 0, v, r)
  {
  }

  lemma Block1(m: seq<seq<LevelBlock>>, v: set<Cell>)
    requires m == Case1 && v == {}
    ensures IsGrid(m) && FindWallBlock(m, v, 0, 0) == Box(0, 0, 1, 1)
  {
    Case1Grid(m);
    assert m[1][0] == Free && m[0][1] == Free;
  }

  lemma Block2(m: seq<seq<LevelBlock>>, v: set<Cell>)
    requires m == Case1 && v == Mark({}, Box(0, 0, 1, 1))
    ensures IsGrid(m) && (1, 1) !in v && FindWallBlock(m, v, 1, 1) == Box(1, 1, 4, 2)
  {
    Case1Grid(m);
    assert m[0][1] == Free && m[1][0] == Free && m[3][2] == Free;
    assert IsWallBlock(m, v, Box(1, 1, 3, 2)) by {
      forall x, y | 1 <= x < 3 && 1 <= y < 2 ensures (x, y) !in v && m[x][y] == Wall {
        assert x == 1 || x == 2;
      }
    }
    assert IsWallBlock(m, v, Box(1, 1, 4, 2)) by {
      forall x, y | 1 <= x < 4 && 1 <= y < 2 ensures (x, y) !in v && m[x][y] == Wall {
        assert x == 1 || x == 2 || x == 3;
      }
    }
  }

  lemma Block3(m: seq<seq<LevelBlock>>, v: set<Cell>)
    requires m == Case1 && v == Mark(Mark({}, Box(0, 0, 1, 1)), Box(1, 1, 4, 2))
    ensures IsGrid(m) && (1, 2) !in v && FindWallBlock(m, v, 1, 2) == Box(1, 2, 3, 3)
  {
    Case1Grid(m);
    assert m[0][2] == Free && m[3][2] == Free && m[2][3] == Free && (1, 1) in v;
    assert IsWallBlock(m, v, Box(1, 2, 3, 3)) by {
      forall x, y | 1 <= x < 3 && 2 <= y < 3 ensures (x, y) !in v && m[x][y] == Wall {
        assert x == 1 || x == 2;
      }
    }
  }

  lemma Block4(m: seq<seq<LevelBlock>>, v: set<Cell>)
    requires m == Case1 && v == Mark(Mark(Mark({}, Box(0, 0, 1, 1)), Box(1, 1, 4, 2)), Box(1, 2, 3, 3))
    ensures IsGrid(m) && (1, 3) !in v && FindWallBlock(m, v, 1, 3) == Box(1, 3, 2, 4)
  {
    Case1Grid(m);
    assert m[0][3] == Free && m[2][3] == Free && (1, 2) in v;
  }

  lemma Case1Col0(m: seq<seq<LevelBlock>>, v0: set<Cell>, r0: seq<Box>)
    requires m == Case1 && v0 == {}
    ensures IsGrid(m) && ScanFrom(m, 0, 0, v0, r0) == ScanFrom(m, 1, 1, Mark(v0, Box(0, 0, 1, 1)), r0 + [Box(0, 0, 1, 1)])
  {
    Block1(m, v0);
    var d1 := Box(0, 0, 1, 1);
    var v1, r1 := Mark(v0, d1), r0 + [d1];
    ScanAt(m, 0, 0, v0, r0, d1);
    ScanPast(m, 0, 1, v1, r1);
    ScanPast(m, 0, 2, v1, r1);
    ScanPast(m, 0, 3, v1, r1);
    ScanNext(m, 0, v1, r1);
    ScanPast(m, 1, 0, v1, r1);
  }

  lemma Case1Col1(m: seq<seq<LevelBlock>>, v1: set<Cell>, r1: seq<Box>)
    requires m == Case1 && v1 == Mark({}, Box(0, 0, 1, 1))
    ensures IsGrid(m)
    ensures ScanFrom(m, 1, 1, v1, r1)
         == ScanFrom(m, 2, 0, Mark(Mark(Mark(v1, Box(1, 1, 4, 2)), Box(1, 2, 3, 3)), Box(1, 3, 2, 4)),
                     r1 + [Box(1, 1, 4, 2)] + [Box(1, 2, 3, 3)] + [Box(1, 3, 2, 4)])
  {
    var d2, d3, d4 := Box(1, 1, 4, 2), Box(1, 2, 3, 3), Box(1, 3, 2, 4);
    var v2, r2 := Mark(v1, d2), r1 + [d2];
    var v3, r3 := Mark(v2, d3), r2 + [d3];
    var v4, r4 := Mark(v3, d4), r3 + [d4];
    Block2(m, v1);
    Block3(m, v2);
    Block4(m, v3);
    ScanAt(m, 1, 1, v1, r1, d2);
    ScanAt(m, 1, 2, v2, r2, d3);
    ScanAt(m, 1, 3, v3, r3, d4);
    ScanNext(m, 1, v4, r4);
  }

  lemma Case1Col23(m: seq<seq<LevelBlock>>, v4: set<Cell>, r4: seq<Box>)
    requires m == Case1
    requires v4 == Mark(Mark(Mark(Mark({}, Box(0, 0, 1, 1)), Box(1, 1, 4, 2)), Box(1, 2, 3, 3)), Box(1, 3, 2, 4))
    ensures IsGrid(m) && ScanFrom(m, 2, 0, v4, r4) == r4
  {
    Case1Grid(m);
    assert (2, 1) in v4 && (2, 2) in v4 && (3, 1) in v4;
    ScanPast(m, 2, 0, v4, r4);
    ScanPast(m, 2, 1, v4, r4);
    ScanPast(m, 2, 2, v4, r4);
    ScanPast(m, 2, 3, v4, r4);
    ScanNext(m, 2, v4, r4);
    ScanPast(m, 3, 0, v4, r4);
    ScanPast(m, 3, 1, v4, r4);
    ScanPast(m, 3, 2, v4, r4);
    ScanPast(m, 3, 3, v4, r4);
    ScanNext(m, 3, v4, r4);
  }

  lemma AppendFour(r0: seq<Box>, d1: Box, d2: Box, d3: Box, d4: Box)
    requires r0 == []
    ensures r0 + [d1] + [d2] + [d3] + [d4] == [d1, d2, d3, d4]
  {
  }

  lemma Case1Blocks(m: seq<seq<LevelBlock>>, v0: set<Cell>, r0: seq<Box>)
    requires m == Case1 && v0 == {} && r0 == []
    ensures IsGrid(m) && ScanFrom(m, 0, 0, v0, r0) == [Box(0, 0, 1, 1), Box(1, 1, 4, 2), Box(1, 2, 3, 3), Box(1, 3, 2, 4)]
  {
    var d1, d2, d3, d4 := Box(0, 0, 1, 1), Box(1, 1, 4, 2), Box(1, 2, 3, 3), Box(1, 3, 2, 4);
    var v1 := Mark(v0, d1);
    var v4 := Mark(Mark(Mark(v1, d2), d3), d4);
    Case1Col0(m, v0, r0);
    Case1Col1(m, v1, r0 + [d1]);
    Case1Col23(m, v4, r0 + [d1] + [d2] + [d3] + [d4]);
    AppendFour(r0, d1, d2, d3, d4);
  }

  /** `test_case1`: the expected four boxes, in scan order. */
  lemma TestCase1(m: seq<seq<LevelBlock>>)
    requires m == Case1
    ensures IsGrid(m) && FindWallBlocks(m) == [Box(0, 0, 1, 1), Box(1, 1, 4, 2), Box(1, 2, 3, 3), Box(1, 3, 2, 4)]
  {
    Case1Blocks(m, {}, []);
  }

  /** The level of `test_case2`, column-major. */
  const Case2: seq<seq<LevelBlock>> := [[Free, Wall, Free, Free], [Wall, Wall, Wall, Wall], [Wall, Wall, Wall, Wall], [Free, Free, Free, Wall]]

  lemma Case2Grid(m: seq<seq<LevelBlock>>)
    requires m == Case2
    ensures IsGrid(m) && |m| == 4 && |m[0]| == 4
  {
    forall x | 0 <= x < |m| ensures |m[x]| == |m[0]| {
      assert x == 0 || x == 1 || x == 2 || x == 3;
    }
  }

  lemma Block21(m: seq<seq<LevelBlock>>, v: set<Cell>)
    requires m == Case2 && v == {}
    ensures IsGrid(m) && FindWallBlock(m, v, 0, 1) == Box(0, 1, 3, 2)
  {
    Case2Grid(m);
    assert m[0][0] == Free && m[0][2] == Free && m[3][1] == Free;
    assert IsWallBlock(m, v, Box(0, 1, 2, 2)) by {
      forall x, y | 0 <= x < 2 && 1 <= y < 2 ensures (x, y) !in v && m[x][y] == Wall {
        assert x == 0 || x == 1;
      }
    }
    assert IsWallBlock(m, v, Box(0, 1, 3, 2)) by {
      forall x, y | 0 <= x < 3 && 1 <= y < 2 ensures (x, y) !in v && m[x][y] == Wall {
        assert x == 0 || x == 1 || x == 2;
      }
    }
  }

  lemma Block22(m: seq<seq<LevelBlock>>, v: set<Cell>)
    requires m == Case2 && v == Mark({}, Box(0, 1, 3, 2))
    ensures IsGrid(m) && (1, 0) !in v && FindWallBlock(m, v, 1, 0) == Box(1, 0, 3, 1)
  {
    Case2Grid(m);
    assert m[0][0] == Free && m[3][0] == Free && (1, 1) in v;
    assert IsWallBlock(m, v, Box(1, 0, 3, 1)) by {
      forall x, y | 1 <= x < 3 && 0 <= y < 1 ensures (x, y) !in v && m[x][y] == Wall {
        assert x == 1 || x == 2;
      }
    }
  }

  lemma Block23(m: seq<seq<LevelBlock>>, v: set<Cell>)
    requires m == Case2 && v == Mark(Mark({}, Box(0, 1, 3, 2)), Box(1, 0, 3, 1))
    ensures IsGrid(m) && (1, 2) !in v && FindWallBlock(m, v, 1, 2) == Box(1, 2, 3, 4)
  {
    Case2Grid(m);
    assert m[0][2] == Free && m[3][2] == Free && (1, 1) in v;
    assert IsWallBlock(m, v, Box(1, 2, 3, 3)) by {
      forall x, y | 1 <= x < 3 && 2 <= y < 3 ensures (x, y) !in v && m[x][y] == Wall {
        assert x == 1 || x == 2;
      }
    }
    assert IsWallBlock(m, v, Box(1, 2, 3, 4)) by {
      forall x, y | 1 <= x < 3 && 2 <= y < 4 ensures (x, y) !in v && m[x][y] == Wall {
        assert x == 1 || x == 2;
        assert y == 2 || y == 3;
      }
    }
  }

  lemma Block24(m: seq<seq<LevelBlock>>, v: set<Cell>)
    requires m == Case2 && v == Mark(Mark(Mark({}, Box(0, 1, 3, 2)), Box(1, 0, 3, 1)), Box(1, 2, 3, 4))
    ensures IsGrid(m) && (3, 3) !in v && FindWallBlock(m, v, 3, 3) == Box(3, 3, 4, 4)
  {
    Case2Grid(m);
    assert m[3][2] == Free && (2, 3) in v;
  }

  lemma Case2Col0(m: seq<seq<LevelBlock>>, v0: set<Cell>, r0: seq<Box>)
    requires m == Case2 && v0 == {}
    ensures IsGrid(m) && ScanFrom(m, 0, 0, v0, r0) == ScanFrom(m, 1, 0, Mark(v0, Box(0, 1, 3, 2)), r0 + [Box(0, 1, 3, 2)])
  {
    Block21(m, v0);
    var d1 := Box(0, 1, 3, 2);
    var v1, r1 := Mark(v0, d1), r0 + [d1];
    ScanPast(m, 0, 0, v0, r0);
    ScanAt(m, 0, 1, v0, r0, d1);
    ScanPast(m, 0, 2, v1, r1);
    ScanPast(m, 0, 3, v1, r1);
    ScanNext(m, 0, v1, r1);
  }

  lemma Case2Col1(m: seq<seq<LevelBlock>>, v1: set<Cell>, r1: seq<Box>)
    requires m == Case2 && v1 == Mark({}, Box(0, 1, 3, 2))
    ensures IsGrid(m)
    ensures ScanFrom(m, 1, 0, v1, r1)
         == ScanFrom(m, 2, 0, Mark(Mark(v1, Box(1, 0, 3, 1)), Box(1, 2, 3, 4)), r1 + [Box(1, 0, 3, 1)] + [Box(1, 2, 3, 4)])
  {
    var d2, d3 := Box(1, 0, 3, 1), Box(1, 2, 3, 4);
    var v2, r2 := Mark(v1, d2), r1 + [d2];
    var v3, r3 := Mark(v2, d3), r2 + [d3];
    Block22(m, v1);
    Block23(m, v2);
    assert (1, 1) in v2 && (1, 3) in v3;
    ScanAt(m, 1, 0, v1, r1, d2);
    ScanPast(m, 1, 1, v2, r2);
    ScanAt(m, 1, 2, v2, r2, d3);
    ScanPast(m, 1, 3, v3, r3);
    ScanNext(m, 1, v3, r3);
  }

  lemma Case2Col23(m: seq<seq<LevelBlock>>, v3: set<Cell>, r3: seq<Box>)
    requires m == Case2 && v3 == Mark(Mark(Mark({}, Box(0, 1, 3, 2)), Box(1, 0, 3, 1)), Box(1, 2, 3, 4))
    ensures IsGrid(m) && ScanFrom(m, 2, 0, v3, r3) == r3 + [Box(3, 3, 4, 4)]
  {
    var d4 := Box(3, 3, 4, 4);
    Block24(m, v3);
    assert (2, 0) in v3 && (2, 1) in v3 && (2, 2) in v3 && (2, 3) in v3;
    ScanPast(m, 2, 0, v3, r3);
    ScanPast(m, 2, 1, v3, r3);
    ScanPast(m, 2, 2, v3, r3);
    ScanPast(m, 2, 3, v3, r3);
    ScanNext(m, 2, v3, r3);
    ScanPast(m, 3, 0, v3, r3);
    ScanPast(m, 3, 1, v3, r3);
    ScanPast(m, 3, 2, v3, r3);
    ScanAt(m, 3, 3, v3, r3, d4);
    ScanNext(m, 3, Mark(v3, d4), r3 + [d4]);
  }

  /** `test_case2`: the expected four boxes, in scan order. */
  lemma TestCase2(m: seq<seq<LevelBlock>>)
    requires m == Case2
    ensures IsGrid(m) && FindWallBlocks(m) == [Box(0, 1, 3, 2), Box(1, 0, 3, 1), Box(1, 2, 3, 4), Box(3, 3, 4, 4)]
  {
    var r0: seq<Box> := [];
    var d1, d2, d3, d4 := Box(0, 1, 3, 2), Box(1, 0, 3, 1), Box(1, 2, 3, 4), Box(3, 3, 4, 4);
    var v1 := Mark({}, d1);
    Case2Col0(m, {}, r0);
    Case2Col1(m, v1, r0 + [d1]);
    Case2Col23(m, Mark(Mark(v1, d2), d3), r0 + [d1] + [d2] + [d3]);
    AppendFour(r0, d1, d2, d3, d4);
  }

  /** The level of `test_case3`: four by four walls. */
  const Case3: seq<seq<LevelBlock>> := [[Wall, Wall, Wall, Wall], [Wall, Wall, Wall, Wall], [Wall, Wall, Wall, Wall], [Wall, Wall, Wall, Wall]]

  /** `test_case3`: one box covering the whole level. */
  lemma TestCase3(m: seq<seq<LevelBlock>>)
    requires m == Case3
    ensures IsGrid(m) && FindWallBlocks(m) == [Box(0, 0, 4, 4)]
  {
    forall x | 0 <= x < |m| ensures |m[x]| == |m[0]| && forall y :: 0 <= y < |m[x]| ==> m[x][y] == Wall {
      assert x == 0 || x == 1 || x == 2 || x == 3;
    }
    AllWallsOneBlock(m);
  }
}
