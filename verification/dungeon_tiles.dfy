/**
 * The three-pass autotiler of `dungeon_tiles.rs`: pass 0 classifies every
 * level cell by its eight neighbours, pass 1 replaces generic tiles by a
 * position-dependent variant, pass 2 decorates floor tiles that border walls.
 */
module DungeonTiles {
  import opened Blocks
  import opened Options
  import opened Patterns

  datatype Tile =
    | TopLeftCorner | TopRightCorner | BottomRightCorner | BottomLeftCorner
    | WallTop | WallTop0 | WallTop1 | WallTop2 | WallTop3
    | WallBottom | WallBottom0 | WallBottom1 | WallBottom2 | WallBottom3
    | WallLeft | WallLeft0 | WallLeft1 | WallLeft2
    | WallRight | WallRight0 | WallRight1 | WallRight2
    | TopLeftCornerOuter | TopRightCornerOuter
    | WallTopOuter | WallTopOuter0 | WallTopOuter1
    | Flat
    | Flat0 | Flat1 | Flat2 | Flat3 | Flat4 | Flat5 | Flat6 | Flat7 | Flat8 | Flat9 | Flat10 | Flat11
    | Flat0Wall | Flat1Wall | Flat2Wall | Flat3Wall | Flat4Wall
    | Flat7Wall | Flat8Wall | Flat9Wall | Flat10Wall | Flat11Wall
    | Void

  // ---------------------------------------------------------------------
  // Lookup tables (`FLAT_TILE_LOOKUP` through `WALL_RIGHT_TILE_LOOKUP`)
  // ---------------------------------------------------------------------

  const FlatTiles: seq<Tile> := [Flat0, Flat1, Flat2, Flat3, Flat4, Flat5, Flat6, Flat7, Flat8, Flat9, Flat10, Flat11]
  /** Decorated floor; the 1x1 and 2x1 slots repeat the plain Flat5 and Flat6. */
  const FlatWallTiles: seq<Tile> :=
    [Flat0Wall, Flat1Wall, Flat2Wall, Flat3Wall, Flat4Wall, Flat5, Flat6, Flat7Wall, Flat8Wall, Flat9Wall, Flat10Wall, Flat11Wall]
  const WallTopTiles: seq<Tile> := [WallTop0, WallTop1, WallTop2, WallTop3]
  const WallBottomTiles: seq<Tile> := [WallBottom0, WallBottom1, WallBottom2, WallBottom3]
  const WallLeftTiles: seq<Tile> := [WallLeft0, WallLeft1, WallLeft2]
  const WallRightTiles: seq<Tile> := [WallRight0, WallRight1, WallRight2]

  /** `flat`: a concrete floor tile, plain or decorated. The generic `Flat` is not one. */
  predicate IsFlat(t: Tile) {
    match t
    case Flat0 | Flat1 | Flat2 | Flat3 | Flat4 | Flat5 | Flat6 | Flat7 | Flat8 | Flat9 | Flat10 | Flat11 => true
    case Flat0Wall | Flat1Wall | Flat2Wall | Flat3Wall | Flat4Wall => true
    case Flat7Wall | Flat8Wall | Flat9Wall | Flat10Wall | Flat11Wall => true
    case _ => false
  }

  /** Every entry of the plain floor table is `flat`. */
  lemma FlatTilesAreFlat()
    ensures forall i :: 0 <= i < 12 ==> IsFlat(FlatTiles[i])
  {
    forall i | 0 <= i < 12 ensures IsFlat(FlatTiles[i]) {
      if i < 6 {
        assert i == 0 || i == 1 || i == 2 || i == 3 || i == 4 || i == 5;
      } else {
        assert i == 6 || i == 7 || i == 8 || i == 9 || i == 10 || i == 11;
      }
    }
  }

  /** Every entry of the decorated floor table is `flat`. */
  lemma FlatWallTilesAreFlat()
    ensures forall i :: 0 <= i < 12 ==> IsFlat(FlatWallTiles[i])
  {
    forall i | 0 <= i < 12 ensures IsFlat(FlatWallTiles[i]) {
      if i < 6 {
        assert i == 0 || i == 1 || i == 2 || i == 3 || i == 4 || i == 5;
      } else {
        assert i == 6 || i == 7 || i == 8 || i == 9 || i == 10 || i == 11;
      }
    }
  }

  /** `flat` is membership in one of the two floor lookup tables (`DungeonTile::flat`). */
  lemma IsFlatIsTableMembership(t: Tile)
    ensures IsFlat(t) <==> t in FlatTiles || t in FlatWallTiles
  {
    FlatTilesAreFlat();
    FlatWallTilesAreFlat();
    if IsFlat(t) {
      if t.Flat0? || t.Flat1? || t.Flat2? || t.Flat3? || t.Flat4? || t.Flat5? {
        assert t == FlatTiles[0] || t == FlatTiles[1] || t == FlatTiles[2] || t == FlatTiles[3] || t == FlatTiles[4] || t == FlatTiles[5];
      } else if t.Flat6? || t.Flat7? || t.Flat8? || t.Flat9? || t.Flat10? || t.Flat11? {
        assert t == FlatTiles[6] || t == FlatTiles[7] || t == FlatTiles[8] || t == FlatTiles[9] || t == FlatTiles[10] || t == FlatTiles[11];
      } else if t.Flat0Wall? || t.Flat1Wall? || t.Flat2Wall? || t.Flat3Wall? || t.Flat4Wall? {
        assert t == FlatWallTiles[0] || t == FlatWallTiles[1] || t == FlatWallTiles[2] || t == FlatWallTiles[3] || t == FlatWallTiles[4];
      } else {
        assert t == FlatWallTiles[7] || t == FlatWallTiles[8] || t == FlatWallTiles[9] || t == FlatWallTiles[10] || t == FlatWallTiles[11];
      }
    }
  }

  /** The tiles pass 0 produces and pass 1 resolves into variants. */
  predicate IsGeneric(t: Tile) {
    t == Flat || t == WallTop || t == WallBottom || t == WallLeft || t == WallRight || t == WallTopOuter
  }

  /** The generic tile a variant belongs to; every other tile is its own family. */
  function Family(t: Tile): Tile {
    match t
    case WallTop0 | WallTop1 | WallTop2 | WallTop3 => WallTop
    case WallBottom0 | WallBottom1 | WallBottom2 | WallBottom3 => WallBottom
    case WallLeft0 | WallLeft1 | WallLeft2 => WallLeft
    case WallRight0 | WallRight1 | WallRight2 => WallRight
    case WallTopOuter0 | WallTopOuter1 => WallTopOuter
    case Flat0 | Flat1 | Flat2 | Flat3 | Flat4 | Flat5 | Flat6 | Flat7 | Flat8 | Flat9 | Flat10 | Flat11 => Flat
    case _ => t
  }

  /** Variant 0 of a generic tile's family. */
  function Variant0(t: Tile): Tile
    requires IsGeneric(t)
  {
    match t
    case WallTop => WallTopTiles[0]
    case WallBottom => WallBottomTiles[0]
    case WallLeft => WallLeftTiles[0]
    case WallRight => WallRightTiles[0]
    case Flat => FlatTiles[0]
    case _ => WallTopOuter0
  }

  // ---------------------------------------------------------------------
  // Texture atlas (`get_tex_pos`)
  // ---------------------------------------------------------------------

  /** `get_tex_pos`: the (column, row) of a tile in the texture atlas. */
  function TexPos(t: Tile): (p: (nat, nat))
    ensures p.0 <= 9 && p.1 <= 7
  {
    match t
    case TopLeftCorner => (0, 0)
    case TopRightCorner => (5, 0)
    case BottomRightCorner => (5, 4)
    case BottomLeftCorner => (0, 4)
    case WallTop => (1, 0)
    case WallTop0 => (1, 0)
    case WallTop1 => (2, 0)
    case WallTop2 => (3, 0)
    case WallTop3 => (4, 0)
    case WallBottom => (1, 4)
    case WallBottom0 => (1, 4)
    case WallBottom1 => (2, 4)
    case WallBottom2 => (3, 4)
    case WallBottom3 => (4, 4)
    case WallLeft => (0, 1)
    case WallLeft0 => (0, 1)
    case WallLeft1 => (0, 2)
    case WallLeft2 => (0, 3)
    case WallRight => (5, 1)
    case WallRight0 => (5, 1)
    case WallRight1 => (5, 2)
    case WallRight2 => (5, 3)
    case TopLeftCornerOuter => (0, 5)
    case TopRightCornerOuter => (3, 5)
    case WallTopOuter => (0, 5)
    case WallTopOuter0 => (1, 5)
    case WallTopOuter1 => (2, 5)
    case Flat => (6, 0)
    case Flat0 => (6, 0)
    case Flat1 => (7, 0)
    case Flat2 => (8, 0)
    case Flat3 => (9, 0)
    case Flat4 => (6, 1)
    case Flat5 => (7, 1)
    case Flat6 => (8, 1)
    case Flat7 => (9, 1)
    case Flat8 => (6, 2)
    case Flat9 => (7, 2)
    case Flat10 => (8, 2)
    case Flat11 => (9, 2)
    case Flat0Wall => (1, 1)
    case Flat1Wall => (2, 1)
    case Flat2Wall => (3, 1)
    case Flat3Wall => (4, 1)
    case Flat4Wall => (1, 2)
    case Flat7Wall => (4, 2)
    case Flat8Wall => (1, 3)
    case Flat9Wall => (2, 3)
    case Flat10Wall => (3, 3)
    case Flat11Wall => (4, 3)
    case Void => (8, 7)
  }

  /**
   * Reading the atlas back: the one non-generic tile drawn at a position.
   * Written independently of `TexPos`, cell by cell of the atlas image.
   */
  function AtlasTile(p: (nat, nat)): Option<Tile> {
    match p
    case (0, 0) => Some(TopLeftCorner)
    case (1, 0) => Some(WallTop0)
    case (2, 0) => Some(WallTop1)
    case (3, 0) => Some(WallTop2)
    case (4, 0) => Some(WallTop3)
    case (5, 0) => Some(TopRightCorner)
    case (6, 0) => Some(Flat0)
    case (7, 0) => Some(Flat1)
    case (8, 0) => Some(Flat2)
    case (9, 0) => Some(Flat3)
    case (0, 1) => Some(WallLeft0)
    case (1, 1) => Some(Flat0Wall)
    case (2, 1) => Some(Flat1Wall)
    case (3, 1) => Some(Flat2Wall)
    case (4, 1) => Some(Flat3Wall)
    case (5, 1) => Some(WallRight0)
    case (6, 1) => Some(Flat4)
    case (7, 1) => Some(Flat5)
    case (8, 1) => Some(Flat6)
    case (9, 1) => Some(Flat7)
    case (0, 2) => Some(WallLeft1)
    case (1, 2) => Some(Flat4Wall)
    case (4, 2) => Some(Flat7Wall)
    case (5, 2) => Some(WallRight1)
    case (6, 2) => Some(Flat8)
    case (7, 2) => Some(Flat9)
    case (8, 2) => Some(Flat10)
    case (9, 2) => Some(Flat11)
    case (0, 3) => Some(WallLeft2)
    case (1, 3) => Some(Flat8Wall)
    case (2, 3) => Some(Flat9Wall)
    case (3, 3) => Some(Flat10Wall)
    case (4, 3) => Some(Flat11Wall)
    case (5, 3) => Some(WallRight2)
    case (0, 4) => Some(BottomLeftCorner)
    case (1, 4) => Some(WallBottom0)
    case (2, 4) => Some(WallBottom1)
    case (3, 4) => Some(WallBottom2)
    case (4, 4) => Some(WallBottom3)
    case (5, 4) => Some(BottomRightCorner)
    case (0, 5) => Some(TopLeftCornerOuter)
    case (1, 5) => Some(WallTopOuter0)
    case (2, 5) => Some(WallTopOuter1)
    case (3, 5) => Some(TopRightCornerOuter)
    case (8, 7) => Some(Tile.Void)
    case _ => None
  }

  /** Atlas row 0, columns 0-4. */
  predicate InAtlasRow0West(t: Tile) {
    t.TopLeftCorner? || t.WallTop0? || t.WallTop1? || t.WallTop2? || t.WallTop3?
  }

  lemma AtlasRoundTripRow0West(t: Tile)
    requires InAtlasRow0West(t)
    ensures AtlasTile(TexPos(t)) == Some(t)
  {
  }

  /** Atlas row 0, columns 5-9. */
  predicate InAtlasRow0East(t: Tile) {
    t.TopRightCorner? || t.Flat0? || t.Flat1? || t.Flat2? || t.Flat3?
  }

  lemma AtlasRoundTripRow0East(t: Tile)
    requires InAtlasRow0East(t)
    ensures AtlasTile(TexPos(t)) == Some(t)
  {
  }

  /** Atlas row 1, columns 0-4. */
  predicate InAtlasRow1West(t: Tile) {
    t.WallLeft0? || t.Flat0Wall? || t.Flat1Wall? || t.Flat2Wall? || t.Flat3Wall?
  }

  lemma AtlasRoundTripRow1West(t: Tile)
    requires InAtlasRow1West(t)
    ensures AtlasTile(TexPos(t)) == Some(t)
  {
  }

  /** Atlas row 1, columns 5-9. */
  predicate InAtlasRow1East(t: Tile) {
    t.WallRight0? || t.Flat4? || t.Flat5? || t.Flat6? || t.Flat7?
  }

  lemma AtlasRoundTripRow1East(t: Tile)
    requires InAtlasRow1East(t)
    ensures AtlasTile(TexPos(t)) == Some(t)
  {
  }

  /** Atlas row 2, columns 0-4. */
  predicate InAtlasRow2West(t: Tile) {
    t.WallLeft1? || t.Flat4Wall? || t.Flat7Wall?
  }

  lemma AtlasRoundTripRow2West(t: Tile)
    requires InAtlasRow2West(t)
    ensures AtlasTile(TexPos(t)) == Some(t)
  {
  }

  /** Atlas row 2, columns 5-9. */
  predicate InAtlasRow2East(t: Tile) {
    t.WallRight1? || t.Flat8? || t.Flat9? || t.Flat10? || t.Flat11?
  }

  lemma AtlasRoundTripRow2East(t: Tile)
    requires InAtlasRow2East(t)
    ensures AtlasTile(TexPos(t)) == Some(t)
  {
  }

  /** Atlas row 3. */
  predicate InAtlasRow3(t: Tile) {
    t.WallLeft2? || t.Flat8Wall? || t.Flat9Wall? || t.Flat10Wall? || t.Flat11Wall? || t.WallRight2?
  }

  lemma AtlasRoundTripRow3(t: Tile)
    requires InAtlasRow3(t)
    ensures AtlasTile(TexPos(t)) == Some(t)
  {
  }

  /** Atlas row 4. */
  predicate InAtlasRow4(t: Tile) {
    t.BottomLeftCorner? || t.WallBottom0? || t.WallBottom1? || t.WallBottom2? || t.WallBottom3?
    || t.BottomRightCorner?
  }

  lemma AtlasRoundTripRow4(t: Tile)
    requires InAtlasRow4(t)
    ensures AtlasTile(TexPos(t)) == Some(t)
  {
  }

  /** Atlas rows 5 and 7: outer corners and walls, and the void tile. */
  predicate InAtlasRows5And7(t: Tile) {
    t.TopLeftCornerOuter? || t.TopRightCornerOuter? || t.WallTopOuter0? || t.WallTopOuter1?
    || t.Void?
  }

  lemma AtlasRoundTripRows5And7(t: Tile)
    requires InAtlasRows5And7(t)
    ensures AtlasTile(TexPos(t)) == Some(t)
  {
  }

  /** Every non-generic tile has its own atlas cell: reading it back gives the tile. */
  lemma AtlasRoundTrip(t: Tile)
    requires !IsGeneric(t)
    ensures AtlasTile(TexPos(t)) == Some(t)
  {
    if InAtlasRow0West(t) {
      AtlasRoundTripRow0West(t);
    } else if InAtlasRow0East(t) {
      AtlasRoundTripRow0East(t);
    } else if InAtlasRow1West(t) {
      AtlasRoundTripRow1West(t);
    } else if InAtlasRow1East(t) {
      AtlasRoundTripRow1East(t);
    } else if InAtlasRow2West(t) {
      AtlasRoundTripRow2West(t);
    } else if InAtlasRow2East(t) {
      AtlasRoundTripRow2East(t);
    } else if InAtlasRow3(t) {
      AtlasRoundTripRow3(t);
    } else if InAtlasRow4(t) {
      AtlasRoundTripRow4(t);
    } else {
      assert InAtlasRows5And7(t);
      AtlasRoundTripRows5And7(t);
    }
  }

  /** Hence distinct non-generic tiles never share a texture. */
  lemma TexPosInjective(t: Tile, u: Tile)
    requires !IsGeneric(t) && !IsGeneric(u) && TexPos(t) == TexPos(u)
    ensures t == u
  {
    AtlasRoundTrip(t);
    AtlasRoundTrip(u);
  }

  /**
   * A generic tile is drawn like variant 0 of its family, except the unused
   * `WallTopOuter`, which is drawn like `TopLeftCornerOuter`.
   */
  lemma GenericDrawnAsFirstVariant(t: Tile)
    requires IsGeneric(t)
    ensures t != WallTopOuter ==> TexPos(t) == TexPos(Variant0(t))
    ensures t == WallTopOuter ==> TexPos(t) == TexPos(TopLeftCornerOuter) != TexPos(WallTopOuter0)
  {
  }

  // ---------------------------------------------------------------------
  // Neighbourhood lookup (`dirs`)
  // ---------------------------------------------------------------------

  /**
   * `dirs`: the neighbourhood of (x, y), with `d` standing in at the edges;
   * "top" is y - 1 and "left" is x - 1. Every entry is the grid cell at that
   * offset when it exists and `d` otherwise, so nothing outside the grid is read.
   */
  function Dirs<T>(m: seq<seq<T>>, x: int, y: int, d: T): (n: Nbhd<T>)
    requires IsGrid(m) && InBounds(m, x, y)
    ensures n.x == At(m, x, y, d)
    ensures n.t == At(m, x, y - 1, d) && n.b == At(m, x, y + 1, d)
    ensures n.l == At(m, x - 1, y, d) && n.r == At(m, x + 1, y, d)
    ensures n.tl == At(m, x - 1, y - 1, d) && n.tr == At(m, x + 1, y - 1, d)
    ensures n.bl == At(m, x - 1, y + 1, d) && n.br == At(m, x + 1, y + 1, d)
  {
    var w, h := |m| - 1, |m[0]| - 1;
    Nbhd(
      m[x][y],
      if y == 0 then d else m[x][y - 1],
      if y == h then d else m[x][y + 1],
      if x == 0 then d else m[x - 1][y],
      if x == w then d else m[x + 1][y],
      if x == 0 || y == 0 then d else m[x - 1][y - 1],
      if x == w || y == 0 then d else m[x + 1][y - 1],
      if x == 0 || y == h then d else m[x - 1][y + 1],
      if x == w || y == h then d else m[x + 1][y + 1])
  }

  // ---------------------------------------------------------------------
  // Pass 0 (`pass0`)
  // ---------------------------------------------------------------------

  /** The tiles pass 0 can produce. */
  predicate IsPass0Tile(t: Tile) {
    t == Flat || t == WallTop || t == WallBottom || t == WallLeft || t == WallRight
    || t == TopLeftCorner || t == TopRightCorner || t == BottomLeftCorner || t == BottomRightCorner
    || t == TopLeftCornerOuter || t == TopRightCornerOuter || t == Tile.Void
  }

  /**
   * `pass0`: floor becomes `Flat`; any other cell becomes the wall piece that
   * faces the floor around it, or `Void` when none fits. Each wall piece has
   * floor on the side its name points away from: a top wall has floor below it.
   */
  function Pass0(m: seq<seq<LevelBlock>>, x: int, y: int): (tile: Tile)
    requires IsGrid(m) && InBounds(m, x, y)
    ensures IsPass0Tile(tile)
    ensures tile == Flat <==> m[x][y] == Free
    ensures var n := Dirs(m, x, y, LevelBlock.Void);
      && (tile == WallTop ==> n.b == Free && (n.l == Free || n.r == Free ==> n.t != Free))
      && (tile == WallBottom ==> n.t == Free && n.l != Free && n.r != Free)
      && (tile == WallLeft ==> n.r == Free && n.t != Free && n.b != Free)
      && (tile == WallRight ==> n.l == Free && n.t != Free && n.b != Free)
      && (tile == TopLeftCorner ==> n.br == Free && n.r != Free && n.b != Free)
      && (tile == TopRightCorner ==> n.bl == Free && n.l != Free && n.b != Free)
      && (tile == BottomLeftCorner ==> n.tr == Free && n.r != Free && n.t != Free)
      && (tile == BottomRightCorner ==> n.tl == Free && n.l != Free && n.t != Free)
      && (tile == TopLeftCornerOuter ==> n.t == Free && n.l == Free && n.b != Free && n.r != Free)
      && (tile == TopRightCornerOuter ==> n.t == Free && n.r == Free && n.b != Free && n.l != Free)
    // Each piece also failed every earlier rule, as far as its own guard leaves that open.
    ensures var n := Dirs(m, x, y, LevelBlock.Void);
      && (tile == WallTop && (n.l == Free || n.r == Free) ==>
            (n.l != Free || n.r != Free) && (n.r != Free ==> n.tr != Free) && (n.l != Free ==> n.tl != Free))
      && (tile == WallBottom ==> n.b != Free)
      && (tile == WallRight ==> n.r != Free)
      && (tile == TopLeftCorner ==> (n.l == Free <==> n.t == Free))
      && (tile == TopRightCorner ==> (n.r == Free <==> n.t == Free) && (n.r != Free ==> n.br != Free))
    ensures var n := Dirs(m, x, y, LevelBlock.Void);
      && (tile == BottomLeftCorner ==> (n.l == Free <==> n.b == Free) && (n.b != Free ==> n.br != Free && n.bl != Free))
      && (tile == BottomRightCorner ==> (n.r == Free <==> n.b == Free) && (n.r != Free ==> n.br != Free && n.bl != Free && n.tr != Free))
      && (tile == TopLeftCornerOuter ==> n.br != Free)
      && (tile == TopRightCornerOuter ==> n.bl != Free)
    ensures var n := Dirs(m, x, y, LevelBlock.Void);
      (n.x != Free && n.t != Free && n.b != Free && n.l != Free && n.r != Free
       && n.tl != Free && n.tr != Free && n.bl != Free && n.br != Free) ==> tile == Tile.Void
  {
    var n := Dirs(m, x, y, LevelBlock.Void);
    if n.x == Free then Flat
    // walls
    else if n.r != Free && n.l != Free && n.b == Free then WallTop
    else if n.r != Free && n.l != Free && n.t == Free then WallBottom
    else if n.t != Free && n.b != Free && n.r == Free then WallLeft
    else if n.t != Free && n.b != Free && n.l == Free then WallRight
    // inner corners
    else if n.r != Free && n.b != Free && n.br == Free then TopLeftCorner
    else if n.l != Free && n.b != Free && n.bl == Free then TopRightCorner
    else if n.r != Free && n.t != Free && n.tr == Free then BottomLeftCorner
    else if n.l != Free && n.t != Free && n.tl == Free then BottomRightCorner
    // outer corners
    else if n.t == Free && n.b != Free && n.l == Free && n.r != Free then TopLeftCornerOuter
    else if n.t == Free && n.b != Free && n.l != Free && n.r == Free then TopRightCornerOuter
    else if (n.t != Free && n.b == Free && n.l == Free && n.r != Free)
         || (n.t != Free && n.b == Free && n.l != Free && n.r == Free) then WallTop
    else Tile.Void
  }

  /** Pass 0's observations: which cells of the neighbourhood are floor. */
  function Pass0Probe(n: Nbhd<LevelBlock>): Nbhd<bool> {
    Nbhd(n.x == Free, n.t == Free, n.b == Free, n.l == Free, n.r == Free,
         n.tl == Free, n.tr == Free, n.bl == Free, n.br == Free)
  }

  /** Pass 0 as an ordered table over (x, t, b, l, r, tl, tr, bl, br): floor, walls, inner corners, outer corners. */
  const Pass0Rules: seq<Rule<Tile>> := [
    Rule(Nbhd(Yes, Any, Any, Any, Any, Any, Any, Any, Any), Flat),
    Rule(Nbhd(Any, Any, Yes, No, No, Any, Any, Any, Any), WallTop),
    Rule(Nbhd(Any, Yes, Any, No, No, Any, Any, Any, Any), WallBottom),
    Rule(Nbhd(Any, No, No, Any, Yes, Any, Any, Any, Any), WallLeft),
    Rule(Nbhd(Any, No, No, Yes, Any, Any, Any, Any, Any), WallRight),
    Rule(Nbhd(Any, Any, No, Any, No, Any, Any, Any, Yes), TopLeftCorner),
    Rule(Nbhd(Any, Any, No, No, Any, Any, Any, Yes, Any), TopRightCorner),
    Rule(Nbhd(Any, No, Any, Any, No, Any, Yes, Any, Any), BottomLeftCorner),
    Rule(Nbhd(Any, No, Any, No, Any, Yes, Any, Any, Any), BottomRightCorner),
    Rule(Nbhd(Any, Yes, No, Yes, No, Any, Any, Any, Any), TopLeftCornerOuter),
    Rule(Nbhd(Any, Yes, No, No, Yes, Any, Any, Any, Any), TopRightCornerOuter),
    Rule(Nbhd(Any, No, Yes, Yes, No, Any, Any, Any, Any), WallTop),
    Rule(Nbhd(Any, No, Yes, No, Yes, Any, Any, Any, Any), WallTop)
  ]

  /** The floor and straight-wall rules of the pass 0 table fire exactly on the conditions of `pass0`. */
  lemma Pass0WallRules(n: Nbhd<LevelBlock>)
    ensures var p, R := Pass0Probe(n), Pass0Rules;
      && (Matches(R[0].pattern, p) <==> n.x == Free)
      && (Matches(R[1].pattern, p) <==> n.r != Free && n.l != Free && n.b == Free)
      && (Matches(R[2].pattern, p) <==> n.r != Free && n.l != Free && n.t == Free)
      && (Matches(R[3].pattern, p) <==> n.t != Free && n.b != Free && n.r == Free)
      && (Matches(R[4].pattern, p) <==> n.t != Free && n.b != Free && n.l == Free)
  {
  }

  /** The inner-corner rules of the pass 0 table fire exactly on the conditions of `pass0`. */
  lemma Pass0InnerCornerRules(n: Nbhd<LevelBlock>)
    ensures var p, R := Pass0Probe(n), Pass0Rules;
      && (Matches(R[5].pattern, p) <==> n.r != Free && n.b != Free && n.br == Free)
      && (Matches(R[6].pattern, p) <==> n.l != Free && n.b != Free && n.bl == Free)
      && (Matches(R[7].pattern, p) <==> n.r != Free && n.t != Free && n.tr == Free)
      && (Matches(R[8].pattern, p) <==> n.l != Free && n.t != Free && n.tl == Free)
  {
  }

  /** The outer-corner rules of the pass 0 table fire exactly on the conditions of `pass0`. */
  lemma Pass0OuterRules(n: Nbhd<LevelBlock>)
    ensures var p, R := Pass0Probe(n), Pass0Rules;
      && (Matches(R[9].pattern, p) <==> n.t == Free && n.b != Free && n.l == Free && n.r != Free)
      && (Matches(R[10].pattern, p) <==> n.t == Free && n.b != Free && n.l != Free && n.r == Free)
      && (Matches(R[11].pattern, p) <==> n.t != Free && n.b == Free && n.l == Free && n.r != Free)
      && (Matches(R[12].pattern, p) <==> n.t != Free && n.b == Free && n.l != Free && n.r == Free)
  {
  }

  /** Pass 0 is the first matching rule of its table, `Void` when none matches. */
  lemma Pass0FollowsRules(m: seq<seq<LevelBlock>>, x: int, y: int)
    requires IsGrid(m) && InBounds(m, x, y)
    ensures Pass0(m, x, y) == match FirstMatch(Pass0Rules, Pass0Probe(Dirs(m, x, y, LevelBlock.Void)))
                              case Some(t) => t
                              case None => Tile.Void
  {
    var n := Dirs(m, x, y, LevelBlock.Void);
    var probe := Pass0Probe(n);
    Pass0WallRules(n);
    Pass0InnerCornerRules(n);
    Pass0OuterRules(n);
    var k := FirstIndex(Pass0Rules, probe, 0);
    if k == 0 {
    } else if k == 1 {
    } else if k == 2 {
    } else if k == 3 {
    } else if k == 4 {
    } else if k == 5 {
    } else if k == 6 {
    } else if k == 7 {
    } else if k == 8 {
    } else if k == 9 {
    } else if k == 10 {
    } else if k == 11 {
    } else if k == 12 {
    } else {
    }
  }

  // ---------------------------------------------------------------------
  // Pass 1 (`pass1`)
  // ---------------------------------------------------------------------

  /** The generic tiles pass 1 resolves. */
  predicate IsPass1Generic(t: Tile) {
    t == Flat || t == WallTop || t == WallBottom || t == WallLeft || t == WallRight
  }

  /** The floor variants the index `x % 4 + (y % 3) * 3` can reach: the first ten. */
  lemma FlatTableFacts()
    ensures forall i :: 0 <= i < 10 ==>
      Family(FlatTiles[i]) == Flat && IsFlat(FlatTiles[i]) && FlatTiles[i] != Flat10 && FlatTiles[i] != Flat11
  {
    forall i | 0 <= i < 10
      ensures Family(FlatTiles[i]) == Flat && IsFlat(FlatTiles[i]) && FlatTiles[i] != Flat10 && FlatTiles[i] != Flat11
    {
      if i < 5 {
        assert i == 0 || i == 1 || i == 2 || i == 3 || i == 4;
      } else {
        assert i == 5 || i == 6 || i == 7 || i == 8 || i == 9;
      }
    }
  }

  /** The wall variant tables hold variants of their own family, none of them floor. */
  lemma WallTableFacts()
    ensures forall i :: 0 <= i < 4 ==> Family(WallTopTiles[i]) == WallTop && !IsFlat(WallTopTiles[i])
    ensures forall i :: 0 <= i < 4 ==> Family(WallBottomTiles[i]) == WallBottom && !IsFlat(WallBottomTiles[i])
    ensures forall i :: 0 <= i < 3 ==> Family(WallLeftTiles[i]) == WallLeft && !IsFlat(WallLeftTiles[i])
    ensures forall i :: 0 <= i < 3 ==> Family(WallRightTiles[i]) == WallRight && !IsFlat(WallRightTiles[i])
  {
    forall i | 0 <= i < 4
      ensures Family(WallTopTiles[i]) == WallTop && !IsFlat(WallTopTiles[i])
      ensures Family(WallBottomTiles[i]) == WallBottom && !IsFlat(WallBottomTiles[i])
    {
      assert i == 0 || i == 1 || i == 2 || i == 3;
    }
    forall i | 0 <= i < 3
      ensures Family(WallLeftTiles[i]) == WallLeft && !IsFlat(WallLeftTiles[i])
      ensures Family(WallRightTiles[i]) == WallRight && !IsFlat(WallRightTiles[i])
    {
      assert i == 0 || i == 1 || i == 2;
    }
  }

  /**
   * The tile pass 1 puts at (x, y): a generic tile becomes a variant of its own
   * family chosen by the position; anything else stays. The floor index stops
   * at 9, so `Flat10` and `Flat11` never appear.
   */
  function Pass1Tile(t: Tile, x: nat, y: nat): (r: Tile)
    ensures Family(r) == Family(t)
    ensures IsPass1Generic(t) ==> !IsGeneric(r)
    ensures !IsPass1Generic(t) ==> r == t
    ensures t != Flat10 && t != Flat11 ==> r != Flat10 && r != Flat11
    ensures IsFlat(r) <==> t == Flat || IsFlat(t)
  {
    FlatTableFacts();
    WallTableFacts();
    match t
    case Flat => FlatTiles[x % 4 + y % 3 * 3]
    case WallTop => WallTopTiles[x % 4]
    case WallBottom => WallBottomTiles[x % 4]
    case WallLeft => WallLeftTiles[y % 3]
    case WallRight => WallRightTiles[y % 3]
    case _ => t
  }

  /** The variant depends on x and y only through x mod 4 and y mod 3. */
  lemma Pass1DependsOnResidues(t: Tile, x1: nat, y1: nat, x2: nat, y2: nat)
    requires x1 % 4 == x2 % 4 && y1 % 3 == y2 % 3
    ensures Pass1Tile(t, x1, y1) == Pass1Tile(t, x2, y2)
  {
    if !IsPass1Generic(t) {
    } else if t == Flat {
      assert x1 % 4 + y1 % 3 * 3 == x2 % 4 + y2 % 3 * 3;
    } else if t == WallTop || t == WallBottom {
    } else {
      assert t == WallLeft || t == WallRight;
    }
  }

  /** The variant pattern repeats every 4 cells along x and every 3 cells along y. */
  lemma Pass1Periodic(t: Tile, x: nat, y: nat)
    ensures Pass1Tile(t, x + 4, y) == Pass1Tile(t, x, y)
    ensures Pass1Tile(t, x, y + 3) == Pass1Tile(t, x, y)
  {
    ModPeriod(x);
    ModPeriod(y);
    Pass1DependsOnResidues(t, x + 4, y, x, y);
    Pass1DependsOnResidues(t, x, y + 3, x, y);
  }

  lemma ModPeriod(n: nat)
    ensures (n + 4) % 4 == n % 4 && (n + 3) % 3 == n % 3
  {
  }

  /** The floor index is not one-to-one: (3, 0) and (0, 1) both get `Flat3`. */
  lemma FlatVariantsCollide()
    ensures Pass1Tile(Flat, 3, 0) == Pass1Tile(Flat, 0, 1) == Flat3
  {
  }

  /**
   * The floor index the table's layout calls for: the table is four
   * variants to a row, three rows, so the variant for column x mod 4 and
   * row y mod 3 sits at column + 4 * row.
   */
  function IntendedFlatIndex(x: nat, y: nat): (i: nat)
    ensures i < 12
    ensures i % 4 == x % 4 && i / 4 == y % 3
  {
    x % 4 + y % 3 * 4
  }

  /** Every table slot is the intended index of exactly the positions with its residues. */
  lemma IntendedFlatIndexBijective(i: nat, x: nat, y: nat)
    requires i < 12
    ensures IntendedFlatIndex(x, y) == i <==> x % 4 == i % 4 && y % 3 == i / 4
  {
  }

  /** The twelve floor variants are pairwise distinct. */
  lemma FlatTilesDistinct(i: nat, j: nat)
    requires i < 12 && j < 12 && FlatTiles[i] == FlatTiles[j]
    ensures i == j
  {
    if i < 6 {
      assert i == 0 || i == 1 || i == 2 || i == 3 || i == 4 || i == 5;
    } else {
      assert i == 6 || i == 7 || i == 8 || i == 9 || i == 10 || i == 11;
    }
  }

  /** Every floor variant belongs to the floor family. */
  lemma FlatTilesFamily(i: nat)
    requires i < 12
    ensures Family(FlatTiles[i]) == Flat && IsFlat(FlatTiles[i]) && !IsGeneric(FlatTiles[i])
  {
    if i < 6 {
      assert i == 0 || i == 1 || i == 2 || i == 3 || i == 4 || i == 5;
    } else {
      assert i == 6 || i == 7 || i == 8 || i == 9 || i == 10 || i == 11;
    }
  }

  /**
   * Pass 1 with the intended floor index. It differs from `Pass1Tile` only in
   * which floor variant a generic floor cell gets, so family, floor-ness and
   * the absence of generic tiles are the same.
   */
  function Pass1TileIntended(t: Tile, x: nat, y: nat): (r: Tile)
    ensures Family(r) == Family(Pass1Tile(t, x, y))
    ensures IsFlat(r) == IsFlat(Pass1Tile(t, x, y))
    ensures IsGeneric(r) == IsGeneric(Pass1Tile(t, x, y))
    ensures t != Flat ==> r == Pass1Tile(t, x, y)
  {
    if t == Flat then
      FlatTilesFamily(IntendedFlatIndex(x, y));
      FlatTilesFamily(x % 4 + y % 3 * 3);
      FlatTiles[IntendedFlatIndex(x, y)]
    else
      Pass1Tile(t, x, y)
  }

  /** With the intended index every one of the twelve floor variants, `Flat10` and `Flat11` included, is used. */
  lemma IntendedReachesEveryVariant(i: nat)
    requires i < 12
    ensures Pass1TileIntended(Flat, i % 4, i / 4) == FlatTiles[i]
  {
    assert i % 4 % 4 == i % 4 && i / 4 % 3 == i / 4;
    IntendedFlatIndexBijective(i, i % 4, i / 4);
    assert IntendedFlatIndex(i % 4, i / 4) == i;
  }

  /** With the intended index two cells get the same floor variant exactly when they agree in x mod 4 and y mod 3. */
  lemma IntendedVariantsDistinct(x1: nat, y1: nat, x2: nat, y2: nat)
    ensures Pass1TileIntended(Flat, x1, y1) == Pass1TileIntended(Flat, x2, y2) <==> x1 % 4 == x2 % 4 && y1 % 3 == y2 % 3
  {
    var i1, i2 := IntendedFlatIndex(x1, y1), IntendedFlatIndex(x2, y2);
    assert Pass1TileIntended(Flat, x1, y1) == FlatTiles[i1];
    assert Pass1TileIntended(Flat, x2, y2) == FlatTiles[i2];
    if FlatTiles[i1] == FlatTiles[i2] {
      FlatTilesDistinct(i1, i2);
    }
  }

  /** `pass1` at (x, y): reads only the cell itself. */
  function Pass1(m: seq<seq<Tile>>, x: nat, y: nat): (r: Tile)
    requires IsGrid(m) && InBounds(m, x, y)
    ensures r == Pass1Tile(m[x][y], x, y)
  {
    var n := Dirs(m, x, y, Tile.Void);
    Pass1Tile(n.x, x, y)
  }

  // ---------------------------------------------------------------------
  // Pass 2 (`pass2`)
  // ---------------------------------------------------------------------

  /**
   * The decision of `pass2` for a floor tile c, given whether its top, bottom,
   * left and right neighbours are floor: corners first, then straight edges.
   */
  function Decorate(c: Tile, t: bool, b: bool, l: bool, r: bool): (d: Tile)
    requires IsFlat(c)
    ensures IsFlat(d)
    // Each shape decides the tile on its own: no two shapes overlap, so the
    // order in which `pass2` tries them never matters.
    ensures !t && b && !l && r ==> d == Flat0Wall
    ensures !t && b && l && !r ==> d == Flat3Wall
    ensures t && !b && !l && r ==> d == Flat8Wall
    ensures t && !b && l && !r ==> d == Flat11Wall
    ensures t && b && !l && r ==> d == Flat4Wall
    ensures t && b && l && !r ==> d == Flat7Wall
    ensures t && !b && l && r ==> d == Flat9Wall
    ensures !t && l && r ==> d == Flat1Wall
    ensures !t && !(l && r) && !(b && l != r) ==> d == c
    ensures t && ((!l && !r) || (b && l && r)) ==> d == c
  {
    // corners
    if !t && b && !l && r then Flat0Wall
    else if !t && b && l && !r then Flat3Wall
    else if t && !b && !l && r then Flat8Wall
    else if t && !b && l && !r then Flat11Wall
    // walls
    else if t && b && !l && r then Flat4Wall
    else if t && b && l && !r then Flat7Wall
    else if t && !b && l && r then Flat9Wall
    else if !t && l && r then Flat1Wall
    else c
  }

  /**
   * `pass2`: a floor tile whose top, bottom, left and right floor-ness fits a
   * border shape gets the decorated tile of that shape; every other tile stays.
   * Floor stays floor and nothing else becomes floor.
   */
  function Pass2(m: seq<seq<Tile>>, x: int, y: int): (r: Tile)
    requires IsGrid(m) && InBounds(m, x, y)
    ensures IsFlat(r) <==> IsFlat(m[x][y])
    ensures !IsFlat(m[x][y]) ==> r == m[x][y]
  {
    var n := Dirs(m, x, y, Tile.Void);
    if IsFlat(n.x) then Decorate(n.x, IsFlat(n.t), IsFlat(n.b), IsFlat(n.l), IsFlat(n.r)) else n.x
  }

  /** Every tile the pass 2 decision writes over another comes from the decorated-floor table. */
  lemma DecorateWritesTable(c: Tile, t: bool, b: bool, l: bool, r: bool)
    requires IsFlat(c)
    ensures Decorate(c, t, b, l, r) != c ==> Decorate(c, t, b, l, r) in FlatWallTiles
  {
    var d := Decorate(c, t, b, l, r);
    if d == Flat0Wall || d == Flat1Wall || d == Flat3Wall || d == Flat4Wall {
      assert FlatWallTiles[0] == Flat0Wall && FlatWallTiles[1] == Flat1Wall;
      assert FlatWallTiles[3] == Flat3Wall && FlatWallTiles[4] == Flat4Wall;
    } else if d == Flat7Wall || d == Flat8Wall || d == Flat9Wall || d == Flat11Wall {
      assert FlatWallTiles[7] == Flat7Wall && FlatWallTiles[8] == Flat8Wall;
      assert FlatWallTiles[9] == Flat9Wall && FlatWallTiles[11] == Flat11Wall;
    }
  }

  /** Every tile pass 2 writes over another comes from the decorated-floor table. */
  lemma Pass2WritesDecoratedFloor(m: seq<seq<Tile>>, x: int, y: int)
    requires IsGrid(m) && InBounds(m, x, y)
    ensures Pass2(m, x, y) != m[x][y] ==> Pass2(m, x, y) in FlatWallTiles
  {
    if IsFlat(m[x][y]) {
      var n := Dirs(m, x, y, Tile.Void);
      DecorateWritesTable(n.x, IsFlat(n.t), IsFlat(n.b), IsFlat(n.l), IsFlat(n.r));
    }
  }

  /** Pass 2 at a cell depends on the cell itself and only the floor-ness of its four neighbours. */
  lemma Pass2Congruent(m1: seq<seq<Tile>>, m2: seq<seq<Tile>>, x: int, y: int)
    requires IsGrid(m1) && IsGrid(m2) && |m1| == |m2| && |m1[0]| == |m2[0]|
    requires InBounds(m1, x, y) && m1[x][y] == m2[x][y]
    requires forall a, b :: InBounds(m1, a, b) ==> IsFlat(m1[a][b]) == IsFlat(m2[a][b])
    ensures Pass2(m1, x, y) == Pass2(m2, x, y)
  {
    var n1, n2 := Dirs(m1, x, y, Tile.Void), Dirs(m2, x, y, Tile.Void);
    assert IsFlat(n1.t) == IsFlat(n2.t) && IsFlat(n1.b) == IsFlat(n2.b);
    assert IsFlat(n1.l) == IsFlat(n2.l) && IsFlat(n1.r) == IsFlat(n2.r);
  }

  // ---------------------------------------------------------------------
  // Whole-grid passes and the in-place driver (`map_level_blocks_to_tiles`)
  // ---------------------------------------------------------------------

  /** m has w columns of height h. */
  predicate HasShape<T>(m: seq<seq<T>>, w: int, h: int) {
    |m| == w && forall x :: 0 <= x < |m| ==> |m[x]| == h
  }

  /** Pass 0 over a fresh grid: every cell classified from the level. */
  function Pass0Grid(m: seq<seq<LevelBlock>>): (r: seq<seq<Tile>>)
    requires IsGrid(m)
    ensures HasShape(r, |m|, |m[0]|)
    ensures forall x, y :: 0 <= x < |m| && 0 <= y < |m[0]| ==> r[x][y] == Pass0(m, x, y)
  {
    seq(|m|, x requires 0 <= x < |m| => seq(|m[0]|, y requires 0 <= y < |m[0]| => Pass0(m, x, y)))
  }

  /** Pass 1 as a whole-grid pass, every cell computed from the input grid. */
  function Pass1Grid(m: seq<seq<Tile>>): (r: seq<seq<Tile>>)
    requires IsGrid(m)
    ensures HasShape(r, |m|, |m[0]|)
    ensures forall x, y :: 0 <= x < |m| && 0 <= y < |m[0]| ==> r[x][y] == Pass1(m, x, y)
  {
    seq(|m|, x requires 0 <= x < |m| => seq(|m[0]|, y requires 0 <= y < |m[0]| => Pass1(m, x, y)))
  }

  /** Pass 2 as a whole-grid pass, every cell computed from the input grid. */
  function Pass2Grid(m: seq<seq<Tile>>): (r: seq<seq<Tile>>)
    requires IsGrid(m)
    ensures HasShape(r, |m|, |m[0]|)
    ensures forall x, y :: 0 <= x < |m| && 0 <= y < |m[0]| ==> r[x][y] == Pass2(m, x, y)
  {
    seq(|m|, x requires 0 <= x < |m| => seq(|m[0]|, y requires 0 <= y < |m[0]| => Pass2(m, x, y)))
  }

  /**
   * Progress of an in-place sweep from m0 towards target in scan order: the
   * cells before (x, y) hold their target value, the rest their old one.
   */
  ghost predicate SweptTo<T>(m0: seq<seq<T>>, target: seq<seq<T>>, m: seq<seq<T>>, x: int, y: int)
    requires IsGrid(m0) && HasShape(target, |m0|, |m0[0]|)
  {
    HasShape(m, |m0|, |m0[0]|)
    && forall a, b :: 0 <= a < |m0| && 0 <= b < |m0[0]| ==>
         m[a][b] == if a < x || (a == x && b < y) then target[a][b] else m0[a][b]
  }

  /** Writing the target value at (x, y) advances the sweep by one cell. */
  lemma SweepStep<T>(m0: seq<seq<T>>, target: seq<seq<T>>, m: seq<seq<T>>, x: int, y: int)
    requires IsGrid(m0) && HasShape(target, |m0|, |m0[0]|)
    requires 0 <= x < |m0| && 0 <= y < |m0[0]| && SweptTo(m0, target, m, x, y)
    ensures SweptTo(m0, target, m[x := m[x][y := target[x][y]]], x, y + 1)
  {
  }

  /** A finished column moves the sweep to the top of the next one. */
  lemma SweepNextColumn<T>(m0: seq<seq<T>>, target: seq<seq<T>>, m: seq<seq<T>>, x: int)
    requires IsGrid(m0) && HasShape(target, |m0|, |m0[0]|)
    requires 0 <= x < |m0| && SweptTo(m0, target, m, x, |m0[0]|)
    ensures SweptTo(m0, target, m, x + 1, 0)
  {
  }

  /** A grid that agrees with target on every cell is target. */
  lemma SameCellsSameGrid<T>(m: seq<seq<T>>, target: seq<seq<T>>, w: int, h: int)
    requires HasShape(m, w, h) && HasShape(target, w, h)
    requires forall a, b :: 0 <= a < w && 0 <= b < h ==> m[a][b] == target[a][b]
    ensures m == target
  {
    forall a | 0 <= a < w ensures m[a] == target[a] {
      assert forall b :: 0 <= b < h ==> m[a][b] == target[a][b];
    }
  }

  /** The second in-place loop of `map_level_blocks_to_tiles`, the one calling `pass1`; each cell reads only itself, so it equals the whole-grid pass. */
  method Pass1InPlace(m0: seq<seq<Tile>>) returns (m: seq<seq<Tile>>)
    requires IsGrid(m0)
    ensures m == Pass1Grid(m0)
  {
    ghost var target := Pass1Grid(m0);
    var w, h := |m0|, |m0[0]|;
    m := m0;
    var x := 0;
    while x < w
      invariant 0 <= x <= w
      invariant SweptTo(m0, target, m, x, 0)
    {
      var y := 0;
      while y < h
        invariant 0 <= y <= h
        invariant SweptTo(m0, target, m, x, y)
      {
        SweepStep(m0, target, m, x, y);
        m := m[x := m[x][y := Pass1(m, x, y)]];
        y := y + 1;
      }
      SweepNextColumn(m0, target, m, x);
      x := x + 1;
    }
    SameCellsSameGrid(m, target, w, h);
  }

  /**
   * The third in-place loop of `map_level_blocks_to_tiles`, the one calling
   * `pass2`. A cell's top and left neighbours are already rewritten when it
   * is visited, but pass 2 keeps every cell's floor-ness and reads nothing
   * else of them, so the result equals the whole-grid pass over the old grid.
   */
  method Pass2InPlace(m0: seq<seq<Tile>>) returns (m: seq<seq<Tile>>)
    requires IsGrid(m0)
    ensures m == Pass2Grid(m0)
  {
    ghost var target := Pass2Grid(m0);
    var w, h := |m0|, |m0[0]|;
    m := m0;
    var x := 0;
    while x < w
      invariant 0 <= x <= w
      invariant SweptTo(m0, target, m, x, 0)
    {
      var y := 0;
      while y < h
        invariant 0 <= y <= h
        invariant SweptTo(m0, target, m, x, y)
      {
        assert forall a, b :: InBounds(m0, a, b) ==> IsFlat(m0[a][b]) == IsFlat(m[a][b]);
        Pass2Congruent(m0, m, x, y);
        SweepStep(m0, target, m, x, y);
        m := m[x := m[x][y := Pass2(m, x, y)]];
        y := y + 1;
      }
      SweepNextColumn(m0, target, m, x);
      x := x + 1;
    }
    SameCellsSameGrid(m, target, w, h);
  }

  /** Pass 1 turns pass 0's floor into plain floor and its other tiles into non-floor, resolving every generic one. */
  lemma Pass1OfPass0Tile(t: Tile, x: nat, y: nat)
    requires IsPass0Tile(t)
    ensures IsFlat(Pass1Tile(t, x, y)) <==> t == Flat
    ensures !IsGeneric(Pass1Tile(t, x, y))
  {
  }

  /** Pass 2 never produces a generic tile from a non-generic one. */
  lemma Pass2KeepsResolved(m: seq<seq<Tile>>, x: int, y: int)
    requires IsGrid(m) && InBounds(m, x, y) && !IsGeneric(m[x][y])
    ensures !IsGeneric(Pass2(m, x, y))
  {
  }

  /** What the three passes make of one level cell. */
  lemma ThreePassCell(blocks: seq<seq<LevelBlock>>, x: int, y: int)
    requires IsGrid(blocks) && InBounds(blocks, x, y)
    ensures var t1 := Pass1Grid(Pass0Grid(blocks));
      IsGrid(t1) && InBounds(t1, x, y)
      && (IsFlat(Pass2(t1, x, y)) <==> blocks[x][y] == Free)
      && !IsGeneric(Pass2(t1, x, y))
  {
    var t0 := Pass0Grid(blocks);
    var t1 := Pass1Grid(t0);
    assert t0[x][y] == Pass0(blocks, x, y);
    assert t1[x][y] == Pass1Tile(t0[x][y], x, y);
    Pass1OfPass0Tile(t0[x][y], x, y);
    Pass2KeepsResolved(t1, x, y);
  }

  /**
   * `map_level_blocks_to_tiles`: a tile grid of the level's shape, the three
   * passes applied in place in turn. A tile is floor exactly where the level
   * is free, and no generic tile survives, so every tile has its own texture.
   */
  method MapLevelBlocksToTiles(blocks: seq<seq<LevelBlock>>) returns (tiles: seq<seq<Tile>>)
    requires IsGrid(blocks)
    ensures HasShape(tiles, |blocks|, |blocks[0]|)
    ensures tiles == Pass2Grid(Pass1Grid(Pass0Grid(blocks)))
    ensures forall x, y :: 0 <= x < |blocks| && 0 <= y < |blocks[0]| ==>
      (IsFlat(tiles[x][y]) <==> blocks[x][y] == Free) && !IsGeneric(tiles[x][y])
  {
    var t0 := Pass0Grid(blocks);
    var t1 := Pass1InPlace(t0);
    tiles := Pass2InPlace(t1);
    forall x, y | 0 <= x < |blocks| && 0 <= y < |blocks[0]|
      ensures (IsFlat(tiles[x][y]) <==> blocks[x][y] == Free) && !IsGeneric(tiles[x][y])
    {
      ThreePassCell(blocks, x, y);
    }
  }
}
