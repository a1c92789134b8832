# A verified model of the dungeon game's core logic

This project models the non-graphical core of a small top-down dungeon game in Dafny. The game is written in Rust on SDL and wgpu. It proves properties of the model. The modules follow the game's source files:

- `LevelCollision` (`level_collision.dfy`, tests in `level_collision_tests.dfy`) is the greedy wall-rectangle merger. It scans the column-major level grid, seeds a box at every unvisited wall cell and grows it left, right, top and bottom. It then marks the box visited. The boxes it returns are proved to partition the wall cells exactly. The three expected outputs from the source's tests are proved as well.
- `DungeonTiles` (`dungeon_tiles.dfy`) is the three-pass autotiler and the texture atlas lookup:
  - pass 0 classifies each level cell by its eight neighbours, first rule wins;
  - pass 1 picks a position-dependent variant of each generic tile;
  - pass 2 decorates floor that borders walls.

  Pass 2 rewrites the grid in place while reading neighbours. This is proved equal to a whole-grid pass, because pass 2 never changes whether a cell is floor. `Patterns` (`patterns.dfy`) gives pass 0 an independent statement as an ordered rule table.
- `Sat` (`sat.dfy`) is the separating-axis contact test between two axis-aligned boxes, together with its minimum translation vector. It also holds `Direction::from_velocity`. The game has an f32 copy of this test (`geometry.rs`) and an f64 copy (`aabb.rs`); both are modelled once over `real`.
- `Collision` (`collision.dfy`) is the older strict-interior box intersection test over unordered corners. It is related to `Sat` by `AgreesWithContactTest`.
- `Level` (`level.dfy`) parses text lines into the transposed grid `map[x][y]`.
- `Player` (`player.dfy`) covers thrust, advance and speed clamping.
- `PlayerSprite` (`player_sprite.dfy`) covers the sprite's state, facing, sheet row, texture choice and animation frame counter.
- `LevelMesh` (`level_mesh.dfy`) builds the vertex and index buffers of the level mesh.
- `Input` (`input.dfy`) is the arrow-key and space-bar latch.
- `Camera` (`camera.dfy`) moves the 2-D camera from the held keys.
- `Observer` (`observer.dfy`) is the 3-D observer's resize and manual pan.
- Shared small modules:
  - `Blocks` holds the level cell kind and grid predicates;
  - `Options`;
  - `Directions`;
  - `Wasd` holds the four movement-key flags.

Floating-point values are modelled as mathematical reals. Integer widths are modelled where they matter: u32 window sizes, and the u16 bound of the index buffer.

Where the source would panic on an out-of-range index, the model returns an error value instead. This happens in `Level::new` when there are no lines or a line is longer than the first.

Pass 1's floor index departs from the layout of the table it indexes; see "## Findings". The three-pass pipeline models the code as written. The corrected pass 1 is stated beside it and proved to agree with it on everything except which floor variant a floor cell gets.

## Model

| member | source | states |
|---|---|---|
| LevelCollision.GrowLeft | src/level_collision.rs:31-33 | The grown box is still all unvisited wall. Only its left edge moved, and only leftwards. It stopped at column 0 or where one more column would break the wall block. |
| LevelCollision.GrowRight | src/level_collision.rs:34-36 | Growing right keeps an unvisited wall block. It moves only the right edge, and stops at the grid width or at the first column that is not all unvisited wall. |
| LevelCollision.GrowTop | src/level_collision.rs:37-39 | Growing up keeps an unvisited wall block. It moves only the top edge, and stops at row 0 or at the first row that is not all unvisited wall. |
| LevelCollision.GrowBottom | src/level_collision.rs:40-42 | Growing down keeps an unvisited wall block. It moves only the bottom edge, and stops at the grid height or at the first row that is not all unvisited wall. |
| LevelCollision.IsWallBlock | src/level_collision.rs:51-67 | Definition: every cell of the box is a wall and is not in the visited set. |
| LevelCollision.FindWallBlock | src/level_collision.rs:22-42 | The box grown from an unvisited wall seed lies in the grid and contains the seed. All its cells are unvisited walls, and it cannot grow further downwards. |
| LevelCollision.GrowRightKeepsStops | src/level_collision.rs:31-36 | If the left side could not grow before the right-growth loop, it still cannot after it, and the right side cannot grow either. |
| LevelCollision.GrowTopKeepsStops | src/level_collision.rs:31-39 | Growing the top keeps the left and right sides unable to grow, and leaves the top unable to grow. |
| LevelCollision.GrowBottomKeepsStops | src/level_collision.rs:31-42 | Growing the bottom keeps the other three sides unable to grow, so no side of the result can move out by one. |
| LevelCollision.FindWallBlockMaximal | src/level_collision.rs:22-42 | The returned box is maximal: moving any one of its four sides out by one cell leaves the grid or takes in a visited or non-wall cell. This holds even though only the bottom side was grown last. |
| LevelCollision.Mark | src/level_collision.rs:43-47 | After marking, a cell is visited exactly when it was visited before or lies in the box. |
| LevelCollision.ScanStep | src/level_collision.rs:12-16 | Emitting a box around an unvisited wall cell keeps the scan invariant. The boxes stay valid and disjoint, the visited set stays their union, and every wall cell scanned so far is covered. |
| LevelCollision.ScanPartitions | src/level_collision.rs:12-18 | From any scan position where the invariant holds, the rest of the scan ends in an exact partition of the wall cells. That partition has no more boxes than wall cells. |
| LevelCollision.FindWallBlocks | src/level_collision.rs:7-20 | The returned boxes are non-empty, in the grid and made only of walls. They are pairwise disjoint and every wall cell lies in one of them. There are at most as many boxes as wall cells. |
| LevelCollision.ScanRest | src/level_collision.rs:12-18 | Once every remaining wall cell is visited, the scan adds no box. |
| LevelCollision.NoWallsNoBlocks | src/level_collision.rs:11-19 | A level without walls gives no boxes. |
| LevelCollision.AllWallsOneBlock | src/level_collision.rs:7-47 | A level made only of walls gives the single box covering the whole grid. |
| LevelCollisionTests.TestCase1 | src/level_collision.rs:75-88 | The first test level gives exactly the boxes (0,0,1,1), (1,1,4,2), (1,2,3,3), (1,3,2,4), in that order. |
| LevelCollisionTests.TestCase2 | src/level_collision.rs:90-103 | The second test level gives exactly (0,1,3,2), (1,0,3,1), (1,2,3,4), (3,3,4,4), in that order. |
| LevelCollisionTests.TestCase3 | src/level_collision.rs:105-118 | The 4 × 4 all-wall level gives the single box (0,0,4,4). |
| DungeonTiles.FlatTilesAreFlat | src/dungeon_tiles.rs:294-310 | Every entry of the plain floor table is a floor tile. |
| DungeonTiles.FlatWallTilesAreFlat | src/dungeon_tiles.rs:311-327 | Every entry of the decorated floor table is a floor tile. |
| DungeonTiles.IsFlat | src/dungeon_tiles.rs:289-291 | Definition: a tile is floor when it is one of the twelve floor variants or one of the decorated floor variants that the decorated table lists. |
| DungeonTiles.IsFlatIsTableMembership | src/dungeon_tiles.rs:289-291 | The per-tile floor predicate holds exactly for tiles found in one of the two floor lookup tables. |
| DungeonTiles.TexPos | src/dungeon_tiles.rs:76-141 | Every tile has an atlas position with column at most 9 and row at most 7. |
| DungeonTiles.AtlasRoundTripRow0West | src/dungeon_tiles.rs:78-87 | Reading the atlas at the position of the top-left corner or a top-wall variant gives back that tile. |
| DungeonTiles.AtlasRoundTripRow0East | src/dungeon_tiles.rs:76-141 | Reading the atlas at the position of the top-right corner or floor variants 0-3 gives back that tile. |
| DungeonTiles.AtlasRoundTripRow1West | src/dungeon_tiles.rs:76-141 | Reading the atlas at the position of left wall 0 or decorated floors 0-3 gives back that tile. |
| DungeonTiles.AtlasRoundTripRow1East | src/dungeon_tiles.rs:76-141 | Reading the atlas at the position of right wall 0 or floor variants 4-7 gives back that tile. |
| DungeonTiles.AtlasRoundTripRow2West | src/dungeon_tiles.rs:76-141 | Reading the atlas at the position of left wall 1 or decorated floors 4 and 7 gives back that tile. |
| DungeonTiles.AtlasRoundTripRow2East | src/dungeon_tiles.rs:76-141 | Reading the atlas at the position of right wall 1 or floor variants 8-11 gives back that tile. |
| DungeonTiles.AtlasRoundTripRow3 | src/dungeon_tiles.rs:76-141 | Reading the atlas at the position of left wall 2, decorated floors 8-11 or right wall 2 gives back that tile. |
| DungeonTiles.AtlasRoundTripRow4 | src/dungeon_tiles.rs:80-93 | Reading the atlas at the position of a bottom corner or a bottom-wall variant gives back that tile. |
| DungeonTiles.AtlasRoundTripRows5And7 | src/dungeon_tiles.rs:76-141 | Reading the atlas at the position of an outer corner, an outer top-wall variant or the void tile gives back that tile. |
| DungeonTiles.AtlasRoundTrip | src/dungeon_tiles.rs:76-141 | Every non-generic tile has an atlas cell from which an independently written reading of the atlas recovers it. |
| DungeonTiles.TexPosInjective | src/dungeon_tiles.rs:76-141 | Two different non-generic tiles never share an atlas position. |
| DungeonTiles.GenericDrawnAsFirstVariant | src/dungeon_tiles.rs:76-141 | A generic tile is drawn like variant 0 of its family. The exception is the unused generic outer top wall, which is drawn like the top-left outer corner. |
| DungeonTiles.Dirs | src/dungeon_tiles.rs:262-287 | Each of the nine neighbourhood entries is the grid cell at its offset when that cell exists, and the default otherwise. So nothing outside the grid is read. |
| DungeonTiles.Pass0 | src/dungeon_tiles.rs:170-214 | The result is `Flat` exactly on free cells, and otherwise a wall piece or `Void`. Each wall piece implies its own rule's guard, with floor on the side it faces. It also implies what its guard leaves open of the earlier rules having failed: for example `WallBottom` has no floor below, and the outer top corners have no floor on the inner diagonal. A cell with no floor around it becomes `Void`. The full first-match order is `DungeonTiles.Pass0FollowsRules`. |
| DungeonTiles.Pass0WallRules | src/dungeon_tiles.rs:172-187 | The floor and straight-wall rows of the rule table match exactly when the corresponding pass 0 conditions hold. |
| DungeonTiles.Pass0InnerCornerRules | src/dungeon_tiles.rs:188-200 | The inner-corner rows of the rule table match exactly when the inner-corner conditions of pass 0 hold. |
| DungeonTiles.Pass0OuterRules | src/dungeon_tiles.rs:201-212 | The outer-corner rows of the rule table match exactly when the outer-corner conditions of pass 0 hold. |
| DungeonTiles.Pass0FollowsRules | src/dungeon_tiles.rs:170-214 | Pass 0 equals the output of the first matching rule of the ordered table, or `Void` when no rule matches. This is first-match-wins in the order floor, walls, inner corners, outer corners. |
| Patterns.FirstMatchAt | src/dungeon_tiles.rs:170-213 | When rule k matches and no earlier rule does, the table's answer is rule k's tile. |
| DungeonTiles.FlatTableFacts | src/dungeon_tiles.rs:294-310 | The first ten floor table entries, the only ones pass 1 can index, are floor variants of the generic floor. None of them is `Flat10` or `Flat11`. |
| DungeonTiles.WallTableFacts | src/dungeon_tiles.rs:328-349 | Each wall variant table holds variants of its own family only, and none of them is floor. |
| DungeonTiles.Pass1Tile | src/dungeon_tiles.rs:216-226 | Pass 1 keeps a tile's family and resolves every generic floor and wall tile. Every other tile is left unchanged. It never produces `Flat10` or `Flat11`, and the result is floor exactly when the input was the generic floor or already floor. |
| DungeonTiles.Pass1DependsOnResidues | src/dungeon_tiles.rs:219-223 | The chosen variant depends on the position only through x mod 4 and y mod 3. |
| DungeonTiles.Pass1Periodic | src/dungeon_tiles.rs:219-223 | The variant pattern repeats every 4 columns and every 3 rows. |
| DungeonTiles.FlatVariantsCollide | src/dungeon_tiles.rs:219 | Positions (3, 0) and (0, 1) both get `Flat3`, so the floor index is not one-to-one on a 4 × 3 block. |
| DungeonTiles.IntendedFlatIndex | src/dungeon_tiles.rs:294-310 | The corrected index is below 12, and its column (index mod 4) and row (index div 4) are x mod 4 and y mod 3, matching the table's layout of four variants in each of three rows. |
| DungeonTiles.IntendedFlatIndexBijective | src/dungeon_tiles.rs:294-310 | A position gets table slot i exactly when x mod 4 and y mod 3 are slot i's column and row. |
| DungeonTiles.Pass1TileIntended | src/dungeon_tiles.rs:216-226 | The corrected pass 1 has the same family, the same floor-ness and the same absence of generic tiles as pass 1 as written. It differs from it only on the generic floor tile. |
| DungeonTiles.IntendedReachesEveryVariant | src/dungeon_tiles.rs:294-310 | With the corrected index, every one of the twelve floor variants is chosen somewhere, including `Flat10` and `Flat11`. |
| DungeonTiles.IntendedVariantsDistinct | src/dungeon_tiles.rs:294-310 | With the corrected index, two positions get the same floor variant exactly when they agree in x mod 4 and y mod 3. |
| DungeonTiles.Pass1 | src/dungeon_tiles.rs:216-217 | Pass 1 at a cell reads that cell only. |
| DungeonTiles.Decorate | src/dungeon_tiles.rs:230-258 | Each of the eight border shapes alone decides the decorated tile, whatever the order in which they are tried, because the shapes are pairwise exclusive. Every other neighbourhood keeps the tile, and the result is always floor. |
| DungeonTiles.Pass2 | src/dungeon_tiles.rs:228-260 | Pass 2 keeps every cell's floor-ness and leaves non-floor cells unchanged. |
| DungeonTiles.DecorateWritesTable | src/dungeon_tiles.rs:311-327 | Any tile the decoration step writes in place of another comes from the decorated-floor table. |
| DungeonTiles.Pass2WritesDecoratedFloor | src/dungeon_tiles.rs:228-260 | Any tile pass 2 writes in place of another comes from the decorated-floor table. |
| DungeonTiles.Pass2Congruent | src/dungeon_tiles.rs:228-229 | Pass 2 at a cell depends only on the cell and the floor-ness of its four direct neighbours. |
| DungeonTiles.Pass0Grid | src/dungeon_tiles.rs:151-155 | The grid after pass 0 has the level's shape, and each cell is pass 0 of the level at that position. |
| DungeonTiles.Pass1Grid | src/dungeon_tiles.rs:156-160 | Whole-grid pass 1 keeps the shape and applies pass 1 to each cell of the input grid. |
| DungeonTiles.Pass2Grid | src/dungeon_tiles.rs:161-165 | Whole-grid pass 2 keeps the shape and applies pass 2 to each cell of the input grid. |
| DungeonTiles.Pass1InPlace | src/dungeon_tiles.rs:156-160 | The in-place pass 1 loop gives exactly the whole-grid pass 1 of the grid before the loop. |
| DungeonTiles.Pass2InPlace | src/dungeon_tiles.rs:161-165 | The in-place pass 2 loop, which reads neighbours it has already rewritten, gives exactly the whole-grid pass 2 of the grid before the loop. |
| DungeonTiles.Pass1OfPass0Tile | src/dungeon_tiles.rs:170-226 | After passes 0 and 1 a cell is floor exactly when pass 0 made it the generic floor, and no generic tile remains. |
| DungeonTiles.Pass2KeepsResolved | src/dungeon_tiles.rs:228-260 | Pass 2 never turns a resolved tile back into a generic one. |
| DungeonTiles.ThreePassCell | src/dungeon_tiles.rs:151-165 | After all three passes a cell is floor exactly when the level cell is free, and it is not generic. |
| DungeonTiles.MapLevelBlocksToTiles | src/dungeon_tiles.rs:143-168 | The tile grid has the level's shape and equals the three whole-grid passes applied in turn. Every tile is floor exactly where the level is free, and no generic tile survives. |
| Sat.CheckSatAxis | src/geometry.rs:59-109 | A degenerate axis is skipped as overlapping. Otherwise the result overlaps exactly when both overlap ranges are positive. A separated axis leaves the best separation alone, and the best distance never grows. An overlapping axis always leaves a best separation, which is the axis scaled by the signed overlap when it replaced the old one. |
| Sat.SignedOverlapIsDepth | src/geometry.rs:84-95 | On overlapping projections the signed overlap is non-zero. Its size is the smaller of the two overlap ranges, and its sign is +1 exactly when the first range is strictly smaller. |
| Sat.UnitXStep | src/geometry.rs:97-106 | On the unit x axis the candidate separation is (o, 0) with squared length o². It replaces the best one exactly when that is strictly shorter. |
| Sat.UnitYStep | src/aabb.rs:103-112 | On the unit y axis the candidate separation is (0, o) with squared length o². It replaces the best one exactly when that is strictly shorter. |
| Sat.SquareLess | src/aabb.rs:109-112 | Comparing squared separations compares overlap magnitudes, so the shorter-overlap axis wins. |
| Sat.AxisLength | src/geometry.rs:55 | The square root of an axis-aligned vector's squared length is positive and squares back to it. |
| Sat.Normalize | src/geometry.rs:52 | Normalising an axis-aligned vector gives the unit vector with the same signs. |
| Sat.EmptyContact | src/geometry.rs:120-122 | Definition: the non-intersecting contact, with zero penetration and the zero vector. |
| Sat.NewContact | src/aabb.rs:130-132 | Definition: an intersecting contact carrying the given penetration and translation vector. |
| Sat.CheckContact | src/geometry.rs:17-57 | The boxes intersect exactly when their projections overlap on both axes, and otherwise the result is the empty contact. When they intersect, the penetration is 1.001 times the smaller of the two axis depths and is positive. The normal is the unit vector of the shallower axis, with x kept on ties, pointing + when the first overlap range is strictly smaller. |
| Sat.ContactOf | src/aabb.rs:55-62 | Once both axes overlap, the reported contact intersects, with penetration 1.001 × the minimum depth and the expected unit normal. |
| Sat.ResolvingSeparates | src/aabb.rs:55-60 | Moving the first box by normal × penetration leaves the two boxes not intersecting. |
| Sat.SwapArguments | src/aabb.rs:195-217 | Swapping the boxes keeps whether they intersect and the penetration. The normal is negated unless the two overlaps on the chosen axis are equal, in which case it is the same. |
| Sat.TouchingDoesNotIntersect | src/aabb.rs:95-98 | Boxes that only share an edge give the empty contact. |
| Sat.NoIntersectionCases | src/geometry.rs:202-224 | The three touching pairs of the tests give the empty contact in both argument orders. |
| Sat.IntersectionCase1 | src/geometry.rs:226-232 | The first overlapping pair gives penetration 5.005 with normal (-1, 0), and swapped gives normal (1, 0). |
| Sat.IntersectionCase2 | src/aabb.rs:203-209 | The second overlapping pair gives penetration 1.5015 with normal (0, -1), and swapped gives normal (0, 1). |
| Sat.IntersectionCase3 | src/geometry.rs:242-248 | The third overlapping pair gives penetration 2.5025 with normal (-1, 0), and swapped gives normal (1, 0). |
| Sat.FromVelocity | src/geometry.rs:172-187 | Left or Right is returned exactly when x is beyond the 0.0001 threshold in that direction and dominates y. Up is returned exactly when y is below -0.0001 and x does not qualify. A velocity inside the threshold on both axes faces Down. |
| Sat.FromVelocityMirror | src/geometry.rs:172-184 | Mirroring the velocity horizontally swaps Left and Right and keeps Up and Down. |
| Collision.Intersects | src/collision.rs:14-44 | Definition: the corners of each box are put in order on each axis. Then on both axes, one box's interval must strictly contain the other's start. |
| Collision.Ordered | src/collision.rs:15-35 | The corner normalisation returns the two coordinates, in non-decreasing order. |
| Collision.AxisCrossesMeaning | src/collision.rs:37-43 | One axis of the test holds exactly when the starts differ and the interval that starts first has not ended when the other starts. |
| Collision.CornerOrderIrrelevant | src/collision.rs:15-35 | Swapping a box's corners, or using its other diagonal, does not change the result. |
| Collision.Symmetric | src/collision.rs:37-43 | The test is symmetric in its two boxes. |
| Collision.TouchingDoesNotIntersect | src/collision.rs:37-41 | Boxes where one ends exactly where the other starts, on the x or the y axis, do not intersect. This holds in either argument order and whatever order the corners are given in. |
| Collision.EqualStartsDoNotIntersect | src/collision.rs:37-41 | Boxes that start at the same coordinate on some axis never intersect. |
| Collision.NotWithItself | src/collision.rs:14-44 | A box does not intersect itself. |
| Collision.AgreesWithContactTest | src/collision.rs:14-44 | For boxes of positive size, an intersection here implies one in the separating-axis test. The converse holds whenever the boxes' starting coordinates differ on both axes. |
| Collision.TestCases | src/collision.rs:53-99 | The pairs from the source's test cases that overlap or contain one another intersect in both orders. The pairs separated on y do not. |
| Level.Classify | src/level.rs:24-28 | Definition: `#` is a wall, `.` is floor, and every other character is void. |
| Level.Parse | src/level.rs:11-31 | No lines is the first error. Otherwise the parse succeeds exactly when no line is longer than the first. The grid then has one column per character of the first line and one cell per line. Cell (x, y) is character x of line y classified, or void past the end of a short line. A failure names the first over-long line. |
| Level.Glyph | src/level.rs:24-28 | The character written for a block classifies back to that block. |
| Level.RenderThenParse | src/level.rs:13-30 | Parsing the text rendering of any non-empty grid gives that grid back. |
| Player.New | src/player.rs:14-24 | A new player stands at (250, 350) with size 25 at rest, with delta 0.15, maximum 2.5 and slowdown 0.92, and its speed is within bounds. |
| Player.Clamp | src/player.rs:48-61 | A clamped component lies in [-max, max]. It is unchanged when already inside and pinned to the bound it crossed otherwise. |
| Player.CapMax | src/player.rs:48-61 | Capping changes only the speed, bounds both components, and leaves a bounded speed unchanged. |
| Player.CapMaxIdempotent | src/player.rs:48-61 | Capping twice is capping once. |
| Player.Thrust | src/player.rs:26-34 | A thrust changes only the speed and keeps it bounded. Up and Left subtract the speed step from the y or x component, Down and Right add it, and the result is clamped to the maximum speed. The other axis's component is just clamped. |
| Player.ThrustStep | src/player.rs:26-34 | For the game's tuning, Up and Left subtract 0.15 from their component and Down and Right add it, clamped at ±2.5. The other component is unchanged. |
| Player.OppositeThrustsCancel | src/player.rs:26-34 | Away from the bounds, a thrust followed by the opposite thrust restores the player exactly. |
| Player.Advance | src/player.rs:36-46 | Advancing moves the position by the speed before damping and changes no parameter. The new speed is each component multiplied by the slowdown factor, then clamped to the maximum speed, so it stays bounded. |
| Player.AdvanceOnlyDamps | src/player.rs:36-46 | With the game's tuning the clamp never fires on advance: each component is scaled by 0.92 and shrinks towards 0 without changing sign. |
| Player.RunKeepsInvariant | src/player.rs:26-61 | Any sequence of thrusts and advances keeps the tuning and the speed bound. |
| Player.FromNewInvariant | src/player.rs:14-61 | From a new player, the speed stays within [-2.5, 2.5] on both axes forever. |
| PlayerSprite.New | src/player_sprite.rs:20-27 | A new sprite is at the origin, facing down, idle, on frame 0, so it meets the frame bound that syncing requires. |
| PlayerSprite.GaitAndAttackDetermineState | src/player_sprite.rs:137-143 | The six live states are told apart by their gait and whether they attack. |
| PlayerSprite.FindState | src/player_sprite.rs:66-86 | The gait is Run from squared speed 2.5, Walk from 0.5, else Idle. The attacking variant is chosen exactly when attacking, and Hurt or Death never. |
| PlayerSprite.FindStateMonotone | src/player_sprite.rs:66-80 | A faster player never gets a slower gait. |
| PlayerSprite.FindDirection | src/player_sprite.rs:88-102 | Left or Right is chosen exactly when x is non-zero with that sign and strictly dominates y. Up is chosen exactly when x is non-zero, does not dominate, and y is negative. Zero x faces Down. |
| PlayerSprite.FindDirectionMirror | src/player_sprite.rs:88-102 | Mirroring the velocity horizontally swaps Left and Right and keeps Up and Down. |
| PlayerSprite.FindTextureRow | src/player_sprite.rs:104-111 | The sheet row is one of the four rows 0-3. |
| PlayerSprite.TextureRowBijection | src/player_sprite.rs:104-111 | Facings and sheet rows 0-3 correspond one-to-one. |
| PlayerSprite.FindTextureId | src/player_sprite.rs:113-124 | Every state is drawn from one of the eight orc sheets. |
| PlayerSprite.TextureIdInjective | src/player_sprite.rs:113-124 | Distinct states are drawn from distinct sheets. |
| PlayerSprite.NextFrame | src/player_sprite.rs:60-63 | The frame counter stays in [0, 4). It advances by exactly 0.15, and wraps to 0 exactly when the advanced value would reach 4. |
| PlayerSprite.Sync | src/player_sprite.rs:55-64 | The sprite follows the player's position, takes the computed facing and state, and keeps its frame in [0, 4). |
| PlayerSprite.FrameAfter | src/player_sprite.rs:60-63 | After any number of syncs the frame counter lies in [0, 4). |
| PlayerSprite.FrameCycle | src/player_sprite.rs:127-131 | From 0 the counter reads 0.15·n for n < 27 and wraps to 0 on the 27th step. |
| PlayerSprite.FramePeriodic | src/player_sprite.rs:60-63 | The frame sequence from 0 repeats with period 27. |
| LevelMesh.BuildIndices | src/level_mesh.rs:61-67 | There are 600 indices. Index k is the pattern 0,2,3,0,1,2 at k mod 6, offset by four times the quad number k / 6. Each index stays within its own quad's four vertices and below the vertex count 400, which fits in u16. |
| LevelMesh.BuildVertices | src/level_mesh.rs:35-59 | There are 400 vertices, and vertex v is corner v mod 4 of the unit quad in the order the source emits them. |
| LevelMesh.QuadCoversUnitSquare | src/level_mesh.rs:35-67 | Each quad's four vertices are pairwise distinct and are exactly the four corners of the unit square. The quad's two triangles together use all four of its vertices. |
| LevelMesh.TrianglesStayInOneQuad | src/level_mesh.rs:61-67 | Every triangle joins three distinct corners of the same quad, and the two triangles of a quad share the diagonal from corner 0 to corner 2. |
| Input.New | src/input.rs:13-21 | A new latch holds no key. |
| Input.SetHeld | src/input.rs:28-42 | Setting one key's flag changes that flag to the given value and no other. |
| Input.HandleKeyEvent | src/input.rs:23-47 | A key-down of a tracked key sets exactly that key's flag. A key-up clears exactly that flag. Any other event, untracked key or missing key code leaves the state unchanged. |
| Input.HandleIdempotent | src/input.rs:23-47 | Handling the same event twice is the same as handling it once. |
| Input.HandleWritesEffect | src/input.rs:23-47 | Handling an event writes its key's flag, or does nothing for events without a tracked key. |
| Input.SetHeldCommute | src/input.rs:28-42 | Writes to two different keys' flags commute. |
| Input.DifferentKeysCommute | src/input.rs:23-47 | Key events for different key codes can be handled in either order. |
| Input.LastEventWins | src/input.rs:23-47 | A key's flag reflects its last key-down or key-up, whatever events for other keys follow. |
| Input.LastEventWinsFrom | src/input.rs:23-47 | Events not naming a key never change that key's flag. |
| Wasd.Axis | src/camera.rs:15-26 | The net direction of a key pair is in {-1, 0, 1}. It is 0 exactly when both or neither are held, and +1 exactly when only the plus key is. |
| Camera.New | src/camera.rs:9-13 | A new camera is at the origin. |
| Camera.Sync | src/camera.rs:14-27 | Each axis moves 15 units times the net direction of its key pair: A/D for x, W/S for y. |
| Camera.OppositeKeysCancel | src/camera.rs:14-27 | Holding both or neither key of an axis leaves that coordinate unchanged, and with no key held the camera stays put. |
| Camera.SyncTimesMoves | src/camera.rs:14-27 | n syncs with the same keys move the camera n steps. |
| Observer.HandleResize | src/observer.rs:57-67 | The view half-width and half-height are the window size halved and divided by 160 with truncation. The bounds are symmetric about the eye, depth runs from -10 to 10, and eye, target and up are untouched. |
| Observer.ResizeBounds | src/observer.rs:57-60 | The two truncating divisions equal one division by 320, so the view never spans more pixels than the window. |
| Observer.ApplyInput | src/observer.rs:89-106 | Eye and target move together by 0.065 times the net key direction: W/S along z, A/D along x. Height and every other field are unchanged. |
| Observer.OppositeKeysCancel | src/observer.rs:89-106 | Opposite keys cancel on their axis, and with no key held the observer does not move. |
| Observer.ResizeAndPanCommute | src/observer.rs:57-106 | Resizing and panning touch disjoint fields, so they commute. |

## Findings

| source | as written | input that shows it | evidently intended | confidence | as-written member | corrected member |
|---|---|---|---|---|---|---|
| src/dungeon_tiles.rs:219 | Pass 1 picks the floor variant at index `x % 4 + (y % 3) * 3`, but the table is laid out four to a row: its comments place `Flat4` at column 0, row 1 (src/dungeon_tiles.rs:294-310). | Cells (3, 0) and (0, 1) both get `Flat3`, and no cell ever gets `Flat10` or `Flat11`. | The index `x % 4 + (y % 3) * 4`, which gives each of the twelve (x mod 4, y mod 3) positions its own variant. | medium; not executed | DungeonTiles.FlatVariantsCollide | DungeonTiles.IntendedVariantsDistinct |

## Left out

- Rendering, windowing, textures, GPU buffers, SDL event polling, the main loop, and the scene and app wiring are not part of this model. The vertex and index data of the level mesh are modelled, but their upload in `LevelMesh::new` is not.
- `Level::new`'s file read is not modelled. The parse takes the file's lines as a parameter.
- Lines are sequences of characters. The source sizes the grid by the first line's byte length but walks characters, and the two agree only for ASCII text, which is what the model assumes.
- f32 and f64 arithmetic is modelled as exact real arithmetic, so rounding, infinities and NaN are not modelled. In particular the 27-step frame cycle of `PlayerSprite.FrameCycle` is exact over the reals, and f32 accumulation is not modelled.
- Sat.CheckContact starts with no best separation instead of the float type's largest value. The two agree, because every finite squared separation is below that value.
- Sat.Normalize and Sat.AxisLength are defined only for axis-aligned non-zero vectors. Those are the only ones the contact test produces, because it tests the unit x and y axes only.
- `Observer::new`, `Observer::update` and `Observer::follow_player` are not modelled. They build matrices and GPU uniforms and normalise arbitrary vectors.
- The camera and observer read W/A/S/D flags that the input latch in `input.rs` does not have. They are modelled with the separate `Wasd` flags.
- The sprite reads a player velocity and attack flag that `player.rs` does not have. It is modelled on the `PlayerView` record.
- `PlayerSprite::render` is not modelled: it draws through SDL. The sheet row and texture choice it uses are modelled.
- The texture coordinates that `build_vertices` attaches to each vertex are not modelled.
- The `Void` fill of the tile grid before pass 0 is not modelled, because pass 0 overwrites every cell.
- The generic `WallTopOuter` tile is never produced by pass 0 and is not resolved by pass 1. It is modelled, but no pass reaches it.
- The merger and the autotiler take a non-empty rectangular grid. The source indexes `m[0]` and would panic on an empty level. It assumes equal column heights, which the level parse always produces. The merger's i32 coordinates are modelled as unbounded integers, so levels wider or taller than 2^31 cells are not modelled.
