/**
 * The level grid shared by the loader, the wall merger and the autotiler:
 * a column-major array `m[x][y]` of cell kinds.
 */
module Blocks {

  /** The kind of one level cell. `Void` is also what lies outside the grid. */
  datatype LevelBlock = Free | Wall | Void

  /**
   * A usable grid: at least one column (the source reads `m[0]`), and every
   * column as tall as the first one.
   */
  predicate IsGrid<T>(m: seq<seq<T>>) {
    |m| > 0 && forall x :: 0 <= x < |m| ==> |m[x]| == |m[0]|
  }

  /** True iff (x, y) names a cell of the grid. */
  predicate InBounds<T>(m: seq<seq<T>>, x: int, y: int)
    requires IsGrid(m)
  {
    0 <= x < |m| && 0 <= y < |m[0]|
  }

  /** Cell (x, y) of m, or the default d for any position outside the grid. */
  function At<T>(m: seq<seq<T>>, x: int, y: int, d: T): T
    requires IsGrid(m)
  {
    if InBounds(m, x, y) then m[x][y] else d
  }
}
