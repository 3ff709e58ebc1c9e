/** The quarter map and how the full level is unfolded from it: the full grid
    is (2h-1) x (2w-1) cells, and each full cell is read back from one cell of
    the quarter together with the flips of the quadrant it lies in. */
module Mirroring {

  /** A quarter map: rows of integer tile codes. */
  type Grid = seq<seq<int>>

  function Width(g: Grid): nat
  {
    if |g| == 0 then 0 else |g[0]|
  }

  /** A rectangular map with at least one row and one column. */
  predicate IsGrid(g: Grid)
  {
    |g| >= 1 && |g[0]| >= 1 && forall i :: 0 <= i < |g| ==> |g[i]| == |g[0]|
  }

  predicate InBounds(g: Grid, row: int, col: int)
  {
    0 <= row < |g| && 0 <= col < Width(g)
  }

  /** The full level is two copies of the quarter sharing its last row, so
      that row is the middle of the level: it is its own mirror image. */
  function FullHeight(mapHeight: int): (fullHeight: int)
    ensures fullHeight - 1 - (mapHeight - 1) == mapHeight - 1
  {
    2 * mapHeight - 1
  }

  /** Likewise the quarter's last column is the middle column of the level. */
  function FullWidth(mapWidth: int): (fullWidth: int)
    ensures fullWidth - 1 - (mapWidth - 1) == mapWidth - 1
  {
    2 * mapWidth - 1
  }

  predicate InFullGrid(mapHeight: int, mapWidth: int, row: int, col: int)
  {
    0 <= row < FullHeight(mapHeight) && 0 <= col < FullWidth(mapWidth)
  }

  /** A quarter-map cell together with the flips of the quadrant that shows it:
      top-left none, top-right horizontal, bottom-left vertical, bottom-right
      both. */
  datatype SourceCell = SourceCell(row: int, col: int, flipH: bool, flipV: bool)

  /** Maps a full-grid cell back to the quarter map. Every full cell lands in
      bounds, and a mirrored copy never reads the shared centre row or column. */
  function MapToSource(mapHeight: int, mapWidth: int, row: int, col: int): (s: SourceCell)
    requires InFullGrid(mapHeight, mapWidth, row, col)
    ensures 0 <= s.row < mapHeight && 0 <= s.col < mapWidth
    ensures s.flipH <==> col >= mapWidth
    ensures s.flipV <==> row >= mapHeight
    ensures s.flipH ==> s.col < mapWidth - 1
    ensures s.flipV ==> s.row < mapHeight - 1
  {
    if row < mapHeight && col < mapWidth then
      SourceCell(row, col, false, false)
    else if row < mapHeight && col >= mapWidth then
      SourceCell(row, mapWidth - 1 - (col - mapWidth + 1), true, false)
    else if row >= mapHeight && col < mapWidth then
      SourceCell(mapHeight - 1 - (row - mapHeight + 1), col, false, true)
    else
      SourceCell(mapHeight - 1 - (row - mapHeight + 1), mapWidth - 1 - (col - mapWidth + 1), true, true)
  }

  /** The seam test of the generator: a cell on the centre row (or column)
      that was reached through a mirrored branch. No cell satisfies it. */
  function OnDuplicateSeam(mapHeight: int, mapWidth: int, row: int, col: int): (skip: bool)
    ensures !skip
  {
    (row == mapHeight - 1 && row >= mapHeight) || (col == mapWidth - 1 && col >= mapWidth)
  }

  /** The copies the four quadrants actually show: a mirrored copy exists only
      off the centre row or column. */
  predicate IsShownCopy(mapHeight: int, mapWidth: int, s: SourceCell)
  {
    0 <= s.row < mapHeight && 0 <= s.col < mapWidth &&
    (s.flipH ==> s.col < mapWidth - 1) && (s.flipV ==> s.row < mapHeight - 1)
  }

  datatype Cell = Cell(row: int, col: int)

  /** Where a shown copy of a quarter cell lies in the full grid. */
  function FromSource(mapHeight: int, mapWidth: int, s: SourceCell): Cell
  {
    Cell(if s.flipV then 2 * mapHeight - 2 - s.row else s.row,
         if s.flipH then 2 * mapWidth - 2 - s.col else s.col)
  }

  /** Every full cell is one shown copy of one quarter cell ... */
  lemma MapToSourceRoundTrip(mapHeight: int, mapWidth: int, row: int, col: int)
    requires InFullGrid(mapHeight, mapWidth, row, col)
    ensures IsShownCopy(mapHeight, mapWidth, MapToSource(mapHeight, mapWidth, row, col))
    ensures FromSource(mapHeight, mapWidth, MapToSource(mapHeight, mapWidth, row, col)) == Cell(row, col)
  {
  }

  /** ... and every shown copy is exactly one full cell, so the map is a
      bijection and the centre row and column appear only once. */
  lemma FromSourceRoundTrip(mapHeight: int, mapWidth: int, s: SourceCell)
    requires IsShownCopy(mapHeight, mapWidth, s)
    ensures InFullGrid(mapHeight, mapWidth, FromSource(mapHeight, mapWidth, s).row, FromSource(mapHeight, mapWidth, s).col)
    ensures MapToSource(mapHeight, mapWidth, FromSource(mapHeight, mapWidth, s).row, FromSource(mapHeight, mapWidth, s).col) == s
  {
  }

  /** The full rows showing quarter row sr are sr and its mirror 2h-2-sr (one
      row when sr is the centre row); likewise for columns. */
  lemma Preimages(mapHeight: int, mapWidth: int, row: int, col: int, sr: int, sc: int)
    requires InFullGrid(mapHeight, mapWidth, row, col)
    requires 0 <= sr < mapHeight && 0 <= sc < mapWidth
    ensures MapToSource(mapHeight, mapWidth, row, col).row == sr <==> row == sr || row == 2 * mapHeight - 2 - sr
    ensures MapToSource(mapHeight, mapWidth, row, col).col == sc <==> col == sc || col == 2 * mapWidth - 2 - sc
  {
  }

  /** A cell and its mirror image across the centre column read the same
      quarter cell; so do a cell and its mirror across the centre row. */
  lemma MirrorSymmetry(mapHeight: int, mapWidth: int, row: int, col: int)
    requires InFullGrid(mapHeight, mapWidth, row, col)
    ensures var s := MapToSource(mapHeight, mapWidth, row, col);
            var m := MapToSource(mapHeight, mapWidth, row, FullWidth(mapWidth) - 1 - col);
            m.row == s.row && m.col == s.col && m.flipV == s.flipV &&
            (col != mapWidth - 1 ==> m.flipH == !s.flipH)
    ensures var s := MapToSource(mapHeight, mapWidth, row, col);
            var m := MapToSource(mapHeight, mapWidth, FullHeight(mapHeight) - 1 - row, col);
            m.row == s.row && m.col == s.col && m.flipH == s.flipH &&
            (row != mapHeight - 1 ==> m.flipV == !s.flipV)
  {
  }

  /** The tile code shown at a full-grid cell: the top-left quadrant shows
      the quarter as it is, the others show the cell at the mirrored column,
      row or both. */
  function TileAt(g: Grid, row: int, col: int): (code: int)
    requires IsGrid(g) && InFullGrid(|g|, Width(g), row, col)
    ensures var h, w := |g|, Width(g);
      var r := if row < h then row else FullHeight(h) - 1 - row;
      var c := if col < w then col else FullWidth(w) - 1 - col;
      0 <= r < h && 0 <= c < w && code == g[r][c]
  {
    var s := MapToSource(|g|, Width(g), row, col);
    g[s.row][s.col]
  }

  /** The tile codes of the full level are symmetric about both centre lines. */
  lemma TileSymmetry(g: Grid, row: int, col: int)
    requires IsGrid(g) && InFullGrid(|g|, Width(g), row, col)
    ensures TileAt(g, row, FullWidth(Width(g)) - 1 - col) == TileAt(g, row, col)
    ensures TileAt(g, FullHeight(|g|) - 1 - row, col) == TileAt(g, row, col)
    ensures TileAt(g, FullHeight(|g|) - 1 - row, FullWidth(Width(g)) - 1 - col) == TileAt(g, row, col)
  {
    MirrorSymmetry(|g|, Width(g), row, col);
    MirrorSymmetry(|g|, Width(g), row, FullWidth(Width(g)) - 1 - col);
  }
}
