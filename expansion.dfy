/** The level generator proper: it unfolds the quarter map into the full
    level and emits one placement per shown tile, in row-major order over the
    full grid, at position (col, -row) with the computed rotation. */
module Expansion {
  import opened Tiles
  import opened Orientation
  import opened Mirroring
  import opened TileRotation
  import opened Placements

  /** The rows of the top-left quarter of the maze, top to bottom. */
  function LevelMapRow(row: int): (codes: seq<int>)
    requires 0 <= row < 15
    ensures |codes| == 14
  {
    match row
    case 0 => [1,2,2,2,2,2,2,7,2,2,2,2,2,1]
    case 1 => [2,5,5,5,5,5,5,5,5,5,5,5,5,2]
    case 2 => [2,6,3,4,4,3,5,3,4,4,4,3,6,2]
    case 3 => [2,5,4,0,0,4,5,4,0,0,0,4,5,2]
    case 4 => [2,5,3,4,4,3,5,3,4,4,4,3,5,2]
    case 5 => [2,5,5,5,5,5,5,5,5,5,5,5,5,2]
    case 6 => [2,5,3,4,4,3,5,3,3,5,3,4,4,2]
    case 7 => [2,5,4,0,0,4,5,4,4,5,4,0,0,2]
    case 8 => [2,5,5,5,5,5,5,4,4,5,5,5,5,2]
    case 9 => [2,5,3,4,4,3,5,4,3,4,4,3,5,2]
    case 10 => [2,5,4,0,0,4,5,4,4,0,0,4,5,2]
    case 11 => [2,5,3,4,4,3,5,4,4,0,0,0,5,2]
    case 12 => [2,5,5,5,5,5,5,3,3,0,3,4,5,8]
    case 13 => [2,5,5,5,5,5,5,0,0,0,4,0,5,2]
    case _ => [1,2,2,2,2,2,2,2,2,2,2,2,2,1]
  }

  /** The top-left quarter of the maze, 15 rows by 14 columns. */
  function LevelMap(): (g: Grid)
    ensures IsGrid(g) && |g| == 15 && Width(g) == 14
  {
    seq(15, row requires 0 <= row < 15 => LevelMapRow(row))
  }

  /** What the generator emits for one cell: nothing outside the full grid,
      on the seam test, for an empty cell or for a code without a prefab;
      otherwise the tile at (col, -row) with the rotation its quadrant calls
      for. */
  function CellPlacement(g: Grid, row: int, col: int): (p: Option<Placement>)
    ensures !(IsGrid(g) && InFullGrid(|g|, Width(g), row, col)) ==> p.None?
    ensures IsGrid(g) && InFullGrid(|g|, Width(g), row, col) ==>
      (p.Some? <==> 1 <= TileAt(g, row, col) <= 8) &&
      (p.Some? ==> p.value.tileType == TileAt(g, row, col)) &&
      (p.Some? ==> PlacedAt(p.value) == Cell(row, col) && IsQuarter(p.value.rotation))
  {
    if !(IsGrid(g) && InFullGrid(|g|, Width(g), row, col)) then None
    else
      var mapHeight, mapWidth := |g|, Width(g);
      var s := MapToSource(mapHeight, mapWidth, row, col);
      if OnDuplicateSeam(mapHeight, mapWidth, row, col) then None
      else
        var tileType := g[s.row][s.col];
        RotationRange(g, tileType, s.row, s.col, s.flipH, s.flipV);
        if tileType == Empty || PrefabFor(tileType).None? then None
        else Some(Placement(tileType, col, -row, Rotation(g, tileType, s.row, s.col, s.flipH, s.flipV)))
  }

  /** The same rule as a function value, for the generic listing lemmas. */
  function Cells(g: Grid): CellRule
  {
    (row, col) => CellPlacement(g, row, col)
  }

  /** What the generator emits for every full-grid cell before (row, col),
      in the order of its two nested loops. This is `Listing` of `Cells(g)`
      (see SweepIsListing), written out on the rule itself so that the
      generator's loop invariants do not go through a function value. */
  function Sweep(g: Grid, width: nat, row: nat, col: nat): seq<Placement>
    requires col <= width
    decreases row, col
  {
    if col == 0 then
      if row == 0 then [] else Sweep(g, width, row - 1, width)
    else
      Sweep(g, width, row, col - 1) + Emitted(CellPlacement(g, row, col - 1))
  }

  /** One more cell of the sweep appends what that cell emits. */
  lemma SweepStep(g: Grid, width: nat, row: nat, col: nat)
    requires col < width
    ensures Sweep(g, width, row, col + 1) == Sweep(g, width, row, col) + Emitted(CellPlacement(g, row, col))
  {
  }

  /** The cell (row, col - 1) adds the same placements to the sweep as to
      the listing of the generator's rule. */
  lemma SweepListingStep(g: Grid, width: nat, row: nat, col: nat)
    requires 0 < col <= width
    requires Sweep(g, width, row, col - 1) == Listing(Cells(g), width, row, col - 1)
    ensures Sweep(g, width, row, col) == Listing(Cells(g), width, row, col)
  {
    assert Emitted(Cells(g)(row, col - 1)) == Emitted(CellPlacement(g, row, col - 1));
  }

  /** Within one row, the sweep and the listing grow alike. */
  lemma {:induction false} SweepIsListingInRow(g: Grid, width: nat, row: nat, col: nat)
    requires col <= width
    requires Sweep(g, width, row, 0) == Listing(Cells(g), width, row, 0)
    ensures Sweep(g, width, row, col) == Listing(Cells(g), width, row, col)
  {
    if col > 0 {
      SweepIsListingInRow(g, width, row, col - 1);
      SweepListingStep(g, width, row, col);
    }
  }

  /** The generator's sweep is the row-major listing of its rule. */
  lemma {:induction false} SweepIsListing(g: Grid, width: nat, row: nat)
    ensures Sweep(g, width, row, 0) == Listing(Cells(g), width, row, 0)
  {
    if row > 0 {
      SweepIsListing(g, width, row - 1);
      SweepIsListingInRow(g, width, row - 1, width);
    }
  }

  /** Everything one run of the generator emits, in order. */
  function Expansion(g: Grid): seq<Placement>
    requires IsGrid(g)
  {
    Sweep(g, FullWidth(Width(g)), FullHeight(|g|), 0)
  }

  /** The generator's output is exactly the list of the placements of all
      full-grid cells that get one, each at its own cell, strictly in
      row-major order (so no cell, the centre row and column included, is
      emitted twice). */
  lemma ExpansionIsRowMajorListing(g: Grid)
    requires IsGrid(g)
    ensures forall k :: 0 <= k < |Expansion(g)| ==>
      InFullGrid(|g|, Width(g), PlacedAt(Expansion(g)[k]).row, PlacedAt(Expansion(g)[k]).col) &&
      CellPlacement(g, PlacedAt(Expansion(g)[k]).row, PlacedAt(Expansion(g)[k]).col) == Some(Expansion(g)[k])
    ensures forall i, j :: 0 <= i < j < |Expansion(g)| ==>
      Before(PlacedAt(Expansion(g)[i]), PlacedAt(Expansion(g)[j]))
    ensures forall row, col :: InFullGrid(|g|, Width(g), row, col) && 1 <= TileAt(g, row, col) <= 8 ==>
      CellPlacement(g, row, col).Some? && CellPlacement(g, row, col).value in Expansion(g)
  {
    var cell, height, width := Cells(g), FullHeight(|g|), FullWidth(Width(g));
    assert WellPlaced(cell);
    SweepIsListing(g, width, height);
    forall k | 0 <= k < |Expansion(g)|
      ensures InFullGrid(|g|, Width(g), PlacedAt(Expansion(g)[k]).row, PlacedAt(Expansion(g)[k]).col)
      ensures CellPlacement(g, PlacedAt(Expansion(g)[k]).row, PlacedAt(Expansion(g)[k]).col) == Some(Expansion(g)[k])
    {
      ListingAt(cell, width, height, 0, k);
    }
    forall i, j | 0 <= i < j < |Expansion(g)|
      ensures Before(PlacedAt(Expansion(g)[i]), PlacedAt(Expansion(g)[j]))
    {
      ListingOrdered(cell, width, height, 0, i, j);
    }
    forall row, col | InFullGrid(|g|, Width(g), row, col) && 1 <= TileAt(g, row, col) <= 8
      ensures CellPlacement(g, row, col).Some? && CellPlacement(g, row, col).value in Expansion(g)
    {
      ListingComplete(cell, width, height, 0, row, col);
    }
  }

  /** A tile appears at a cell exactly when one appears at its mirror image
      across either centre line, and it is the same kind of tile. */
  lemma PlacementSymmetry(g: Grid, row: int, col: int)
    requires IsGrid(g) && InFullGrid(|g|, Width(g), row, col)
    ensures var p, m := CellPlacement(g, row, col), CellPlacement(g, row, FullWidth(Width(g)) - 1 - col);
      p.Some? == m.Some? && (p.Some? ==> p.value.tileType == m.value.tileType)
    ensures var p, m := CellPlacement(g, row, col), CellPlacement(g, FullHeight(|g|) - 1 - row, col);
      p.Some? == m.Some? && (p.Some? ==> p.value.tileType == m.value.tileType)
  {
    TileSymmetry(g, row, col);
  }

  /** Off the centre column, the tile at a cell's mirror image across that
      column is the mirror image of the tile: a corner with its arms swapped
      left for right, a T-junction pointing the mirrored way, a straight wall
      or a pellet unchanged. */
  lemma PlacementsMirrorAcrossCentreColumn(g: Grid, row: int, col: int)
    requires IsGrid(g) && InFullGrid(|g|, Width(g), row, col) && col != Width(g) - 1
    requires CellPlacement(g, row, col).Some?
    ensures var p, m := CellPlacement(g, row, col).value, CellPlacement(g, row, FullWidth(Width(g)) - 1 - col).value;
      (IsCorner(p.tileType) ==>
         CornerArms(m.rotation) == Arms(MirrorH(CornerArms(p.rotation).horizontal), CornerArms(p.rotation).vertical)) &&
      (p.tileType == TJunction ==> TPointing(m.rotation) == MirrorH(TPointing(p.rotation))) &&
      (!IsCorner(p.tileType) && p.tileType != TJunction ==> m.rotation == p.rotation)
  {
    var s := MapToSource(|g|, Width(g), row, col);
    MirrorSymmetry(|g|, Width(g), row, col);
    HorizontalMirrorOfRotation(g, g[s.row][s.col], s.row, s.col, s.flipH, s.flipV);
  }

  /** Off the centre row, likewise for the mirror image across that row. */
  lemma PlacementsMirrorAcrossCentreRow(g: Grid, row: int, col: int)
    requires IsGrid(g) && InFullGrid(|g|, Width(g), row, col) && row != |g| - 1
    requires CellPlacement(g, row, col).Some?
    ensures var p, m := CellPlacement(g, row, col).value, CellPlacement(g, FullHeight(|g|) - 1 - row, col).value;
      (IsCorner(p.tileType) ==>
         CornerArms(m.rotation) == Arms(CornerArms(p.rotation).horizontal, MirrorV(CornerArms(p.rotation).vertical))) &&
      (p.tileType == TJunction ==> TPointing(m.rotation) == MirrorV(TPointing(p.rotation))) &&
      (!IsCorner(p.tileType) && p.tileType != TJunction ==> m.rotation == p.rotation)
  {
    var s := MapToSource(|g|, Width(g), row, col);
    MirrorSymmetry(|g|, Width(g), row, col);
    VerticalMirrorOfRotation(g, g[s.row][s.col], s.row, s.col, s.flipH, s.flipV);
  }

  /** T-junctions on the top row of the quarter map point up in the upper
      half of the level and down in the lower half; all others point right
      in the left half and left in the right half. */
  lemma TJunctionOrientation(g: Grid, row: int, col: int)
    requires IsGrid(g) && InFullGrid(|g|, Width(g), row, col) && TileAt(g, row, col) == TJunction
    ensures CellPlacement(g, row, col).Some?
    ensures TPointing(CellPlacement(g, row, col).value.rotation) ==
      if MapToSource(|g|, Width(g), row, col).row == 0 then (if row >= |g| then Down else Up)
      else (if col >= Width(g) then Left else Right)
  {
  }

  /** The T-junction at quarter cell (0,7) points up in the two top quadrants
      (rotation 270) and down in the two bottom ones (rotation 90). */
  lemma TJunctionCopies(row: int, col: int)
    requires (row == 0 || row == 28) && (col == 7 || col == 19)
    ensures LevelMap()[0][7] == TJunction
    ensures CellPlacement(LevelMap(), row, col) ==
      Some(Placement(TJunction, col, -row, if row == 0 then 270 else 90))
  {
    var g := LevelMap();
    assert g[0] == LevelMapRow(0);
    TJunctionOrientation(g, row, col);
  }

  /** The outside corner at quarter cell (0,0) joins its right and lower
      neighbours, so its base rotation is 0. */
  lemma OuterCornerBase()
    ensures LevelMap()[0][0] == OutsideCorner
    ensures CornerRotation(LevelMap(), 0, 0) == 0
  {
    var g := LevelMap();
    assert g[0] == LevelMapRow(0) && g[1] == LevelMapRow(1);
  }

  /** A corner of that kind at the top-left of a quarter map is copied to
      the four corners of the full level, turned so that its arms point into
      the level: 0 top left, 90 top right, 270 bottom left and 180 bottom
      right. */
  lemma OuterCornerCopies(g: Grid, row: int, col: int)
    requires IsGrid(g) && g[0][0] == OutsideCorner && CornerRotation(g, 0, 0) == 0
    requires (row == 0 || row == FullHeight(|g|) - 1) && (col == 0 || col == FullWidth(Width(g)) - 1)
    ensures CellPlacement(g, row, col) ==
      Some(Placement(OutsideCorner, col, -row,
        if row == 0 then (if col == 0 then 0 else 90) else (if col == 0 then 270 else 180)))
  {
  }

  /** A shown cell holding a non-empty code emits the tile the generator
      instantiates there, if the code has a prefab. */
  lemma EmitsTile(g: Grid, row: int, col: int, tileType: int, rotation: int)
    requires IsGrid(g) && InFullGrid(|g|, Width(g), row, col)
    requires var s := MapToSource(|g|, Width(g), row, col);
      tileType == g[s.row][s.col] && tileType != Empty &&
      rotation == Rotation(g, tileType, s.row, s.col, s.flipH, s.flipV)
    ensures Emitted(CellPlacement(g, row, col)) ==
      if PrefabFor(tileType).Some? then [Placement(tileType, col, -row, rotation)] else []
  {
  }

  /** A cell whose quarter cell is empty emits nothing. */
  lemma EmitsNothing(g: Grid, row: int, col: int)
    requires IsGrid(g) && InFullGrid(|g|, Width(g), row, col)
    requires var s := MapToSource(|g|, Width(g), row, col); g[s.row][s.col] == Empty
    ensures Emitted(CellPlacement(g, row, col)) == []
  {
  }

  /** The object that builds the level in the scene. */
  class LevelGenerator {
    const levelMap: Grid
    var mapWidth: int
    var mapHeight: int
    /** The tiles under the generated-level parent, in creation order. */
    var generated: seq<Placement>

    constructor ()
      ensures levelMap == LevelMap()
      ensures mapWidth == 0 && mapHeight == 0 && generated == []
    {
      levelMap := LevelMap();
      mapWidth, mapHeight := 0, 0;
      generated := [];
    }

    /** Creates one tile under the level parent; a code with no prefab
        creates nothing. */
    method InstantiateTile(tileType: int, x: int, y: int, rotation: int)
      modifies this`generated
      ensures generated == old(generated) +
        if PrefabFor(tileType).Some? then [Placement(tileType, x, y, rotation)] else []
    {
      var prefab := PrefabFor(tileType);
      if prefab.None? {
        return;
      }
      generated := generated + [Placement(tileType, x, y, rotation)];
    }

    /** One step of the sweep: maps a full-grid cell back to the quarter map,
        skips it on the seam test or when the code there is empty, and
        otherwise instantiates the tile at (col, -row) with its rotation. */
    method GenerateCell(row: int, col: int)
      requires IsGrid(levelMap) && mapHeight == |levelMap| && mapWidth == Width(levelMap)
      requires InFullGrid(mapHeight, mapWidth, row, col)
      modifies this`generated
      ensures generated == old(generated) + Emitted(CellPlacement(levelMap, row, col))
    {
      var s := MapToSource(mapHeight, mapWidth, row, col);
      if !OnDuplicateSeam(mapHeight, mapWidth, row, col) {
        var tileType := levelMap[s.row][s.col];
        if tileType != Empty {
          var rotation := CalculateRotation(levelMap, tileType, s.row, s.col, s.flipH, s.flipV);
          InstantiateTile(tileType, col, -row, rotation);
          EmitsTile(levelMap, row, col, tileType, rotation);
        } else {
          EmitsNothing(levelMap, row, col);
        }
      }
    }

    /** Builds the whole level under a new parent: one sweep over the full
        grid, row by row and column by column. */
    method GenerateLevel()
      requires IsGrid(levelMap)
      modifies this
      ensures mapHeight == |levelMap| && mapWidth == Width(levelMap)
      ensures generated == Expansion(levelMap)
    {
      generated := [];
      mapHeight := |levelMap|;
      mapWidth := Width(levelMap);
      var fullWidth: nat := FullWidth(mapWidth);
      var fullHeight := FullHeight(mapHeight);

      for row := 0 to fullHeight
        invariant mapHeight == |levelMap| && mapWidth == Width(levelMap)
        invariant generated == Sweep(levelMap, fullWidth, row, 0)
      {
        for col := 0 to fullWidth
          invariant mapHeight == |levelMap| && mapWidth == Width(levelMap)
          invariant generated == Sweep(levelMap, fullWidth, row, col)
        {
          GenerateCell(row, col);
          SweepStep(levelMap, fullWidth, row, col);
        }
      }
    }
  }
}
