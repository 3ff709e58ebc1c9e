/** What the generator hands to the scene, and listings of placements: what
    a rule giving at most one placement per cell emits when it is run over a
    grid in row-major order, with the facts that make such a listing a
    faithful, ordered and complete record of the rule. */
module Placements {
  import opened Tiles
  import opened Mirroring

  /** A tile handed to the scene: its code, its position in grid units and
      its rotation in degrees. */
  datatype Placement = Placement(tileType: int, x: int, y: int, rotation: int)

  /** The full-grid cell a placement stands on: x is the column and y the
      negated row. */
  function PlacedAt(p: Placement): Cell
  {
    Cell(-p.y, p.x)
  }

  /** Row-major order on full-grid cells. */
  predicate Before(a: Cell, b: Cell)
  {
    a.row < b.row || (a.row == b.row && a.col < b.col)
  }

  /** A rule saying what is emitted for each cell of a grid. */
  type CellRule = (int, int) -> Option<Placement>

  /** Every placement the rule gives stands on the cell it was given for. */
  ghost predicate WellPlaced(cell: CellRule)
  {
    forall row, col :: cell(row, col).Some? ==> PlacedAt(cell(row, col).value) == Cell(row, col)
  }

  function Emitted(p: Option<Placement>): seq<Placement>
  {
    if p.Some? then [p.value] else []
  }

  /** What a rule emits for every cell before (row, col) in row-major order
      over a grid `width` cells wide. */
  function Listing(cell: CellRule, width: nat, row: nat, col: nat): seq<Placement>
    requires col <= width
    decreases row, col
  {
    if col == 0 then
      if row == 0 then [] else Listing(cell, width, row - 1, width)
    else
      Listing(cell, width, row, col - 1) + Emitted(cell(row, col - 1))
  }

  /** The k-th placement of a listing is the placement of its own cell, a cell
      of the grid before (row, col). */
  lemma {:induction false} ListingAt(cell: CellRule, width: nat, row: nat, col: nat, k: int)
    requires WellPlaced(cell) && col <= width && 0 <= k < |Listing(cell, width, row, col)|
    ensures var p := Listing(cell, width, row, col)[k];
      0 <= PlacedAt(p).row && 0 <= p.x < width && Before(PlacedAt(p), Cell(row, col)) &&
      cell(PlacedAt(p).row, p.x) == Some(p)
    decreases row, col
  {
    if col == 0 {
      ListingAt(cell, width, row - 1, width, k);
    } else {
      var prefix := Listing(cell, width, row, col - 1);
      if k < |prefix| {
        ListingAt(cell, width, row, col - 1, k);
      } else {
        assert Listing(cell, width, row, col)[k] == cell(row, col - 1).value;
      }
    }
  }

  /** A listing is in strict row-major order. */
  lemma {:induction false} ListingOrdered(cell: CellRule, width: nat, row: nat, col: nat, i: int, j: int)
    requires WellPlaced(cell) && col <= width && 0 <= i < j < |Listing(cell, width, row, col)|
    ensures Before(PlacedAt(Listing(cell, width, row, col)[i]), PlacedAt(Listing(cell, width, row, col)[j]))
    decreases row, col
  {
    if col == 0 {
      ListingOrdered(cell, width, row - 1, width, i, j);
    } else {
      var all, prefix := Listing(cell, width, row, col), Listing(cell, width, row, col - 1);
      if j < |prefix| {
        ListingOrdered(cell, width, row, col - 1, i, j);
        assert all[i] == prefix[i] && all[j] == prefix[j];
      } else {
        ListingAt(cell, width, row, col - 1, i);
        assert all[i] == prefix[i] && all[j] == cell(row, col - 1).value;
      }
    }
  }

  /** A listing misses no placement of a cell before (row, col). */
  lemma {:induction false} ListingComplete(cell: CellRule, width: nat, row: nat, col: nat, r: int, c: int)
    requires col <= width && 0 <= r && 0 <= c < width && Before(Cell(r, c), Cell(row, col))
    requires cell(r, c).Some?
    ensures cell(r, c).value in Listing(cell, width, row, col)
    decreases row, col
  {
    if col == 0 {
      ListingComplete(cell, width, row - 1, width, r, c);
    } else {
      var prefix := Listing(cell, width, row, col - 1);
      assert Listing(cell, width, row, col) == prefix + Emitted(cell(row, col - 1));
      if Before(Cell(r, c), Cell(row, col - 1)) {
        ListingComplete(cell, width, row, col - 1, r, c);
        assert cell(r, c).value in prefix;
      }
    }
  }
}
