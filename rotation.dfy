/** How the generator orients a tile: a base rotation worked out from the
    tile's neighbours in the quarter map, then adjusted by the flip tables of
    the quadrant the copy lies in. */
module TileRotation {
  import opened Tiles
  import opened Orientation
  import opened Mirroring

  /** The quarter-map cell one step away in direction d. */
  function Step(row: int, col: int, d: Heading): Cell
  {
    match d
    case Right => Cell(row, col + 1)
    case Down => Cell(row + 1, col)
    case Left => Cell(row, col - 1)
    case Up => Cell(row - 1, col)
  }

  /** The neighbour in direction d exists and a corner joins up with it. */
  predicate JoinsCorner(g: Grid, row: int, col: int, d: Heading)
    requires IsGrid(g)
  {
    var n := Step(row, col, d);
    InBounds(g, n.row, n.col) && ConnectsCorner(g[n.row][n.col])
  }

  /** The neighbour in direction d exists and is of the wall family. */
  predicate JoinsWall(g: Grid, row: int, col: int, d: Heading)
    requires IsGrid(g)
  {
    var n := Step(row, col, d);
    InBounds(g, n.row, n.col) && IsWallType(g[n.row][n.col])
  }

  /** Both arms of a corner with this rotation reach joined neighbours. */
  predicate ArmsJoined(g: Grid, row: int, col: int, rotation: int)
    requires IsGrid(g) && IsQuarter(rotation)
  {
    JoinsCorner(g, row, col, CornerArms(rotation).horizontal) &&
    JoinsCorner(g, row, col, CornerArms(rotation).vertical)
  }

  /** Some rotation puts both arms of a corner on joined neighbours. */
  predicate CornerFits(g: Grid, row: int, col: int)
    requires IsGrid(g)
  {
    (JoinsCorner(g, row, col, Left) || JoinsCorner(g, row, col, Right)) &&
    (JoinsCorner(g, row, col, Up) || JoinsCorner(g, row, col, Down))
  }

  predicate AtMapCorner(g: Grid, row: int, col: int)
  {
    (row == 0 || row == |g| - 1) && (col == 0 || col == Width(g) - 1)
  }

  /** Base rotation of a corner piece, checking its neighbour pairs in a fixed
      order and falling back on its position in the map. */
  function CornerRotation(g: Grid, row: int, col: int): (rotation: int)
    requires IsGrid(g) && InBounds(g, row, col)
    ensures IsQuarter(rotation)
  {
    var mapHeight, mapWidth := |g|, Width(g);
    var hasUp := row > 0 && ConnectsCorner(g[row - 1][col]);
    var hasDown := row < mapHeight - 1 && ConnectsCorner(g[row + 1][col]);
    var hasLeft := col > 0 && ConnectsCorner(g[row][col - 1]);
    var hasRight := col < mapWidth - 1 && ConnectsCorner(g[row][col + 1]);
    if hasRight && hasDown then 0
    else if hasLeft && hasDown then 90
    else if hasLeft && hasUp then 180
    else if hasRight && hasUp then 270
    else if row == 0 && col == 0 then 0
    else if row == 0 && col == mapWidth - 1 then 90
    else if row == mapHeight - 1 && col == mapWidth - 1 then 180
    else if row == mapHeight - 1 && col == 0 then 270
    else 0
  }

  /** What the corner rule means: when some rotation fits the neighbours, the
      first of 0, 90, 180, 270 that fits is taken; otherwise a corner of the
      map has its arms pointing into the map and any other cell gets 0. */
  lemma CornerRotationRule(g: Grid, row: int, col: int)
    requires IsGrid(g) && InBounds(g, row, col)
    ensures CornerFits(g, row, col) ==> ArmsJoined(g, row, col, CornerRotation(g, row, col))
    ensures CornerFits(g, row, col) ==>
      (CornerRotation(g, row, col) > 0 ==> !ArmsJoined(g, row, col, 0)) &&
      (CornerRotation(g, row, col) > 90 ==> !ArmsJoined(g, row, col, 90)) &&
      (CornerRotation(g, row, col) > 180 ==> !ArmsJoined(g, row, col, 180))
    ensures !CornerFits(g, row, col) && !AtMapCorner(g, row, col) ==> CornerRotation(g, row, col) == 0
    ensures !CornerFits(g, row, col) && AtMapCorner(g, row, col) ==>
      var a := CornerArms(CornerRotation(g, row, col));
      (Width(g) >= 2 ==> InBounds(g, Step(row, col, a.horizontal).row, Step(row, col, a.horizontal).col)) &&
      (|g| >= 2 ==> InBounds(g, Step(row, col, a.vertical).row, Step(row, col, a.vertical).col))
  {
  }

  /** Base rotation of a straight wall: 90 (vertical) exactly when a wall-family
      neighbour lies above or below and none lies left or right, else 0. */
  function WallRotation(g: Grid, row: int, col: int): (rotation: int)
    requires IsGrid(g) && InBounds(g, row, col)
    ensures rotation == 0 || rotation == 90
    ensures rotation == 90 <==>
      (JoinsWall(g, row, col, Up) || JoinsWall(g, row, col, Down)) &&
      !(JoinsWall(g, row, col, Left) || JoinsWall(g, row, col, Right))
  {
    var mapHeight, mapWidth := |g|, Width(g);
    var hasHorizontalConnection :=
      (col > 0 && IsWallType(g[row][col - 1])) || (col < mapWidth - 1 && IsWallType(g[row][col + 1]));
    var hasVerticalConnection :=
      (row > 0 && IsWallType(g[row - 1][col])) || (row < mapHeight - 1 && IsWallType(g[row + 1][col]));
    if hasVerticalConnection && !hasHorizontalConnection then 90 else 0
  }

  /** Base rotation of a T-junction: its stem points up on the top row of the
      quarter map and right everywhere else. */
  function TJunctionRotation(row: int, col: int): (rotation: int)
    ensures IsQuarter(rotation)
    ensures TPointing(rotation) == if row == 0 then Up else Right
  {
    if row == 0 then 270 else 0
  }

  /** Base rotation by tile kind, before any flip; pellets, ghost-exit walls
      and unknown codes get 0. */
  function BaseRotation(g: Grid, tileType: int, row: int, col: int): (rotation: int)
    requires IsGrid(g) && InBounds(g, row, col)
    ensures IsQuarter(rotation)
    ensures IsStraightWall(tileType) ==> rotation == 0 || rotation == 90
    ensures !IsCorner(tileType) && !IsStraightWall(tileType) && tileType != TJunction ==> rotation == 0
  {
    match tileType
    case 1 => CornerRotation(g, row, col)
    case 2 => WallRotation(g, row, col)
    case 3 => CornerRotation(g, row, col)
    case 4 => WallRotation(g, row, col)
    case 7 => TJunctionRotation(row, col)
    case _ => 0
  }

  predicate IsCorner(tileType: int) { tileType == OutsideCorner || tileType == InsideCorner }
  predicate IsStraightWall(tileType: int) { tileType == OutsideWall || tileType == InsideWall }

  /** The rotation a copy must have, stated by what it looks like: a corner in
      a mirrored quadrant has the mirrored arms of its base corner, a
      T-junction points the mirrored way, a straight wall keeps its base
      rotation and every other tile is unrotated. */
  function Rotation(g: Grid, tileType: int, row: int, col: int, flipH: bool, flipV: bool): (rotation: int)
    requires IsGrid(g) && InBounds(g, row, col)
  {
    if IsCorner(tileType) then
      var a := CornerArms(CornerRotation(g, row, col));
      RotationOfArms(Arms(MirrorBy(a.horizontal, flipH, flipV), MirrorBy(a.vertical, flipH, flipV)))
    else if IsStraightWall(tileType) then
      WallRotation(g, row, col)
    else if tileType == TJunction then
      RotationOfPointing(MirrorBy(TPointing(TJunctionRotation(row, col)), flipH, flipV))
    else
      0
  }

  /** Every rotation is a quarter turn; straight walls are only ever
      horizontal or vertical; tiles with no orientation stay at 0. */
  lemma RotationRange(g: Grid, tileType: int, row: int, col: int, flipH: bool, flipV: bool)
    requires IsGrid(g) && InBounds(g, row, col)
    ensures IsQuarter(Rotation(g, tileType, row, col, flipH, flipV))
    ensures IsStraightWall(tileType) ==> Rotation(g, tileType, row, col, flipH, flipV) in {0, 90}
    ensures !IsCorner(tileType) && !IsStraightWall(tileType) && tileType != TJunction ==>
      Rotation(g, tileType, row, col, flipH, flipV) == 0
  {
  }

  /** Mirroring a quadrant left to right mirrors every tile in it: a corner's
      arms swap left for right, a T-junction points the mirrored way, and
      every other tile keeps its rotation. */
  lemma HorizontalMirrorOfRotation(g: Grid, tileType: int, row: int, col: int, flipH: bool, flipV: bool)
    requires IsGrid(g) && InBounds(g, row, col)
    ensures var r, m := Rotation(g, tileType, row, col, flipH, flipV), Rotation(g, tileType, row, col, !flipH, flipV);
      (IsCorner(tileType) ==>
         CornerArms(m) == Arms(MirrorH(CornerArms(r).horizontal), CornerArms(r).vertical)) &&
      (tileType == TJunction ==> TPointing(m) == MirrorH(TPointing(r))) &&
      (!IsCorner(tileType) && tileType != TJunction ==> m == r)
  {
  }

  /** Mirroring a quadrant top to bottom likewise mirrors every tile in it. */
  lemma VerticalMirrorOfRotation(g: Grid, tileType: int, row: int, col: int, flipH: bool, flipV: bool)
    requires IsGrid(g) && InBounds(g, row, col)
    ensures var r, m := Rotation(g, tileType, row, col, flipH, flipV), Rotation(g, tileType, row, col, flipH, !flipV);
      (IsCorner(tileType) ==>
         CornerArms(m) == Arms(CornerArms(r).horizontal, MirrorV(CornerArms(r).vertical))) &&
      (tileType == TJunction ==> TPointing(m) == MirrorV(TPointing(r))) &&
      (!IsCorner(tileType) && tileType != TJunction ==> m == r)
  {
  }

  /** Without flips a tile keeps its base rotation. */
  lemma UnflippedIsBase(g: Grid, tileType: int, row: int, col: int)
    requires IsGrid(g) && InBounds(g, row, col)
    ensures Rotation(g, tileType, row, col, false, false) == BaseRotation(g, tileType, row, col)
  {
    if IsCorner(tileType) {
      CornerArmsInjective(Rotation(g, tileType, row, col, false, false), CornerRotation(g, row, col));
    } else if tileType == TJunction {
      TPointingInjective(Rotation(g, tileType, row, col, false, false), TJunctionRotation(row, col));
    }
  }

  /** The generator's rotation step: a base rotation chosen by tile kind, then
      the horizontal table and then the vertical table for corners and
      T-junctions. It agrees with what the copy must look like. */
  method CalculateRotation(g: Grid, tileType: int, row: int, col: int, flipH: bool, flipV: bool)
    returns (rotation: int)
    requires IsGrid(g) && InBounds(g, row, col)
    ensures rotation == Rotation(g, tileType, row, col, flipH, flipV)
  {
    var baseRotation := 0;
    match tileType {
      case 1 => baseRotation := CornerRotation(g, row, col);
      case 2 => baseRotation := WallRotation(g, row, col);
      case 3 => baseRotation := CornerRotation(g, row, col);
      case 4 => baseRotation := WallRotation(g, row, col);
      case 7 => baseRotation := TJunctionRotation(row, col);
      case _ =>
    }

    if flipH {
      if tileType == OutsideCorner || tileType == InsideCorner {
        baseRotation := HorizontalFlippedCorner(baseRotation);
      } else if tileType == TJunction {
        baseRotation := HorizontalFlippedT(baseRotation);
      }
    }

    if flipV {
      if tileType == OutsideCorner || tileType == InsideCorner {
        baseRotation := VerticalFlippedCorner(baseRotation);
      } else if tileType == TJunction {
        baseRotation := VerticalFlippedT(baseRotation);
      }
    }

    rotation := baseRotation;
    var expected := Rotation(g, tileType, row, col, flipH, flipV);
    if IsCorner(tileType) {
      CornerArmsInjective(rotation, expected);
    } else if tileType == TJunction {
      TPointingInjective(rotation, expected);
    }
  }
}
