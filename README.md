# Quadrant-mirroring level generator

This project models the level generator of a Pac-Man-style Unity game. The
maze is stored as a 15 × 14 grid of integer tile codes. The grid holds only
the top-left quarter of the level:

- 0 is empty space.
- 1 and 3 are the outside and inside corners.
- 2 and 4 are the outside and inside walls.
- 5 and 6 are the pellet and the power pellet.
- 7 is a T-junction.
- 8 is the ghost-exit wall.

When the level is generated, the quarter is unfolded into a
(2h − 1) × (2w − 1) grid, so the centre row and column are shared. Every
full-grid cell is read back from one quarter cell, together with the
horizontal and vertical flips of the quadrant it lies in. Empty cells are
skipped. Every other cell is given a rotation and instantiated at position
(col, −row). The rotation is found in two stages:

1. A base rotation comes from the tile's neighbours in the quarter. There is
   one rule for corners, one for straight walls and one for T-junctions.
2. Fixed lookup tables adjust that rotation for each flip, horizontal first
   and then vertical.

The model is split into modules that follow the generator's structure:

- `Tiles`: the codes, the prefab lookup, the debug names, and the two
  neighbour tests (the wall family, and what a corner joins up with).
- `Orientation`: what a rotation in degrees means for a corner piece (the
  directions of its two arms) and for a T-junction (where its stem points),
  and the four flip tables.
- `Mirroring`: the map from full-grid cells back to the quarter, the seam
  test, and the mirror symmetry of the unfolded grid.
- `TileRotation`: the corner, wall and T-junction rules and
  `CalculateRotation`. That method changes its local rotation step by step,
  as the source does. It is proved equal to `Rotation`, which defines each
  copy's rotation by what the copy must look like: mirrored arms, or a
  mirrored stem.
- `Placements`: the record the generator emits per tile, and generic facts
  about a row-major listing of placements.
- `Expansion`: the fixed quarter map, what each full-grid cell emits, and the
  `LevelGenerator` class.
  - `GenerateLevel` sets `mapHeight` and `mapWidth` and runs the two nested
    loops.
  - Each tile is appended to the `generated` sequence, which stands for the
    children created under the level's parent object.
  - The method is proved to produce exactly `Expansion(levelMap)`.
  - The lemmas about `Expansion` then show the output in full:
    - every shown tile is emitted once, at its own cell;
    - the tiles are emitted in row-major order;
    - tile kinds are symmetric about both centre lines;
    - rotations are mirrored across them.

## Model

| member | source | states |
|---|---|---|
| Tiles.CodeOf | Assets/Scripts/LevelGenerator.cs:302-316 | every prefab stands for one of the codes 1 to 8 |
| Tiles.PrefabFor | Assets/Scripts/LevelGenerator.cs:302-316 | a prefab exists exactly for codes 1 to 8, and it is the prefab of that code; every other code gets none |
| Tiles.PrefabRoundTrip | Assets/Scripts/LevelGenerator.cs:302-316 | looking up the code of any prefab gives that prefab back |
| Tiles.TileTypeName | Assets/Scripts/LevelGenerator.cs:318-332 | a code is named "Unknown" exactly when it has no prefab |
| Tiles.TileTypeNamesDistinct | Assets/Scripts/LevelGenerator.cs:318-332 | the eight codes with a prefab have pairwise different names |
| Tiles.IsWallType | Assets/Scripts/LevelGenerator.cs:237-240 | the wall family is codes 1, 2, 3, 4, 7 and 8; `WallTypeIsInstantiableNonPellet` states what this set means |
| Tiles.WallTypeIsInstantiableNonPellet | Assets/Scripts/LevelGenerator.cs:237-240 | a code is of the wall family exactly when it has a prefab and is neither kind of pellet |
| Tiles.ConnectsCorner | Assets/Scripts/LevelGenerator.cs:198-201 | a corner joins up with any neighbour code except 0, 5 and 6; `CornerAndWallTestsAgree` relates this test to the wall family |
| Tiles.CornerAndWallTestsAgree | Assets/Scripts/LevelGenerator.cs:198-201 | on codes with a prefab, a corner's neighbour test agrees with the wall-family test; unknown non-zero codes pass the corner test but fail the wall test |
| Orientation.CornerArms | Assets/Scripts/LevelGenerator.cs:204-207 | each quarter-turn rotation of a corner has one horizontal arm and one vertical arm |
| Orientation.CornerArmsInjective | Assets/Scripts/LevelGenerator.cs:204-207 | two quarter-turn rotations give the same corner arms if and only if they are equal |
| Orientation.RotationOfArms | Assets/Scripts/LevelGenerator.cs:204-207 | every horizontal/vertical pair of arms has a quarter-turn rotation that gives exactly those arms |
| Orientation.RotationOfPointing | Assets/Scripts/LevelGenerator.cs:232-234 | every direction has a quarter-turn rotation whose T-junction stem points that way |
| Orientation.TPointingInjective | Assets/Scripts/LevelGenerator.cs:232-234 | two quarter-turn rotations point a T-junction the same way if and only if they are equal |
| Orientation.HorizontalFlippedCorner | Assets/Scripts/LevelGenerator.cs:242-252 | maps quarter turns to quarter turns and keeps anything else unchanged; a flipped corner's horizontal arm is mirrored and its vertical arm kept |
| Orientation.VerticalFlippedCorner | Assets/Scripts/LevelGenerator.cs:254-264 | maps quarter turns to quarter turns and keeps anything else unchanged; a flipped corner's vertical arm is mirrored and its horizontal arm kept |
| Orientation.HorizontalFlippedT | Assets/Scripts/LevelGenerator.cs:266-276 | maps quarter turns to quarter turns and keeps anything else unchanged; a flipped T-junction points the horizontally mirrored way |
| Orientation.VerticalFlippedT | Assets/Scripts/LevelGenerator.cs:278-288 | maps quarter turns to quarter turns and keeps anything else unchanged; a flipped T-junction points the vertically mirrored way |
| Orientation.FlipTablesAreInvolutions | Assets/Scripts/LevelGenerator.cs:242-288 | applying any of the four flip tables twice gives back the input, for every input |
| Orientation.CornerFlipsCommute | Assets/Scripts/LevelGenerator.cs:168-190 | for corners, the order of the two flips does not matter, and both flips together add a half turn |
| Mirroring.FullHeight | Assets/Scripts/LevelGenerator.cs:84 | the full level has 2h-1 rows, so the quarter's last row is the middle row of the level and is its own mirror image |
| Mirroring.FullWidth | Assets/Scripts/LevelGenerator.cs:83 | the full level has 2w-1 columns, so the quarter's last column is the middle column of the level and is its own mirror image |
| Mirroring.MapToSource | Assets/Scripts/LevelGenerator.cs:94-121 | every full-grid cell maps to an in-bounds quarter cell; the horizontal flip is set exactly in the right half and the vertical flip exactly in the bottom half; a mirrored copy never reads the quarter's last row or column |
| Mirroring.OnDuplicateSeam | Assets/Scripts/LevelGenerator.cs:123-126 | the seam test is false for every cell, so it never skips anything |
| Mirroring.MapToSourceRoundTrip | Assets/Scripts/LevelGenerator.cs:94-121 | every full-grid cell is a shown copy of its quarter cell, and placing that copy back gives the same full-grid cell |
| Mirroring.FromSourceRoundTrip | Assets/Scripts/LevelGenerator.cs:94-121 | every shown copy lies in the full grid and maps back to itself, so the mapping is a bijection between full-grid cells and shown copies |
| Mirroring.Preimages | Assets/Scripts/LevelGenerator.cs:100-121 | full row r reads quarter row sr exactly when r is sr or 2h-2-sr (and the same for columns), so the centre row and column are shown once |
| Mirroring.MirrorSymmetry | Assets/Scripts/LevelGenerator.cs:100-121 | a cell and its mirror image across either centre line read the same quarter cell; off that line, they have opposite flips |
| Mirroring.TileAt | Assets/Scripts/LevelGenerator.cs:128 | the code shown at a full-grid cell is the quarter code at the same cell in the top-left quadrant, and at the cell mirrored across the centre column, the centre row or both in the other quadrants |
| Mirroring.TileSymmetry | Assets/Scripts/LevelGenerator.cs:128 | the tile codes of the full level are symmetric about both centre lines and about the centre point |
| TileRotation.CornerRotation | Assets/Scripts/LevelGenerator.cs:195-216 | a corner's base rotation is always a quarter turn |
| TileRotation.CornerRotationRule | Assets/Scripts/LevelGenerator.cs:198-215 | if some rotation puts both arms on joined neighbours (in bounds, not empty, not a pellet), then the first such rotation in the order 0, 90, 180, 270 is taken; otherwise a map corner points both arms into the map and any other cell gets 0 |
| TileRotation.WallRotation | Assets/Scripts/LevelGenerator.cs:218-228 | a wall gets 90 exactly when a wall-family neighbour lies above or below and none lies to the left or right, and 0 otherwise |
| TileRotation.TJunctionRotation | Assets/Scripts/LevelGenerator.cs:230-235 | a T-junction's stem points up on the quarter's top row and right everywhere else |
| TileRotation.BaseRotation | Assets/Scripts/LevelGenerator.cs:144-165 | the base rotation picked by tile kind is a quarter turn; straight walls get only 0 or 90; codes other than corners, walls and T-junctions get 0 |
| TileRotation.RotationRange | Assets/Scripts/LevelGenerator.cs:140-193 | every rotation is a quarter turn; straight walls only get 0 or 90; codes other than corners, walls and T-junctions always get 0 |
| TileRotation.HorizontalMirrorOfRotation | Assets/Scripts/LevelGenerator.cs:168-178 | toggling the horizontal flip mirrors a corner's horizontal arm and a T-junction's stem, and changes no other tile's rotation |
| TileRotation.VerticalMirrorOfRotation | Assets/Scripts/LevelGenerator.cs:180-190 | toggling the vertical flip mirrors a corner's vertical arm and a T-junction's stem, and changes no other tile's rotation |
| TileRotation.UnflippedIsBase | Assets/Scripts/LevelGenerator.cs:144-165 | in the unflipped quadrant, a tile keeps the base rotation its kind's rule gives |
| TileRotation.CalculateRotation | Assets/Scripts/LevelGenerator.cs:140-193 | the base rotation followed by the horizontal and then the vertical table, for corners and T-junctions only, equals the rotation that mirrors the tile's base orientation by the quadrant's flips |
| Placements.ListingAt | Assets/Scripts/LevelGenerator.cs:86-88 | each entry of a row-major listing is the placement its rule gives for the entry's own cell, and that cell comes before the current loop position |
| Placements.ListingOrdered | Assets/Scripts/LevelGenerator.cs:86-88 | a row-major listing is strictly ordered by cell, row first and then column |
| Placements.ListingComplete | Assets/Scripts/LevelGenerator.cs:86-88 | a row-major listing contains the placement of every cell before the current loop position that has one |
| Expansion.LevelMapRow | Assets/Scripts/LevelGenerator.cs:21-35 | every row of the quarter map has 14 codes |
| Expansion.LevelMap | Assets/Scripts/LevelGenerator.cs:19-36 | the quarter map is a rectangular grid of 15 rows and 14 columns |
| Expansion.CellPlacement | Assets/Scripts/LevelGenerator.cs:90-135 | a cell outside the full grid emits nothing; a full-grid cell emits a tile exactly when its quarter code is between 1 and 8; the tile has that code, stands at (col, -row) and has a quarter-turn rotation |
| Expansion.SweepStep | Assets/Scripts/LevelGenerator.cs:88-135 | visiting one more cell in a row appends exactly what that cell emits |
| Expansion.SweepListingStep | Assets/Scripts/LevelGenerator.cs:88-135 | if the generator's sweep up to one cell equals the row-major listing of its rule, it still does after that cell |
| Expansion.SweepIsListingInRow | Assets/Scripts/LevelGenerator.cs:88-135 | if the sweep agrees with the row-major listing at the start of a row, it agrees at every column of that row |
| Expansion.SweepIsListing | Assets/Scripts/LevelGenerator.cs:86-137 | the sweep agrees with the row-major listing at the start of every row |
| Expansion.Expansion | Assets/Scripts/LevelGenerator.cs:86-137 | everything one run of the generator emits; `ExpansionIsRowMajorListing` states what it holds and in which order |
| Expansion.ExpansionIsRowMajorListing | Assets/Scripts/LevelGenerator.cs:86-135 | the output places each tile at its own full-grid cell, with that cell's placement, in strictly row-major order, and misses no cell whose code is between 1 and 8; so no cell, not even on the centre lines, is emitted twice |
| Expansion.PlacementSymmetry | Assets/Scripts/LevelGenerator.cs:100-129 | a cell gets a tile exactly when its mirror image across either centre line does, and the two tiles are of the same kind |
| Expansion.PlacementsMirrorAcrossCentreColumn | Assets/Scripts/LevelGenerator.cs:100-178 | off the centre column, the tile at a cell's mirror image is the mirror image of the tile: a corner's arms and a T-junction's stem are mirrored left to right, and any other tile keeps its rotation |
| Expansion.PlacementsMirrorAcrossCentreRow | Assets/Scripts/LevelGenerator.cs:107-190 | off the centre row, the tile at a cell's mirror image is mirrored top to bottom in the same way |
| Expansion.TJunctionOrientation | Assets/Scripts/LevelGenerator.cs:230-288 | a T-junction from the quarter's top row points up in the upper half and down in the lower half; any other T-junction points right in the left half and left in the right half |
| Expansion.TJunctionCopies | Assets/Scripts/LevelGenerator.cs:21-288 | the T-junction at quarter cell (0,7) is emitted with rotation 270 at (0,7) and (0,19), and with rotation 90 at (28,7) and (28,19) |
| Expansion.OuterCornerBase | Assets/Scripts/LevelGenerator.cs:198-210 | the outside corner at quarter cell (0,0) has base rotation 0 |
| Expansion.OuterCornerCopies | Assets/Scripts/LevelGenerator.cs:195-264 | such a corner appears at the four corners of the level with its arms pointing inwards: 0 top left, 90 top right, 270 bottom left, 180 bottom right |
| Expansion.EmitsTile | Assets/Scripts/LevelGenerator.cs:128-134 | for a non-empty quarter code, what a cell emits is the tile at (col, -row) with the calculated rotation, and nothing if the code has no prefab |
| Expansion.EmitsNothing | Assets/Scripts/LevelGenerator.cs:128-129 | a cell whose quarter code is empty emits nothing |
| Expansion.LevelGenerator.constructor | Assets/Scripts/LevelGenerator.cs:19-39 | a new generator holds the fixed quarter map, and nothing has been generated yet |
| Expansion.LevelGenerator.InstantiateTile | Assets/Scripts/LevelGenerator.cs:290-300 | appends one placement with the given code, position and rotation when the code has a prefab, and nothing otherwise |
| Expansion.LevelGenerator.GenerateCell | Assets/Scripts/LevelGenerator.cs:90-135 | one pass of the inner loop body appends exactly what its cell emits |
| Expansion.LevelGenerator.GenerateLevel | Assets/Scripts/LevelGenerator.cs:74-138 | sets the map dimensions to the quarter's, and generates exactly the full row-major expansion of the quarter map |

## Left out

- `Start`, `DeleteExistingLevel` and `AdjustCamera` are not modelled. They only find and destroy scene objects and frame the camera from the screen size in floating point. `GenerateLevel` starts from an empty `generated` sequence, which stands for the fresh parent object it creates.
- InstantiateTile: the engine side is not modelled. That covers the `Quaternion` rotation, parenting under the level object, and the debug name built from the floating-point position. `TileTypeName` models only the lookup that the name uses.
- PrefabFor: the serialized prefab fields are treated as assigned. In the source an unassigned field is null and its tiles are silently skipped; here a code has a prefab exactly when it is between 1 and 8.
- Rotations are exact integer degrees rather than floats. Only 0, 90, 180 and 270 arise, so the `(int)` casts in the flip tables are exact. Tile positions are likewise the integers `x` and `y` of a placement rather than a floating-point vector with z = 0; on a 29 × 27 level every coordinate is a small whole number, so this is exact.
- `Assets/Scripts/PacStudentMovement.cs` is not part of this model. It is frame-driven floating-point motion with animation and audio calls.
- CornerRotationRule: it does not say which map corner a fallback arm points into for a map that is one row or one column thick. In that case an arm can have no neighbour.
- Expansion.LevelGenerator.GenerateLevel: the body of the inner loop is the separate method `GenerateCell`. This does not change behaviour. The method requires the stored map to be rectangular; the constructor always stores the fixed 15 × 14 map, which is.
- OuterCornerCopies: it is stated for any quarter map whose top-left cell is an outside corner with base rotation 0. `OuterCornerBase` shows that the fixed map is such a map.
