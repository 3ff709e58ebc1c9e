/** The integer tile codes of the quarter map and what the level generator
    knows about each one: which prefab instantiates it, its debug name, and
    whether it belongs to the wall family or connects a corner. */
module Tiles {

  datatype Option<T> = None | Some(value: T)

  const Empty := 0
  const OutsideCorner := 1
  const OutsideWall := 2
  const InsideCorner := 3
  const InsideWall := 4
  const Pellet := 5
  const PowerPellet := 6
  const TJunction := 7
  const GhostExitWall := 8

  /** The eight prefabs a tile can be instantiated from. */
  datatype Prefab =
    | OutsideCornerPrefab
    | OutsideWallPrefab
    | InsideCornerPrefab
    | InsideWallPrefab
    | PelletPrefab
    | PowerPelletPrefab
    | TJunctionPrefab
    | GhostExitWallPrefab

  /** The code each prefab stands for in the map. */
  function CodeOf(p: Prefab): (code: int)
    ensures 1 <= code <= 8
  {
    match p
    case OutsideCornerPrefab => OutsideCorner
    case OutsideWallPrefab => OutsideWall
    case InsideCornerPrefab => InsideCorner
    case InsideWallPrefab => InsideWall
    case PelletPrefab => Pellet
    case PowerPelletPrefab => PowerPellet
    case TJunctionPrefab => TJunction
    case GhostExitWallPrefab => GhostExitWall
  }

  /** The prefab a tile code is instantiated from; codes without one are
      dropped silently by the generator. */
  function PrefabFor(tileType: int): (p: Option<Prefab>)
    ensures p.Some? <==> 1 <= tileType <= 8
    ensures p.Some? ==> CodeOf(p.value) == tileType
  {
    match tileType
    case 1 => Some(OutsideCornerPrefab)
    case 2 => Some(OutsideWallPrefab)
    case 3 => Some(InsideCornerPrefab)
    case 4 => Some(InsideWallPrefab)
    case 5 => Some(PelletPrefab)
    case 6 => Some(PowerPelletPrefab)
    case 7 => Some(TJunctionPrefab)
    case 8 => Some(GhostExitWallPrefab)
    case _ => None
  }

  /** Every prefab is found again from its own code. */
  lemma {:induction false} PrefabRoundTrip(p: Prefab)
    ensures PrefabFor(CodeOf(p)) == Some(p)
  {
    match p
    case OutsideCornerPrefab =>
    case OutsideWallPrefab =>
    case InsideCornerPrefab =>
    case InsideWallPrefab =>
    case PelletPrefab =>
    case PowerPelletPrefab =>
    case TJunctionPrefab =>
    case GhostExitWallPrefab =>
  }

  /** The name used for an instantiated tile. */
  function TileTypeName(tileType: int): (name: string)
    ensures name == "Unknown" <==> PrefabFor(tileType).None?
  {
    match tileType
    case 1 => "OutsideCorner"
    case 2 => "OutsideWall"
    case 3 => "InsideCorner"
    case 4 => "InsideWall"
    case 5 => "Pellet"
    case 6 => "PowerPellet"
    case 7 => "TJunction"
    case 8 => "GhostExit"
    case _ => "Unknown"
  }

  /** Distinct instantiable codes carry distinct names. */
  lemma TileTypeNamesDistinct(a: int, b: int)
    requires 1 <= a <= 8 && 1 <= b <= 8 && a != b
    ensures TileTypeName(a) != TileTypeName(b)
  {
  }

  /** The wall family used when orienting straight walls: every tile with a
      prefab except the two pellet kinds. */
  predicate IsWallType(tileType: int)
  {
    tileType == OutsideCorner || tileType == OutsideWall || tileType == InsideCorner ||
    tileType == InsideWall || tileType == TJunction || tileType == GhostExitWall
  }

  lemma WallTypeIsInstantiableNonPellet(tileType: int)
    ensures IsWallType(tileType) <==>
      PrefabFor(tileType).Some? && tileType != Pellet && tileType != PowerPellet
  {
  }

  /** A neighbour that a corner joins up with: anything but empty space and
      the two pellet kinds (unknown codes included). */
  predicate ConnectsCorner(tileType: int)
  {
    tileType != Empty && tileType != Pellet && tileType != PowerPellet
  }

  /** On codes that have a prefab the corner test and the wall test agree;
      they differ only on unknown codes, which connect corners but not walls. */
  lemma CornerAndWallTestsAgree(tileType: int)
    ensures PrefabFor(tileType).Some? ==> (ConnectsCorner(tileType) <==> IsWallType(tileType))
    ensures PrefabFor(tileType).None? && tileType != Empty ==>
      ConnectsCorner(tileType) && !IsWallType(tileType)
  {
  }
}
