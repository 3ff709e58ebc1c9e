/** Tile rotations in degrees about the viewing axis, what a rotation means
    for a corner piece and for a T-junction piece, and the four lookup tables
    that adjust a rotation when a quadrant is mirrored. */
module Orientation {

  /** The four rotations a tile can be given. */
  predicate IsQuarter(rotation: int)
  {
    rotation == 0 || rotation == 90 || rotation == 180 || rotation == 270
  }

  /** A direction on the screen; rows grow downwards. */
  datatype Heading = Right | Down | Left | Up

  /** Mirroring about a vertical axis swaps left and right. */
  function MirrorH(d: Heading): Heading
  {
    match d
    case Right => Left
    case Left => Right
    case _ => d
  }

  /** Mirroring about a horizontal axis swaps up and down. */
  function MirrorV(d: Heading): Heading
  {
    match d
    case Up => Down
    case Down => Up
    case _ => d
  }

  /** The two arms of a corner piece: a horizontal one and a vertical one.
      Rotation 0 is a top-left corner (arms right and down), 90 top-right,
      180 bottom-right and 270 bottom-left. */
  datatype Arms = Arms(horizontal: Heading, vertical: Heading)

  function CornerArms(rotation: int): (a: Arms)
    requires IsQuarter(rotation)
    ensures a.horizontal == Right || a.horizontal == Left
    ensures a.vertical == Down || a.vertical == Up
  {
    if rotation == 0 then Arms(Right, Down)
    else if rotation == 90 then Arms(Left, Down)
    else if rotation == 180 then Arms(Left, Up)
    else Arms(Right, Up)
  }

  /** Each horizontal/vertical pair of arms belongs to exactly one rotation. */
  lemma CornerArmsInjective(r1: int, r2: int)
    requires IsQuarter(r1) && IsQuarter(r2)
    ensures CornerArms(r1) == CornerArms(r2) <==> r1 == r2
  {
  }

  /** The direction a T-junction's stem points: 0 right, 90 down, 180 left,
      270 up. */
  function TPointing(rotation: int): (d: Heading)
    requires IsQuarter(rotation)
  {
    if rotation == 0 then Right
    else if rotation == 90 then Down
    else if rotation == 180 then Left
    else Up
  }

  /** The rotation of the corner piece with the given arms. */
  function RotationOfArms(a: Arms): (rotation: int)
    requires a.horizontal == Right || a.horizontal == Left
    requires a.vertical == Down || a.vertical == Up
    ensures IsQuarter(rotation) && CornerArms(rotation) == a
  {
    match a
    case Arms(Right, Down) => 0
    case Arms(Left, Down) => 90
    case Arms(Left, Up) => 180
    case Arms(_, _) => 270
  }

  /** The rotation of the T-junction piece pointing the given way. */
  function RotationOfPointing(d: Heading): (rotation: int)
    ensures IsQuarter(rotation) && TPointing(rotation) == d
  {
    match d
    case Right => 0
    case Down => 90
    case Left => 180
    case Up => 270
  }

  /** Each pointing direction belongs to exactly one rotation. */
  lemma TPointingInjective(r1: int, r2: int)
    requires IsQuarter(r1) && IsQuarter(r2)
    ensures TPointing(r1) == TPointing(r2) <==> r1 == r2
  {
  }

  /** Horizontal-flip table for corners: swaps 0 and 90, 180 and 270, and
      leaves any other value as it is. A mirrored corner has mirrored arms. */
  function HorizontalFlippedCorner(rotation: int): (r: int)
    ensures IsQuarter(r) <==> IsQuarter(rotation)
    ensures !IsQuarter(rotation) ==> r == rotation
    ensures IsQuarter(rotation) ==>
      CornerArms(r) == Arms(MirrorH(CornerArms(rotation).horizontal), CornerArms(rotation).vertical)
  {
    if rotation == 0 then 90
    else if rotation == 90 then 0
    else if rotation == 180 then 270
    else if rotation == 270 then 180
    else rotation
  }

  /** Vertical-flip table for corners: swaps 0 and 270, 90 and 180. */
  function VerticalFlippedCorner(rotation: int): (r: int)
    ensures IsQuarter(r) <==> IsQuarter(rotation)
    ensures !IsQuarter(rotation) ==> r == rotation
    ensures IsQuarter(rotation) ==>
      CornerArms(r) == Arms(CornerArms(rotation).horizontal, MirrorV(CornerArms(rotation).vertical))
  {
    if rotation == 0 then 270
    else if rotation == 90 then 180
    else if rotation == 180 then 90
    else if rotation == 270 then 0
    else rotation
  }

  /** Horizontal-flip table for T-junctions: swaps 0 and 180 and keeps 90 and
      270. A mirrored T points the mirrored way. */
  function HorizontalFlippedT(rotation: int): (r: int)
    ensures IsQuarter(r) <==> IsQuarter(rotation)
    ensures !IsQuarter(rotation) ==> r == rotation
    ensures IsQuarter(rotation) ==> TPointing(r) == MirrorH(TPointing(rotation))
  {
    if rotation == 0 then 180
    else if rotation == 180 then 0
    else rotation
  }

  /** Vertical-flip table for T-junctions: swaps 90 and 270 and keeps 0 and
      180. */
  function VerticalFlippedT(rotation: int): (r: int)
    ensures IsQuarter(r) <==> IsQuarter(rotation)
    ensures !IsQuarter(rotation) ==> r == rotation
    ensures IsQuarter(rotation) ==> TPointing(r) == MirrorV(TPointing(rotation))
  {
    if rotation == 90 then 270
    else if rotation == 270 then 90
    else rotation
  }

  /** Each of the four tables undoes itself, on every input. */
  lemma FlipTablesAreInvolutions(rotation: int)
    ensures HorizontalFlippedCorner(HorizontalFlippedCorner(rotation)) == rotation
    ensures VerticalFlippedCorner(VerticalFlippedCorner(rotation)) == rotation
    ensures HorizontalFlippedT(HorizontalFlippedT(rotation)) == rotation
    ensures VerticalFlippedT(VerticalFlippedT(rotation)) == rotation
  {
  }

  /** The two corner flips commute, so the order horizontal-then-vertical
      does not matter for corners; both together turn a corner half way. */
  lemma CornerFlipsCommute(rotation: int)
    requires IsQuarter(rotation)
    ensures VerticalFlippedCorner(HorizontalFlippedCorner(rotation))
         == HorizontalFlippedCorner(VerticalFlippedCorner(rotation))
    ensures VerticalFlippedCorner(HorizontalFlippedCorner(rotation)) == (rotation + 180) % 360
  {
  }

  /** A heading mirrored horizontally when flipH holds, then vertically when
      flipV holds. */
  function MirrorBy(d: Heading, flipH: bool, flipV: bool): Heading
  {
    var h := if flipH then MirrorH(d) else d;
    if flipV then MirrorV(h) else h
  }
}
