/**
 * The floating-element positioning engine (`usePositioning`).
 *
 * Given the measured anchor rectangle, the size of the floating panel (the
 * target), the size of an optional arrow, a boundary rectangle and a requested
 * placement, it computes the panel's x and y, resolves collisions with the
 * boundary (a main-axis collision flips the side, a cross-axis collision
 * re-aligns), and derives the arrow's position and rotation.
 *
 * Coordinates are `real`: the engine only adds, subtracts and halves.
 */
module Positioning {
  import opened Wrappers

  datatype Axis = X | Y
  datatype Side = Top | Right | Bottom | Left
  datatype Alignment = Start | Center | End

  /** One of the twelve placements: a side and an alignment along the cross
      axis; `Center` is the bare side (`"top"`), the others carry a suffix. */
  datatype Placement = Placement(side: Side, alignment: Alignment)

  datatype Rect = Rect(x: real, y: real, width: real, height: real)
  datatype Size = Size(width: real, height: real)

  /** Result of the per-axis calculation (`calcX`, `calcY`, `getSafeCoord`). */
  datatype AxisResult = AxisResult(coord: real, side: Side, alignment: Alignment, canRenderArrow: bool)

  /** Result of `getSafeCoordOnMainAxis`. */
  datatype MainAxisResult = MainAxisResult(coord: real, side: Side, canRenderArrow: bool)

  /** Result of `getSafeCoordOnCrossAxis`. */
  datatype CrossAxisResult = CrossAxisResult(coord: real, alignment: Alignment)

  datatype Collision = NoCollision | CollidesOn(side: Side)

  /** The arrow's style: its rotation in degrees and the absolute-position
      offsets it sets (an absent offset is a key the style does not set). */
  datatype ArrowData = ArrowData(rotate: int, top: Option<real>, right: Option<real>, bottom: Option<real>, left: Option<real>)

  /** The options of the hook, with their defaults already applied. */
  datatype Options = Options(
    placement: Placement,
    avoidCollisions: bool,
    mainAxisOffset: real,
    arrowMainAxisOffset: real,
    isTargetHeightFixed: bool,
    coverAnchorToAvoidCollisions: bool)

  /** The record the hook stores with `setData`. */
  datatype PositionData = PositionData(
    x: real,
    y: real,
    placement: Placement,
    isPositioned: bool,
    arrowData: Option<ArrowData>,
    canRenderArrow: bool)

  // ---------------------------------------------------------------------------
  // Placement names

  function SideName(s: Side): string {
    match s
    case Top => "top"
    case Right => "right"
    case Bottom => "bottom"
    case Left => "left"
  }

  function AlignmentName(a: Alignment): string {
    match a
    case Start => "start"
    case Center => "center"
    case End => "end"
  }

  /** The string literals of the `Placement` union type. */
  const PlacementNames: set<string> := {
    "top", "top-start", "top-end", "right", "right-start", "right-end",
    "bottom", "bottom-start", "bottom-end", "left", "left-start", "left-end"
  }

  /** The literal that names a placement. */
  function Name(p: Placement): (s: string)
    ensures s in PlacementNames
  {
    match p
    case Placement(Top, Center) => "top"
    case Placement(Top, Start) => "top-start"
    case Placement(Top, End) => "top-end"
    case Placement(Right, Center) => "right"
    case Placement(Right, Start) => "right-start"
    case Placement(Right, End) => "right-end"
    case Placement(Bottom, Center) => "bottom"
    case Placement(Bottom, Start) => "bottom-start"
    case Placement(Bottom, End) => "bottom-end"
    case Placement(Left, Center) => "left"
    case Placement(Left, Start) => "left-start"
    case Placement(Left, End) => "left-end"
  }

  /** The template `update` uses for the reported placement: the bare side
      when the alignment is centred, `side-alignment` otherwise. */
  function Compose(side: Side, alignment: Alignment): string {
    if alignment == Center then SideName(side)
    else SideName(side) + "-" + AlignmentName(alignment)
  }

  /** Whatever side and alignment the resolution produces, the composed
      string is the literal of exactly that placement, so it is always one of
      the twelve members of the union type. */
  lemma ComposeNamesPlacement(side: Side, alignment: Alignment)
    ensures Compose(side, alignment) == Name(Placement(side, alignment))
    ensures Compose(side, alignment) in PlacementNames
  {
  }

  /** Distinct placements have distinct names, so splitting a name at `-`
      recovers the side and the alignment it was built from. */
  lemma {:induction false} NameInjective(p: Placement, q: Placement)
    requires Name(p) == Name(q)
    ensures p == q
  {
    var s := Name(p);
    assert s[0] == Name(q)[0];
    assert |s| == |Name(q)|;
    if |s| > 4 {
      assert s[|s| - 1] == Name(q)[|s| - 1];
    }
    if |s| > 6 {
      assert s[|s| - 3] == Name(q)[|s| - 3];
    }
  }

  // ---------------------------------------------------------------------------
  // Axes and sides

  /** `getMainAxis`: top and bottom placements lie on the y axis. */
  function MainAxis(p: Placement): (a: Axis)
    ensures OnAxis(p.side, a)
  {
    if p.side == Top || p.side == Bottom then Y else X
  }

  /** `getLeadingSide`. */
  function LeadingSide(axis: Axis): Side {
    if axis == X then Left else Top
  }

  /** `getTrailingSide`. */
  function TrailingSide(axis: Axis): Side {
    if axis == X then Right else Bottom
  }

  /** A side lies on an axis when it is that axis's leading or trailing side. */
  predicate OnAxis(s: Side, axis: Axis) {
    s == LeadingSide(axis) || s == TrailingSide(axis)
  }

  /** The main axis is the axis of the placement's own side, and each axis has
      two distinct sides, left/top leading and right/bottom trailing. */
  lemma AxisSides(p: Placement, axis: Axis)
    ensures MainAxis(p) == Y <==> p.side == Top || p.side == Bottom
    ensures OnAxis(p.side, MainAxis(p))
    ensures !OnAxis(p.side, if MainAxis(p) == X then Y else X)
    ensures LeadingSide(axis) != TrailingSide(axis)
    ensures LeadingSide(axis) == (if axis == X then Left else Top)
    ensures TrailingSide(axis) == (if axis == X then Right else Bottom)
  {
  }

  // ---------------------------------------------------------------------------
  // Primary coordinates (no collision handling)

  /** The `switch` of `calcX`: the panel's x for the requested placement. */
  function PrimaryX(anchor: Rect, target: Size, arrow: Size, p: Placement, offset: real): (x: real)
    // left of the anchor: the panel's right edge is offset + arrow before the anchor's left edge
    ensures p.side == Left ==> x + target.width + offset + arrow.height == anchor.x
    // right of the anchor: the panel starts offset + arrow after the anchor's right edge
    ensures p.side == Right ==> x - offset - arrow.height == anchor.x + anchor.width
    // above or below: centres, left edges or right edges coincide
    ensures MainAxis(p) == Y && p.alignment == Center ==> 2.0 * x + target.width == 2.0 * anchor.x + anchor.width
    ensures MainAxis(p) == Y && p.alignment == Start ==> x == anchor.x
    ensures MainAxis(p) == Y && p.alignment == End ==> x + target.width == anchor.x + anchor.width
  {
    match p
    case Placement(Top, Center) | Placement(Bottom, Center) =>
      var d := (anchor.width - target.width) / 2.0;
      anchor.x + d
    case Placement(Top, Start) | Placement(Bottom, Start) =>
      anchor.x
    case Placement(Top, End) | Placement(Bottom, End) =>
      anchor.x + anchor.width - target.width
    case Placement(Left, _) =>
      anchor.x - target.width - offset - arrow.height
    case Placement(Right, _) =>
      anchor.x + anchor.width + offset + arrow.height
  }

  /** The `switch` of `calcY`: the panel's y for the requested placement. */
  function PrimaryY(anchor: Rect, target: Size, arrow: Size, p: Placement, offset: real): (y: real)
    ensures p.side == Top ==> y + target.height + offset + arrow.height == anchor.y
    ensures p.side == Bottom ==> y - offset - arrow.height == anchor.y + anchor.height
    ensures MainAxis(p) == X && p.alignment == Center ==> 2.0 * y + target.height == 2.0 * anchor.y + anchor.height
    ensures MainAxis(p) == X && p.alignment == Start ==> y == anchor.y
    ensures MainAxis(p) == X && p.alignment == End ==> y + target.height == anchor.y + anchor.height
  {
    match p
    case Placement(Top, _) =>
      anchor.y - target.height - offset - arrow.height
    case Placement(Bottom, _) =>
      anchor.y + anchor.height + offset + arrow.height
    case Placement(Left, Center) | Placement(Right, Center) =>
      var d := (anchor.height - target.height) / 2.0;
      anchor.y + d
    case Placement(Left, Start) | Placement(Right, Start) =>
      anchor.y
    case Placement(Left, End) | Placement(Right, End) =>
      anchor.y + anchor.height - target.height
  }

  // ---------------------------------------------------------------------------
  // Collision detection and resolution

  function Max(a: real, b: real): real {
    if a >= b then a else b
  }

  /** `getCollision`. The trailing test compares against the boundary's
      extent field itself, not against `boundaryCoord + boundaryExtent`. */
  function GetCollision(axis: Axis, coord: real, boundaryCoord: real, boundaryExtent: real, targetExtent: real): (c: Collision)
    ensures c == CollidesOn(LeadingSide(axis)) <==> coord < boundaryCoord
    ensures c == CollidesOn(TrailingSide(axis)) <==> boundaryCoord <= coord && coord + targetExtent > boundaryExtent
    ensures c == NoCollision <==> boundaryCoord <= coord && coord + targetExtent <= boundaryExtent
    ensures c.CollidesOn? ==> OnAxis(c.side, axis)
  {
    if coord < boundaryCoord then
      CollidesOn(LeadingSide(axis))
    else if coord + targetExtent > boundaryExtent then
      CollidesOn(TrailingSide(axis))
    else
      NoCollision
  }

  /** Room between the boundary's start and the anchor, on the main axis
      (the anchor coordinate is first clamped to be at least 0). */
  function LeadingArea(boundaryCoord: real, anchorCoord: real, offset: real): real {
    Max(0.0, anchorCoord) - offset - boundaryCoord
  }

  /** Room between the anchor's end and the boundary's extent. */
  function TrailingArea(boundaryExtent: real, anchorCoord: real, anchorExtent: real, offset: real): real {
    boundaryExtent - (Max(0.0, anchorCoord) + anchorExtent + offset)
  }

  /** `getBiggerAreaSide`: the side with strictly more room wins; a tie keeps
      the requested side. */
  function GetBiggerAreaSide(
    mainAxis: Axis, initialSide: Side, boundaryCoord: real, boundaryExtent: real,
    anchorCoord: real, anchorExtent: real, offset: real): (side: Side)
    requires OnAxis(initialSide, mainAxis)
    ensures OnAxis(side, mainAxis)
    ensures var leading := LeadingArea(boundaryCoord, anchorCoord, offset);
            var trailing := TrailingArea(boundaryExtent, anchorCoord, anchorExtent, offset);
            && (side == LeadingSide(mainAxis) <==> leading > trailing || (leading == trailing && initialSide == LeadingSide(mainAxis)))
            && (leading == trailing ==> side == initialSide)
  {
    var leadingSide := LeadingSide(mainAxis);
    var trailingSide := TrailingSide(mainAxis);
    var a := Max(0.0, anchorCoord);
    var leadingSideArea := a - offset - boundaryCoord;
    var trailingSideArea := boundaryExtent - (a + anchorExtent + offset);
    if leadingSideArea > trailingSideArea then leadingSide
    else if leadingSideArea < trailingSideArea then trailingSide
    else initialSide
  }

  /** `getSafeCoordOnMainAxis`: flip to the side with more room, or snap to
      the far edge when the anchor lies wholly outside the boundary. */
  function GetSafeCoordOnMainAxis(
    mainAxis: Axis, offset: real, initialSide: Side, boundaryCoord: real, boundaryExtent: real,
    anchorCoord: real, anchorExtent: real, targetExtent: real, arrow: Size, cover: bool): (r: MainAxisResult)
    requires OnAxis(initialSide, mainAxis)
    ensures OnAxis(r.side, mainAxis)
    // anchor wholly before the boundary: place after it, flush with the boundary start
    ensures anchorCoord + anchorExtent < boundaryCoord ==>
      r == MainAxisResult(boundaryCoord + offset + arrow.height, TrailingSide(mainAxis), true)
    // anchor starting beyond the boundary's extent: place before it, flush with the extent
    ensures boundaryCoord <= anchorCoord + anchorExtent && anchorCoord > boundaryExtent ==>
      r.side == LeadingSide(mainAxis) && r.canRenderArrow &&
      r.coord + targetExtent + offset + arrow.height == boundaryExtent
    // otherwise the side with more room, placed next to the anchor unless clamped
    ensures boundaryCoord <= anchorCoord + anchorExtent && anchorCoord <= boundaryExtent ==>
      r.side == GetBiggerAreaSide(mainAxis, initialSide, boundaryCoord, boundaryExtent, anchorCoord, anchorExtent, offset)
    ensures r.canRenderArrow && boundaryCoord <= anchorCoord + anchorExtent && anchorCoord <= boundaryExtent ==>
      if r.side == LeadingSide(mainAxis) then r.coord + targetExtent + offset + arrow.height == anchorCoord
      else r.coord == anchorCoord + anchorExtent + offset + arrow.height
    // the cover clamp fires exactly when cover is on and the coordinate next to the anchor on
    // the chosen side leaves the boundary (before its start, or past its extent less the panel)
    ensures boundaryCoord <= anchorCoord + anchorExtent && anchorCoord <= boundaryExtent ==>
      (!r.canRenderArrow <==>
        cover &&
        if r.side == LeadingSide(mainAxis) then anchorCoord - targetExtent - offset - arrow.height < boundaryCoord
        else anchorCoord + anchorExtent + offset + arrow.height > boundaryExtent - targetExtent)
    // the arrow is suppressed only by the cover-anchor clamp, which never leaves the boundary start
    ensures !r.canRenderArrow ==> cover && boundaryCoord <= r.coord
    ensures !r.canRenderArrow ==>
      r.coord == (if r.side == LeadingSide(mainAxis) then boundaryCoord else Max(boundaryExtent - targetExtent, boundaryCoord))
  {
    var leadingSide := LeadingSide(mainAxis);
    var trailingSide := TrailingSide(mainAxis);
    if anchorCoord + anchorExtent < boundaryCoord then
      MainAxisResult(boundaryCoord + offset + arrow.height, trailingSide, true)
    else if anchorCoord > boundaryExtent then
      MainAxisResult(boundaryExtent - targetExtent - offset - arrow.height, leadingSide, true)
    else
      var side := GetBiggerAreaSide(mainAxis, initialSide, boundaryCoord, boundaryExtent, anchorCoord, anchorExtent, offset);
      if side == leadingSide then
        var coord := anchorCoord - targetExtent - offset - arrow.height;
        if cover && coord < boundaryCoord then MainAxisResult(boundaryCoord, side, false)
        else MainAxisResult(coord, side, true)
      else
        var coord := anchorCoord + anchorExtent + offset + arrow.height;
        if cover && coord > boundaryExtent - targetExtent then
          MainAxisResult(Max(boundaryExtent - targetExtent, boundaryCoord), side, false)
        else MainAxisResult(coord, side, true)
  }

  /** `getClosestAlignment`: compares the distance from the clamped panel's
      start to the anchor's centre with half the panel. */
  function GetClosestAlignment(coord: real, anchorCoord: real, anchorExtent: real, targetExtent: real): (a: Alignment)
    ensures var d := anchorCoord + anchorExtent / 2.0 - coord;
            && (a == Start <==> d <= 0.0 || d < targetExtent / 2.0)
            && (a == End <==> d > 0.0 && d > targetExtent / 2.0)
            && (a == Center <==> d > 0.0 && d == targetExtent / 2.0)
  {
    var anchorShiftCoord := anchorCoord + anchorExtent / 2.0;
    var targetHalfSize := targetExtent / 2.0;
    var d := anchorShiftCoord - coord;
    if d <= 0.0 || d < targetHalfSize then Start
    else if d > targetHalfSize then End
    else Center
  }

  /** `getSafeCoordOnCrossAxis`: clamp the panel flush to the violated edge and
      re-derive the alignment. */
  function GetSafeCoordOnCrossAxis(
    crossAxis: Axis, collisionSide: Side, boundaryCoord: real, boundaryExtent: real,
    anchorCoord: real, anchorExtent: real, targetExtent: real): (r: CrossAxisResult)
    ensures r.coord == boundaryCoord || r.coord + targetExtent == boundaryExtent
    ensures anchorCoord + anchorExtent < boundaryCoord ==> r == CrossAxisResult(boundaryCoord, Start)
    ensures boundaryCoord <= anchorCoord + anchorExtent && anchorCoord + anchorExtent > boundaryExtent ==>
      r.alignment == End && r.coord + targetExtent == boundaryExtent
    ensures boundaryCoord <= anchorCoord + anchorExtent <= boundaryExtent ==>
      && (r.coord == if collisionSide == LeadingSide(crossAxis) then boundaryCoord else boundaryExtent - targetExtent)
      && r.alignment == GetClosestAlignment(r.coord, anchorCoord, anchorExtent, targetExtent)
  {
    var leadingSide := LeadingSide(crossAxis);
    if anchorCoord + anchorExtent < boundaryCoord then
      CrossAxisResult(boundaryCoord, Start)
    else if anchorCoord + anchorExtent > boundaryExtent then
      CrossAxisResult(boundaryExtent - targetExtent, End)
    else if collisionSide == leadingSide then
      var coord := boundaryCoord;
      CrossAxisResult(coord, GetClosestAlignment(coord, anchorCoord, anchorExtent, targetExtent))
    else
      var coord := boundaryExtent - targetExtent;
      CrossAxisResult(coord, GetClosestAlignment(coord, anchorCoord, anchorExtent, targetExtent))
  }

  /** `getSafeCoord`: no collision keeps everything; a collision on the main
      axis is resolved by `getSafeCoordOnMainAxis` (the side may flip, the
      alignment stays), one on the cross axis by `getSafeCoordOnCrossAxis`
      (the panel is re-aligned against the violated edge, the side stays). */
  function GetSafeCoord(
    axis: Axis, coord: real, boundaryCoord: real, boundaryExtent: real, anchorCoord: real,
    anchorExtent: real, targetExtent: real, p: Placement, offset: real, arrow: Size, cover: bool): (r: AxisResult)
    ensures GetCollision(axis, coord, boundaryCoord, boundaryExtent, targetExtent) == NoCollision ==>
      r == AxisResult(coord, p.side, p.alignment, true)
    ensures GetCollision(axis, coord, boundaryCoord, boundaryExtent, targetExtent).CollidesOn? && MainAxis(p) == axis ==>
      var m := GetSafeCoordOnMainAxis(axis, offset, p.side, boundaryCoord, boundaryExtent,
                                      anchorCoord, anchorExtent, targetExtent, arrow, cover);
      r == AxisResult(m.coord, m.side, p.alignment, m.canRenderArrow)
    ensures GetCollision(axis, coord, boundaryCoord, boundaryExtent, targetExtent).CollidesOn? && MainAxis(p) != axis ==>
      var c := GetSafeCoordOnCrossAxis(axis, GetCollision(axis, coord, boundaryCoord, boundaryExtent, targetExtent).side,
                                       boundaryCoord, boundaryExtent, anchorCoord, anchorExtent, targetExtent);
      r == AxisResult(c.coord, p.side, c.alignment, true)
    ensures MainAxis(p) == axis ==> r.alignment == p.alignment
    ensures MainAxis(p) != axis ==> r.side == p.side && r.canRenderArrow
    ensures OnAxis(r.side, MainAxis(p))
    ensures !r.canRenderArrow ==> cover
  {
    AxisSides(p, axis);
    var collision := GetCollision(axis, coord, boundaryCoord, boundaryExtent, targetExtent);
    if collision == NoCollision then
      AxisResult(coord, p.side, p.alignment, true)
    else if MainAxis(p) == axis then
      var data := GetSafeCoordOnMainAxis(axis, offset, p.side, boundaryCoord, boundaryExtent,
                                         anchorCoord, anchorExtent, targetExtent, arrow, cover);
      AxisResult(data.coord, data.side, p.alignment, data.canRenderArrow)
    else
      var data := GetSafeCoordOnCrossAxis(axis, collision.side, boundaryCoord, boundaryExtent,
                                          anchorCoord, anchorExtent, targetExtent);
      AxisResult(data.coord, p.side, data.alignment, true)
  }

  /** `calcX`. */
  function CalcX(anchor: Rect, boundary: Rect, target: Size, arrow: Size, p: Placement,
                 avoidCollisions: bool, offset: real, cover: bool): (r: AxisResult)
    ensures !avoidCollisions ==> r == AxisResult(PrimaryX(anchor, target, arrow, p, offset), p.side, p.alignment, true)
    ensures avoidCollisions ==>
      r == GetSafeCoord(X, PrimaryX(anchor, target, arrow, p, offset), boundary.x, boundary.width,
                        anchor.x, anchor.width, target.width, p, offset, arrow, cover)
    ensures OnAxis(r.side, MainAxis(p))
    ensures MainAxis(p) == X ==> r.alignment == p.alignment
    ensures MainAxis(p) == Y ==> r.side == p.side && r.canRenderArrow
    ensures !r.canRenderArrow ==> cover
  {
    AxisSides(p, X);
    var x := PrimaryX(anchor, target, arrow, p, offset);
    if avoidCollisions then
      GetSafeCoord(X, x, boundary.x, boundary.width, anchor.x, anchor.width, target.width, p, offset, arrow, cover)
    else
      AxisResult(x, p.side, p.alignment, true)
  }

  /** `calcY`. */
  function CalcY(anchor: Rect, boundary: Rect, target: Size, arrow: Size, p: Placement,
                 avoidCollisions: bool, offset: real, cover: bool): (r: AxisResult)
    ensures !avoidCollisions ==> r == AxisResult(PrimaryY(anchor, target, arrow, p, offset), p.side, p.alignment, true)
    ensures avoidCollisions ==>
      r == GetSafeCoord(Y, PrimaryY(anchor, target, arrow, p, offset), boundary.y, boundary.height,
                        anchor.y, anchor.height, target.height, p, offset, arrow, cover)
    ensures OnAxis(r.side, MainAxis(p))
    ensures MainAxis(p) == Y ==> r.alignment == p.alignment
    ensures MainAxis(p) == X ==> r.side == p.side && r.canRenderArrow
    ensures !r.canRenderArrow ==> cover
  {
    AxisSides(p, Y);
    var y := PrimaryY(anchor, target, arrow, p, offset);
    if avoidCollisions then
      GetSafeCoord(Y, y, boundary.y, boundary.height, anchor.y, anchor.height, target.height, p, offset, arrow, cover)
    else
      AxisResult(y, p.side, p.alignment, true)
  }

  // ---------------------------------------------------------------------------
  // Arrow

  /** The arrow's rotation for the side the panel ended up on. */
  function Rotation(side: Side): int {
    match side
    case Left => 90
    case Right => -90
    case Top => 180
    case Bottom => 0
  }

  /** `getArrowData`. */
  function GetArrowData(x: real, y: real, anchor: Rect, target: Size, arrow: Size,
                        mainAxis: Axis, side: Side, arrowOffset: real): (r: ArrowData)
    ensures OnAxis(side, mainAxis) ==> r.rotate == Rotation(side)
    // panel beside the anchor: the arrow sits at a vertical offset ...
    ensures mainAxis == X ==> r.top.Some? && r.bottom.None? && r.left.Some? != r.right.Some?
    // ... and it sticks out of the edge facing the anchor by the rotated arrow's
    // extent, (width + height) / 2, less the arrow offset
    ensures mainAxis == X && side == Left ==>
      r.right == Some(arrowOffset - (arrow.width + arrow.height) / 2.0) && r.left.None?
    ensures mainAxis == X && side != Left ==>
      r.left == Some(arrowOffset - (arrow.width + arrow.height) / 2.0) && r.right.None?
    // ... centred on the panel when the panel is no taller than the anchor,
    ensures mainAxis == X && target.height <= anchor.height ==> 2.0 * r.top.value + arrow.height == target.height
    // ... and level with the anchor's centre otherwise
    ensures mainAxis == X && target.height > anchor.height ==>
      2.0 * (y + r.top.value) + arrow.height == 2.0 * anchor.y + anchor.height
    // panel above or below: the same along x
    ensures mainAxis == Y ==> r.left.Some? && r.right.None? && r.top.Some? != r.bottom.Some?
    ensures mainAxis == Y && target.width <= anchor.width ==> 2.0 * r.left.value + arrow.width == target.width
    ensures mainAxis == Y && target.width > anchor.width ==>
      2.0 * (x + r.left.value) + arrow.width == 2.0 * anchor.x + anchor.width
    // and it sticks out of the edge facing the anchor by its height, less the arrow offset
    ensures mainAxis == Y && side == Top ==> r.bottom == Some(arrowOffset - arrow.height)
    ensures mainAxis == Y && side != Top ==> r.top == Some(arrowOffset - arrow.height)
  {
    if mainAxis == X then
      var anchorShiftY := anchor.y + anchor.height / 2.0;
      var targetHalfHeight := target.height / 2.0;
      var fy := if target.height <= anchor.height then targetHalfHeight else anchorShiftY - y;
      var arrowY := fy - arrow.height / 2.0;
      var arrowHeightAt90DegRotation := arrow.width - (arrow.width - arrow.height) / 2.0;
      if side == Left then
        ArrowData(90, Some(arrowY), Some(-arrowHeightAt90DegRotation + arrowOffset), None, None)
      else
        ArrowData(-90, Some(arrowY), None, None, Some(-arrowHeightAt90DegRotation + arrowOffset))
    else
      var anchorShiftX := anchor.x + anchor.width / 2.0;
      var targetHalfWidth := target.width / 2.0;
      var fx := if target.width <= anchor.width then targetHalfWidth else anchorShiftX - x;
      var arrowX := fx - arrow.width / 2.0;
      if side == Top then
        ArrowData(180, None, None, Some(-arrow.height + arrowOffset), Some(arrowX))
      else
        ArrowData(0, Some(-arrow.height + arrowOffset), None, None, Some(arrowX))
  }

  // ---------------------------------------------------------------------------
  // The body of `update`

  /** The boundary the hook builds from the screen size and the top safe-area
      inset (the bottom is not inset). */
  function Boundary(screenWidth: real, screenHeight: real, topInset: real): (b: Rect)
    ensures b.y == topInset && b.y + b.height == screenHeight
    ensures b.x == 0.0 && b.width == screenWidth
  {
    Rect(0.0, topInset, screenWidth, screenHeight - topInset)
  }

  /** A measured arrow with a non-zero height takes that height out of the
      target's measured height, unless the target's height is fixed. */
  function EffectiveTarget(target: Size, arrowSize: Option<Size>, isTargetHeightFixed: bool): (t: Size)
    ensures t.width == target.width
    ensures arrowSize.Some? && arrowSize.value.height != 0.0 && !isTargetHeightFixed ==>
      t.height + arrowSize.value.height == target.height
    ensures arrowSize.None? || arrowSize.value.height == 0.0 || isTargetHeightFixed ==>
      t.height == target.height
  {
    var height :=
      if arrowSize.Some? && arrowSize.value.height != 0.0 && !isTargetHeightFixed
      then target.height - arrowSize.value.height
      else target.height;
    Size(target.width, height)
  }

  /** The data `update` stores once the anchor rectangle and the target size
      are known; `arrowMounted` is whether the arrow ref is attached. */
  function Layout(anchor: Rect, target: Size, arrowSize: Option<Size>, boundary: Rect,
                  opts: Options, arrowMounted: bool): (d: PositionData)
    ensures d.isPositioned
    // the panel may flip to the opposite side but never to a perpendicular one
    ensures MainAxis(d.placement) == MainAxis(opts.placement)
    ensures d.arrowData.Some? <==> arrowSize.Some?
    ensures d.arrowData.Some? ==> d.arrowData.value.rotate == Rotation(d.placement.side)
    ensures d.canRenderArrow ==> arrowMounted
    ensures arrowMounted && !opts.coverAnchorToAvoidCollisions ==> d.canRenderArrow
    // x and y come from `calcX` and `calcY`; the side from the main-axis calculation, the
    // alignment and nothing else from the cross-axis one
    ensures var t := EffectiveTarget(target, arrowSize, opts.isTargetHeightFixed);
            var arrow := arrowSize.GetOr(Size(0.0, 0.0));
            var xData := CalcX(anchor, boundary, t, arrow, opts.placement, opts.avoidCollisions,
                               opts.mainAxisOffset, opts.coverAnchorToAvoidCollisions);
            var yData := CalcY(anchor, boundary, t, arrow, opts.placement, opts.avoidCollisions,
                               opts.mainAxisOffset, opts.coverAnchorToAvoidCollisions);
            var main := if MainAxis(opts.placement) == X then xData else yData;
            var cross := if MainAxis(opts.placement) == X then yData else xData;
            && d.x == xData.coord && d.y == yData.coord
            && d.placement == Placement(main.side, cross.alignment)
            && d.canRenderArrow == (arrowMounted && main.canRenderArrow)
            && (arrowSize.Some? ==>
                  d.arrowData == Some(GetArrowData(d.x, d.y, anchor, t, arrowSize.value, MainAxis(opts.placement),
                                                   d.placement.side, opts.arrowMainAxisOffset)))
  {
    var p := opts.placement;
    var t := EffectiveTarget(target, arrowSize, opts.isTargetHeightFixed);
    var arrow := arrowSize.GetOr(Size(0.0, 0.0));
    var xData := CalcX(anchor, boundary, t, arrow, p, opts.avoidCollisions, opts.mainAxisOffset, opts.coverAnchorToAvoidCollisions);
    var yData := CalcY(anchor, boundary, t, arrow, p, opts.avoidCollisions, opts.mainAxisOffset, opts.coverAnchorToAvoidCollisions);
    var mainAxis := MainAxis(p);
    var side := if mainAxis == X then xData.side else yData.side;
    var alignment := if mainAxis == X then yData.alignment else xData.alignment;
    var canRenderArrow :=
      if arrowMounted then (if mainAxis == X then xData.canRenderArrow else yData.canRenderArrow) else false;
    var arrowData :=
      if arrowSize.Some?
      then Some(GetArrowData(xData.coord, yData.coord, anchor, t, arrowSize.value, mainAxis, side, opts.arrowMainAxisOffset))
      else None;
    PositionData(xData.coord, yData.coord, Placement(side, alignment), true, arrowData, canRenderArrow)
  }

  // ---------------------------------------------------------------------------
  // Properties of the resolution

  /** With collision avoidance off, the panel takes the primary coordinates
      and the requested placement, and the arrow may be drawn if mounted. */
  lemma PassthroughWithoutAvoidance(anchor: Rect, target: Size, arrowSize: Option<Size>, boundary: Rect,
                                    opts: Options, arrowMounted: bool)
    requires !opts.avoidCollisions
    ensures var d := Layout(anchor, target, arrowSize, boundary, opts, arrowMounted);
            var t := EffectiveTarget(target, arrowSize, opts.isTargetHeightFixed);
            var arrow := arrowSize.GetOr(Size(0.0, 0.0));
            && d.placement == opts.placement
            && d.x == PrimaryX(anchor, t, arrow, opts.placement, opts.mainAxisOffset)
            && d.y == PrimaryY(anchor, t, arrow, opts.placement, opts.mainAxisOffset)
            && d.canRenderArrow == arrowMounted
  {
  }

  /** When the primary position already fits the boundary on both axes, the
      resolution leaves position and placement as they are. */
  lemma PassthroughWithoutCollision(anchor: Rect, target: Size, arrowSize: Option<Size>, boundary: Rect,
                                    opts: Options, arrowMounted: bool)
    requires var t := EffectiveTarget(target, arrowSize, opts.isTargetHeightFixed);
             var arrow := arrowSize.GetOr(Size(0.0, 0.0));
             var x := PrimaryX(anchor, t, arrow, opts.placement, opts.mainAxisOffset);
             var y := PrimaryY(anchor, t, arrow, opts.placement, opts.mainAxisOffset);
             && boundary.x <= x && x + t.width <= boundary.width
             && boundary.y <= y && y + t.height <= boundary.height
    ensures var d := Layout(anchor, target, arrowSize, boundary, opts, arrowMounted);
            var t := EffectiveTarget(target, arrowSize, opts.isTargetHeightFixed);
            var arrow := arrowSize.GetOr(Size(0.0, 0.0));
            && d.placement == opts.placement
            && d.x == PrimaryX(anchor, t, arrow, opts.placement, opts.mainAxisOffset)
            && d.y == PrimaryY(anchor, t, arrow, opts.placement, opts.mainAxisOffset)
            && d.canRenderArrow == arrowMounted
  {
    var t := EffectiveTarget(target, arrowSize, opts.isTargetHeightFixed);
    var arrow := arrowSize.GetOr(Size(0.0, 0.0));
    var x := PrimaryX(anchor, t, arrow, opts.placement, opts.mainAxisOffset);
    var y := PrimaryY(anchor, t, arrow, opts.placement, opts.mainAxisOffset);
    assert GetCollision(X, x, boundary.x, boundary.width, t.width) == NoCollision;
    assert GetCollision(Y, y, boundary.y, boundary.height, t.height) == NoCollision;
  }

  /** With `coverAnchorToAvoidCollisions`, a panel no larger than the boundary
      whose anchor overlaps the boundary ends up inside the boundary along the
      main axis (the gap and the arrow being non-negative). */
  lemma {:induction false} MainAxisFitsWhenCovering(
    mainAxis: Axis, offset: real, initialSide: Side, boundaryCoord: real, boundaryExtent: real,
    anchorCoord: real, anchorExtent: real, targetExtent: real, arrow: Size)
    requires OnAxis(initialSide, mainAxis)
    requires boundaryCoord <= anchorCoord + anchorExtent && anchorCoord <= boundaryExtent
    requires offset + arrow.height >= 0.0
    requires targetExtent <= boundaryExtent - boundaryCoord
    ensures var r := GetSafeCoordOnMainAxis(mainAxis, offset, initialSide, boundaryCoord, boundaryExtent,
                                           anchorCoord, anchorExtent, targetExtent, arrow, true);
            boundaryCoord <= r.coord && r.coord + targetExtent <= boundaryExtent
  {
    var r := GetSafeCoordOnMainAxis(mainAxis, offset, initialSide, boundaryCoord, boundaryExtent,
                                    anchorCoord, anchorExtent, targetExtent, arrow, true);
    if r.side == LeadingSide(mainAxis) {
      if r.canRenderArrow {
        assert r.coord + targetExtent + offset + arrow.height == anchorCoord;
      }
    } else {
      if !r.canRenderArrow {
        assert r.coord == Max(boundaryExtent - targetExtent, boundaryCoord);
      }
    }
  }

  /** A counterexample, not a property: without that flag the main axis may
      still overflow. An anchor with equal room on both sides keeps the
      requested top side and the panel sticks out above the boundary. */
  lemma OverflowsWithoutCovering()
    ensures var r := GetSafeCoordOnMainAxis(Y, 0.0, Top, 0.0, 100.0, 10.0, 80.0, 50.0, Size(0.0, 0.0), false);
            r.side == Top && r.coord == -40.0 && r.coord < 0.0
  {
  }

  /** Cross-axis resolution always leaves a panel no larger than the boundary
      inside it. */
  lemma CrossAxisFits(crossAxis: Axis, collisionSide: Side, boundaryCoord: real, boundaryExtent: real,
                      anchorCoord: real, anchorExtent: real, targetExtent: real)
    requires targetExtent <= boundaryExtent - boundaryCoord
    ensures var r := GetSafeCoordOnCrossAxis(crossAxis, collisionSide, boundaryCoord, boundaryExtent,
                                            anchorCoord, anchorExtent, targetExtent);
            boundaryCoord <= r.coord && r.coord + targetExtent <= boundaryExtent
  {
  }

  /** The reported placement's name is the template applied to the side of
      the main-axis calculation and the alignment of the cross-axis one, so it
      is always one of the twelve literals. */
  lemma LayoutPlacementName(anchor: Rect, target: Size, arrowSize: Option<Size>, boundary: Rect,
                            opts: Options, arrowMounted: bool)
    ensures var d := Layout(anchor, target, arrowSize, boundary, opts, arrowMounted);
            var t := EffectiveTarget(target, arrowSize, opts.isTargetHeightFixed);
            var arrow := arrowSize.GetOr(Size(0.0, 0.0));
            var xData := CalcX(anchor, boundary, t, arrow, opts.placement, opts.avoidCollisions,
                               opts.mainAxisOffset, opts.coverAnchorToAvoidCollisions);
            var yData := CalcY(anchor, boundary, t, arrow, opts.placement, opts.avoidCollisions,
                               opts.mainAxisOffset, opts.coverAnchorToAvoidCollisions);
            var side := if MainAxis(opts.placement) == X then xData.side else yData.side;
            var alignment := if MainAxis(opts.placement) == X then yData.alignment else xData.alignment;
            && Name(d.placement) == Compose(side, alignment)
            && Name(d.placement) in PlacementNames
  {
    var d := Layout(anchor, target, arrowSize, boundary, opts, arrowMounted);
    ComposeNamesPlacement(d.placement.side, d.placement.alignment);
  }

  /** With collision avoidance and `coverAnchorToAvoidCollisions` on, a panel
      no larger than the boundary, whose anchor overlaps the boundary along the
      main axis, ends up inside the boundary on both axes (the gap and the
      arrow being non-negative; the boundary's far edges are its extent
      fields, as the collision test reads them). */
  lemma {:induction false} LayoutFitsWhenCovering(anchor: Rect, target: Size, arrowSize: Option<Size>, boundary: Rect,
                                                  opts: Options, arrowMounted: bool)
    requires opts.avoidCollisions && opts.coverAnchorToAvoidCollisions
    requires opts.mainAxisOffset + arrowSize.GetOr(Size(0.0, 0.0)).height >= 0.0
    requires var t := EffectiveTarget(target, arrowSize, opts.isTargetHeightFixed);
             t.width <= boundary.width - boundary.x && t.height <= boundary.height - boundary.y
    requires MainAxis(opts.placement) == X ==> boundary.x <= anchor.x + anchor.width && anchor.x <= boundary.width
    requires MainAxis(opts.placement) == Y ==> boundary.y <= anchor.y + anchor.height && anchor.y <= boundary.height
    ensures var d := Layout(anchor, target, arrowSize, boundary, opts, arrowMounted);
            var t := EffectiveTarget(target, arrowSize, opts.isTargetHeightFixed);
            && boundary.x <= d.x && d.x + t.width <= boundary.width
            && boundary.y <= d.y && d.y + t.height <= boundary.height
  {
    var p := opts.placement;
    var t := EffectiveTarget(target, arrowSize, opts.isTargetHeightFixed);
    var arrow := arrowSize.GetOr(Size(0.0, 0.0));
    var x := PrimaryX(anchor, t, arrow, p, opts.mainAxisOffset);
    var y := PrimaryY(anchor, t, arrow, p, opts.mainAxisOffset);
    AxisFits(X, x, boundary.x, boundary.width, anchor.x, anchor.width, t.width, p, opts.mainAxisOffset, arrow);
    AxisFits(Y, y, boundary.y, boundary.height, anchor.y, anchor.height, t.height, p, opts.mainAxisOffset, arrow);
  }

  /** One axis of `LayoutFitsWhenCovering`: whichever way `getSafeCoord`
      resolves, with cover on the panel lies inside the boundary. */
  lemma {:induction false} AxisFits(axis: Axis, coord: real, boundaryCoord: real, boundaryExtent: real, anchorCoord: real,
                                    anchorExtent: real, targetExtent: real, p: Placement, offset: real, arrow: Size)
    requires offset + arrow.height >= 0.0
    requires targetExtent <= boundaryExtent - boundaryCoord
    requires MainAxis(p) == axis ==> boundaryCoord <= anchorCoord + anchorExtent && anchorCoord <= boundaryExtent
    ensures var r := GetSafeCoord(axis, coord, boundaryCoord, boundaryExtent, anchorCoord, anchorExtent,
                                  targetExtent, p, offset, arrow, true);
            boundaryCoord <= r.coord && r.coord + targetExtent <= boundaryExtent
  {
    var collision := GetCollision(axis, coord, boundaryCoord, boundaryExtent, targetExtent);
    if collision.CollidesOn? {
      if MainAxis(p) == axis {
        AxisSides(p, axis);
        MainAxisFitsWhenCovering(axis, offset, p.side, boundaryCoord, boundaryExtent,
                                 anchorCoord, anchorExtent, targetExtent, arrow);
      } else {
        CrossAxisFits(axis, collision.side, boundaryCoord, boundaryExtent, anchorCoord, anchorExtent, targetExtent);
      }
    }
  }

  // ---------------------------------------------------------------------------
  // The hook's state

  /** The state `usePositioning` keeps: the three measured snapshots and the
      stored result. Measurement callbacks fill the snapshots; `Update`
      recomputes the result. */
  class Positioner {
    var anchorRect: Option<Rect>
    var targetSize: Option<Size>
    var arrowSize: Option<Size>
    var data: PositionData

    /** Nothing measured; the panel is not positioned yet. */
    constructor (placement: Placement)
      ensures anchorRect == None && targetSize == None && arrowSize == None
      ensures data == PositionData(0.0, 0.0, placement, false, None, true)
    {
      anchorRect := None;
      targetSize := None;
      arrowSize := None;
      data := PositionData(0.0, 0.0, placement, false, None, true);
    }

    /** The anchor's `measure` callback (page coordinates). */
    method MeasureAnchor(r: Rect)
      modifies this
      ensures anchorRect == Some(r)
      ensures targetSize == old(targetSize) && arrowSize == old(arrowSize) && data == old(data)
    {
      anchorRect := Some(r);
    }

    /** The target's `measure` callback. */
    method MeasureTarget(s: Size)
      modifies this
      ensures targetSize == Some(s)
      ensures anchorRect == old(anchorRect) && arrowSize == old(arrowSize) && data == old(data)
    {
      targetSize := Some(s);
    }

    /** The arrow's `measure` callback. */
    method MeasureArrow(s: Size)
      modifies this
      ensures arrowSize == Some(s)
      ensures anchorRect == old(anchorRect) && targetSize == old(targetSize) && data == old(data)
    {
      arrowSize := Some(s);
    }

    /** `update`: a no-op until both the anchor and the target are measured;
        afterwards the stored data is a function of the snapshots and the
        options alone, so calling it again with the same inputs changes
        nothing. */
    method Update(boundary: Rect, opts: Options, arrowMounted: bool)
      modifies this
      ensures anchorRect == old(anchorRect) && targetSize == old(targetSize) && arrowSize == old(arrowSize)
      ensures anchorRect.None? || targetSize.None? ==> data == old(data)
      ensures anchorRect.Some? && targetSize.Some? ==>
        data == Layout(anchorRect.value, targetSize.value, arrowSize, boundary, opts, arrowMounted)
      ensures anchorRect.Some? && targetSize.Some? ==>
        data.isPositioned && MainAxis(data.placement) == MainAxis(opts.placement)
    {
      if anchorRect.None? || targetSize.None? {
        return;
      }
      data := Layout(anchorRect.value, targetSize.value, arrowSize, boundary, opts, arrowMounted);
    }
  }
}
