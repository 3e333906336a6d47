/** Where the wrapper actually lands on the screen for given props: a reference
    model of absolute positioning and of the transform list, against which the
    placement switch is shown to do what it is for — keep the slider `offset`
    away from the requested edge (below the status bar for the top edge) and
    centred along that edge. */
module ScreenGeometry {
  import opened Wrappers
  import opened Placement

  /** A rectangle in the root view's coordinates: x grows to the right, y downwards. */
  datatype Box = Box(x: real, y: real, width: real, height: real)

  function LeftGap(b: Box): real { b.x }
  function TopGap(b: Box): real { b.y }
  function RightGap(b: Box, rootWidth: real): real { rootWidth - (b.x + b.width) }
  function BottomGap(b: Box, rootHeight: real): real { rootHeight - (b.y + b.height) }

  /** The box absolute positioning gives the wrapper before its transform. A set left
      and right stretch it between them; otherwise it keeps `naturalWidth`. Its height is
      the measured `wrapperHeight`; with neither top nor bottom set it sits at the top. */
  function LaidOut(p: WrapperProps, rootWidth: real, rootHeight: real, wrapperHeight: real,
                   naturalWidth: real): (b: Box)
    ensures b.height == wrapperHeight
    ensures p.leftOffset.Some? ==> LeftGap(b) == p.leftOffset.value
    ensures p.rightOffset.Some? ==> RightGap(b, rootWidth) == p.rightOffset.value
    ensures p.topOffset.Some? ==> TopGap(b) == p.topOffset.value
    ensures p.topOffset.None? && p.bottomOffset.Some? ==> BottomGap(b, rootHeight) == p.bottomOffset.value
    ensures p.leftOffset.None? && p.rightOffset.None? ==> LeftGap(b) == 0.0 && b.width == naturalWidth
    ensures p.topOffset.None? && p.bottomOffset.None? ==> TopGap(b) == 0.0
  {
    var x :=
      if p.leftOffset.Some? then p.leftOffset.value
      else if p.rightOffset.Some? then rootWidth - p.rightOffset.value - naturalWidth
      else 0.0;
    var width :=
      if p.leftOffset.Some? && p.rightOffset.Some?
      then rootWidth - p.leftOffset.value - p.rightOffset.value
      else naturalWidth;
    var y :=
      if p.topOffset.Some? then p.topOffset.value
      else if p.bottomOffset.Some? then rootHeight - p.bottomOffset.value - wrapperHeight
      else 0.0;
    Box(x, y, width, wrapperHeight)
  }

  /** rotate(-90deg) then translateX, translateY, applied about the box's centre: the
      quarter turn swaps width and height, and the translations that follow move along
      the turned axes, so translateX moves the box up and translateY moves it right. */
  function QuarterTurned(b: Box, t: Transform): (r: Box)
    ensures r.width == b.height && r.height == b.width
    ensures r.x + r.width / 2.0 == b.x + b.width / 2.0 + t.translateY
    ensures r.y + r.height / 2.0 == b.y + b.height / 2.0 - t.translateX
  {
    var cx := b.x + b.width / 2.0 + t.translateY;
    var cy := b.y + b.height / 2.0 - t.translateX;
    Box(cx - b.height / 2.0, cy - b.width / 2.0, b.height, b.width)
  }

  /** The box the wrapper occupies on screen. Only the rotation the placement switch
      produces is modelled. */
  function OnScreen(p: WrapperProps, rootWidth: real, rootHeight: real, wrapperHeight: real,
                    naturalWidth: real): Box
    requires p.style.Some? ==> p.style.value.rotate == ROTATE_MINUS_90
  {
    var b := LaidOut(p, rootWidth, rootHeight, wrapperHeight, naturalWidth);
    if p.style.Some? then QuarterTurned(b, p.style.value) else b
  }

  /** The on-screen box of the placement computed for `position`. */
  function PlacedBox(position: string, offset: real, rootWidth: real, rootHeight: real,
                     wrapperHeight: real, statusBarHeight: real, naturalWidth: real): Box
  {
    OnScreen(WrapperPlacement(position, offset, rootWidth, rootHeight, wrapperHeight, statusBarHeight),
             rootWidth, rootHeight, wrapperHeight, naturalWidth)
  }

  /** The distance from the box to the edge `position` names; the top edge is measured
      from the bottom of the status bar. */
  function EdgeGap(b: Box, position: string, rootWidth: real, rootHeight: real, statusBarHeight: real): real
    requires IsPosition(position)
  {
    if position == LEFT then LeftGap(b)
    else if position == RIGHT then RightGap(b, rootWidth)
    else if position == TOP then TopGap(b) - statusBarHeight
    else BottomGap(b, rootHeight)
  }

  /** Every edge placement puts the slider exactly `offset` from its edge, and its
      thickness across that edge is the wrapper's measured height. */
  lemma PlacedAtOffset(position: string, offset: real, rootWidth: real, rootHeight: real,
                       wrapperHeight: real, statusBarHeight: real, naturalWidth: real)
    requires IsPosition(position)
    ensures var b := PlacedBox(position, offset, rootWidth, rootHeight, wrapperHeight, statusBarHeight, naturalWidth);
            && EdgeGap(b, position, rootWidth, rootHeight, statusBarHeight) == offset
            && (if IsSide(position) then b.width else b.height) == wrapperHeight
  {
  }

  /** Along its edge the slider is centred: 10 px from both sides for top and bottom,
      and, for left and right, status bar plus 10 px from both the top and the bottom. */
  lemma PlacedCentred(position: string, offset: real, rootWidth: real, rootHeight: real,
                      wrapperHeight: real, statusBarHeight: real, naturalWidth: real)
    requires IsPosition(position)
    ensures var b := PlacedBox(position, offset, rootWidth, rootHeight, wrapperHeight, statusBarHeight, naturalWidth);
            if IsSide(position) then
              TopGap(b) == BottomGap(b, rootHeight) == statusBarHeight + EDGE_MARGIN
            else
              LeftGap(b) == RightGap(b, rootWidth) == EDGE_MARGIN
  {
  }

  /** The right placement is the left one reflected across the root's vertical midline. */
  lemma SidesReflect(offset: real, rootWidth: real, rootHeight: real, wrapperHeight: real,
                     statusBarHeight: real, naturalWidth: real)
    ensures var l := PlacedBox(LEFT, offset, rootWidth, rootHeight, wrapperHeight, statusBarHeight, naturalWidth);
            var r := PlacedBox(RIGHT, offset, rootWidth, rootHeight, wrapperHeight, statusBarHeight, naturalWidth);
            && r.width == l.width && r.height == l.height && r.y == l.y
            && RightGap(r, rootWidth) == LeftGap(l)
  {
  }

  /** An unknown position leaves the wrapper at the root's top-left corner, untransformed. */
  lemma UnknownAtOrigin(position: string, offset: real, rootWidth: real, rootHeight: real,
                        wrapperHeight: real, statusBarHeight: real, naturalWidth: real)
    requires !IsPosition(position)
    ensures PlacedBox(position, offset, rootWidth, rootHeight, wrapperHeight, statusBarHeight, naturalWidth)
         == Box(0.0, 0.0, naturalWidth, wrapperHeight)
  {
  }
}
