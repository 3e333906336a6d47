/** The placement switch of the floating slider: from the requested edge, the offset
    and the measured sizes to the props handed to the positioned wrapper view. */
module Placement {
  import opened Wrappers

  /** The values of the `POSITION` enumeration. */
  const LEFT: string := "left"
  const TOP: string := "top"
  const RIGHT: string := "right"
  const BOTTOM: string := "bottom"

  /** The fixed 10 px margin of the placements. */
  const EDGE_MARGIN: real := 10.0

  /** The only rotation the side placements use. */
  const ROTATE_MINUS_90: string := "-90deg"

  predicate IsPosition(position: string) {
    position == LEFT || position == TOP || position == RIGHT || position == BOTTOM
  }

  predicate IsSide(position: string) {
    position == LEFT || position == RIGHT
  }

  /** The transform list `[{rotate}, {translateX}, {translateY}]` of the wrapper's style. */
  datatype Transform = Transform(rotate: string, translateX: real, translateY: real)

  /** The wrapper's props: a `None` offset is the `null` that makes the wrapper omit
      that CSS rule; `style` is absent unless a transform is set. */
  datatype WrapperProps = WrapperProps(
    leftOffset: Option<real>,
    rightOffset: Option<real>,
    topOffset: Option<real>,
    bottomOffset: Option<real>,
    style: Option<Transform>)

  /** The props before the switch: all four offsets null, no style. */
  const UNPOSITIONED: WrapperProps := WrapperProps(None, None, None, None, None)

  /** The left and right offset of both side placements: half the difference of the
      root's sides, past the status bar, plus the margin. */
  function SideOffset(rootWidth: real, rootHeight: real, statusBarHeight: real): real {
    (rootWidth - rootHeight) / 2.0 + statusBarHeight + EDGE_MARGIN
  }

  /** The placement switch. `statusBarHeight` is the platform's status bar height. */
  function WrapperPlacement(position: string, offset: real, rootWidth: real, rootHeight: real,
                            wrapperHeight: real, statusBarHeight: real): (p: WrapperProps)
    ensures p.leftOffset.Some? <==> IsPosition(position)
    ensures p.rightOffset == p.leftOffset
    ensures p.topOffset.Some? <==> position == TOP
    ensures p.bottomOffset.Some? <==> position == BOTTOM
    ensures p.style.Some? <==> IsSide(position)
    ensures p.style.Some? ==> p.style.value.rotate == ROTATE_MINUS_90
  {
    if position == LEFT then
      var side := SideOffset(rootWidth, rootHeight, statusBarHeight);
      UNPOSITIONED.(
        leftOffset := Some(side),
        rightOffset := Some(side),
        style := Some(Transform(ROTATE_MINUS_90,
                                0.0 - rootHeight / 2.0 + wrapperHeight / 2.0,
                                0.0 - rootWidth / 2.0 + wrapperHeight / 2.0 + offset)))
    else if position == RIGHT then
      var side := SideOffset(rootWidth, rootHeight, statusBarHeight);
      UNPOSITIONED.(
        leftOffset := Some(side),
        rightOffset := Some(side),
        style := Some(Transform(ROTATE_MINUS_90,
                                0.0 - rootHeight / 2.0 + wrapperHeight / 2.0,
                                rootWidth / 2.0 - wrapperHeight / 2.0 - offset)))
    else if position == TOP then
      UNPOSITIONED.(
        topOffset := Some(statusBarHeight + offset),
        leftOffset := Some(EDGE_MARGIN),
        rightOffset := Some(EDGE_MARGIN))
    else if position == BOTTOM then
      UNPOSITIONED.(
        bottomOffset := Some(offset),
        leftOffset := Some(EDGE_MARGIN),
        rightOffset := Some(EDGE_MARGIN))
    else
      UNPOSITIONED
  }

  /** Top: below the status bar by `offset`, 10 px from either side, nothing else. */
  lemma TopPlacement(offset: real, rootWidth: real, rootHeight: real, wrapperHeight: real, statusBarHeight: real)
    ensures WrapperPlacement(TOP, offset, rootWidth, rootHeight, wrapperHeight, statusBarHeight)
         == WrapperProps(Some(EDGE_MARGIN), Some(EDGE_MARGIN), Some(statusBarHeight + offset), None, None)
  {
  }

  /** Bottom: `offset` above the bottom edge, 10 px from either side, nothing else. */
  lemma BottomPlacement(offset: real, rootWidth: real, rootHeight: real, wrapperHeight: real, statusBarHeight: real)
    ensures WrapperPlacement(BOTTOM, offset, rootWidth, rootHeight, wrapperHeight, statusBarHeight)
         == WrapperProps(Some(EDGE_MARGIN), Some(EDGE_MARGIN), None, Some(offset), None)
  {
  }

  /** Left and right share their offsets, their rotation and their X translation;
      their Y translations are each other's negation; top and bottom stay null. */
  lemma SidePlacementsMirror(offset: real, rootWidth: real, rootHeight: real, wrapperHeight: real, statusBarHeight: real)
    ensures var l := WrapperPlacement(LEFT, offset, rootWidth, rootHeight, wrapperHeight, statusBarHeight);
            var r := WrapperPlacement(RIGHT, offset, rootWidth, rootHeight, wrapperHeight, statusBarHeight);
            && l.leftOffset == r.leftOffset == Some(SideOffset(rootWidth, rootHeight, statusBarHeight))
            && l.rightOffset == r.rightOffset == l.leftOffset
            && l.topOffset.None? && l.bottomOffset.None? && r.topOffset.None? && r.bottomOffset.None?
            && l.style.Some? && r.style.Some?
            && l.style.value.rotate == r.style.value.rotate == ROTATE_MINUS_90
            && l.style.value.translateX == r.style.value.translateX == wrapperHeight / 2.0 - rootHeight / 2.0
            && r.style.value.translateY == -l.style.value.translateY
  {
  }

  /** A position outside `POSITION` leaves all four offsets null and sets no transform. */
  lemma UnknownPositionUnplaced(position: string, offset: real, rootWidth: real, rootHeight: real,
                                wrapperHeight: real, statusBarHeight: real)
    requires !IsPosition(position)
    ensures WrapperPlacement(position, offset, rootWidth, rootHeight, wrapperHeight, statusBarHeight) == UNPOSITIONED
  {
  }

  /** The top and bottom placements do not depend on any measurement, so they are
      final on the first render; the side offsets do not depend on the wrapper's height. */
  lemma MeasurementIndependence(position: string, offset: real, statusBarHeight: real,
                                w1: real, h1: real, wh1: real, w2: real, h2: real, wh2: real)
    ensures position == TOP || position == BOTTOM ==>
              WrapperPlacement(position, offset, w1, h1, wh1, statusBarHeight)
              == WrapperPlacement(position, offset, w2, h2, wh2, statusBarHeight)
    ensures WrapperPlacement(position, offset, w1, h1, wh1, statusBarHeight).leftOffset
            == WrapperPlacement(position, offset, w1, h1, wh2, statusBarHeight).leftOffset
  {
  }

  /** The positioning oracles: root 1000 x 200, wrapper height 100, status bar 50, offset 50. */
  lemma PositioningOracles()
    ensures WrapperPlacement(LEFT, 50.0, 1000.0, 200.0, 100.0, 50.0)
         == WrapperProps(Some(460.0), Some(460.0), None, None, Some(Transform("-90deg", -50.0, -400.0)))
    ensures WrapperPlacement(RIGHT, 50.0, 1000.0, 200.0, 100.0, 50.0)
         == WrapperProps(Some(460.0), Some(460.0), None, None, Some(Transform("-90deg", -50.0, 400.0)))
    ensures WrapperPlacement(TOP, 50.0, 1000.0, 200.0, 100.0, 50.0)
         == WrapperProps(Some(10.0), Some(10.0), Some(100.0), None, None)
    ensures WrapperPlacement(BOTTOM, 50.0, 1000.0, 200.0, 100.0, 50.0)
         == WrapperProps(Some(10.0), Some(10.0), None, Some(50.0), None)
  {
  }
}
