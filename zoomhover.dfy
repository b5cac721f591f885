/** The hover zoom
    (react/components/organisms/ripe-image-zoom-hover/ripe-image-zoom-hover.js):
    while the pointer is over the image a pivot follows it and the zoom
    level can be changed with the wheel; outside, the zoom is the neutral
    100. Coordinates and zoom levels are real numbers. */
module HoverZoom {
  import opened Js

  datatype Point = Point(x: real, y: real)

  /** The properties read by the handlers. */
  datatype HoverProps = HoverProps(zoom: real, scrollZoom: bool, scrollSensitivity: real)

  /** A pointer event, by its page coordinates. */
  datatype PointerEvent = PointerEvent(pageX: real, pageY: real)

  /** The `.ripe-image-zoom-hover` element the handlers look up. */
  datatype Target = Target(offsetLeft: real, offsetTop: real, offsetWidth: real, offsetHeight: real)

  /** `_getPivotCoordinates`: the pointer relative to the target's centre. */
  function PivotCoordinates(event: PointerEvent, target: Target): Point {
    Point(event.pageX - target.offsetLeft - target.offsetWidth / 2.0,
          event.pageY - target.offsetTop - target.offsetHeight / 2.0)
  }

  /** The test that ends the hover: the pivot lies right of or below the
      half extent of the target. */
  predicate OutOfBounds(p: Point, target: Target) {
    p.x > target.offsetWidth / 2.0 || p.y > target.offsetHeight / 2.0
  }

  /** The hover ends exactly when the pointer is past the right or the
      bottom edge of the target; left of it or above it does not count. */
  lemma OutOfBoundsPastEdge(event: PointerEvent, target: Target)
    ensures OutOfBounds(PivotCoordinates(event, target), target) <==>
      event.pageX > target.offsetLeft + target.offsetWidth || event.pageY > target.offsetTop + target.offsetHeight
    ensures target.offsetWidth >= 0.0 && target.offsetHeight >= 0.0
            && event.pageX < target.offsetLeft && event.pageY < target.offsetTop ==>
      !OutOfBounds(PivotCoordinates(event, target), target)
  {
    var p := PivotCoordinates(event, target);
    assert p.x > target.offsetWidth / 2.0 <==> event.pageX > target.offsetLeft + target.offsetWidth;
    assert p.y > target.offsetHeight / 2.0 <==> event.pageY > target.offsetTop + target.offsetHeight;
  }

  class HoverZoom {
    var hover: bool
    var pivot: Option<Point>
    var zoomData: real

    /** A pivot is kept exactly while hovering. */
    predicate Valid()
      reads this
    {
      pivot.None? <==> !hover
    }

    /** `_zoomApplied`: the zoom level while hovering, 100 otherwise. */
    function ZoomApplied(): real
      reads this
    {
      if hover then zoomData else 100.0
    }

    constructor(props: HoverProps)
      ensures Valid() && !hover && pivot.None? && zoomData == props.zoom
    {
      hover, pivot, zoomData := false, None, props.zoom;
    }

    /** `startHover`: hovers at the pointer with the configured zoom, unless
      the pointer is out of bounds, which ends the hover instead. */
    method StartHover(props: HoverProps, event: PointerEvent, target: Target)
      modifies this
      ensures Valid()
      ensures var p := PivotCoordinates(event, target);
        if OutOfBounds(p, target) then !hover && pivot.None? && zoomData == props.zoom
        else hover && pivot == Some(p) && zoomData == props.zoom
      ensures ZoomApplied() == if OutOfBounds(PivotCoordinates(event, target), target) then 100.0 else props.zoom
    {
      var pivotCoordinates := PivotCoordinates(event, target);
      if OutOfBounds(pivotCoordinates, target) {
        EndHover(props);
        return;
      }
      hover, pivot, zoomData := true, Some(pivotCoordinates), props.zoom;
    }

    /** `moveHover`: while hovering, moves the pivot to the pointer, or ends
      the hover when that is out of bounds; otherwise nothing. */
    method MoveHover(props: HoverProps, event: PointerEvent, target: Target)
      requires Valid()
      modifies this
      ensures Valid()
      ensures !old(hover) ==> hover == old(hover) && pivot == old(pivot) && zoomData == old(zoomData)
      ensures old(hover) ==> var p := PivotCoordinates(event, target);
        if OutOfBounds(p, target) then !hover && pivot.None? && zoomData == props.zoom
        else hover && pivot == Some(p) && zoomData == old(zoomData)
      ensures ZoomApplied() ==
        if old(hover) && OutOfBounds(PivotCoordinates(event, target), target) then 100.0 else old(ZoomApplied())
    {
      if !hover {
        return;
      }
      var pivotCoordinates := PivotCoordinates(event, target);
      if OutOfBounds(pivotCoordinates, target) {
        EndHover(props);
        return;
      }
      pivot := Some(pivotCoordinates);
    }

    /** `endHover`: no hover, no pivot, and the configured zoom again. */
    method EndHover(props: HoverProps)
      modifies this
      ensures Valid()
      ensures !hover && pivot.None? && zoomData == props.zoom
      ensures ZoomApplied() == 100.0
    {
      hover, pivot, zoomData := false, None, props.zoom;
    }

    /** `zoomScroll`: while hovering with scroll zoom on, the wheel moves the
      zoom against its delta, scaled by the sensitivity and not clamped. */
    method ZoomScroll(props: HoverProps, deltaY: real)
      requires Valid()
      modifies this
      ensures Valid()
      ensures hover == old(hover) && pivot == old(pivot)
      ensures !old(hover) || !props.scrollZoom ==> zoomData == old(zoomData)
      ensures old(hover) && props.scrollZoom ==> zoomData == old(zoomData) - props.scrollSensitivity * deltaY
      ensures ZoomApplied() ==
        if old(hover) && props.scrollZoom then old(ZoomApplied()) - props.scrollSensitivity * deltaY
        else old(ZoomApplied())
      ensures old(hover) && props.scrollZoom && props.scrollSensitivity > 0.0 ==>
        (ZoomApplied() > old(ZoomApplied()) <==> deltaY < 0.0)
    {
      if !hover || !props.scrollZoom {
        return;
      }
      var updatedZoom := zoomData + -1.0 * props.scrollSensitivity * deltaY;
      if props.scrollSensitivity > 0.0 {
        ScrollDirection(zoomData, props.scrollSensitivity, deltaY);
      }
      zoomData := updatedZoom;
    }
  }

  /** With a positive sensitivity, scrolling up (a negative delta) zooms in
      and scrolling down zooms out. */
  lemma ScrollDirection(zoom: real, sensitivity: real, deltaY: real)
    requires sensitivity > 0.0
    ensures deltaY < 0.0 <==> zoom - sensitivity * deltaY > zoom
  {
    if deltaY < 0.0 {
      assert sensitivity * deltaY < 0.0;
    } else {
      assert sensitivity * deltaY >= 0.0;
    }
  }
}
