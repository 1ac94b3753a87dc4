/**
  The pointer-offset calculator of the drag preview: where the floating image
  that follows the pointer is translated to on each drag-monitor notification.
  Coordinates are exact reals (pixels relative to the viewport origin).
 */
module DragPreview {

  import opened Wrappers

  /** A point or a translation vector (react-dnd's XYCoord). */
  datatype Point = Point(x: real, y: real)

  /** A point whose coordinates the host may leave undefined. */
  datatype RawPoint = RawPoint(x: Option<real>, y: Option<real>)

  /** The size of a measured bounding box. */
  datatype Box = Box(width: real, height: real)

  /** The mounted preview element; `boundingClientRect` is None when the
      element offers no `getBoundingClientRect`. */
  datatype Element = Element(boundingClientRect: Option<Box>)

  /** A snapshot of the drag monitor's queries at one notification. */
  datatype Monitor = Monitor(
    clientOffset: Option<Point>,
    initialClientOffset: Option<RawPoint>,
    initialSourceClientOffset: Option<Point>,
    isDragging: bool)

  const Origin := Point(0.0, 0.0)

  /** Moving point `p` by the vector `v`: the inverse of Subtract. */
  function Translate(p: Point, v: Point): Point
  {
    Point(p.x + v.x, p.y + v.y)
  }

  /** Half the box: the vector from its top-left corner to its centre. */
  function Middle(bb: Box): (m: Point)
    ensures m.x + m.x == bb.width && m.y + m.y == bb.height
  {
    Point(bb.width / 2.0, bb.height / 2.0)
  }

  /** The centre of a box of size `bb` drawn with its top-left corner at `pos`. */
  function Center(pos: Point, bb: Box): Point
  {
    Translate(pos, Middle(bb))
  }

  /** Component-wise difference: the vector that carries `b` onto `a`. */
  function Subtract(a: Point, b: Point): (r: Point)
    ensures Translate(b, r) == a
  {
    Point(a.x - b.x, a.y - b.y)
  }

  lemma SubtractSelf(a: Point)
    ensures Subtract(a, a) == Origin
  {
  }

  lemma SubtractOrigin(a: Point)
    ensures Subtract(a, Origin) == a
  {
  }

  /** Both initial offsets are present and the initial client offset has both
      coordinates defined. */
  function HasInitialOffsets(monitor: Monitor): (b: bool)
    ensures !b <==> (|| monitor.initialClientOffset.None?
                     || monitor.initialSourceClientOffset.None?
                     || monitor.initialClientOffset.value.x.None?
                     || monitor.initialClientOffset.value.y.None?)
  {
    && monitor.initialClientOffset.Some?
    && monitor.initialSourceClientOffset.Some?
    && monitor.initialClientOffset.value.x.Some?
    && monitor.initialClientOffset.value.y.Some?
  }

  /** The initial client offset as a point; only meaningful under HasInitialOffsets. */
  function InitialClientPoint(monitor: Monitor): Point
    requires HasInitialOffsets(monitor)
  {
    Point(monitor.initialClientOffset.value.x.value, monitor.initialClientOffset.value.y.value)
  }

  /** Where the pointer grabbed the drag source, relative to the source's
      top-left corner; (0, 0) when the monitor cannot tell. */
  function CalculateParentOffset(monitor: Monitor): (r: Point)
    ensures HasInitialOffsets(monitor) ==>
              Translate(monitor.initialSourceClientOffset.value, r) == InitialClientPoint(monitor)
    ensures !HasInitialOffsets(monitor) ==> r == Origin
  {
    match (monitor.initialClientOffset, monitor.initialSourceClientOffset)
    case (None, _) => Origin
    case (_, None) => Origin
    case (Some(client), Some(source)) =>
      if client.x.None? || client.y.None? then Origin
      else Subtract(Point(client.x.value, client.y.value), source)
  }

  /** The box of the child, if the ref holds an element that can be measured. */
  function Measure(childRef: Option<Element>): (r: Option<Box>)
    ensures r.None? <==> childRef.None? || childRef.value.boundingClientRect.None?
    ensures r.Some? ==> childRef == Some(Element(r))
  {
    if childRef.None? || childRef.value.boundingClientRect.None? then None
    else childRef.value.boundingClientRect
  }

  /** The translation of the preview: centred under the pointer once the
      preview can be measured, otherwise kept at the offset at which the
      drag source was grabbed; None while there is no pointer offset. */
  function CalculatePointerPosition(monitor: Monitor, childRef: Option<Element>): (r: Option<Point>)
    ensures r.Some? <==> monitor.clientOffset.Some?
    ensures r.Some? && Measure(childRef).Some? ==>
              Center(r.value, Measure(childRef).value) == monitor.clientOffset.value
    ensures r.Some? && Measure(childRef).None? ==>
              Translate(r.value, CalculateParentOffset(monitor)) == monitor.clientOffset.value
  {
    match monitor.clientOffset
    case None => None
    case Some(offset) =>
      match Measure(childRef)
      case None => Some(Subtract(offset, CalculateParentOffset(monitor)))
      case Some(bb) => Some(Subtract(offset, Middle(bb)))
  }

  /** Unmeasured and with both initial offsets known, the preview keeps the
      drag source's position relative to the pointer: it has moved by exactly
      the pointer's displacement since the drag began. */
  lemma FallbackFollowsPointer(monitor: Monitor, childRef: Option<Element>)
    requires monitor.clientOffset.Some? && Measure(childRef).None?
    requires HasInitialOffsets(monitor)
    ensures Subtract(CalculatePointerPosition(monitor, childRef).value, monitor.initialSourceClientOffset.value)
            == Subtract(monitor.clientOffset.value, InitialClientPoint(monitor))
  {
  }

  /** Unmeasured and without usable initial offsets, the preview's corner sits
      at the pointer itself. */
  lemma FallbackAtPointer(monitor: Monitor, childRef: Option<Element>)
    requires monitor.clientOffset.Some? && Measure(childRef).None?
    requires !HasInitialOffsets(monitor)
    ensures CalculatePointerPosition(monitor, childRef) == monitor.clientOffset
  {
  }

  /** A 40 x 20 preview under the pointer at (100, 100) is placed at (80, 90). */
  lemma CenteredExample(initialClient: Option<RawPoint>, initialSource: Option<Point>, isDragging: bool)
    ensures CalculatePointerPosition(
              Monitor(Some(Point(100.0, 100.0)), initialClient, initialSource, isDragging),
              Some(Element(Some(Box(40.0, 20.0)))))
            == Some(Point(80.0, 90.0))
  {
  }

  /** Grabbed at (50, 50) on a source at (10, 10), unmeasured, with the pointer
      now at (60, 60): parent offset (40, 40), preview at (20, 20). */
  lemma FallbackExample(isDragging: bool)
    ensures CalculateParentOffset(
              Monitor(Some(Point(60.0, 60.0)), Some(RawPoint(Some(50.0), Some(50.0))), Some(Point(10.0, 10.0)), isDragging))
            == Point(40.0, 40.0)
    ensures CalculatePointerPosition(
              Monitor(Some(Point(60.0, 60.0)), Some(RawPoint(Some(50.0), Some(50.0))), Some(Point(10.0, 10.0)), isDragging),
              None)
            == Some(Point(20.0, 20.0))
  {
  }

  /** The render guard `isDragging && currentOffset`: the translation the
      preview is drawn at, or None when nothing is rendered. */
  function Render(isDragging: bool, currentOffset: Option<Point>): (r: Option<Point>)
    ensures r.Some? <==> isDragging && currentOffset.Some?
    ensures r.Some? ==> r == currentOffset
  {
    if isDragging && currentOffset.Some? then currentOffset else None
  }

  /** The monitor reports a drag in progress and a current pointer offset. */
  function Visible(monitor: Monitor): (b: bool)
    ensures b <==> Render(monitor.isDragging, monitor.clientOffset).Some?
  {
    monitor.isDragging && monitor.clientOffset.Some?
  }

  /** The preview is on screen exactly when the monitor state is Visible,
      whatever the child ref holds. */
  lemma PreviewShownIff(monitor: Monitor, childRef: Option<Element>)
    ensures Render(monitor.isDragging, CalculatePointerPosition(monitor, childRef)).Some?
            <==> Visible(monitor)
  {
  }

}
