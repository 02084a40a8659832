/**
 * The shared canvas state of frontend/src/modules/canvas_context.js and the
 * pointer handlers that edit it: add a point on click, pan by dragging.
 *
 * Panning does not keep an offset: it rewrites every stored coordinate by the
 * drag delta, so the only view parameter is the zoom `scale`.
 */
module CanvasContext {
  import opened Common

  /** A point `[x, y]` in canvas pixel space. */
  datatype Point = Point(x: real, y: real)

  /** A segment `[[x0, y0], [x1, y1]]`. */
  datatype Edge = Edge(start: Point, end: Point)

  /**
   * The `data` record. `lastPosition` is `[]` (None) or `[x, y]` (Some): the
   * canvas-relative pointer position of the last mouse-down or drag move.
   */
  datatype Data = Data(points: seq<Point>, edges: seq<Edge>, lastPosition: Option<Point>,
                       centroids: seq<Point>, centroidEdges: seq<Edge>)

  /** The record the provider starts with, and the one `clear` writes. */
  const Initial: Data := Data([], [], None, [], [])

  /** What `getBoundingClientRect()` reports for the canvas element (CSS pixels). */
  datatype Rect = Rect(left: real, top: real, width: real, height: real)

  /** The pointer position of a mouse event, `clientX` and `clientY`. */
  datatype Pointer = Pointer(clientX: real, clientY: real)

  function Plus(p: Point, d: Point): Point
  {
    Point(p.x + d.x, p.y + d.y)
  }

  function Minus(p: Point, q: Point): Point
  {
    Point(p.x - q.x, p.y - q.y)
  }

  /** The pointer position relative to the canvas's top-left corner. */
  function Relative(e: Pointer, rect: Rect): Point
  {
    Point(e.clientX - rect.left, e.clientY - rect.top)
  }

  /** The centre of the canvas box, about which zooming happens. */
  function Center(rect: Rect): Point
  {
    Point(rect.width / 2.0, rect.height / 2.0)
  }

  /** Screen position to model position: undo the zoom about the centre `c`. */
  function ToModel(q: Point, c: Point, scale: real): Point
    requires scale > 0.0
  {
    Point((q.x - c.x) / scale + c.x, (q.y - c.y) / scale + c.y)
  }

  /** The model-space delta of a pointer move from `last` to `current`. */
  function DragDelta(last: Point, current: Point, scale: real): Point
    requires scale > 0.0
  {
    Point((current.x - last.x) / scale, (current.y - last.y) / scale)
  }

  /** `points.map(p => [p[0] + dx, p[1] + dy])` */
  function ShiftPoints(ps: seq<Point>, d: Point): (r: seq<Point>)
    ensures |r| == |ps|
    ensures forall i :: 0 <= i < |ps| ==> r[i] == Plus(ps[i], d)
  {
    if ps == [] then [] else [Plus(ps[0], d)] + ShiftPoints(ps[1..], d)
  }

  function ShiftEdge(e: Edge, d: Point): Edge
  {
    Edge(Plus(e.start, d), Plus(e.end, d))
  }

  /** `edges.map(e => [[e[0][0] + dx, e[0][1] + dy], [e[1][0] + dx, e[1][1] + dy]])` */
  function ShiftEdges(es: seq<Edge>, d: Point): (r: seq<Edge>)
    ensures |r| == |es|
    ensures forall i :: 0 <= i < |es| ==> r[i].start == Plus(es[i].start, d) && r[i].end == Plus(es[i].end, d)
  {
    if es == [] then [] else [ShiftEdge(es[0], d)] + ShiftEdges(es[1..], d)
  }

  /**
   * The four maps of the drag handler: every point, every centroid and both
   * ends of every edge and centroid edge move by the same `d`.
   */
  function Translated(data: Data, d: Point): (r: Data)
    ensures |r.points| == |data.points| && |r.edges| == |data.edges|
    ensures |r.centroids| == |data.centroids| && |r.centroidEdges| == |data.centroidEdges|
    ensures r.lastPosition == data.lastPosition
    ensures forall i :: 0 <= i < |data.points| ==> r.points[i] == Plus(data.points[i], d)
    ensures forall i :: 0 <= i < |data.centroids| ==> r.centroids[i] == Plus(data.centroids[i], d)
    ensures forall i :: 0 <= i < |data.edges| ==>
              r.edges[i] == Edge(Plus(data.edges[i].start, d), Plus(data.edges[i].end, d))
    ensures forall i :: 0 <= i < |data.centroidEdges| ==>
              r.centroidEdges[i] == Edge(Plus(data.centroidEdges[i].start, d), Plus(data.centroidEdges[i].end, d))
  {
    Data(ShiftPoints(data.points, d), ShiftEdges(data.edges, d), data.lastPosition,
         ShiftPoints(data.centroids, d), ShiftEdges(data.centroidEdges, d))
  }

  /**
   * A drag move to `current`, as the model performs it: translate by the
   * delta from the anchor and make `current` the new anchor. Without an
   * anchor (`lastPosition` is `[]`) the move only records the anchor; see
   * MoveAsWritten for what the handler does there as written.
   */
  function MoveResult(data: Data, current: Point, scale: real): (r: Data)
    requires scale > 0.0
    ensures r.lastPosition == Some(current)
  {
    match data.lastPosition
    case Some(last) => Translated(data, DragDelta(last, current, scale)).(lastPosition := Some(current))
    case None => data.(lastPosition := Some(current))
  }

  /**
   * The drag move exactly as canvas_context.js:43-71 writes it. With
   * `lastPosition` equal to `[]`, `data.lastPosition[0]` is `undefined`, the
   * delta is NaN and every stored coordinate becomes NaN: that outcome is None.
   */
  function MoveAsWritten(data: Data, current: Point, scale: real): (r: Option<Data>)
    requires scale > 0.0
    ensures r.None? <==> data.lastPosition.None?
    ensures r.Some? ==> r.value == MoveResult(data, current, scale)
  {
    match data.lastPosition
    case Some(last) => Some(Translated(data, DragDelta(last, current, scale)).(lastPosition := Some(current)))
    case None => None
  }

  /** Two successive shifts are one shift by the sum. */
  lemma {:induction false} ShiftPointsCompose(ps: seq<Point>, a: Point, b: Point)
    ensures ShiftPoints(ShiftPoints(ps, a), b) == ShiftPoints(ps, Plus(a, b))
  {
    if ps != [] {
      ShiftPointsCompose(ps[1..], a, b);
    }
  }

  lemma {:induction false} ShiftEdgesCompose(es: seq<Edge>, a: Point, b: Point)
    ensures ShiftEdges(ShiftEdges(es, a), b) == ShiftEdges(es, Plus(a, b))
  {
    if es != [] {
      ShiftEdgesCompose(es[1..], a, b);
    }
  }

  /**
   * Two drag moves p0 -> p1 -> p2 leave the same record as the single move
   * p0 -> p2.
   */
  lemma DragMovesCompose(data: Data, p1: Point, p2: Point, scale: real)
    requires scale > 0.0 && data.lastPosition.Some?
    ensures MoveResult(MoveResult(data, p1, scale), p2, scale) == MoveResult(data, p2, scale)
  {
    var p0 := data.lastPosition.value;
    var a, b := DragDelta(p0, p1, scale), DragDelta(p1, p2, scale);
    assert Plus(a, b) == DragDelta(p0, p2, scale);
    ShiftPointsCompose(data.points, a, b);
    ShiftPointsCompose(data.centroids, a, b);
    ShiftEdgesCompose(data.edges, a, b);
    ShiftEdgesCompose(data.centroidEdges, a, b);
  }

  /**
   * A move with no anchor leaves the geometry where it is and anchors the
   * drag at the pointer; the next move then pans by the delta from there,
   * exactly as after a press at that position.
   */
  lemma DragResumes(data: Data, p1: Point, p2: Point, scale: real)
    requires scale > 0.0 && data.lastPosition.None?
    ensures var r := MoveResult(data, p1, scale);
            r.points == data.points && r.edges == data.edges
            && r.centroids == data.centroids && r.centroidEdges == data.centroidEdges
    ensures MoveResult(MoveResult(data, p1, scale), p2, scale)
         == MoveResult(data.(lastPosition := Some(p1)), p2, scale)
    ensures MoveResult(MoveResult(data, p1, scale), p2, scale)
         == Translated(data, DragDelta(p1, p2, scale)).(lastPosition := Some(p2))
  {
  }

  /** A drag keeps the offset between any two points. */
  lemma DragKeepsPointOffsets(data: Data, current: Point, scale: real, i: nat, j: nat)
    requires scale > 0.0 && i < |data.points| && j < |data.points|
    ensures var r := MoveResult(data, current, scale);
            Minus(r.points[i], r.points[j]) == Minus(data.points[i], data.points[j])
  {
  }

  /** A drag keeps the offset between any two centroids. */
  lemma DragKeepsCentroidOffsets(data: Data, current: Point, scale: real, i: nat, j: nat)
    requires scale > 0.0 && i < |data.centroids| && j < |data.centroids|
    ensures var r := MoveResult(data, current, scale);
            Minus(r.centroids[i], r.centroids[j]) == Minus(data.centroids[i], data.centroids[j])
  {
  }

  /** A drag keeps the offset between a point and a centroid. */
  lemma DragKeepsPointCentroidOffsets(data: Data, current: Point, scale: real, i: nat, j: nat)
    requires scale > 0.0 && i < |data.points| && j < |data.centroids|
    ensures var r := MoveResult(data, current, scale);
            Minus(r.points[i], r.centroids[j]) == Minus(data.points[i], data.centroids[j])
  {
  }

  /** Whether the record stores any coordinate besides `lastPosition`. */
  predicate HasGeometry(data: Data)
  {
    |data.points| + |data.edges| + |data.centroids| + |data.centroidEdges| > 0
  }

  /**
   * The state the provider holds: `data`, `scale`, `isDragging` and
   * `addPointState`, each written only through its setter.
   *
   * `nanCoordinates` records that a drag move without an anchor has
   * written NaN into the coordinates stored at that moment. Those stay NaN
   * through later drags; points appended afterwards are numbers. Only
   * writing a whole new record (`clear`, an accepted round) gets rid of
   * the NaN values.
   */
  class Canvas {
    var data: Data
    var scale: real
    var isDragging: bool
    var addPointState: bool
    var nanCoordinates: bool

    /** Every way of changing `scale` keeps it positive. */
    ghost predicate Valid()
      reads this
    {
      scale > 0.0
    }

    /** canvas_context.js:9-12 */
    constructor ()
      ensures Valid()
      ensures data == Initial && scale == 1.0 && !isDragging && !addPointState && !nanCoordinates
    {
      data := Initial;
      scale := 1.0;
      isDragging := false;
      addPointState := false;
      nanCoordinates := false;
    }

    /**
     * Click handler: in add-point mode, append the clicked position mapped
     * back through the zoom about the canvas centre; otherwise nothing.
     */
    method AddPoint(e: Pointer, rect: Rect)
      requires Valid()
      modifies this`data
      ensures old(addPointState) ==>
                data == old(data).(points := old(data.points) + [ToModel(Relative(e, rect), Center(rect), scale)])
      ensures !old(addPointState) ==> data == old(data)
    {
      if addPointState {
        var p := ToModel(Relative(e, rect), Center(rect), scale);
        data := Data(data.points + [p], data.edges, data.lastPosition, data.centroids, data.centroidEdges);
      }
    }

    /** Outside add-point mode, anchor a drag at the pointer. */
    method HandleMouseDown(e: Pointer, rect: Rect)
      modifies this`data, this`isDragging
      ensures old(addPointState) ==> data == old(data) && isDragging == old(isDragging)
      ensures !old(addPointState) ==> data == old(data).(lastPosition := Some(Relative(e, rect))) && isDragging
    {
      if !addPointState {
        data := Data(data.points, data.edges, Some(Relative(e, rect)), data.centroids, data.centroidEdges);
        isDragging := true;
      }
    }

    /**
     * The move handler as written: while dragging outside add-point mode,
     * pan by rewriting every coordinate and re-anchor at the pointer. With
     * no anchor the delta is NaN, so every stored coordinate becomes NaN.
     */
    method HandleMouseMove(e: Pointer, rect: Rect)
      requires Valid()
      modifies this`data, this`nanCoordinates
      ensures !addPointState && isDragging && old(data).lastPosition.Some? ==>
                data == MoveResult(old(data), Relative(e, rect), scale) && nanCoordinates == old(nanCoordinates)
      ensures !addPointState && isDragging && old(data).lastPosition.None? ==>
                && data == old(data).(lastPosition := Some(Relative(e, rect)))
                && nanCoordinates == (old(nanCoordinates) || HasGeometry(old(data)))
      ensures addPointState || !isDragging ==> data == old(data) && nanCoordinates == old(nanCoordinates)
    {
      if !addPointState && isDragging {
        var current := Relative(e, rect);
        match MoveAsWritten(data, current, scale)
        case Some(moved) =>
          data := moved;
        case None =>
          nanCoordinates := nanCoordinates || HasGeometry(data);
          data := Data(data.points, data.edges, Some(current), data.centroids, data.centroidEdges);
      }
    }

    /**
     * The move handler as intended: with no anchor it only anchors the drag
     * at the pointer (see DragResumes), and never writes NaN.
     */
    method HandleMouseMoveReanchored(e: Pointer, rect: Rect)
      requires Valid()
      modifies this`data
      ensures !addPointState && isDragging ==> data == MoveResult(old(data), Relative(e, rect), scale)
      ensures addPointState || !isDragging ==> data == old(data)
    {
      if !addPointState && isDragging {
        data := MoveResult(data, Relative(e, rect), scale);
      }
    }

    /** Mouse-up and mouse-leave: stop dragging, whatever the mode. */
    method HandleMouseUp()
      modifies this`isDragging
      ensures !isDragging
    {
      isDragging := false;
    }
  }
}
