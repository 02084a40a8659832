/**
 * The control panel of frontend/src/modules/canvas_control_panel.js: zoom
 * buttons, the add-point toggle, random points, clear, and one relaxation
 * round against the compute service.
 */
module ControlPanel {
  import opened Common
  import opened CanvasContext

  /** The factor of one zoom step. */
  const ZoomStep: real := 1.1

  function Pow(b: real, k: nat): real
  {
    if k == 0 then 1.0 else b * Pow(b, k - 1)
  }

  /** A zoom power is at least 1, and more than 1 exactly when the exponent is positive. */
  lemma {:induction false} PowAboveOne(k: nat)
    ensures Pow(ZoomStep, k) >= 1.0
    ensures Pow(ZoomStep, k) > 1.0 <==> k > 0
  {
    if k > 0 {
      PowAboveOne(k - 1);
    }
  }

  /** The three zoom buttons. */
  datatype ZoomButton = ZoomIn | ZoomOut | ResetZoom

  /** The scale after pressing `b`: zoom out is refused at or below 1. */
  function Zoomed(scale: real, b: ZoomButton): real
  {
    match b
    case ZoomIn => scale * ZoomStep
    case ZoomOut => if scale > 1.0 then scale / ZoomStep else scale
    case ResetZoom => 1.0
  }

  /** The scale after pressing `bs` in order. */
  function ZoomedAll(scale: real, bs: seq<ZoomButton>): real
    decreases |bs|
  {
    if bs == [] then scale else ZoomedAll(Zoomed(scale, bs[0]), bs[1..])
  }

  /** The exponent `k` of the scale `1.1^k` reached from `1.1^level` by pressing `bs`. */
  function Level(level: nat, bs: seq<ZoomButton>): nat
    decreases |bs|
  {
    if bs == [] then level
    else
      var next := match bs[0]
                  case ZoomIn => level + 1
                  case ZoomOut => if level > 0 then level - 1 else 0
                  case ResetZoom => 0;
      Level(next, bs[1..])
  }

  /** From scale 1, every reachable scale is `1.1^k` with `k >= 0`. */
  lemma {:induction false} ZoomReachable(level: nat, bs: seq<ZoomButton>)
    ensures ZoomedAll(Pow(ZoomStep, level), bs) == Pow(ZoomStep, Level(level, bs))
    decreases |bs|
  {
    if bs != [] {
      var s := Pow(ZoomStep, level);
      match bs[0]
      case ZoomIn =>
        assert Zoomed(s, ZoomIn) == Pow(ZoomStep, level + 1);
        ZoomReachable(level + 1, bs[1..]);
      case ZoomOut =>
        PowAboveOne(level);
        if level > 0 {
          assert Zoomed(s, ZoomOut) == Pow(ZoomStep, level - 1);
          ZoomReachable(level - 1, bs[1..]);
        } else {
          ZoomReachable(0, bs[1..]);
        }
      case ResetZoom =>
        ZoomReachable(0, bs[1..]);
    }
  }

  /** Hence the panel's buttons never bring the scale below 1. */
  lemma ZoomNeverBelowOne(bs: seq<ZoomButton>)
    ensures ZoomedAll(1.0, bs) >= 1.0
  {
    ZoomReachable(0, bs);
    PowAboveOne(Level(0, bs));
  }

  /**
   * Where one `Math.random() * extent` can land: `r * extent` for some
   * `r` in [0, 1). For a positive extent that is [0, extent).
   */
  ghost predicate RandomIn(v: real, extent: real)
  {
    exists r: real :: 0.0 <= r < 1.0 && v == Stretch(r, extent)
  }

  /** `Math.random() * extent` for the drawn fraction `r`. */
  function Stretch(r: real, extent: real): real
  {
    r * extent
  }

  /** Each point of `ps` has coordinates drawn as `Math.random() * width`, `Math.random() * height`. */
  ghost predicate AllRandomIn(ps: seq<Point>, width: real, height: real)
  {
    forall i :: 0 <= i < |ps| ==> RandomIn(ps[i].x, width) && RandomIn(ps[i].y, height)
  }

  /** A value drawn as `Math.random() * extent` lies in [0, extent) when `extent > 0`. */
  lemma RandomInBounds(v: real, extent: real)
    requires extent > 0.0 && RandomIn(v, extent)
    ensures 0.0 <= v < extent
  {
    var r :| 0.0 <= r < 1.0 && v == Stretch(r, extent);
    assert r * extent < 1.0 * extent;
  }

  /**
   * The `for` loop of `handleAddPoints`: `n` random points (none when
   * `n <= 0`) on a canvas of `width` by `height` pixels.
   */
  method RandomPoints(n: int, width: nat, height: nat) returns (ps: seq<Point>)
    ensures |ps| == Count(n)
    ensures AllRandomIn(ps, width as real, height as real)
    ensures width > 0 && height > 0 ==>
              forall i :: 0 <= i < |ps| ==> 0.0 <= ps[i].x < width as real && 0.0 <= ps[i].y < height as real
  {
    ps := [];
    var i := 0;
    while i < n
      invariant 0 <= i && |ps| == i && (n >= 0 ==> i <= n) && (n < 0 ==> i == 0)
      invariant AllRandomIn(ps, width as real, height as real)
    {
      var rx: real :| 0.0 <= rx < 1.0;
      var ry: real :| 0.0 <= ry < 1.0;
      ps := ps + [Point(Stretch(rx, width as real), Stretch(ry, height as real))];
      i := i + 1;
    }
    if width > 0 && height > 0 {
      forall i | 0 <= i < |ps|
        ensures 0.0 <= ps[i].x < width as real && 0.0 <= ps[i].y < height as real
      {
        RandomInBounds(ps[i].x, width as real);
        RandomInBounds(ps[i].y, height as real);
      }
    }
  }

  /** The `boundaries` of a request: the canvas extent in model space. */
  datatype Boundaries = Boundaries(minX: real, maxX: real, minY: real, maxY: real)

  /** A POST to the compute service: the path, `points`, and optionally `boundaries`. */
  datatype Request = Request(endpoint: string, points: seq<Point>, boundaries: Option<Boundaries>)

  /**
   * The body `fetchData` resolves to. Each of the three fields may be
   * missing (or otherwise falsy); a failed fetch resolves to `{}`.
   */
  datatype Response = Response(centroids: Option<seq<Point>>, edges: Option<seq<Edge>>,
                               centroidEdges: Option<seq<Edge>>)

  /** frontend/src/helpers/fetch.js:24-32: any failure yields `{}`. */
  const FetchFailed: Response := Response(None, None, None)

  /** A response the round accepts: all three fields present. */
  predicate Complete(r: Response)
  {
    r.centroids.Some? && r.edges.Some? && r.centroidEdges.Some?
  }

  /** The service path the selected algorithm posts to. */
  function Endpoint(algorithm: string): (path: string)
    ensures path == "api/delaunay/" || path == "api/fortune/"
    ensures path == "api/delaunay/" <==> algorithm == "delaunay"
  {
    if algorithm == "delaunay" then "api/delaunay/" else "api/fortune/"
  }

  /** The round's request: current points, and the canvas box divided by the scale. */
  function RoundRequest(algorithm: string, data: Data, rect: Rect, scale: real): (req: Request)
    requires scale > 0.0
    ensures req.points == data.points
    ensures req.endpoint == Endpoint(algorithm)
    ensures req.boundaries.Some? && req.boundaries.value.minX == 0.0 && req.boundaries.value.minY == 0.0
    ensures req.boundaries.value.maxX * scale == rect.width && req.boundaries.value.maxY * scale == rect.height
  {
    Request(Endpoint(algorithm), data.points, Some(Boundaries(0.0, rect.width / scale, 0.0, rect.height / scale)))
  }

  /** The first write of a round: show the response's structure over the current points. */
  function Shown(data: Data, r: Response): (d: Data)
    requires Complete(r)
  {
    Data(data.points, r.edges.value, data.lastPosition, r.centroids.value, r.centroidEdges.value)
  }

  /** The second write: the displayed centroids become the points; all else is emptied. */
  function Promoted(shown: Data): (d: Data)
  {
    Data(shown.centroids, [], None, [], [])
  }

  /** What a round displays and leaves behind, or None when the response is refused. */
  function Round(data: Data, r: Response): (out: Option<(Data, Data)>)
  {
    if Complete(r) then Some((Shown(data, r), Promoted(Shown(data, r)))) else None
  }

  /**
   * A round's two writes: first the response's edges, centroids and centroid
   * edges over unchanged points, then the centroids alone as the new points.
   * A refused response changes nothing.
   */
  lemma RoundEffect(data: Data, r: Response)
    ensures Round(data, r).None? <==> !Complete(r)
    ensures Round(data, FetchFailed).None?
    ensures Round(data, r).Some? ==>
              var (shown, after) := Round(data, r).value;
              && shown.points == data.points && shown.lastPosition == data.lastPosition
              && shown.edges == r.edges.value && shown.centroids == r.centroids.value
              && shown.centroidEdges == r.centroidEdges.value
              && after == Data(shown.centroids, [], None, [], [])
  {
  }

  /**
   * The end-to-end example: points (10,10), (20,20) and a service answering
   * centroids (15,15) and no edges leave exactly the point (15,15).
   */
  lemma RoundExample()
    ensures var data := Data([Point(10.0, 10.0), Point(20.0, 20.0)], [], None, [], []);
            var r := Response(Some([Point(15.0, 15.0)]), Some([]), Some([]));
            Round(data, r) == Some((Data(data.points, [], None, [Point(15.0, 15.0)], []),
                                    Data([Point(15.0, 15.0)], [], None, [], [])))
  {
  }

  /** How a `run` click ended. */
  datatype RoundOutcome = Alerted(message: string) | Relaxed(shown: Data)

  /** The panel: its own input fields and algorithm choice, over the shared canvas state. */
  class Panel {
    const canvas: Canvas
    var inputPointValue: string
    var inputDelayValue: string
    var algorithm: string

    constructor (canvas: Canvas)
      ensures this.canvas == canvas
      ensures inputPointValue == "" && inputDelayValue == "" && algorithm == "delaunay"
    {
      this.canvas := canvas;
      inputPointValue := "";
      inputDelayValue := "";
      algorithm := "delaunay";
    }

    method ZoomIn()
      requires canvas.Valid()
      modifies canvas`scale
      ensures canvas.Valid() && canvas.scale == Zoomed(old(canvas.scale), ZoomButton.ZoomIn)
    {
      canvas.scale := canvas.scale * ZoomStep;
    }

    method ZoomOut()
      requires canvas.Valid()
      modifies canvas`scale
      ensures canvas.Valid() && canvas.scale == Zoomed(old(canvas.scale), ZoomButton.ZoomOut)
    {
      if canvas.scale > 1.0 {
        canvas.scale := canvas.scale / ZoomStep;
      }
    }

    method ResetZoom()
      modifies canvas`scale
      ensures canvas.Valid() && canvas.scale == Zoomed(old(canvas.scale), ZoomButton.ResetZoom)
    {
      canvas.scale := 1.0;
    }

    method HandleToggle()
      modifies canvas`addPointState
      ensures canvas.addPointState == !old(canvas.addPointState)
    {
      canvas.addPointState := !canvas.addPointState;
    }

    /**
     * `parsed` is `parseInt(inputPointValue, 10)`, None for NaN. NaN raises
     * the alert and changes nothing; otherwise `Count(n)` random points are
     * appended, everything else is kept, and the input field is cleared.
     */
    method HandleAddPoints(parsed: Option<int>, width: nat, height: nat) returns (alert: Option<string>)
      modifies canvas`data, this`inputPointValue
      ensures parsed.None? ==>
                alert == Some("Please enter a valid number")
                && canvas.data == old(canvas.data) && inputPointValue == old(inputPointValue)
      ensures parsed.Some? ==> alert.None? && inputPointValue == ""
      ensures parsed.Some? ==>
                && |canvas.data.points| == |old(canvas.data.points)| + Count(parsed.value)
                && canvas.data == old(canvas.data).(points := canvas.data.points)
                && canvas.data.points[..|old(canvas.data.points)|] == old(canvas.data.points)
                && AllRandomIn(canvas.data.points[|old(canvas.data.points)|..], width as real, height as real)
    {
      if parsed.None? {
        return Some("Please enter a valid number");
      }
      var newPoints := RandomPoints(parsed.value, width, height);
      var prev := canvas.data;
      canvas.data := prev.(points := prev.points + newPoints);
      assert canvas.data.points[|prev.points|..] == newPoints;
      assert canvas.data.points[..|prev.points|] == prev.points;
      inputPointValue := "";
      alert := None;
    }

    method Clear()
      modifies canvas`data, canvas`nanCoordinates
      ensures canvas.data == Initial && !canvas.nanCoordinates
    {
      canvas.data := Data([], [], None, [], []);
      canvas.nanCoordinates := false;
    }

    /**
     * One relaxation round. `rect` is the canvas box at the click and
     * `fetch` stands for the service. The request carries the current points
     * and the model-space canvas extent; a refused response alerts and leaves
     * `data` alone; an accepted one is shown, then its centroids become the
     * points. The pause between the two writes is not modelled.
     */
    method Run(rect: Rect, fetch: Request -> Response) returns (req: Request, outcome: RoundOutcome)
      requires canvas.Valid()
      modifies canvas`data, canvas`nanCoordinates
      ensures req == RoundRequest(algorithm, old(canvas.data), rect, canvas.scale)
      ensures !Complete(fetch(req)) ==>
                && outcome == Alerted("Something went wrong!") && canvas.data == old(canvas.data)
                && canvas.nanCoordinates == old(canvas.nanCoordinates)
      ensures Complete(fetch(req)) ==>
                && outcome.Relaxed? && Round(old(canvas.data), fetch(req)) == Some((outcome.shown, canvas.data))
                && !canvas.nanCoordinates
    {
      var endpoint := Endpoint(algorithm);
      var width := rect.width / canvas.scale;
      var height := rect.height / canvas.scale;
      req := Request(endpoint, canvas.data.points, Some(Boundaries(0.0, width, 0.0, height)));
      var response := fetch(req);
      if response.centroids.None? || response.edges.None? || response.centroidEdges.None? {
        return req, Alerted("Something went wrong!");
      }
      var data := canvas.data;
      canvas.data := Data(data.points, response.edges.value, data.lastPosition,
                          response.centroids.value, response.centroidEdges.value);
      outcome := Relaxed(canvas.data);
      canvas.data := Data(response.centroids.value, [], None, [], []);
      canvas.nanCoordinates := false;
    }
  }

  /**
   * A round that completes while a drag is under way: the press sets the
   * anchor, the round's last write clears it, and the drag stays on, so the
   * next move, as canvas_context.js writes it, has no anchor to measure
   * from and turns every coordinate into NaN.
   *
   * Pressing and then clicking Run cannot happen in that order, since
   * leaving the canvas ends the drag; the press before the round here
   * stands for a press made during the round's fetch or its pause, which
   * the sequential model places before the round's last write.
   */
  method DragOutlivesAnchor() returns (dragging: bool, moved: Option<Data>, nan: bool)
    ensures dragging && moved.None? && nan
  {
    var canvas := new Canvas();
    var panel := new Panel(canvas);
    var rect := Rect(0.0, 0.0, 100.0, 100.0);
    canvas.HandleMouseDown(Pointer(5.0, 5.0), rect);
    var req, outcome := panel.Run(rect, (q: Request) => Response(Some([Point(15.0, 15.0)]), Some([]), Some([])));
    dragging := canvas.isDragging;
    moved := MoveAsWritten(canvas.data, Relative(Pointer(6.0, 6.0), rect), canvas.scale);
    canvas.HandleMouseMove(Pointer(6.0, 6.0), rect);
    nan := canvas.nanCoordinates;
  }
}
