/**
 * frontend/src/modules/canvas_temp.js, the older all-in-one component: the
 * same state and pointer handlers as the split modules, its own drawing,
 * an unguarded zoom out, and a `run` that repeats the relaxation round a
 * given number of times against `api/default/`.
 *
 * Its `run` closes over the `data` of the render that created it, so every
 * round posts those same points and builds on them, never on the previous
 * round's centroids; `StaleRounds` models that, `FreshRounds` the
 * iteration the iteration-count field asks for.
 */
module CanvasTemp {
  import opened Common
  import opened CanvasContext
  import opened ControlPanel
  import opened CanvasDisplay

  // ---------------------------------------------------------------------
  // Zoom without a lower bound
  // ---------------------------------------------------------------------

  /** The scale after pressing `b` in the draft: zoom out always divides. */
  function DraftZoomed(scale: real, b: ZoomButton): real
  {
    match b
    case ZoomIn => scale * ZoomStep
    case ZoomOut => scale / ZoomStep
    case ResetZoom => 1.0
  }

  function DraftZoomedAll(scale: real, bs: seq<ZoomButton>): real
    decreases |bs|
  {
    if bs == [] then scale else DraftZoomedAll(DraftZoomed(scale, bs[0]), bs[1..])
  }

  /** `1.1^k` for any integer `k`. */
  function ZoomPower(k: int): (r: real)
    ensures r > 0.0
  {
    PowAboveOne(if k >= 0 then k else -k);
    if k >= 0 then Pow(ZoomStep, k) else 1.0 / Pow(ZoomStep, -k)
  }

  /** One zoom-in step raises the exponent by one, for negative exponents too. */
  lemma ZoomPowerStep(k: int)
    ensures ZoomPower(k + 1) == ZoomPower(k) * ZoomStep
  {
    if k < 0 {
      var p := Pow(ZoomStep, -(k + 1));
      PowAboveOne(-(k + 1));
      assert Pow(ZoomStep, -k) == ZoomStep * p;
      assert ZoomPower(k) == 1.0 / (ZoomStep * p);
      assert ZoomPower(k) * ZoomStep == 1.0 / p;
    }
  }

  /** The exponent reached from `1.1^level` by pressing `bs` in the draft. */
  function DraftLevel(level: int, bs: seq<ZoomButton>): int
    decreases |bs|
  {
    if bs == [] then level
    else
      var next := match bs[0]
                  case ZoomIn => level + 1
                  case ZoomOut => level - 1
                  case ResetZoom => 0;
      DraftLevel(next, bs[1..])
  }

  /** From scale 1, every scale the draft's buttons reach is `1.1^k` for an integer `k`, negative ones included. */
  lemma {:induction false} DraftZoomReachable(level: int, bs: seq<ZoomButton>)
    ensures DraftZoomedAll(ZoomPower(level), bs) == ZoomPower(DraftLevel(level, bs))
    decreases |bs|
  {
    if bs != [] {
      var s := ZoomPower(level);
      match bs[0]
      case ZoomIn =>
        ZoomPowerStep(level);
        DraftZoomReachable(level + 1, bs[1..]);
      case ZoomOut =>
        ZoomPowerStep(level - 1);
        assert DraftZoomed(s, ZoomOut) == ZoomPower(level - 1);
        DraftZoomReachable(level - 1, bs[1..]);
      case ResetZoom =>
        DraftZoomReachable(0, bs[1..]);
    }
  }

  /** The draft's zoom keeps the scale positive, but one zoom out from 1 already goes below 1. */
  lemma DraftZoomBelowOne(bs: seq<ZoomButton>)
    ensures DraftZoomedAll(1.0, bs) > 0.0
    ensures DraftZoomedAll(1.0, [ZoomOut]) < 1.0
  {
    DraftZoomReachable(0, bs);
    DraftZoomReachable(0, [ZoomOut]);
    assert ZoomPower(-1) == 1.0 / ZoomStep;
  }

  // ---------------------------------------------------------------------
  // Repeated rounds
  // ---------------------------------------------------------------------

  /** The draft posts to this path, with points only and no boundaries. */
  const DefaultEndpoint: string := "api/default/"

  /** The alert of a refused round in the draft. */
  const RoundFailed: string := "Smt went wrong!"

  /** The request a round of the draft sends for the points `ps`. */
  function DraftRequest(ps: seq<Point>): Request
  {
    Request(DefaultEndpoint, ps, None)
  }

  /** How one round ends: the alert, or the record it displayed before promoting the centroids. */
  function Outcome(data: Data, r: Response): (o: RoundOutcome)
    ensures o.Alerted? <==> !Complete(r)
    ensures o.Alerted? ==> o.message == RoundFailed
    ensures o.Relaxed? ==> Round(data, r) == Some((o.shown, Promoted(o.shown)))
  {
    if Complete(r) then Relaxed(Shown(data, r)) else Alerted(RoundFailed)
  }

  /**
   * `data` after `n` rounds of the draft as written: round `i` posts the
   * points of `captured`, the record `run` closed over, and its answer is
   * `fetch(i, request)`. An accepted round overwrites `data` with its
   * centroids; a refused one leaves it.
   */
  function StaleRounds(captured: Data, fetch: (nat, Request) -> Response, n: nat): Data
  {
    if n == 0 then captured
    else
      var r := fetch(n - 1, DraftRequest(captured.points));
      if Complete(r) then Promoted(Shown(captured, r)) else StaleRounds(captured, fetch, n - 1)
  }

  /** When no round's answer is accepted, the stale rounds leave the record as it was. */
  lemma {:induction false} StaleRoundsNoneAccepted(captured: Data, fetch: (nat, Request) -> Response, n: nat)
    requires forall i :: 0 <= i < n ==> !Complete(fetch(i, DraftRequest(captured.points)))
    ensures StaleRounds(captured, fetch, n) == captured
  {
    if n > 0 {
      StaleRoundsNoneAccepted(captured, fetch, n - 1);
    }
  }

  /**
   * When round `j` is the last one whose answer is accepted, the stale
   * rounds leave that answer's centroids as the points, and nothing else.
   */
  lemma {:induction false} StaleRoundsLast(captured: Data, fetch: (nat, Request) -> Response, n: nat, j: nat)
    requires j < n && Complete(fetch(j, DraftRequest(captured.points)))
    requires forall i :: j < i < n ==> !Complete(fetch(i, DraftRequest(captured.points)))
    ensures StaleRounds(captured, fetch, n) == Data(fetch(j, DraftRequest(captured.points)).centroids.value, [], None, [], [])
  {
    if n - 1 > j {
      StaleRoundsLast(captured, fetch, n - 1, j);
    }
  }

  /**
   * Against a service that answers the same request the same way, any
   * positive number of the draft's rounds leaves what one round leaves.
   */
  lemma {:induction false} StaleRoundsCollapse(captured: Data, service: Request -> Response, n: nat)
    requires n >= 1
    ensures StaleRounds(captured, (i: nat, q: Request) => service(q), n)
         == StaleRounds(captured, (i: nat, q: Request) => service(q), 1)
  {
    var fetch := (i: nat, q: Request) => service(q);
    if n > 1 {
      StaleRoundsCollapse(captured, service, n - 1);
      var r := fetch(n - 1, DraftRequest(captured.points));
      assert r == fetch(0, DraftRequest(captured.points));
    }
  }

  /**
   * `data` after `n` rounds that each post the current points, as Lloyd's
   * iteration requires: the corrected draft.
   */
  function FreshRounds(data: Data, fetch: (nat, Request) -> Response, n: nat): Data
  {
    if n == 0 then data
    else
      var d := FreshRounds(data, fetch, n - 1);
      var r := fetch(n - 1, DraftRequest(d.points));
      if Complete(r) then Promoted(Shown(d, r)) else d
  }

  /** No round of the corrected draft among the first `n` has its answer accepted. */
  predicate FreshNoneAccepted(data: Data, fetch: (nat, Request) -> Response, n: nat)
  {
    n == 0
    || (FreshNoneAccepted(data, fetch, n - 1)
        && !Complete(fetch(n - 1, DraftRequest(FreshRounds(data, fetch, n - 1).points))))
  }

  /** That is, each of those rounds is refused, and the record is left as it was. */
  lemma {:induction false} FreshNoneAcceptedSpec(data: Data, fetch: (nat, Request) -> Response, n: nat)
    ensures FreshNoneAccepted(data, fetch, n) <==>
              forall i :: 0 <= i < n ==> !Complete(fetch(i, DraftRequest(FreshRounds(data, fetch, i).points)))
    ensures FreshNoneAccepted(data, fetch, n) ==> FreshRounds(data, fetch, n) == data
  {
    if n > 0 {
      FreshNoneAcceptedSpec(data, fetch, n - 1);
    }
  }

  /** The requests the first `n` rounds of the corrected draft post. */
  function FreshRequests(data: Data, fetch: (nat, Request) -> Response, n: nat): seq<Request>
  {
    if n == 0 then [] else FreshRequests(data, fetch, n - 1) + [DraftRequest(FreshRounds(data, fetch, n - 1).points)]
  }

  /** Round `k` posts the points the `k` rounds before it left. */
  lemma {:induction false} FreshRequestsSpec(data: Data, fetch: (nat, Request) -> Response, n: nat)
    ensures |FreshRequests(data, fetch, n)| == n
    ensures forall k :: 0 <= k < n ==>
              FreshRequests(data, fetch, n)[k] == DraftRequest(FreshRounds(data, fetch, k).points)
  {
    if n > 0 {
      FreshRequestsSpec(data, fetch, n - 1);
    }
  }

  /** One more corrected round: it posts the points the rounds so far left. */
  lemma FreshStep(data: Data, fetch: (nat, Request) -> Response, n: nat)
    ensures var d := FreshRounds(data, fetch, n);
            var r := fetch(n, DraftRequest(d.points));
            && FreshRounds(data, fetch, n + 1) == (if Complete(r) then Promoted(Shown(d, r)) else d)
            && (FreshNoneAccepted(data, fetch, n + 1) <==> FreshNoneAccepted(data, fetch, n) && !Complete(r))
  {
  }

  /** One relaxation step of the points: the service's centroids, or the points unchanged when it refuses. */
  function Relax(service: Request -> Response, ps: seq<Point>): seq<Point>
  {
    var r := service(DraftRequest(ps));
    if Complete(r) then r.centroids.value else ps
  }

  /** `n` relaxation steps. */
  function Iterate(service: Request -> Response, ps: seq<Point>, n: nat): seq<Point>
  {
    if n == 0 then ps else Relax(service, Iterate(service, ps, n - 1))
  }

  /** The corrected rounds perform `n` relaxation steps of the points. */
  lemma {:induction false} FreshRoundsIterate(data: Data, service: Request -> Response, n: nat)
    ensures FreshRounds(data, (i: nat, q: Request) => service(q), n).points == Iterate(service, data.points, n)
  {
    if n > 0 {
      FreshRoundsIterate(data, service, n - 1);
    }
  }

  /** A service whose centroids are the points halved: each relaxation step moves them. */
  function Halving(q: Request): Response
  {
    Response(Some(seq(|q.points|, i requires 0 <= i < |q.points| => Point(q.points[i].x / 2.0, q.points[i].y / 2.0))),
             Some([]), Some([]))
  }

  /**
   * Two rounds from the point (8, 8) against `Halving`: the draft as written
   * ends at (4, 4), the same as after one round; two relaxation steps end
   * at (2, 2).
   */
  lemma StaleRoundsSkipSteps()
    ensures var data := Data([Point(8.0, 8.0)], [], None, [], []);
            var fetch := (i: nat, q: Request) => Halving(q);
            && StaleRounds(data, fetch, 2).points == [Point(4.0, 4.0)]
            && FreshRounds(data, fetch, 2).points == [Point(2.0, 2.0)]
  {
    var data := Data([Point(8.0, 8.0)], [], None, [], []);
    var fetch := (i: nat, q: Request) => Halving(q);
    var once := Halving(DraftRequest(data.points));
    assert once.centroids.value == [Point(4.0, 4.0)];
    assert FreshRounds(data, fetch, 1).points == [Point(4.0, 4.0)];
    var twice := Halving(DraftRequest([Point(4.0, 4.0)]));
    assert twice.centroids.value == [Point(2.0, 2.0)];
  }

  /** The draft's component: the shared-shape state and its own three input fields. */
  class Draft {
    const state: Canvas
    var inputPointValue: string
    var inputIterationValue: string
    var inputDelayValue: string

    /** canvas_temp.js:10-16 */
    constructor ()
      ensures fresh(state) && state.Valid()
      ensures state.data == Initial && state.scale == 1.0 && !state.isDragging && !state.addPointState
      ensures !state.nanCoordinates
      ensures inputPointValue == "" && inputIterationValue == "" && inputDelayValue == ""
    {
      state := new Canvas();
      inputPointValue := "";
      inputIterationValue := "";
      inputDelayValue := "";
    }

    /** `draw(ctx)` on a bitmap of `width` by `height`: the same commands as the display module's paint. */
    method Draw(width: nat, height: nat) returns (cmds: seq<Command>)
      requires state.Valid()
      ensures cmds == Scene(width, height, state.data, state.scale)
    {
      cmds := Paint(width, height, state.data, state.scale);
    }

    /** `updateCanvasSize`: size the canvas to the window and draw; it assumes the canvas exists. */
    method UpdateCanvasSize(win: Window) returns (cmds: seq<Command>)
      requires state.Valid()
      ensures cmds == RedrawCommands(true, true, win, state.data, state.scale)
    {
      cmds := [Resize(win.innerWidth as real, win.innerHeight as real * 0.8)];
      var drawn := Draw(BitmapWidth(win), BitmapHeight(win));
      cmds := cmds + drawn;
    }

    method HandleToggle()
      modifies state`addPointState
      ensures state.addPointState == !old(state.addPointState)
    {
      state.addPointState := !state.addPointState;
    }

    method AddPoint(e: Pointer, rect: Rect)
      requires state.Valid()
      modifies state`data
      ensures old(state.addPointState) ==>
                state.data == old(state.data).(points := old(state.data.points) + [ToModel(Relative(e, rect), Center(rect), state.scale)])
      ensures !old(state.addPointState) ==> state.data == old(state.data)
    {
      state.AddPoint(e, rect);
    }

    method ZoomIn()
      requires state.Valid()
      modifies state`scale
      ensures state.Valid() && state.scale == DraftZoomed(old(state.scale), ZoomButton.ZoomIn)
    {
      state.scale := state.scale * ZoomStep;
    }

    /** No guard: the scale may fall below 1, but stays positive. */
    method ZoomOut()
      requires state.Valid()
      modifies state`scale
      ensures state.Valid() && state.scale == DraftZoomed(old(state.scale), ZoomButton.ZoomOut)
    {
      state.scale := state.scale / ZoomStep;
    }

    method ResetZoom()
      modifies state`scale
      ensures state.Valid() && state.scale == DraftZoomed(old(state.scale), ZoomButton.ResetZoom)
    {
      state.scale := 1.0;
    }

    method HandleMouseDown(e: Pointer, rect: Rect)
      modifies state`data, state`isDragging
      ensures old(state.addPointState) ==> state.data == old(state.data) && state.isDragging == old(state.isDragging)
      ensures !old(state.addPointState) ==>
                state.data == old(state.data).(lastPosition := Some(Relative(e, rect))) && state.isDragging
    {
      state.HandleMouseDown(e, rect);
    }

    /** As written: with no anchor, every stored coordinate becomes NaN. */
    method HandleMouseMove(e: Pointer, rect: Rect)
      requires state.Valid()
      modifies state`data, state`nanCoordinates
      ensures !state.addPointState && state.isDragging && old(state.data).lastPosition.Some? ==>
                && state.data == MoveResult(old(state.data), Relative(e, rect), state.scale)
                && state.nanCoordinates == old(state.nanCoordinates)
      ensures !state.addPointState && state.isDragging && old(state.data).lastPosition.None? ==>
                && state.data == old(state.data).(lastPosition := Some(Relative(e, rect)))
                && state.nanCoordinates == (old(state.nanCoordinates) || HasGeometry(old(state.data)))
      ensures state.addPointState || !state.isDragging ==>
                state.data == old(state.data) && state.nanCoordinates == old(state.nanCoordinates)
    {
      state.HandleMouseMove(e, rect);
    }

    /** As intended: with no anchor, the move only anchors the drag. */
    method HandleMouseMoveReanchored(e: Pointer, rect: Rect)
      requires state.Valid()
      modifies state`data
      ensures !state.addPointState && state.isDragging ==>
                state.data == MoveResult(old(state.data), Relative(e, rect), state.scale)
      ensures state.addPointState || !state.isDragging ==> state.data == old(state.data)
    {
      state.HandleMouseMoveReanchored(e, rect);
    }

    method HandleMouseUp()
      modifies state`isDragging
      ensures !state.isDragging
    {
      state.HandleMouseUp();
    }

    /** As in the control panel: alert on NaN, otherwise append `Count(n)` random points and clear the field. */
    method HandleAddPoints(parsed: Option<int>, width: nat, height: nat) returns (alert: Option<string>)
      modifies state`data, this`inputPointValue
      ensures parsed.None? ==>
                alert == Some("Please enter a valid number")
                && state.data == old(state.data) && inputPointValue == old(inputPointValue)
      ensures parsed.Some? ==> alert.None? && inputPointValue == ""
      ensures parsed.Some? ==>
                && |state.data.points| == |old(state.data.points)| + Count(parsed.value)
                && state.data == old(state.data).(points := state.data.points)
                && state.data.points[..|old(state.data.points)|] == old(state.data.points)
                && AllRandomIn(state.data.points[|old(state.data.points)|..], width as real, height as real)
    {
      if parsed.None? {
        return Some("Please enter a valid number");
      }
      var newPoints := RandomPoints(parsed.value, width, height);
      var prev := state.data;
      state.data := Data(prev.points + newPoints, prev.edges, prev.lastPosition, prev.centroids, prev.centroidEdges);
      assert state.data.points[|prev.points|..] == newPoints;
      assert state.data.points[..|prev.points|] == prev.points;
      inputPointValue := "";
      alert := None;
    }

    method Clear()
      modifies state`data, state`nanCoordinates
      ensures state.data == Initial && !state.nanCoordinates
    {
      state.data := Data([], [], None, [], []);
      state.nanCoordinates := false;
    }

    /**
     * `run` as written. `parsed` is `parseInt(inputIterationValue, 10)`,
     * None for NaN; `fetch(i, q)` is the answer to round `i`'s request.
     * Every round posts the points `data` held at the click; a refused
     * round alerts and the loop goes on; the pause between a round's two
     * writes is not modelled.
     */
    method Run(parsed: Option<int>, fetch: (nat, Request) -> Response)
      returns (alert: Option<string>, requests: seq<Request>, outcomes: seq<RoundOutcome>)
      modifies state`data, state`nanCoordinates
      ensures parsed.None? ==>
                alert == Some("Please enter a valid number") && requests == [] && outcomes == []
                && state.data == old(state.data) && state.nanCoordinates == old(state.nanCoordinates)
      ensures parsed.Some? ==>
                && alert.None?
                && |requests| == |outcomes| == Count(parsed.value)
                && (forall i :: 0 <= i < |requests| ==> requests[i] == DraftRequest(old(state.data).points))
                && (forall i :: 0 <= i < |outcomes| ==>
                      outcomes[i] == Outcome(old(state.data), fetch(i, DraftRequest(old(state.data).points))))
                && state.data == StaleRounds(old(state.data), fetch, Count(parsed.value))
                && (state.nanCoordinates <==>
                      old(state.nanCoordinates)
                      && forall i :: 0 <= i < Count(parsed.value) ==>
                           !Complete(fetch(i, DraftRequest(old(state.data).points))))
    {
      if parsed.None? {
        return Some("Please enter a valid number"), [], [];
      }
      alert := None;
      var data := state.data;
      ghost var nan := state.nanCoordinates;
      var n := Count(parsed.value);
      requests, outcomes := [], [];
      for i := 0 to n
        invariant |requests| == |outcomes| == i
        invariant forall k :: 0 <= k < i ==> requests[k] == DraftRequest(data.points)
        invariant forall k :: 0 <= k < i ==> outcomes[k] == Outcome(data, fetch(k, DraftRequest(data.points)))
        invariant state.data == StaleRounds(data, fetch, i)
        invariant state.nanCoordinates <==> nan && forall k :: 0 <= k < i ==> !Complete(fetch(k, DraftRequest(data.points)))
      {
        var req := DraftRequest(data.points);
        var response := fetch(i, req);
        requests := requests + [req];
        if response.centroids.None? || response.edges.None? || response.centroidEdges.None? {
          outcomes := outcomes + [Alerted(RoundFailed)];
          continue;
        }
        state.data := Data(data.points, response.edges.value, data.lastPosition,
                           response.centroids.value, response.centroidEdges.value);
        outcomes := outcomes + [Relaxed(state.data)];
        state.data := Data(response.centroids.value, [], None, [], []);
        state.nanCoordinates := false;
      }
    }

    /**
     * `run` as the iteration count intends it: each round posts the points
     * the previous round left, so that `n` rounds are `n` relaxation steps.
     */
    method RunRelaxed(parsed: Option<int>, fetch: (nat, Request) -> Response)
      returns (alert: Option<string>, requests: seq<Request>)
      modifies state`data, state`nanCoordinates
      ensures parsed.None? ==>
                alert == Some("Please enter a valid number") && requests == [] && state.data == old(state.data)
                && state.nanCoordinates == old(state.nanCoordinates)
      ensures parsed.Some? ==>
                && alert.None? && |requests| == Count(parsed.value)
                && (forall i :: 0 <= i < |requests| ==>
                      requests[i] == DraftRequest(FreshRounds(old(state.data), fetch, i).points))
                && state.data == FreshRounds(old(state.data), fetch, Count(parsed.value))
                && (state.nanCoordinates <==>
                      old(state.nanCoordinates) && FreshNoneAccepted(old(state.data), fetch, Count(parsed.value)))
    {
      if parsed.None? {
        return Some("Please enter a valid number"), [];
      }
      alert := None;
      ghost var start := state.data;
      ghost var nan := state.nanCoordinates;
      var n := Count(parsed.value);
      requests := [];
      for i := 0 to n
        invariant requests == FreshRequests(start, fetch, i)
        invariant state.data == FreshRounds(start, fetch, i)
        invariant state.nanCoordinates == (nan && FreshNoneAccepted(start, fetch, i))
      {
        FreshStep(start, fetch, i);
        var req := RelaxRound(i, fetch);
        requests := requests + [req];
      }
      FreshRequestsSpec(start, fetch, n);
    }

    /** One round of `RunRelaxed`: post the current points, show and promote a complete answer. */
    method RelaxRound(i: nat, fetch: (nat, Request) -> Response) returns (req: Request)
      modifies state`data, state`nanCoordinates
      ensures req == DraftRequest(old(state.data).points)
      ensures var r := fetch(i, req);
              && state.data == (if Complete(r) then Promoted(Shown(old(state.data), r)) else old(state.data))
              && state.nanCoordinates == (old(state.nanCoordinates) && !Complete(r))
    {
      var data := state.data;
      req := DraftRequest(data.points);
      var response := fetch(i, req);
      if response.centroids.None? || response.edges.None? || response.centroidEdges.None? {
        return;
      }
      state.data := Data(data.points, response.edges.value, data.lastPosition,
                         response.centroids.value, response.centroidEdges.value);
      state.data := Data(response.centroids.value, [], None, [], []);
      state.nanCoordinates := false;
    }
  }
}
