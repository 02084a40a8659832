# iLloyd canvas and sweep-queue model

iLloyd is a web page for Lloyd's relaxation. The user places points on a
canvas, pans and zooms it, and asks a service to compute the Voronoi (or
Delaunay) structure of the points. The service's centroids then become the
next points. The service's Fortune sweep keeps its circle events in a
lazy-deletion priority queue.

This project models two parts of that system in Dafny:

- the frontend canvas state machine and its handlers, in `canvas_context.dfy`,
  `canvas_control_panel.dfy`, `canvas_display.dfy` and `canvas_temp.dfy`. This
  covers the shared `data` record, `scale`, `isDragging` and `addPointState`;
  the click, drag, zoom, toggle, random-point, clear and relaxation-round
  handlers; the redraw effect; and the older all-in-one draft component with
  its multi-round `run`;
- the sweep support structures of `api/helper.py`, in `helper.dfy`: the
  priority queue (`push`, `remove_entry`, `pop`, `top`, `empty`), `Segment`
  and `finish`, `Arc`, `Event`, and `check_circle_event`.

`common.dfy` holds `Option`, `Result` and `Count(n)` (`max(n, 0)`, the
number of times `for (i = 0; i < n; i++)` runs).

Modelling choices:

- **State.** The React state is the class `CanvasContext.Canvas`. Each
  handler is a method that `modifies` only the fields its setters write. The
  control panel and the draft component hold a reference to that state.
- **Numbers.** Coordinates and the scale are `real`.
- **`lastPosition`.** `[]` or `[x, y]` is `Option<Point>`.
- **Parsed input.** `parseInt` followed by `isNaN` is an `Option<int>` input.
- **Randomness.** `Math.random()` is a choice of `r` in [0, 1).
- **The service.** It is a function parameter from request to response. Each
  of the response's three fields may be missing, and a failed fetch yields
  the all-missing response (frontend/src/helpers/fetch.js:24-32).
- **The redraw.** It is the list of canvas commands it issues. A small
  interpreter (`CanvasDisplay.Exec`) gives those commands a meaning: the
  discs, rings and segments painted in bitmap coordinates, with their colours
  and on-screen widths.
- **The priority queue.** Its list is a sequence of entries
  `(key, count, Live(item) | Removed)`. `heapq`'s heap shape is abstracted:
  `heappop` takes the entry least by key and then by count. The entry that
  `entry_finder` shares with the heap is identified by its count, because
  counts are never reused.
- **`circle`.** It is a function parameter returning `NoCircle` or
  `Circle(x, ox, oy)`.

## Model

| member | source | states |
|---|---|---|
| CanvasContext.Canvas.constructor | frontend/src/modules/canvas_context.js:9-12 | The provider starts with every sequence empty, no `lastPosition`, scale 1, not dragging, add-point mode off and no NaN coordinates. |
| CanvasContext.Canvas.AddPoint | frontend/src/modules/canvas_context.js:16-28 | In add-point mode, the click appends exactly one point: the canvas-relative pointer mapped back through the zoom about the canvas centre. Every other field is kept. Outside the mode nothing changes. |
| CanvasContext.Canvas.HandleMouseDown | frontend/src/modules/canvas_context.js:31-37 | Outside add-point mode, the press sets `lastPosition` to the canvas-relative pointer and starts dragging, leaving the geometry alone. In the mode it changes nothing. |
| CanvasContext.Canvas.HandleMouseMove | frontend/src/modules/canvas_context.js:40-73 | The handler as written. While dragging outside add-point mode with an anchor, `data` becomes `MoveResult` of the old record. With no anchor, the anchor becomes the pointer, and the stored coordinates become NaN (`nanCoordinates`) whenever there are any. Otherwise nothing changes. |
| CanvasContext.Canvas.HandleMouseMoveReanchored | frontend/src/modules/canvas_context.js:40-73 | The corrected handler. While dragging outside add-point mode, `data` becomes `MoveResult` of the old record, which re-anchors at the pointer when there is no anchor. Otherwise `data` is unchanged. |
| CanvasContext.Canvas.HandleMouseUp | frontend/src/modules/canvas_context.js:76-78 | Dragging stops unconditionally and nothing else is written. |
| CanvasContext.ShiftPoints | frontend/src/modules/canvas_context.js:49-52 | The mapped sequence has the same length, and element `i` is element `i` moved by the delta. |
| CanvasContext.ShiftEdges | frontend/src/modules/canvas_context.js:55-58 | Same length, and both ends of edge `i` are moved by the delta. |
| CanvasContext.Translated | frontend/src/modules/canvas_context.js:49-69 | All four sequences keep their lengths. Every point, every centroid and both ends of every edge and centroid edge move by the same delta. `lastPosition` is untouched. |
| CanvasContext.MoveResult | frontend/src/modules/canvas_context.js:43-71 | After a move, `lastPosition` is the current pointer position. |
| CanvasContext.MoveAsWritten | frontend/src/modules/canvas_context.js:43-71 | The move as written has no defined result (NaN coordinates) exactly when there is no anchor. Otherwise it equals `MoveResult`. |
| CanvasContext.DragResumes | frontend/src/modules/canvas_context.js:40-73 | With no anchor, a move keeps the geometry and anchors at the pointer. The next move then pans by the delta from there, as after a press at that position. |
| CanvasContext.ShiftPointsCompose | frontend/src/modules/canvas_context.js:49-52 | Shifting by `a` and then by `b` is shifting by `a + b`. |
| CanvasContext.ShiftEdgesCompose | frontend/src/modules/canvas_context.js:55-58 | Shifting edges by `a` and then by `b` is shifting them by `a + b`. |
| CanvasContext.DragMovesCompose | frontend/src/modules/canvas_context.js:45-71 | Two drag moves p0 -> p1 -> p2 leave the same record as the single move p0 -> p2. |
| CanvasContext.DragKeepsPointOffsets | frontend/src/modules/canvas_context.js:49-52 | A drag keeps the offset between any two points. |
| CanvasContext.DragKeepsCentroidOffsets | frontend/src/modules/canvas_context.js:61-64 | A drag keeps the offset between any two centroids. |
| CanvasContext.DragKeepsPointCentroidOffsets | frontend/src/modules/canvas_context.js:49-64 | A drag keeps the offset between any point and any centroid. |
| ControlPanel.Panel.constructor | frontend/src/modules/canvas_control_panel.js:15-17 | The panel starts with both input fields empty and the algorithm `delaunay`, over the shared state. |
| ControlPanel.PowAboveOne | frontend/src/modules/canvas_control_panel.js:25-27 | `1.1^k >= 1`, with strict inequality exactly when `k > 0`. |
| ControlPanel.ZoomReachable | frontend/src/modules/canvas_control_panel.js:25-39 | From `1.1^level`, any sequence of zoom in, zoom out and reset reaches `1.1^k` for a natural `k`. |
| ControlPanel.ZoomNeverBelowOne | frontend/src/modules/canvas_control_panel.js:25-39 | From scale 1, the panel's buttons never bring the scale below 1. |
| ControlPanel.Panel.ZoomIn | frontend/src/modules/canvas_control_panel.js:25-27 | The scale is multiplied by 1.1 and stays positive. |
| ControlPanel.Panel.ZoomOut | frontend/src/modules/canvas_control_panel.js:30-34 | The scale is divided by 1.1 only when it is above 1. Otherwise it is unchanged. |
| ControlPanel.Panel.ResetZoom | frontend/src/modules/canvas_control_panel.js:37-39 | The scale becomes 1. |
| ControlPanel.Panel.HandleToggle | frontend/src/modules/canvas_control_panel.js:42-44 | Add-point mode is negated, so two toggles restore it. |
| ControlPanel.RandomInBounds | frontend/src/modules/canvas_control_panel.js:63-66 | `Math.random() * extent` lies in [0, extent) when the extent is positive. |
| ControlPanel.RandomPoints | frontend/src/modules/canvas_control_panel.js:60-67 | The loop yields exactly `max(n, 0)` points. Each coordinate is a random fraction of the canvas extent, so each point lies in [0, width) x [0, height) on a non-empty canvas. |
| ControlPanel.Panel.HandleAddPoints | frontend/src/modules/canvas_control_panel.js:52-74 | NaN gives the alert and changes neither `data` nor the input. Otherwise `max(n, 0)` random points are appended after the existing ones, every other field is kept, and the input is cleared. |
| ControlPanel.Panel.Clear | frontend/src/modules/canvas_control_panel.js:87-89 | `data` becomes the empty record, so no NaN coordinates remain. |
| ControlPanel.Endpoint | frontend/src/modules/canvas_control_panel.js:97 | The path is `api/delaunay/` exactly when the algorithm is `delaunay`, and `api/fortune/` otherwise. |
| ControlPanel.RoundRequest | frontend/src/modules/canvas_control_panel.js:97-104 | The request carries the current points, minimum boundaries of 0, and maxima that times the scale give the canvas box's width and height. |
| ControlPanel.RoundEffect | frontend/src/modules/canvas_control_panel.js:109-118 | A round is refused exactly when a field is missing, so always for a failed fetch. Otherwise it first shows the response's edges, centroids and centroid edges over unchanged points and `lastPosition`, and then leaves only the centroids, as points. |
| ControlPanel.RoundExample | frontend/src/modules/canvas_control_panel.js:109-118 | Points (10,10) and (20,20) with a service answering the centroid (15,15) end with just the point (15,15). |
| ControlPanel.Panel.Run | frontend/src/modules/canvas_control_panel.js:90-121 | The request is `RoundRequest` of the state at the click. A refused response alerts and leaves `data` and any NaN coordinates. An accepted one displays and then leaves exactly what `Round` says, with no NaN coordinates. |
| ControlPanel.DragOutlivesAnchor | frontend/src/modules/canvas_control_panel.js:118 | After a press and a completed round, the drag is still on, the move as written has no anchor, and the next move through the handler turns the stored coordinates into NaN. |
| CanvasDisplay.CanvasDimension | frontend/src/modules/canvas_display.js:26-27 | Assigning a non-negative value to `canvas.width` or `canvas.height` keeps the integer `n` with `n <= v < n + 1`. The bitmap width and height are this conversion of `innerWidth` and `0.8 * innerHeight`. |
| CanvasDisplay.BitmapHeight | frontend/src/modules/canvas_display.js:25-28 | The bitmap height is `0.8 * innerHeight` truncated to an integer. |
| CanvasDisplay.BitmapMatchesStyle | frontend/src/modules/canvas_display.js:23-29 | The bitmap's width equals its CSS width, because `innerWidth` is whole and nothing is truncated, and its height equals the CSS height exactly when `innerHeight` is a multiple of 5. |
| CanvasDisplay.Redraw | frontend/src/modules/canvas_display.js:16-76 | Without a canvas or a 2D context nothing is issued. Otherwise the canvas is sized to `innerWidth` by `0.8 * innerHeight` and then painted. |
| CanvasDisplay.Paint | frontend/src/modules/canvas_display.js:32-71 | The commands are: clear, reset, zoom about the bitmap centre, the point dots, red, the centroid dots, black, the edge lines, blue, the centroid-edge lines, black. |
| CanvasDisplay.PaintDots | frontend/src/modules/canvas_display.js:41-45 | One begin-path, arc of radius `2 / scale` and fill per point, in sequence order. |
| CanvasDisplay.PaintLines | frontend/src/modules/canvas_display.js:55-61 | One begin-path, move, line, line width and stroke per edge, in sequence order. |
| CanvasDisplay.ZoomMappingsInverse | frontend/src/modules/canvas_display.js:32-39 | The drawing transform `(p - c) * s + c` and the add-point mapping undo each other, in both orders. |
| CanvasDisplay.ViewPainted | frontend/src/modules/canvas_display.js:35-39 | The view block erases the bitmap and leaves the transform "translate to the centre, scale, translate back". |
| CanvasDisplay.Dots | frontend/src/modules/canvas_display.js:41-52 | One disc per point, in order, at the point's screen position, with on-screen radius 2. |
| CanvasDisplay.Lines | frontend/src/modules/canvas_display.js:55-70 | One line per edge, in order, between the screen positions of its ends. |
| CanvasDisplay.DotsPainted | frontend/src/modules/canvas_display.js:41-45 | Under the view transform, the dot commands paint exactly `Dots` in the current fill colour and keep the pen's styles and transform. |
| CanvasDisplay.LinesPainted | frontend/src/modules/canvas_display.js:55-61 | Under the view transform, the line commands with width `w` paint exactly `Lines` with on-screen width `w * scale`. |
| CanvasDisplay.FillsPainted | frontend/src/modules/canvas_display.js:41-53 | Points are painted in the current fill and centroids in red, and the fill ends black. |
| CanvasDisplay.StrokesPainted | frontend/src/modules/canvas_display.js:55-71 | Edges are painted with on-screen width 1 and centroid edges in blue with on-screen width 0.8, and the stroke ends black. |
| CanvasDisplay.ScenePainted | frontend/src/modules/canvas_display.js:32-71 | One redraw paints exactly: point discs, red centroid discs, edge lines, then blue centroid-edge lines. Points are filled with the pen's incoming fill colour and edges stroked with its incoming stroke colour. |
| CanvasDisplay.RedrawPainted | frontend/src/modules/canvas_display.js:16-76 | From any earlier state of the canvas, a redraw paints exactly that picture, in black, red, black and blue, and leaves both colours black. So the whole redraw, unlike its painting block, depends only on the record, the scale and the window. |
| CanvasDisplay.ClickPaintedUnderPointer | frontend/src/modules/canvas_context.js:16-26 | When the canvas box is exactly the bitmap (`rect.width` and `rect.height` equal the bitmap width and the truncated bitmap height), a point added by a click is painted, after the existing points, as a disc of radius 2 exactly under the pointer. |
| CanvasTemp.Draft.constructor | frontend/src/modules/canvas_temp.js:10-16 | The draft starts with the empty record, scale 1, not dragging, add-point mode off, no NaN coordinates and empty input fields. |
| CanvasTemp.Draft.Draw | frontend/src/modules/canvas_temp.js:19-64 | `draw` issues the same command sequence as the display module's paint. |
| CanvasTemp.Draft.UpdateCanvasSize | frontend/src/modules/canvas_temp.js:70-82 | Sizing and drawing issue the same commands as the display module's redraw when the canvas and its context exist. |
| CanvasTemp.Draft.HandleToggle | frontend/src/modules/canvas_temp.js:93-95 | Add-point mode is negated. |
| CanvasTemp.Draft.AddPoint | frontend/src/modules/canvas_temp.js:98-110 | The same click-to-point mapping and frame as the context's handler. |
| CanvasTemp.Draft.ZoomIn | frontend/src/modules/canvas_temp.js:113-115 | The scale is multiplied by 1.1. |
| CanvasTemp.Draft.ZoomOut | frontend/src/modules/canvas_temp.js:118-120 | The scale is divided by 1.1 whatever it is, and stays positive. |
| CanvasTemp.Draft.ResetZoom | frontend/src/modules/canvas_temp.js:123-125 | The scale becomes 1. |
| CanvasTemp.ZoomPower | frontend/src/modules/canvas_temp.js:113-125 | `1.1^k` for any integer `k` is positive. |
| CanvasTemp.ZoomPowerStep | frontend/src/modules/canvas_temp.js:113-115 | Zooming in raises the exponent by one, for negative exponents too. |
| CanvasTemp.DraftZoomReachable | frontend/src/modules/canvas_temp.js:113-125 | The draft's buttons reach `1.1^k` for an integer `k`, negative ones included. |
| CanvasTemp.DraftZoomBelowOne | frontend/src/modules/canvas_temp.js:118-120 | The draft's scale stays positive, but a single zoom out from 1 already takes it below 1. |
| CanvasTemp.Draft.HandleMouseDown | frontend/src/modules/canvas_temp.js:128-134 | Outside add-point mode the press anchors the drag and starts dragging. In the mode nothing changes. |
| CanvasTemp.Draft.HandleMouseMove | frontend/src/modules/canvas_temp.js:137-170 | The handler as written. While dragging outside add-point mode with an anchor, every coordinate moves by the drag delta and the anchor follows. With no anchor, the anchor becomes the pointer and any stored coordinates become NaN. Otherwise nothing changes. |
| CanvasTemp.Draft.HandleMouseMoveReanchored | frontend/src/modules/canvas_temp.js:137-170 | The corrected handler: while dragging outside add-point mode, `data` becomes `MoveResult`, re-anchoring when there is no anchor. |
| CanvasTemp.Draft.HandleMouseUp | frontend/src/modules/canvas_temp.js:173-175 | Dragging stops. |
| CanvasTemp.Draft.HandleAddPoints | frontend/src/modules/canvas_temp.js:187-207 | NaN gives the alert and changes nothing. Otherwise `max(n, 0)` random points are appended, every other field is kept, and the input is cleared. |
| CanvasTemp.Draft.Clear | frontend/src/modules/canvas_temp.js:210-212 | `data` becomes the empty record, so no NaN coordinates remain. |
| CanvasTemp.Outcome | frontend/src/modules/canvas_temp.js:233-238 | A round alerts "Smt went wrong!" exactly when a field is missing. Otherwise it displays what `Round` displays. |
| CanvasTemp.Draft.Run | frontend/src/modules/canvas_temp.js:215-244 | NaN alerts and does nothing. Otherwise there are exactly `max(n, 0)` rounds. Each posts the points held at the click and reports the outcome of that request. `data` ends as `StaleRounds`. NaN coordinates remain exactly when they were there and every round was refused. |
| CanvasTemp.StaleRoundsNoneAccepted | frontend/src/modules/canvas_temp.js:225-243 | When every round is refused, the rounds as written leave `data` unchanged. |
| CanvasTemp.StaleRoundsLast | frontend/src/modules/canvas_temp.js:225-243 | When round `j` is the last accepted one, the rounds as written leave only that answer's centroids, as points. |
| CanvasTemp.StaleRoundsCollapse | frontend/src/modules/canvas_temp.js:225-243 | Against a deterministic service, any positive number of rounds as written leaves what one round leaves. |
| CanvasTemp.StaleRoundsSkipSteps | frontend/src/modules/canvas_temp.js:228-242 | With a halving service, two rounds from (8,8) as written end at (4,4), while two relaxation steps end at (2,2). |
| CanvasTemp.FreshRoundsIterate | frontend/src/modules/canvas_temp.js:225-243 | The corrected rounds perform exactly `n` relaxation steps of the points. |
| CanvasTemp.Draft.RunRelaxed | frontend/src/modules/canvas_temp.js:215-244 | The corrected `run`: round `i` posts the points left by round `i - 1`, and `data` ends as `FreshRounds`. NaN coordinates remain exactly when they were there and no round was accepted. |
| CanvasTemp.Draft.RelaxRound | frontend/src/modules/canvas_temp.js:227-242 | One corrected round posts the current points. A complete answer is shown and its centroids promoted, clearing NaN coordinates. A refused one leaves the state. |
| CanvasTemp.FreshRequestsSpec | frontend/src/modules/canvas_temp.js:225-243 | There are `n` corrected requests, and request `k` posts the points the `k` rounds before it left. |
| CanvasTemp.FreshNoneAcceptedSpec | frontend/src/modules/canvas_temp.js:225-243 | No corrected round is accepted exactly when each of them is refused on the points it posts, and then `data` is left as it was. |
| Helper.Point.constructor | api/helper.py:6-9 | A point holds the given coordinates. |
| Helper.Event.constructor | api/helper.py:12-17 | An event holds its `x`, point and arc, and starts valid. |
| Helper.Arc.constructor | api/helper.py:20-27 | An arc links the given neighbours and starts with no event and no segments. |
| Helper.Segment.constructor | api/helper.py:30-34 | A new segment has its start, no end, and is not done. |
| Helper.Segment.Finish | api/helper.py:36-39 | `finish` gives the result of `Finished` on the old end and done flag. |
| Helper.FinishFirstWins | api/helper.py:36-39 | After `finish` the segment is done. The first call records its point, and every later call changes nothing. |
| Helper.LeastIndex | api/helper.py:63 | `heappop` takes an entry not after any other by (key, count). |
| Helper.LeastLive | api/helper.py:61-66 | The least live entry exists exactly when some entry is live. It is in the heap and not after any live entry. |
| Helper.PriorityQueue.constructor | api/helper.py:43-46 | The queue starts empty with counter 0 and satisfies its invariant. |
| Helper.PushedSpec | api/helper.py:48-54 | `push` keeps the invariant and queues the item. An item already queued changes nothing. A new item gets one live entry, keyed by its `x`, whose count exceeds every count in the heap, and the counter advances. |
| Helper.PriorityQueue.Push | api/helper.py:48-54 | The new state is `Pushed` of the old one, and the invariant is kept. |
| Helper.RemovedEntrySpec | api/helper.py:56-59 | `remove_entry` keeps the invariant and forgets the item. No live entry holds the item afterwards. Removing an absent item changes nothing. Pushing the item again adds a fresh entry. |
| Helper.PriorityQueue.RemoveEntry | api/helper.py:56-59 | The new state is `RemovedEntry` of the old one, and the invariant is kept. |
| Helper.PoppedSpec | api/helper.py:61-67 | `pop` returns the item of the live entry least by `x` and then by push order, and forgets it. Every other live entry is kept. With no live entry it raises `KeyError("pop from an empty priority queue")`, the heap is left empty, and no item was queued. |
| Helper.PriorityQueue.Pop | api/helper.py:61-67 | The popping loop returns and leaves exactly what `Popped` does, and the invariant is kept. |
| Helper.ToppedSpec | api/helper.py:69-76 | `top` answers what `pop` would and keeps the same items queued. The item is re-entered with a count above every earlier one, so it goes behind entries of equal key. An empty queue raises `KeyError("top from an empty priority queue")`. |
| Helper.PriorityQueue.Top | api/helper.py:69-76 | The loop returns and leaves exactly what `Topped` does, and the invariant is kept. |
| Helper.NoLiveIffNoItems | api/helper.py:78-79 | Under the invariant, no live entry remains exactly when `entry_finder` is empty. |
| Helper.PriorityQueue.Empty | api/helper.py:78-79 | `empty()` holds exactly when no live entry remains, that is, when `pop` would raise. For a valid queue that is when no item is queued. |
| Helper.CheckCircleEvent | api/helper.py:146-161 | An old event not at `min_x` is invalidated, and any other old event keeps its validity. The arc then has no event, or a fresh valid event of this arc with `x > min_x` that is pushed on the queue. An arc missing a neighbour gets no event and leaves the queue alone. A circle to the right of `min_x` yields an event at the circle's `x` and centre. |

## Left out

- Number representation: JavaScript numbers and Python floats are IEEE-754 doubles, and the model uses exact reals. Rounding and infinities are not modelled. NaN is modelled only where the handlers write it: the `nanCoordinates` flag of the state records that a drag move without an anchor made the coordinates stored at that moment NaN. Points appended later are numbers, and the flag does not say which entries are NaN; the reals in `data` stand for NaN only for the entries stored at that move.
- ControlPanel.ZoomNeverBelowOne: it holds for exact reals only. In binary64 arithmetic, multiplying and dividing by 1.1 do not cancel exactly, so a run of zoom-ins followed by the guarded zoom-outs can end a rounding step below 1 (fifteen of each, for instance).
- CanvasDisplay renderer members: the picture is not stated for NaN coordinates. They are read off `data` whatever `nanCoordinates` says.
- Canvas sizing: assigning `canvas.width`/`height` truncates to an integer, and the model keeps that. The CSS `style` sizes are not part of the state; `BitmapMatchesStyle` states how the bitmap relates to them.
- `arc` in the interpreter: each call is taken to start its own subpath. The effect always calls `beginPath` first, so this does not change what is painted.
- `clearRect` in the interpreter: it is taken to erase everything. The effect clears the whole bitmap under the identity transform.
- Pixel output: the painted picture is stated as marks (discs, rings, segments), not pixels.
- React and DOM machinery: JSX, effect scheduling, the resize listener, `getBoundingClientRect` (a `Rect` parameter) and the input `onChange` handlers (plain field writes) are outside the model.
- Asynchrony and timing: runs are sequential. Two overlapping `run` clicks are not interleaved, and the `await` on the delay between a round's two writes is a no-op step.
- Logging and alerts: `sleep`, `Date` timing and `console.log` are left out, and `alert` is an outcome value.
- Parsing: the number parsing of `parseInt` is not modelled. Its result is an input, with None for NaN.
- `fetchData` (frontend/src/helpers/fetch.js): HTTP, JSON decoding and CORS are replaced by a function parameter. Only its contract that a failure yields `{}` is kept.
- CanvasDisplay.Redraw, CanvasDisplay.Paint and the other renderer members require `scale > 0`: every handler keeps the scale positive (`Canvas.Valid`), so the renderer is only stated for such scales.
- Helper.PriorityQueue.Pop: the heap is a sequence without `heapq`'s heap shape. `heappop` is modelled by its contract (it takes the least entry by key, then count), and the shape invariant and the logarithmic cost are not modelled.
- Helper.PriorityQueue.RemoveEntry: Python marks the shared list object in place. The model finds that entry by its count, which is equivalent because counts are unique.
- Helper.PriorityQueue: items are hashed by identity in Python. The model uses Dafny equality of `T`, which for the `Event` class is identity.
- Helper.CheckCircleEvent: `circle`, `intersect` and `intersection` are floating-point geometry with square roots and debug `print`s. `circle` is a function parameter, and the point it allocates is allocated by the model instead.
- api/voronoi.py: the `delaunay` and `fortune` sweeps, and scipy and shapely, are not part of this model.

## Findings

| source | as written | input that shows it | evidently intended | confidence | as-written member | corrected member |
|---|---|---|---|---|---|---|
| frontend/src/modules/canvas_temp.js:225-242 | Every round posts and rebuilds from the `data` captured when `run` was created, so the rounds never iterate. | A service halving every point, starting from (8,8), with iteration count 2: the result is (4,4), the same as after one round. | Each round posts the points the previous round produced, so `n` rounds are `n` Lloyd steps, ending at (2,2). | not executed | CanvasTemp.StaleRoundsSkipSteps | CanvasTemp.FreshRoundsIterate |
| frontend/src/modules/canvas_control_panel.js:118 | A completed round writes `lastPosition: []` while a drag may be on. The next move reads `data.lastPosition[0]`, which is undefined, and turns every coordinate into NaN. | Click Run; during the round's fetch or its pause, press at (5,5) on the canvas and hold; after the round's second write, move to (6,6). | The move re-anchors the drag at the pointer and leaves the geometry as it is. | not executed | ControlPanel.DragOutlivesAnchor | CanvasContext.Canvas.HandleMouseMoveReanchored |
