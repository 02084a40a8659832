/**
 * The redraw effect of frontend/src/modules/canvas_display.js, as the list of
 * canvas commands it issues, together with a small meaning for those
 * commands: what ends up painted on the bitmap (discs, rings and segments in
 * bitmap coordinates, with their colours and on-screen sizes).
 */
module CanvasDisplay {
  import opened Common
  import opened CanvasContext

  /** `window.innerWidth` and `window.innerHeight`. */
  datatype Window = Window(innerWidth: nat, innerHeight: nat)

  datatype Color = Black | Red | Blue

  /** The calls the effect makes on the canvas and its 2D context. */
  datatype Command =
    | Resize(width: real, height: real)   // canvas.width/height and style.width/height assigned
    | ClearRect(x: real, y: real, w: real, h: real)
    | ResetTransform                      // setTransform(1, 0, 0, 1, 0, 0)
    | Translate(dx: real, dy: real)
    | Scale(k: real)                      // scale(k, k)
    | BeginPath
    | Arc(center: Point, radius: real)    // arc(x, y, r, 0, 2 * Math.PI)
    | Fill
    | MoveTo(p: Point)
    | LineTo(p: Point)
    | SetLineWidth(w: real)
    | Stroke
    | SetFillStyle(c: Color)
    | SetStrokeStyle(c: Color)

  /** What `canvas.width` or `canvas.height` keeps of a non-negative value assigned to it: its integer part. */
  function CanvasDimension(v: real): (n: nat)
    requires v >= 0.0
    ensures n as real <= v < n as real + 1.0
  {
    v.Floor
  }

  /** The bitmap width: `innerWidth` assigned to `canvas.width`. */
  function BitmapWidth(win: Window): nat
  {
    CanvasDimension(win.innerWidth as real)
  }

  /** The bitmap height: `0.8 * innerHeight` assigned to `canvas.height`. */
  function BitmapHeight(win: Window): (h: nat)
    ensures h as real <= 0.8 * win.innerHeight as real < h as real + 1.0
  {
    CanvasDimension(0.8 * win.innerHeight as real)
  }

  /**
   * The bitmap and its CSS box: the widths agree, and the heights agree
   * exactly when `0.8 * innerHeight` is whole, that is when `innerHeight`
   * is a multiple of 5. Otherwise the box is taller by a fraction of a pixel.
   */
  lemma {:induction false} BitmapMatchesStyle(win: Window)
    ensures BitmapWidth(win) as real == win.innerWidth as real
    ensures BitmapHeight(win) as real == 0.8 * win.innerHeight as real <==> win.innerHeight % 5 == 0
  {
    var h := win.innerHeight;
    var q, r := h / 5, h % 5;
    assert h == 5 * q + r && 0 <= r < 5;
    assert 0.8 * h as real == (4 * q) as real + 0.8 * r as real;
    if r == 0 {
      assert (0.8 * h as real).Floor == 4 * q;
    } else {
      assert (0.8 * h as real).Floor == 4 * q + (4 * r) / 5;
    }
  }

  // ---------------------------------------------------------------------
  // What the commands paint
  // ---------------------------------------------------------------------

  /** A current transform with uniform scale: `p |-> k * p + (tx, ty)`. */
  datatype Affine = Affine(k: real, tx: real, ty: real)

  const Identity: Affine := Affine(1.0, 0.0, 0.0)

  function Apply(t: Affine, p: Point): Point
  {
    Point(t.k * p.x + t.tx, t.k * p.y + t.ty)
  }

  /** A piece of the current path, already in bitmap coordinates. */
  datatype Shape = Circle(center: Point, radius: real) | Segment(from: Point, to: Point)

  /** What is painted on the bitmap. */
  datatype Mark =
    | Disc(center: Point, radius: real, color: Color)
    | Ring(center: Point, radius: real, width: real, color: Color)
    | Line(from: Point, to: Point, width: real, color: Color)

  /** The context state the commands read and write. */
  datatype Pen = Pen(fill: Color, stroke: Color, lineWidth: real, transform: Affine,
                     path: seq<Shape>, cursor: Option<Point>)

  /** A context's state together with everything painted since the bitmap was last cleared. */
  datatype Surface = Surface(pen: Pen, marks: seq<Mark>)

  /** The state of a freshly sized context. */
  const DefaultPen: Pen := Pen(Black, Black, 1.0, Identity, [], None)

  /** Filling paints each circle of the path as a disc; a segment encloses no area. */
  function Filled(path: seq<Shape>, color: Color): seq<Mark>
  {
    if path == [] then []
    else
      var rest := Filled(path[1..], color);
      match path[0]
      case Circle(c, r) => [Disc(c, r, color)] + rest
      case Segment(_, _) => rest
  }

  /** Stroking paints each piece of the path with the given bitmap line width. */
  function Stroked(path: seq<Shape>, width: real, color: Color): seq<Mark>
  {
    if path == [] then []
    else
      var rest := Stroked(path[1..], width, color);
      match path[0]
      case Circle(c, r) => [Ring(c, r, width, color)] + rest
      case Segment(a, b) => [Line(a, b, width, color)] + rest
  }

  /** The transform followed by `translate(dx, dy)`. */
  function AfterTranslate(t: Affine, dx: real, dy: real): Affine
  {
    Affine(t.k, t.tx + t.k * dx, t.ty + t.k * dy)
  }

  /** The transform followed by `scale(f, f)`. */
  function AfterScale(t: Affine, f: real): Affine
  {
    Affine(t.k * f, t.tx, t.ty)
  }

  /** `arc`: a circle, placed and sized by the current transform, ends the path. */
  function AddCircle(pen: Pen, c: Point, r: real): Pen
  {
    pen.(path := pen.path + [Circle(Apply(pen.transform, c), r * pen.transform.k)], cursor := None)
  }

  /** `lineTo`: a segment from the current point, if there is one, which moves to the new point. */
  function AddSegment(pen: Pen, p: Point): Pen
  {
    var q := Apply(pen.transform, p);
    if pen.cursor.Some? then pen.(path := pen.path + [Segment(pen.cursor.value, q)], cursor := Some(q))
    else pen.(cursor := Some(q))
  }

  /** `stroke`: the path painted with the line width scaled by the current transform. */
  function StrokeMarks(pen: Pen): seq<Mark>
  {
    Stroked(pen.path, pen.lineWidth * pen.transform.k, pen.stroke)
  }

  /**
   * One command. Resizing resets the context and clears the bitmap; path
   * coordinates are mapped by the transform when they are added, a line's
   * width when it is stroked; a non-positive line width is ignored. An
   * `arc` is taken to start its own subpath and leave no current point (the
   * effect always begins a fresh path before one), and `clearRect` to erase
   * everything (the effect clears the whole bitmap under the identity).
   */
  function Step(cmd: Command, s: Surface): Surface
  {
    var pen := s.pen;
    match cmd
    case Resize(_, _) => Surface(DefaultPen, [])
    case ClearRect(_, _, _, _) => s.(marks := [])
    case ResetTransform => s.(pen := pen.(transform := Identity))
    case Translate(dx, dy) => s.(pen := pen.(transform := AfterTranslate(pen.transform, dx, dy)))
    case Scale(f) => s.(pen := pen.(transform := AfterScale(pen.transform, f)))
    case BeginPath => s.(pen := pen.(path := [], cursor := None))
    case Arc(c, r) => s.(pen := AddCircle(pen, c, r))
    case Fill => s.(marks := s.marks + Filled(pen.path, pen.fill))
    case MoveTo(p) => s.(pen := pen.(cursor := Some(Apply(pen.transform, p))))
    case LineTo(p) => s.(pen := AddSegment(pen, p))
    case SetLineWidth(w) => if w > 0.0 then s.(pen := pen.(lineWidth := w)) else s
    case Stroke => s.(marks := s.marks + StrokeMarks(pen))
    case SetFillStyle(c) => s.(pen := pen.(fill := c))
    case SetStrokeStyle(c) => s.(pen := pen.(stroke := c))
  }

  /** Run the commands in order. */
  function Exec(cmds: seq<Command>, s: Surface): Surface
  {
    if cmds == [] then s else Exec(cmds[1..], Step(cmds[0], s))
  }

  lemma {:induction false} ExecAppend(a: seq<Command>, b: seq<Command>, s: Surface)
    ensures Exec(a + b, s) == Exec(b, Exec(a, s))
  {
    if a == [] {
      assert a + b == b;
    } else {
      assert (a + b)[1..] == a[1..] + b;
      ExecAppend(a[1..], b, Step(a[0], s));
    }
  }

  /** Running one more command after a block. */
  lemma ExecSnoc(a: seq<Command>, c: Command, s: Surface)
    ensures Exec(a + [c], s) == Step(c, Exec(a, s))
  {
    ExecAppend(a, [c], s);
    assert [c][1..] == [];
  }

  /** Running a three-command block. */
  lemma ExecThree(c0: Command, c1: Command, c2: Command, s: Surface)
    ensures Exec([c0, c1, c2], s) == Step(c2, Step(c1, Step(c0, s)))
  {
    assert [c0, c1, c2] == [c0] + [c1] + [c2];
    ExecSnoc([c0] + [c1], c2, s);
    ExecSnoc([c0], c1, s);
    ExecSnoc([], c0, s);
    assert [] + [c0] == [c0];
  }

  /** Running a five-command block. */
  lemma ExecFive(c0: Command, c1: Command, c2: Command, c3: Command, c4: Command, s: Surface)
    ensures Exec([c0, c1, c2, c3, c4], s) == Step(c4, Step(c3, Step(c2, Step(c1, Step(c0, s)))))
  {
    assert [c0, c1, c2, c3, c4] == [c0, c1, c2] + [c3] + [c4];
    ExecSnoc([c0, c1, c2] + [c3], c4, s);
    ExecSnoc([c0, c1, c2], c3, s);
    ExecThree(c0, c1, c2, s);
  }

  // ---------------------------------------------------------------------
  // The commands of one redraw
  // ---------------------------------------------------------------------

  /** Reset, clear, and zoom by `scale` about the bitmap centre. */
  function View(width: int, height: int, scale: real): seq<Command>
  {
    var cx, cy := width as real / 2.0, height as real / 2.0;
    [ClearRect(0.0, 0.0, width as real, height as real), ResetTransform,
     Translate(cx, cy), Scale(scale), Translate(-cx, -cy)]
  }

  /** One `forEach` of filled arcs of radius `2 / scale`. */
  function DotCommands(ps: seq<Point>, scale: real): seq<Command>
    requires scale > 0.0
  {
    if ps == [] then []
    else DotCommands(ps[..|ps| - 1], scale) + [BeginPath, Arc(ps[|ps| - 1], 2.0 / scale), Fill]
  }

  /** One `forEach` of stroked lines of width `width`. */
  function LineCommands(es: seq<Edge>, width: real): seq<Command>
  {
    if es == [] then []
    else
      var e := es[|es| - 1];
      LineCommands(es[..|es| - 1], width) + [BeginPath, MoveTo(e.start), LineTo(e.end), SetLineWidth(width), Stroke]
  }

  /**
   * Everything the effect issues after sizing the canvas: points, then
   * centroids in red, then edges, then centroid edges in blue, restoring
   * both colours to black.
   */
  function Scene(width: int, height: int, data: Data, scale: real): seq<Command>
    requires scale > 0.0
  {
    View(width, height, scale) + Fills(data, scale) + Strokes(data, scale)
  }

  /** canvas_display.js:41-53 */
  function Fills(data: Data, scale: real): seq<Command>
    requires scale > 0.0
  {
    DotCommands(data.points, scale) + [SetFillStyle(Red)] + DotCommands(data.centroids, scale) + [SetFillStyle(Black)]
  }

  /** canvas_display.js:55-71 */
  function Strokes(data: Data, scale: real): seq<Command>
    requires scale > 0.0
  {
    LineCommands(data.edges, 1.0 / scale) + [SetStrokeStyle(Blue)]
    + LineCommands(data.centroidEdges, 0.8 / scale) + [SetStrokeStyle(Black)]
  }

  /** The full effect: nothing without a canvas or a 2D context; otherwise size the canvas and paint. */
  function RedrawCommands(hasCanvas: bool, hasContext: bool, win: Window, data: Data, scale: real): seq<Command>
    requires scale > 0.0
  {
    if !hasCanvas || !hasContext then []
    else [Resize(win.innerWidth as real, 0.8 * win.innerHeight as real)]
         + Scene(BitmapWidth(win), BitmapHeight(win), data, scale)
  }

  // ---------------------------------------------------------------------
  // What a redraw paints
  // ---------------------------------------------------------------------

  /** Where the zoom about the centre `c` draws the model point `p`. */
  function ToScreen(p: Point, c: Point, scale: real): Point
  {
    Point((p.x - c.x) * scale + c.x, (p.y - c.y) * scale + c.y)
  }

  /** The add-point mapping and the drawing transform undo each other. */
  lemma ZoomMappingsInverse(q: Point, c: Point, scale: real)
    requires scale > 0.0
    ensures ToScreen(ToModel(q, c, scale), c, scale) == q
    ensures ToModel(ToScreen(q, c, scale), c, scale) == q
  {
  }

  /** The transform after `View`: translate to the centre, scale, translate back. */
  function ViewTransform(c: Point, scale: real): Affine
  {
    Affine(scale, c.x - scale * c.x, c.y - scale * c.y)
  }

  /** Discs of on-screen radius 2 at the screen positions of `ps`, in order. */
  function Dots(ps: seq<Point>, c: Point, scale: real, color: Color): (r: seq<Mark>)
    ensures |r| == |ps|
    ensures forall i :: 0 <= i < |ps| ==> r[i] == Disc(ToScreen(ps[i], c, scale), 2.0, color)
  {
    if ps == [] then []
    else Dots(ps[..|ps| - 1], c, scale, color) + [Disc(ToScreen(ps[|ps| - 1], c, scale), 2.0, color)]
  }

  /** Segments of on-screen width `width` between the screen positions of each edge's ends, in order. */
  function Lines(es: seq<Edge>, c: Point, scale: real, width: real, color: Color): (r: seq<Mark>)
    ensures |r| == |es|
    ensures forall i :: 0 <= i < |es| ==>
              r[i] == Line(ToScreen(es[i].start, c, scale), ToScreen(es[i].end, c, scale), width, color)
  {
    if es == [] then []
    else
      var e := es[|es| - 1];
      Lines(es[..|es| - 1], c, scale, width, color) + [Line(ToScreen(e.start, c, scale), ToScreen(e.end, c, scale), width, color)]
  }

  /** A one-element sequence is the singleton of its element. */
  lemma Single<T>(a: seq<T>, x: T)
    requires |a| == 1 && a[0] == x
    ensures a == [x]
  {
  }

  /** Stroking under a known on-screen width. */
  lemma StrokeWidth(pen: Pen, screen: real)
    requires pen.lineWidth * pen.transform.k == screen
    ensures StrokeMarks(pen) == Stroked(pen.path, screen, pen.stroke)
  {
  }

  /** The view transform maps a model point to its screen position. */
  lemma ViewApply(p: Point, c: Point, scale: real)
    ensures Apply(ViewTransform(c, scale), p) == ToScreen(p, c, scale)
  {
    assert scale * p.x + (c.x - scale * c.x) == (p.x - c.x) * scale + c.x;
    assert scale * p.y + (c.y - scale * c.y) == (p.y - c.y) * scale + c.y;
  }

  /** One filled arc of radius `2 / scale` paints one disc of radius 2 at the point's screen position. */
  lemma DotBlock(p: Point, c: Point, scale: real, s: Surface)
    requires scale > 0.0 && s.pen.transform == ViewTransform(c, scale)
    ensures var out := Exec([BeginPath, Arc(p, 2.0 / scale), Fill], s);
            && out.marks == s.marks + [Disc(ToScreen(p, c, scale), 2.0, s.pen.fill)]
            && out.pen.fill == s.pen.fill && out.pen.stroke == s.pen.stroke
            && out.pen.transform == s.pen.transform && out.pen.lineWidth == s.pen.lineWidth
  {
    ExecThree(BeginPath, Arc(p, 2.0 / scale), Fill, s);
    ViewApply(p, c, scale);
    var t := s.pen.transform;
    var radius := (2.0 / scale) * t.k;
    assert radius == 2.0;
    var disc := Circle(ToScreen(p, c, scale), 2.0);
    var s1 := Step(BeginPath, s);
    var s2 := Step(Arc(p, 2.0 / scale), s1);
    assert s1.pen.path == [] && s1.pen.transform == t;
    assert s2.pen == AddCircle(s1.pen, p, 2.0 / scale);
    assert |s2.pen.path| == 1 && s2.pen.path[0] == Circle(Apply(t, p), radius) == disc;
    Single(s2.pen.path, disc);
    assert [disc][1..] == [];
    assert Filled([disc], s.pen.fill) == [Disc(ToScreen(p, c, scale), 2.0, s.pen.fill)];
    assert Step(Fill, s2).marks == s.marks + Filled(s2.pen.path, s.pen.fill);
  }

  /**
   * One stroked line of width `width` paints one segment between the ends'
   * screen positions, of on-screen width `screen`, which is `width * scale`.
   */
  lemma LineBlock(e: Edge, width: real, screen: real, c: Point, scale: real, s: Surface)
    requires scale > 0.0 && width > 0.0 && width * scale == screen
    requires s.pen.transform == ViewTransform(c, scale)
    ensures var out := Exec([BeginPath, MoveTo(e.start), LineTo(e.end), SetLineWidth(width), Stroke], s);
            && out.marks == s.marks + [Line(ToScreen(e.start, c, scale), ToScreen(e.end, c, scale), screen, s.pen.stroke)]
            && out.pen.fill == s.pen.fill && out.pen.stroke == s.pen.stroke
            && out.pen.transform == s.pen.transform
  {
    ExecFive(BeginPath, MoveTo(e.start), LineTo(e.end), SetLineWidth(width), Stroke, s);
    ViewApply(e.start, c, scale);
    ViewApply(e.end, c, scale);
    var t := s.pen.transform;
    var seg := Segment(ToScreen(e.start, c, scale), ToScreen(e.end, c, scale));
    var s1 := Step(BeginPath, s);
    var s2 := Step(MoveTo(e.start), s1);
    var s3 := Step(LineTo(e.end), s2);
    var s4 := Step(SetLineWidth(width), s3);
    assert s1.pen.path == [] && s1.pen.transform == t;
    assert s2.pen.cursor == Some(Apply(t, e.start)) && s2.pen.path == [];
    assert s3.pen.path == [seg];
    assert s4 == s3.(pen := s3.pen.(lineWidth := width));
    StrokeWidth(s4.pen, screen);
    assert s4.pen.path == [seg];
    assert Step(Stroke, s4).marks == s.marks + StrokeMarks(s4.pen);
    assert [seg][1..] == [];
    assert Stroked([seg], screen, s.pen.stroke)
        == [Line(ToScreen(e.start, c, scale), ToScreen(e.end, c, scale), screen, s.pen.stroke)];
  }

  /** Painting a point list adds one disc per point and leaves colours, width and transform alone. */
  lemma {:induction false} DotsPainted(ps: seq<Point>, c: Point, scale: real, s: Surface)
    requires scale > 0.0 && s.pen.transform == ViewTransform(c, scale)
    ensures var out := Exec(DotCommands(ps, scale), s);
            && out.marks == s.marks + Dots(ps, c, scale, s.pen.fill)
            && out.pen.fill == s.pen.fill && out.pen.stroke == s.pen.stroke
            && out.pen.transform == s.pen.transform && out.pen.lineWidth == s.pen.lineWidth
    decreases |ps|
  {
    if ps != [] {
      var init, p := ps[..|ps| - 1], ps[|ps| - 1];
      DotsPainted(init, c, scale, s);
      ExecAppend(DotCommands(init, scale), [BeginPath, Arc(p, 2.0 / scale), Fill], s);
      DotBlock(p, c, scale, Exec(DotCommands(init, scale), s));
    }
  }

  /** Painting an edge list adds one segment per edge, of on-screen width `screen`, which is `width * scale`. */
  lemma {:induction false} LinesPainted(es: seq<Edge>, width: real, screen: real, c: Point, scale: real, s: Surface)
    requires scale > 0.0 && width > 0.0 && width * scale == screen
    requires s.pen.transform == ViewTransform(c, scale)
    ensures var out := Exec(LineCommands(es, width), s);
            && out.marks == s.marks + Lines(es, c, scale, screen, s.pen.stroke)
            && out.pen.fill == s.pen.fill && out.pen.stroke == s.pen.stroke
            && out.pen.transform == s.pen.transform
    decreases |es|
  {
    if es != [] {
      var init, e := es[..|es| - 1], es[|es| - 1];
      LinesPainted(init, width, screen, c, scale, s);
      ExecAppend(LineCommands(init, width), [BeginPath, MoveTo(e.start), LineTo(e.end), SetLineWidth(width), Stroke], s);
      LineBlock(e, width, screen, c, scale, Exec(LineCommands(init, width), s));
    }
  }

  /** The view commands erase the bitmap and set the zoom about the centre, keeping the colours. */
  lemma ViewPainted(width: int, height: int, scale: real, s: Surface)
    ensures var out := Exec(View(width, height, scale), s);
            && out.marks == []
            && out.pen.transform == ViewTransform(Point(width as real / 2.0, height as real / 2.0), scale)
            && out.pen.fill == s.pen.fill && out.pen.stroke == s.pen.stroke
  {
    var v := View(width, height, scale);
    ExecFive(v[0], v[1], v[2], v[3], v[4], s);
    assert v == [v[0], v[1], v[2], v[3], v[4]];
  }

  /** The fill phase: discs for the points in the current colour, then red ones for the centroids; fill ends black. */
  lemma FillsPainted(data: Data, c: Point, scale: real, s: Surface)
    requires scale > 0.0 && s.pen.transform == ViewTransform(c, scale)
    ensures var out := Exec(Fills(data, scale), s);
            && out.marks == s.marks + Dots(data.points, c, scale, s.pen.fill) + Dots(data.centroids, c, scale, Red)
            && out.pen.fill == Black && out.pen.stroke == s.pen.stroke && out.pen.transform == s.pen.transform
  {
    var a := DotCommands(data.points, scale);
    var b := DotCommands(data.centroids, scale);
    DotsPainted(data.points, c, scale, s);
    ExecSnoc(a, SetFillStyle(Red), s);
    ExecAppend(a + [SetFillStyle(Red)], b, s);
    DotsPainted(data.centroids, c, scale, Exec(a + [SetFillStyle(Red)], s));
    ExecSnoc(a + [SetFillStyle(Red)] + b, SetFillStyle(Black), s);
  }

  /** The stroke phase: width-1 segments for the edges in the current colour, then blue width-0.8 ones; stroke ends black. */
  lemma StrokesPainted(data: Data, c: Point, scale: real, s: Surface)
    requires scale > 0.0 && s.pen.transform == ViewTransform(c, scale)
    ensures var out := Exec(Strokes(data, scale), s);
            && out.marks == s.marks + Lines(data.edges, c, scale, 1.0, s.pen.stroke)
                            + Lines(data.centroidEdges, c, scale, 0.8, Blue)
            && out.pen.fill == s.pen.fill && out.pen.stroke == Black
  {
    var a := LineCommands(data.edges, 1.0 / scale);
    var b := LineCommands(data.centroidEdges, 0.8 / scale);
    assert (1.0 / scale) * scale == 1.0;
    LinesPainted(data.edges, 1.0 / scale, 1.0, c, scale, s);
    var s1 := Exec(a, s);
    ExecSnoc(a, SetStrokeStyle(Blue), s);
    var s2 := Exec(a + [SetStrokeStyle(Blue)], s);
    assert s2 == s1.(pen := s1.pen.(stroke := Blue));
    ExecAppend(a + [SetStrokeStyle(Blue)], b, s);
    assert (0.8 / scale) * scale == 0.8;
    LinesPainted(data.centroidEdges, 0.8 / scale, 0.8, c, scale, s2);
    var s3 := Exec(a + [SetStrokeStyle(Blue)] + b, s);
    assert s3.marks == s1.marks + Lines(data.centroidEdges, c, scale, 0.8, Blue);
    ExecSnoc(a + [SetStrokeStyle(Blue)] + b, SetStrokeStyle(Black), s);
  }

  /**
   * Whatever the surface held before, the scene paints exactly: a disc per
   * point in the current fill colour, a red disc per centroid, a segment of
   * width 1 per edge in the current stroke colour, a blue segment of width
   * 0.8 per centroid edge, all zoomed about the bitmap centre; and it leaves
   * both colours black.
   */
  lemma ScenePainted(width: int, height: int, data: Data, scale: real, s: Surface)
    requires scale > 0.0
    ensures var c := Point(width as real / 2.0, height as real / 2.0);
            var out := Exec(Scene(width, height, data, scale), s);
            && out.marks == Dots(data.points, c, scale, s.pen.fill) + Dots(data.centroids, c, scale, Red)
                            + Lines(data.edges, c, scale, 1.0, s.pen.stroke)
                            + Lines(data.centroidEdges, c, scale, 0.8, Blue)
            && out.pen.fill == Black && out.pen.stroke == Black
  {
    var c := Point(width as real / 2.0, height as real / 2.0);
    var v := View(width, height, scale);
    var f := Fills(data, scale);
    ViewPainted(width, height, scale, s);
    ExecAppend(v, f, s);
    FillsPainted(data, c, scale, Exec(v, s));
    ExecAppend(v + f, Strokes(data, scale), s);
    StrokesPainted(data, c, scale, Exec(v + f, s));
  }

  /**
   * A redraw paints the same thing whatever the canvas showed before: it
   * depends only on `data`, `scale` and the window size. Points and edges
   * come out black, centroids red, centroid edges blue; discs have radius
   * 2 and segments width 1 and 0.8 on screen, at every scale.
   */
  lemma RedrawPainted(win: Window, data: Data, scale: real, s: Surface)
    requires scale > 0.0
    ensures var c := Point(BitmapWidth(win) as real / 2.0, BitmapHeight(win) as real / 2.0);
            var out := Exec(RedrawCommands(true, true, win, data, scale), s);
            && out.marks == Dots(data.points, c, scale, Black) + Dots(data.centroids, c, scale, Red)
                            + Lines(data.edges, c, scale, 1.0, Black)
                            + Lines(data.centroidEdges, c, scale, 0.8, Blue)
            && out.pen.fill == Black && out.pen.stroke == Black
  {
    var resize := [Resize(win.innerWidth as real, 0.8 * win.innerHeight as real)];
    ExecAppend(resize, Scene(BitmapWidth(win), BitmapHeight(win), data, scale), s);
    ScenePainted(BitmapWidth(win), BitmapHeight(win), data, scale, Exec(resize, s));
  }

  /**
   * A point added by a click is painted under the pointer, provided the
   * canvas box measures exactly its bitmap (`0.8 * innerHeight` whole).
   */
  lemma ClickPaintedUnderPointer(e: Pointer, rect: Rect, win: Window, data: Data, scale: real, s: Surface)
    requires scale > 0.0
    requires rect.width == BitmapWidth(win) as real && rect.height == BitmapHeight(win) as real
    ensures var q := Relative(e, rect);
            var added := data.(points := data.points + [ToModel(q, Center(rect), scale)]);
            var out := Exec(RedrawCommands(true, true, win, added, scale), s);
            |out.marks| > |data.points| && out.marks[|data.points|] == Disc(q, 2.0, Black)
  {
    var q := Relative(e, rect);
    var added := data.(points := data.points + [ToModel(q, Center(rect), scale)]);
    RedrawPainted(win, added, scale, s);
    ZoomMappingsInverse(q, Center(rect), scale);
  }

  // ---------------------------------------------------------------------
  // The effect
  // ---------------------------------------------------------------------

  /** One `forEach` over points: begin a path, add an arc of radius `2 / scale`, fill. */
  method PaintDots(ps: seq<Point>, scale: real) returns (cmds: seq<Command>)
    requires scale > 0.0
    ensures cmds == DotCommands(ps, scale)
  {
    cmds := [];
    var i := 0;
    while i < |ps|
      invariant 0 <= i <= |ps|
      invariant cmds == DotCommands(ps[..i], scale)
    {
      assert ps[..i + 1][..i] == ps[..i];
      cmds := cmds + [BeginPath, Arc(ps[i], 2.0 / scale), Fill];
      i := i + 1;
    }
    assert ps[..i] == ps;
  }

  /** One `forEach` over edges: begin a path, move, line, set the width, stroke. */
  method PaintLines(es: seq<Edge>, width: real) returns (cmds: seq<Command>)
    ensures cmds == LineCommands(es, width)
  {
    cmds := [];
    var i := 0;
    while i < |es|
      invariant 0 <= i <= |es|
      invariant cmds == LineCommands(es[..i], width)
    {
      var line := es[i];
      assert es[..i + 1][..i] == es[..i];
      cmds := cmds + [BeginPath, MoveTo(line.start), LineTo(line.end), SetLineWidth(width), Stroke];
      i := i + 1;
    }
    assert es[..i] == es;
  }

  /** canvas_display.js:32-71: the transform, then the four draw loops and the style changes. */
  method Paint(width: int, height: int, data: Data, scale: real) returns (cmds: seq<Command>)
    requires scale > 0.0
    ensures cmds == Scene(width, height, data, scale)
  {
    var centerX := width as real / 2.0;
    var centerY := height as real / 2.0;
    cmds := [ClearRect(0.0, 0.0, width as real, height as real), ResetTransform,
             Translate(centerX, centerY), Scale(scale), Translate(-centerX, -centerY)];
    var points := PaintDots(data.points, scale);
    var centroids := PaintDots(data.centroids, scale);
    var edges := PaintLines(data.edges, 1.0 / scale);
    var centroidEdges := PaintLines(data.centroidEdges, 0.8 / scale);
    cmds := cmds + (points + [SetFillStyle(Red)] + centroids + [SetFillStyle(Black)])
            + (edges + [SetStrokeStyle(Blue)] + centroidEdges + [SetStrokeStyle(Black)]);
  }

  /**
   * canvas_display.js:16-76: give up without a canvas or a context;
   * otherwise size the canvas to the window and paint.
   */
  method Redraw(hasCanvas: bool, hasContext: bool, win: Window, data: Data, scale: real)
    returns (cmds: seq<Command>)
    requires scale > 0.0
    ensures cmds == RedrawCommands(hasCanvas, hasContext, win, data, scale)
    ensures !hasCanvas || !hasContext ==> cmds == []
  {
    if !hasCanvas {
      return [];
    }
    if !hasContext {
      return [];
    }
    var width := win.innerWidth as real;
    var height := win.innerHeight as real * 0.8;
    cmds := [Resize(width, height)];
    var painted := Paint(BitmapWidth(win), BitmapHeight(win), data, scale);
    cmds := cmds + painted;
  }
}
