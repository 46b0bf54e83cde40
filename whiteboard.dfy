/** The whiteboard: a canvas drawn on with pointer gestures, a history of
    full-canvas snapshots for undo, and four tools. The canvas is modelled as
    the list of drawing calls it has received since it was last filled white
    (a display list standing for its pixels); drawing appends to that list,
    filling the canvas empties it, and painting a snapshot back replaces it. */
module Whiteboard {

  datatype Tool = Pen | Rectangle | Circle | Scale

  /** A point in canvas coordinates (pointer position minus the canvas's
      offset on screen). */
  datatype Point = Point(x: real, y: real)

  /** What one drawing call leaves on the canvas. */
  datatype Mark =
    | Stroke(path: seq<Point>)                    // stroke() of the pen's current path
    | RectOutline(corner: Point, w: real, h: real) // rect(x, y, w, h) then stroke()
    | CircleOutline(center: Point, radiusSq: real) // arc(x, y, r, 0, 2π) then stroke(), r² kept
    | Segment(from: Point, to: Point)            // moveTo, lineTo, stroke()
    | Dot(center: Point, radius: real)           // arc(...) then fill()
    | Picture(image: Frame)                      // putImageData(image, 0, 0)

  /** The canvas pixels: its size and what was drawn since it was filled white. */
  datatype Frame = Frame(width: nat, height: nat, marks: seq<Mark>)

  /** A canvas of this size filled with the white background. */
  function Blank(width: nat, height: nat): Frame {
    Frame(width, height, [])
  }

  function Paint(f: Frame, m: Mark): Frame {
    Frame(f.width, f.height, f.marks + [m])
  }

  predicate SameSize(a: Frame, b: Frame) {
    a.width == b.width && a.height == b.height
  }

  /** `putImageData(snapshot, 0, 0)`: the snapshot's pixels replace the
      canvas's where they overlap. A snapshot of the canvas's own size (or
      larger in both directions) leaves nothing of what was there before; a
      smaller one leaves the uncovered part as it was. */
  function PutImage(f: Frame, snapshot: Frame): (r: Frame)
    ensures SameSize(r, f)
    ensures SameSize(snapshot, f) ==> r == snapshot
    ensures snapshot.width >= f.width && snapshot.height >= f.height ==> Painted(snapshot, r)
    ensures !(snapshot.width >= f.width && snapshot.height >= f.height) ==> r == Paint(f, Picture(snapshot))
  {
    if SameSize(snapshot, f) then snapshot
    else if snapshot.width >= f.width && snapshot.height >= f.height then Frame(f.width, f.height, [Picture(snapshot)])
    else Paint(f, Picture(snapshot))
  }

  /** The canvas shows nothing but `snapshot`: it is the snapshot itself, or
      the snapshot painted on an otherwise empty canvas. */
  predicate Painted(snapshot: Frame, f: Frame) {
    f == snapshot || f.marks == [Picture(snapshot)]
  }

  function SqDist(a: Point, b: Point): real {
    (b.x - a.x) * (b.x - a.x) + (b.y - a.y) * (b.y - a.y)
  }

  /** Number of segments the scale is divided into; it carries one more dot. */
  const ScaleSegments: nat := 10
  const DotRadius: real := 2.0

  /** Centre of the `i`-th scale dot: `i` tenths of the way from the anchor to
      the pointer. The source computes it as anchor + cos(angle)·(i·length/10)
      (and sin for y), which over the reals is exactly this point. */
  function TickAt(anchor: Point, p: Point, i: nat): Point {
    var t := (i as real) / (ScaleSegments as real);
    Point(anchor.x + (p.x - anchor.x) * t, anchor.y + (p.y - anchor.y) * t)
  }

  /** The dots the scale loop fills, for i = 0 .. 10: eleven dots of radius
      `DotRadius`, the first on the anchor and the last on the pointer, one
      tenth of the segment apart, the i-th at distance i/`ScaleSegments` of the length
      from the anchor (stated on squares). */
  function Ticks(anchor: Point, p: Point): (r: seq<Mark>)
    ensures |r| == ScaleSegments + 1
    ensures forall i :: 0 <= i < |r| ==> r[i].Dot? && r[i].radius == DotRadius
    ensures r[0].center == anchor && r[ScaleSegments].center == p
    ensures forall i :: 0 <= i < ScaleSegments ==>
              r[i + 1].center.x - r[i].center.x == (p.x - anchor.x) / (ScaleSegments as real)
              && r[i + 1].center.y - r[i].center.y == (p.y - anchor.y) / (ScaleSegments as real)
    ensures forall i :: 0 <= i < |r| ==>
              SqDist(anchor, r[i].center) * ((ScaleSegments * ScaleSegments) as real) == (i * i) as real * SqDist(anchor, p)
  {
    TicksEvenlySpaced(anchor, p);
    seq(ScaleSegments + 1, i requires 0 <= i <= ScaleSegments => Dot(TickAt(anchor, p, i), DotRadius))
  }

  /** The `i`-th dot lies on the segment at distance i/`ScaleSegments` of the length
      from the anchor (stated on squares: no square roots here). */
  lemma TickDistance(anchor: Point, p: Point, i: nat)
    ensures SqDist(anchor, TickAt(anchor, p, i)) * ((ScaleSegments * ScaleSegments) as real) == (i * i) as real * SqDist(anchor, p)
  {
    var t := (i as real) / (ScaleSegments as real);
    var dx, dy := p.x - anchor.x, p.y - anchor.y;
    var q := TickAt(anchor, p, i);
    assert q.x - anchor.x == dx * t && q.y - anchor.y == dy * t;
    assert (dx * t) * (dx * t) + (dy * t) * (dy * t) == t * t * (dx * dx + dy * dy);
    assert t * t * ((ScaleSegments * ScaleSegments) as real) == (i * i) as real;
  }

  /** Consecutive dots are one `ScaleSegments`-th of the segment apart. */
  lemma TickStep(anchor: Point, p: Point, i: nat)
    ensures TickAt(anchor, p, i + 1).x - TickAt(anchor, p, i).x == (p.x - anchor.x) / (ScaleSegments as real)
    ensures TickAt(anchor, p, i + 1).y - TickAt(anchor, p, i).y == (p.y - anchor.y) / (ScaleSegments as real)
  {
    var dx, dy := p.x - anchor.x, p.y - anchor.y;
    var n := ScaleSegments as real;
    var t := (i as real) / n;
    assert ((i + 1) as real) / n == t + 1.0 / n;
    assert dx * (t + 1.0 / n) == dx * t + dx / n;
    assert dy * (t + 1.0 / n) == dy * t + dy / n;
  }

  /** The dots run from the anchor to the pointer in equal steps, each at
      its fraction of the segment's length from the anchor. */
  lemma TicksEvenlySpaced(anchor: Point, p: Point)
    ensures TickAt(anchor, p, 0) == anchor
    ensures TickAt(anchor, p, ScaleSegments) == p
    ensures forall i: nat :: i < ScaleSegments ==>
              TickAt(anchor, p, i + 1).x - TickAt(anchor, p, i).x == (p.x - anchor.x) / (ScaleSegments as real)
              && TickAt(anchor, p, i + 1).y - TickAt(anchor, p, i).y == (p.y - anchor.y) / (ScaleSegments as real)
    ensures forall i: nat :: i <= ScaleSegments ==>
              SqDist(anchor, TickAt(anchor, p, i)) * ((ScaleSegments * ScaleSegments) as real) == (i * i) as real * SqDist(anchor, p)
  {
    forall i: nat | i < ScaleSegments
      ensures TickAt(anchor, p, i + 1).x - TickAt(anchor, p, i).x == (p.x - anchor.x) / (ScaleSegments as real)
      ensures TickAt(anchor, p, i + 1).y - TickAt(anchor, p, i).y == (p.y - anchor.y) / (ScaleSegments as real)
    {
      TickStep(anchor, p, i);
    }
    forall i: nat | i <= ScaleSegments
      ensures SqDist(anchor, TickAt(anchor, p, i)) * ((ScaleSegments * ScaleSegments) as real) == (i * i) as real * SqDist(anchor, p)
    {
      TickDistance(anchor, p, i);
    }
  }

  /** What a shape tool draws for a gesture from `anchor` to `p` on `base`:
      a rectangle spanning the two points, a circle centred on the anchor
      through `p`, or a scale line with its eleven dots. */
  function ShapePreview(base: Frame, tool: Tool, anchor: Point, p: Point): (r: Frame)
    requires tool != Pen
    ensures SameSize(r, base)
    ensures |r.marks| == |base.marks| + (if tool == Scale then 2 + ScaleSegments else 1)
    ensures r.marks[..|base.marks|] == base.marks
    ensures tool == Rectangle ==> r.marks[|base.marks|..] == [RectOutline(anchor, p.x - anchor.x, p.y - anchor.y)]
    ensures tool == Circle ==> r.marks[|base.marks|..] == [CircleOutline(anchor, SqDist(anchor, p))]
    ensures tool == Scale ==> r.marks[|base.marks|..] == [Segment(anchor, p)] + Ticks(anchor, p)
  {
    match tool
    case Rectangle => Paint(base, RectOutline(anchor, p.x - anchor.x, p.y - anchor.y))
    case Circle => Paint(base, CircleOutline(anchor, SqDist(anchor, p)))
    case Scale => Frame(base.width, base.height, base.marks + [Segment(anchor, p)] + Ticks(anchor, p))
  }

  /** The canvas after a shape-tool move: put the last snapshot back, then
      draw the preview. Over a snapshot of the canvas's size the preview is
      drawn on the snapshot itself; over a larger one, on a canvas showing
      only the snapshot; a smaller one leaves the old canvas underneath. */
  function ShapeMove(f: Frame, last: Frame, tool: Tool, anchor: Point, p: Point): (r: Frame)
    requires tool != Pen
    ensures SameSize(r, f)
    ensures SameSize(last, f) ==> r == ShapePreview(last, tool, anchor, p)
    ensures !SameSize(last, f) && last.width >= f.width && last.height >= f.height ==>
              r == ShapePreview(Frame(f.width, f.height, [Picture(last)]), tool, anchor, p)
    ensures last.width < f.width || last.height < f.height ==>
              r == ShapePreview(Paint(f, Picture(last)), tool, anchor, p)
  {
    ShapePreview(PutImage(f, last), tool, anchor, p)
  }

  /** The canvas after a run of shape-tool moves in one gesture. */
  function ShapeMoves(f: Frame, last: Frame, tool: Tool, anchor: Point, ps: seq<Point>): Frame
    requires tool != Pen
    decreases |ps|
  {
    if ps == [] then f
    else ShapeMoves(ShapeMove(f, last, tool, anchor, ps[0]), last, tool, anchor, ps[1..])
  }

  /** Previews do not pile up: when the last snapshot covers the canvas, the
      canvas after any run of moves shows only the preview of the final one,
      drawn over the snapshot. */
  lemma {:induction false} ShapeMovesShowLastOnly(f: Frame, last: Frame, tool: Tool, anchor: Point, ps: seq<Point>)
    requires tool != Pen && ps != []
    requires last.width >= f.width && last.height >= f.height
    ensures ShapeMoves(f, last, tool, anchor, ps) == ShapeMove(f, last, tool, anchor, ps[|ps| - 1])
    decreases |ps|
  {
    var g := ShapeMove(f, last, tool, anchor, ps[0]);
    if |ps| > 1 {
      ShapeMovesShowLastOnly(g, last, tool, anchor, ps[1..]);
      assert PutImage(g, last) == PutImage(f, last);
    }
  }

  /** When the last snapshot is smaller than the canvas (a window resize
      enlarged it and undo went back past the resize), the previous preview
      stays visible under the next one. */
  lemma ShapeMovesAccumulateOnSmallSnapshot(f: Frame, last: Frame, tool: Tool, anchor: Point, p1: Point, p2: Point)
    requires tool != Pen
    requires last.width < f.width
    ensures ShapeMove(f, last, tool, anchor, p1).marks
            <= ShapeMoves(f, last, tool, anchor, [p1, p2]).marks
  {
    var g := ShapeMove(f, last, tool, anchor, p1);
    assert [p1, p2][1..] == [p2];
    assert ShapeMoves(g, last, tool, anchor, [p2]) == ShapeMove(g, last, tool, anchor, p2);
  }

  class Board {
    /** The canvas element's `width` and `height` attributes, which the
        handlers read; `frame` is the pixel content they size. The two are
        kept apart as in the page, and `Valid` says they agree. */
    var width: nat
    var height: nat
    var frame: Frame
    var history: seq<Frame>
    var isDrawing: bool
    var anchor: Point
    var tool: Tool
    var path: seq<Point>

    /** There is always a snapshot to go back to, and the canvas has the size
        it was last given. */
    ghost predicate Valid()
      reads this
    {
      |history| >= 1 && frame.width == width && frame.height == height
    }

    /** The most recent snapshot. */
    function Last(): Frame
      reads this
      requires Valid()
    {
      history[|history| - 1]
    }

    /** Mount: the initialising effect sizes the canvas, fills it white and
        saves that as the first snapshot; the pen is selected and the anchor
        is the origin. */
    constructor (w: nat, h: nat)
      ensures Valid()
      ensures width == w && height == h && frame == Blank(w, h) && history == [Blank(w, h)]
      ensures !isDrawing && anchor == Point(0.0, 0.0) && tool == Pen && path == []
    {
      width, height := w, h;
      frame := Blank(w, h);
      history := [Blank(w, h)];
      isDrawing := false;
      anchor := Point(0.0, 0.0);
      tool := Pen;
      path := [];
    }

    /** `saveToHistory`: append a copy of the canvas. */
    method SaveToHistory()
      requires Valid()
      modifies this`history
      ensures Valid()
      ensures history == old(history) + [frame]
    {
      history := history + [frame];
    }

    /** The window's resize listener: the canvas gets its new size (which
        also drops the current path), is filled white, and the blank canvas
        is appended to the history. Earlier snapshots stay, and a gesture in
        progress stays in progress. */
    method Resize(w: nat, h: nat)
      requires Valid()
      modifies this
      ensures Valid()
      ensures width == w && height == h && frame == Blank(w, h)
      ensures history == old(history) + [Blank(w, h)]
      ensures isDrawing == old(isDrawing) && anchor == old(anchor) && tool == old(tool) && path == []
    {
      width, height := w, h;
      path := [];
      frame := Blank(w, h);
      SaveToHistory();
    }

    /** Picking a tool from the toolbar. */
    method SetTool(t: Tool)
      requires Valid()
      modifies this`tool
      ensures Valid() && tool == t
    {
      tool := t;
    }

    /** `startDrawing`: start a gesture at `p`. Nothing is drawn; the pen
        begins its path at `p`. A pointer-down during a gesture just moves
        the anchor. */
    method StartDrawing(p: Point)
      requires Valid()
      modifies this
      ensures Valid()
      ensures isDrawing && anchor == p
      ensures path == if tool == Pen then [p] else old(path)
      ensures frame == old(frame) && history == old(history) && tool == old(tool)
      ensures width == old(width) && height == old(height)
    {
      isDrawing := true;
      anchor := p;
      if tool == Pen {
        path := [p];
      }
    }

    /** The scale's dot loop: one filled dot per step, i = 0 .. 10. */
    method DrawTicks(p: Point)
      requires Valid()
      modifies this`frame
      ensures Valid()
      ensures frame == Frame(old(frame).width, old(frame).height, old(frame).marks + Ticks(anchor, p))
    {
      ghost var before := frame;
      for i := 0 to ScaleSegments + 1
        invariant frame == Frame(before.width, before.height, before.marks + Ticks(anchor, p)[..i])
      {
        frame := Paint(frame, Dot(TickAt(anchor, p, i), DotRadius));
        assert Ticks(anchor, p)[..i + 1] == Ticks(anchor, p)[..i] + [Ticks(anchor, p)[i]];
      }
      assert Ticks(anchor, p)[..ScaleSegments + 1] == Ticks(anchor, p);
    }

    /** `draw`: a pointer move. Outside a gesture nothing happens. The pen
        extends its path to `p` and strokes it onto the canvas as it is; a
        shape tool first puts the last snapshot back, then draws its preview
        from the anchor to `p`. The history is never touched. */
    method Draw(p: Point)
      requires Valid()
      modifies this
      ensures Valid()
      ensures history == old(history) && isDrawing == old(isDrawing) && anchor == old(anchor)
      ensures tool == old(tool) && width == old(width) && height == old(height)
      ensures !old(isDrawing) ==> frame == old(frame) && path == old(path)
      ensures old(isDrawing) && tool == Pen ==>
                path == old(path) + [p] && frame == Paint(old(frame), Stroke(path))
      ensures old(isDrawing) && tool != Pen ==>
                path == [] && frame == ShapeMove(old(frame), Last(), tool, anchor, p)
      ensures old(isDrawing) && tool != Pen && SameSize(Last(), old(frame)) ==>
                frame == ShapePreview(Last(), tool, anchor, p)
    {
      if !isDrawing {
        return;
      }
      if tool == Pen {
        path := path + [p];
        frame := Paint(frame, Stroke(path));
      } else {
        frame := PutImage(frame, history[|history| - 1]);
        path := [];
        match tool
        case Rectangle =>
          frame := Paint(frame, RectOutline(anchor, p.x - anchor.x, p.y - anchor.y));
        case Circle =>
          frame := Paint(frame, CircleOutline(anchor, SqDist(anchor, p)));
        case Scale =>
          frame := Paint(frame, Segment(anchor, p));
          DrawTicks(p);
      }
    }

    /** `endDrawing` (pointer up or leaving the canvas): end the gesture and
        save the canvas as it is; outside a gesture nothing happens. */
    method EndDrawing()
      requires Valid()
      modifies this
      ensures Valid()
      ensures old(isDrawing) ==> !isDrawing && history == old(history) + [old(frame)]
      ensures !old(isDrawing) ==> isDrawing == old(isDrawing) && history == old(history)
      ensures frame == old(frame) && anchor == old(anchor) && tool == old(tool) && path == old(path)
      ensures width == old(width) && height == old(height)
    {
      if !isDrawing {
        return;
      }
      isDrawing := false;
      SaveToHistory();
    }

    /** `handleUndo`: with one snapshot or none to spare nothing happens;
        otherwise drop the last snapshot and paint the new last one back. */
    method Undo()
      requires Valid()
      modifies this
      ensures Valid()
      ensures |old(history)| <= 1 ==> history == old(history) && frame == old(frame)
      ensures |old(history)| > 1 ==>
                history == old(history)[..|old(history)| - 1] && frame == PutImage(old(frame), Last())
      ensures |old(history)| > 1 && SameSize(Last(), old(frame)) ==> frame == Last()
      ensures isDrawing == old(isDrawing) && anchor == old(anchor) && tool == old(tool) && path == old(path)
      ensures width == old(width) && height == old(height)
    {
      if |history| <= 1 {
        return;
      }
      var newHistory := history[..|history| - 1];
      var previous := newHistory[|newHistory| - 1];
      frame := PutImage(frame, previous);
      history := newHistory;
    }

    /** `handleClearCanvas`: fill the canvas white and save it. */
    method ClearCanvas()
      requires Valid()
      modifies this
      ensures Valid()
      ensures frame == Blank(width, height) && history == old(history) + [frame]
      ensures isDrawing == old(isDrawing) && anchor == old(anchor) && tool == old(tool) && path == old(path)
      ensures width == old(width) && height == old(height)
    {
      frame := Blank(width, height);
      SaveToHistory();
    }
  }
}
