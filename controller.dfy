/**
 * The click handlers of controller.py as transitions of the session value:
 * vertex snapping, the segment registry without duplicate pairs, one-time
 * calibration, measuring, shape closure, line selection and the pitch query.
 */
module Controller {
  import opened Wrappers
  import opened Geometry
  import opened Segments
  import opened Shapes
  import opened Measurement
  import opened RayCasting

  // ---------------------------------------------------------------------------
  // Vertex snapping

  /**
   * The inner snap loop over one shape's vertices: every vertex close to the
   * running point replaces it, so a later vertex can move it again.
   */
  function SnapToVertices(p: Point, vs: seq<Point>): (r: Point)
    ensures r == p || r in vs
    decreases |vs|
  {
    if vs == [] then p
    else SnapToVertices(if IsCloseToPoint(p, vs[0]) then vs[0] else p, vs[1..])
  }

  /** Some closed shape has `q` among its vertices. */
  predicate IsShapeVertex(shapes: seq<Shape>, q: Point)
  {
    exists i :: 0 <= i < |shapes| && q in shapes[i].vertices
  }

  /** The outer snap loop over the shapes, in registry order. */
  function SnapToShapes(p: Point, shapes: seq<Shape>): (r: Point)
    ensures r == p || IsShapeVertex(shapes, r)
    decreases |shapes|
  {
    if shapes == [] then p
    else
      var q := SnapToVertices(p, shapes[0].vertices);
      var r := SnapToShapes(q, shapes[1..]);
      assert r != p ==> r == q || IsShapeVertex(shapes[1..], r);
      assert r != p && r == q ==> r in shapes[0].vertices;
      assert forall i :: 0 <= i < |shapes| - 1 ==> shapes[1..][i] == shapes[i + 1];
      r
  }

  /**
   * The point a create-shape click appends: the shape snap, then the first
   * point of the buffer when the snapped point is close to it. It is the
   * click itself, a vertex of a closed shape, or the buffer's first point.
   */
  function SnapClick(click: Point, shapes: seq<Shape>, points: seq<Point>): (q: Point)
    ensures q == click || IsShapeVertex(shapes, q) || (points != [] && q == points[0])
  {
    var p := SnapToShapes(click, shapes);
    if points != [] && IsCloseToPoint(p, points[0]) then points[0] else p
  }

  /** A click far from every vertex of every shape is not moved by the shape snap. */
  lemma {:induction false} SnapFarFromShapes(p: Point, shapes: seq<Shape>)
    requires forall i, v :: 0 <= i < |shapes| && v in shapes[i].vertices ==> !IsCloseToPoint(p, v)
    ensures SnapToShapes(p, shapes) == p
    decreases |shapes|
  {
    if shapes != [] {
      SnapFarFromVertices(p, shapes[0].vertices);
      assert forall i :: 0 <= i < |shapes| - 1 ==> shapes[1..][i] == shapes[i + 1];
      SnapFarFromShapes(p, shapes[1..]);
    }
  }

  lemma {:induction false} SnapFarFromVertices(p: Point, vs: seq<Point>)
    requires forall v :: v in vs ==> !IsCloseToPoint(p, v)
    ensures SnapToVertices(p, vs) == p
    decreases |vs|
  {
    if vs != [] {
      assert forall v :: v in vs[1..] ==> v in vs;
      SnapFarFromVertices(p, vs[1..]);
    }
  }

  /** A click within 5 px of some vertex of one shape ends on a vertex of that shape. */
  lemma {:induction false} SnapNearVertex(p: Point, vs: seq<Point>)
    requires exists v :: v in vs && IsCloseToPoint(p, v)
    ensures SnapToVertices(p, vs) in vs
    decreases |vs|
  {
    var v :| v in vs && IsCloseToPoint(p, v);
    if !IsCloseToPoint(p, vs[0]) {
      assert v in vs[1..];
      SnapNearVertex(p, vs[1..]);
    }
  }

  /** A click within 5 px of some vertex of a closed shape is moved onto a vertex of a closed shape. */
  lemma {:induction false} SnapNearShapeVertex(p: Point, shapes: seq<Shape>)
    requires exists i, v :: 0 <= i < |shapes| && v in shapes[i].vertices && IsCloseToPoint(p, v)
    ensures IsShapeVertex(shapes, SnapToShapes(p, shapes))
    decreases |shapes|
  {
    var i, v :| 0 <= i < |shapes| && v in shapes[i].vertices && IsCloseToPoint(p, v);
    var q := SnapToVertices(p, shapes[0].vertices);
    var r := SnapToShapes(q, shapes[1..]);
    if i == 0 {
      SnapNearVertex(p, shapes[0].vertices);
    } else if q == p {
      assert shapes[1..][i - 1] == shapes[i];
      SnapNearShapeVertex(p, shapes[1..]);
    }
    if IsShapeVertex(shapes[1..], r) {
      var j :| 0 <= j < |shapes| - 1 && r in shapes[1..][j].vertices;
      assert r in shapes[j + 1].vertices;
    }
  }

  /**
   * Each vertex is compared with the point as already moved, so the snap can
   * chain: a click at (0, 0) next to the vertices (4, 0) and (8, 0) ends at
   * (8, 0), which is not within 5 px of the click.
   */
  lemma SnapChains(p: Point, a: Point, b: Point)
    requires p == Point(0, 0) && a == Point(4, 0) && b == Point(8, 0)
    ensures SnapToShapes(p, [NewShape([a, b])]) == b
    ensures IsCloseToPoint(p, a) && !IsCloseToPoint(p, b)
  {
    assert SnapToVertices(p, [a, b]) == SnapToVertices(a, [b]);
    assert [a, b][1..] == [b];
    assert SnapToVertices(a, [b]) == SnapToVertices(b, []);
    assert [NewShape([a, b])][1..] == [];
  }

  // ---------------------------------------------------------------------------
  // The segment registry

  /**
   * The for/else registration of the segment from `a` to `b`: kept as it is
   * when some segment already joins the two points in either order, else
   * extended by a new segment with the default label and no distance.
   */
  function RegisterSegment(lines: seq<LineSegment>, a: Point, b: Point): (r: seq<LineSegment>)
    ensures HasPair(r, a, b)
    ensures |lines| <= |r| <= |lines| + 1 && r[..|lines|] == lines
    ensures |r| == |lines| + 1 <==> !HasPair(lines, a, b)
    ensures |r| == |lines| + 1 ==> r[|lines|] == NewLineSegment(a, b)
    ensures UniquePairs(Ends(lines)) ==> UniquePairs(Ends(r))
  {
    if HasPair(lines, a, b) then lines
    else
      var r := lines + [NewLineSegment(a, b)];
      assert SamePair((r[|lines|].start, r[|lines|].end), (a, b));
      r
  }

  /** Registering a pair and then the same pair the other way round adds at most one segment. */
  lemma RegisterSegmentReversed(lines: seq<LineSegment>, a: Point, b: Point)
    ensures RegisterSegment(RegisterSegment(lines, a, b), b, a) == RegisterSegment(lines, a, b)
  {
    var r := RegisterSegment(lines, a, b);
    var k :| 0 <= k < |r| && SamePair((r[k].start, r[k].end), (a, b));
    assert SamePair((r[k].start, r[k].end), (b, a));
  }

  /** `after` keeps every segment of `before` at its index with its endpoints, and may have more. */
  predicate EndsExtend(before: seq<LineSegment>, after: seq<LineSegment>)
  {
    |before| <= |after|
    && forall k :: 0 <= k < |before| ==> after[k].start == before[k].start && after[k].end == before[k].end
  }

  /** A pair registered before is still registered after. */
  lemma HasPairExtend(before: seq<LineSegment>, after: seq<LineSegment>, a: Point, b: Point)
    requires EndsExtend(before, after) && HasPair(before, a, b)
    ensures HasPair(after, a, b)
  {
    var k :| 0 <= k < |before| && SamePair((before[k].start, before[k].end), (a, b));
    assert SamePair((after[k].start, after[k].end), (a, b));
  }

  /** Every edge between consecutive vertices of `vs` is a registered segment. */
  predicate EdgesRegistered(lines: seq<LineSegment>, vs: seq<Point>)
  {
    forall i :: 0 <= i < |vs| - 1 ==> HasPair(lines, vs[i], vs[i + 1])
  }

  lemma EdgesRegisteredExtend(before: seq<LineSegment>, after: seq<LineSegment>, vs: seq<Point>)
    requires EndsExtend(before, after) && EdgesRegistered(before, vs)
    ensures EdgesRegistered(after, vs)
  {
    forall i | 0 <= i < |vs| - 1
      ensures HasPair(after, vs[i], vs[i + 1])
    {
      HasPairExtend(before, after, vs[i], vs[i + 1]);
    }
  }

  /** The same registry with new distances or labels has the same endpoint pairs. */
  lemma EndsExtendSame(before: seq<LineSegment>, after: seq<LineSegment>)
    requires EndsExtend(before, after) && |after| == |before|
    ensures Ends(after) == Ends(before)
  {
  }

  // ---------------------------------------------------------------------------
  // The create-shape click, stage by stage

  /** Snap the click, append it to the buffer and register the segment it ends. */
  function AppendPoint(s: Session, click: Point): (t: Session)
    ensures t.points == s.points + [SnapClick(click, s.shapes, s.points)]
    ensures |t.points| > 1 ==> t.lines != []
    ensures t == s.(points := t.points, lines := t.lines)
  {
    var q := SnapClick(click, s.shapes, s.points);
    var points := s.points + [q];
    if |points| > 1 then s.(points := points, lines := RegisterSegment(s.lines, points[|points| - 2], q))
    else s.(points := points)
  }

  /**
   * On the buffer's second point, with no scale yet, calibrate from the last
   * segment of the registry with the length the prompt returns.
   */
  function CalibrateOnSecondPoint(s: Session, referenceLength: Option<real>, sqrt: real -> real): (r: (Session, Outcome))
    requires |s.points| > 1 ==> s.lines != []
    ensures r.0 == s.(scale := r.0.scale) && r.1 == Completed
    ensures |s.points| == 2 && s.scale.None? && Truthy(referenceLength) ==>
              r.0.scale == Some(PixelLength(s.lines[|s.lines| - 1].start, s.lines[|s.lines| - 1].end, sqrt) / referenceLength.value)
    ensures !(|s.points| == 2 && s.scale.None? && Truthy(referenceLength)) ==> r.0 == s
  {
    if |s.points| == 2 && s.scale.None? then
      match Calibrate(s.scale, s.lines, s.lines[|s.lines| - 1], referenceLength, sqrt)
      case Ok(scale) => (s.(scale := scale), Completed)
      case Err(f) => (s, Raised(f))
    else (s, Completed)
  }

  /** Give the last segment of the registry its distance, once the buffer holds a segment and the scale is truthy. */
  function MeasureLast(s: Session, sqrt: real -> real): (t: Session)
    requires |s.points| > 1 ==> s.lines != []
    ensures t == s.(lines := t.lines) && |t.lines| == |s.lines|
    ensures |s.points| >= 2 && Truthy(s.scale) ==>
              var k := |s.lines| - 1;
              t.lines == s.lines[k := s.lines[k].(distance := Some(CalculateDistance(s.lines[k], s.scale.value, sqrt)))]
    ensures !(|s.points| >= 2 && Truthy(s.scale)) ==> t == s
  {
    if |s.points| >= 2 && Truthy(s.scale) then
      var k := |s.lines| - 1;
      s.(lines := s.lines[k := s.lines[k].(distance := Some(CalculateDistance(s.lines[k], s.scale.value, sqrt)))])
    else s
  }

  /**
   * Close the shape when the buffer has three points and the last is close
   * to the first: the buffer becomes a shape and is emptied, then the shape's
   * area is computed, which raises when the scale is None or zero.
   */
  function CloseShape(s: Session, sqrt: real -> real): (r: (Session, Outcome))
    ensures !(|s.points| >= 3 && IsCloseToPoint(s.points[0], s.points[|s.points| - 1])) ==> r == (s, Completed)
    ensures |s.points| >= 3 && IsCloseToPoint(s.points[0], s.points[|s.points| - 1]) ==>
              && r.0 == s.(points := [], shapes := r.0.shapes)
              && |r.0.shapes| == |s.shapes| + 1 && r.0.shapes[..|s.shapes|] == s.shapes
              && r.0.shapes[|s.shapes|] == NewShape(s.points).(area := r.0.shapes[|s.shapes|].area)
              && var a := AreaIncludingPitch(NewShape(s.points), s.scale, sqrt);
                 && (a.Ok? ==> r.1 == Completed && r.0.shapes[|s.shapes|].area == Some(a.value))
                 && (a.Err? ==> r.1 == Raised(a.fault) && r.0.shapes[|s.shapes|].area == None)
  {
    if |s.points| >= 3 && IsCloseToPoint(s.points[0], s.points[|s.points| - 1]) then
      var shape := NewShape(s.points);
      match AreaIncludingPitch(shape, s.scale, sqrt)
      case Err(f) => (s.(points := [], shapes := s.shapes + [shape]), Raised(f))
      case Ok(area) => (s.(points := [], shapes := s.shapes + [shape.(area := Some(area))]), Completed)
    else (s, Completed)
  }

  /** controller.py on_click in create-shape mode. */
  function CreateShapeStep(s: Session, click: Point, referenceLength: Option<real>, sqrt: real -> real): (r: (Session, Outcome))
    ensures r.0.mode == s.mode && r.0.selectedLine == s.selectedLine && r.0.selectedLabel == s.selectedLabel
  {
    var s1 := AppendPoint(s, click);
    var (s2, o) := CalibrateOnSecondPoint(s1, referenceLength, sqrt);
    if o.Raised? then (s2, o)
    else CloseShape(MeasureLast(s2, sqrt), sqrt)
  }

  /**
   * controller.py on_click in edit-line mode: the first segment the click
   * hits becomes the selection and takes the selected label; a miss clears
   * the selection; a zero-length segment met first divides by zero.
   */
  function EditLineStep(s: Session, click: Point): (r: (Session, Outcome))
    ensures r.0.(selectedLine := s.selectedLine, lines := s.lines) == s
    ensures |r.0.lines| == |s.lines| && Ends(r.0.lines) == Ends(s.lines) && Distances(r.0.lines) == Distances(s.lines)
    ensures r.1.Raised? ==> r == (s, Raised(DivisionByZero))
  {
    match FirstHit(click, Ends(s.lines), 0)
    case Found(k) => (s.(selectedLine := Some(k), lines := s.lines[k := s.lines[k].(lineLabel := s.selectedLabel)]), Completed)
    case Missed => (s.(selectedLine := None), Completed)
    case ZeroLength(_) => (s, Raised(DivisionByZero))
  }

  /** controller.py on_click: dispatch on the mode. */
  function ClickStep(s: Session, click: Point, referenceLength: Option<real>, sqrt: real -> real): (r: (Session, Outcome))
    ensures r.0.mode == s.mode && r.0.selectedLabel == s.selectedLabel
  {
    if s.mode == CreateShape then CreateShapeStep(s, click, referenceLength, sqrt)
    else EditLineStep(s, click)
  }

  // ---------------------------------------------------------------------------
  // The session invariant

  /** Every point after the first in the buffer is the first point itself or not close to it. */
  predicate BufferSnapped(points: seq<Point>)
  {
    forall i :: 0 < i < |points| ==> points[i] == points[0] || !IsCloseToPoint(points[0], points[i])
  }

  /** A stored outline: at least three vertices, the last repeating the first. */
  predicate ClosedOutline(vs: seq<Point>)
  {
    |vs| >= 3 && vs[|vs| - 1] == vs[0]
  }

  /**
   * What clicks keep true of a session: no two segments join the same pair
   * of points, the selection names a segment, every edge of the buffer and of
   * every shape is a registered segment, the buffer is snapped to its first
   * point, and every shape is a closed outline.
   */
  predicate Consistent(s: Session)
  {
    && UniquePairs(Ends(s.lines))
    && (s.selectedLine.Some? ==> s.selectedLine.value < |s.lines|)
    && EdgesRegistered(s.lines, s.points)
    && BufferSnapped(s.points)
    && (forall k :: 0 <= k < |s.shapes| ==> ClosedOutline(s.shapes[k].vertices))
    && (forall k :: 0 <= k < |s.shapes| ==> EdgesRegistered(s.lines, s.shapes[k].vertices))
  }

  lemma InitialConsistent()
    ensures Consistent(InitialSession())
  {
  }

  /** The snap, append and register stage keeps the invariant. */
  lemma AppendPointConsistent(s: Session, click: Point)
    requires Consistent(s)
    ensures Consistent(AppendPoint(s, click))
    ensures EndsExtend(s.lines, AppendPoint(s, click).lines)
  {
    var t := AppendPoint(s, click);
    var q := SnapClick(click, s.shapes, s.points);
    assert t.points == s.points + [q];
    assert EndsExtend(s.lines, t.lines);
    EdgesRegisteredExtend(s.lines, t.lines, s.points);
    forall k | 0 <= k < |s.shapes|
      ensures EdgesRegistered(t.lines, s.shapes[k].vertices)
    {
      EdgesRegisteredExtend(s.lines, t.lines, s.shapes[k].vertices);
    }
    if s.points != [] {
      var p := SnapToShapes(click, s.shapes);
      if !IsCloseToPoint(p, s.points[0]) {
        IsCloseToPointSymmetric(p, s.points[0]);
      }
    }
  }

  /** Calibration and measuring keep the invariant: they touch only the scale and one distance. */
  lemma MeasureConsistent(s: Session, referenceLength: Option<real>, sqrt: real -> real)
    requires Consistent(s) && (|s.points| > 1 ==> s.lines != [])
    ensures Consistent(CalibrateOnSecondPoint(s, referenceLength, sqrt).0)
    ensures var s2 := CalibrateOnSecondPoint(s, referenceLength, sqrt).0;
            Consistent(MeasureLast(s2, sqrt))
  {
    var s2 := CalibrateOnSecondPoint(s, referenceLength, sqrt).0;
    var s3 := MeasureLast(s2, sqrt);
    assert s2.lines == s.lines && s2.points == s.points && s2.shapes == s.shapes;
    assert EndsExtend(s2.lines, s3.lines);
    EndsExtendSame(s2.lines, s3.lines);
    EdgesRegisteredExtend(s2.lines, s3.lines, s2.points);
    forall k | 0 <= k < |s2.shapes|
      ensures EdgesRegistered(s3.lines, s2.shapes[k].vertices)
    {
      EdgesRegisteredExtend(s2.lines, s3.lines, s2.shapes[k].vertices);
    }
  }

  /** Closure keeps the invariant: the buffer it stores is a snapped, registered, closed outline. */
  lemma CloseShapeConsistent(s: Session, sqrt: real -> real)
    requires Consistent(s)
    ensures Consistent(CloseShape(s, sqrt).0)
  {
    var t := CloseShape(s, sqrt).0;
    if |s.points| >= 3 && IsCloseToPoint(s.points[0], s.points[|s.points| - 1]) {
      assert s.points[|s.points| - 1] == s.points[0];
      assert t.shapes[|s.shapes|].vertices == s.points;
      assert forall k :: 0 <= k < |s.shapes| ==> t.shapes[k] == s.shapes[k];
    }
  }

  /** An edit-line click keeps the invariant: it relabels one segment and selects an existing one. */
  lemma EditLineConsistent(s: Session, click: Point)
    requires Consistent(s)
    ensures Consistent(EditLineStep(s, click).0)
  {
    var t := EditLineStep(s, click).0;
    assert EndsExtend(s.lines, t.lines);
    EndsExtendSame(s.lines, t.lines);
    EdgesRegisteredExtend(s.lines, t.lines, s.points);
    forall k | 0 <= k < |s.shapes|
      ensures EdgesRegistered(t.lines, s.shapes[k].vertices)
    {
      EdgesRegisteredExtend(s.lines, t.lines, s.shapes[k].vertices);
    }
  }

  /** Every click, in either mode and whether or not it raises, keeps the session consistent. */
  lemma ClickConsistent(s: Session, click: Point, referenceLength: Option<real>, sqrt: real -> real)
    requires Consistent(s)
    ensures Consistent(ClickStep(s, click, referenceLength, sqrt).0)
  {
    if s.mode == CreateShape {
      var s1 := AppendPoint(s, click);
      AppendPointConsistent(s, click);
      var (s2, o) := CalibrateOnSecondPoint(s1, referenceLength, sqrt);
      MeasureConsistent(s1, referenceLength, sqrt);
      if !o.Raised? {
        CloseShapeConsistent(MeasureLast(s2, sqrt), sqrt);
      }
    } else {
      EditLineConsistent(s, click);
    }
  }

  // ---------------------------------------------------------------------------
  // What one click does

  /** The calibration stage cannot raise on a click: the registry it reads is never empty there. */
  lemma CalibrationCompletes(s: Session, click: Point, referenceLength: Option<real>, sqrt: real -> real)
    ensures CalibrateOnSecondPoint(AppendPoint(s, click), referenceLength, sqrt).1 == Completed
  {
  }

  /** A scale that is present is never changed by a click. */
  lemma ScaleSetOnce(s: Session, click: Point, referenceLength: Option<real>, sqrt: real -> real)
    requires s.scale.Some?
    ensures ClickStep(s, click, referenceLength, sqrt).0.scale == s.scale
  {
  }

  /**
   * The scale changes only on the create-shape click that brings the buffer
   * to two points while no scale is set, and only when the prompt returns a
   * truthy length; it then becomes the last segment's pixel length divided
   * by that length.
   */
  lemma ScaleChangesOnlyOnSecondPoint(s: Session, click: Point, referenceLength: Option<real>, sqrt: real -> real)
    ensures var t := ClickStep(s, click, referenceLength, sqrt).0;
            t.scale != s.scale ==>
              && s.mode == CreateShape && |s.points| == 1 && s.scale.None? && Truthy(referenceLength)
              && t.scale == Some(PixelLength(AppendPoint(s, click).lines[|AppendPoint(s, click).lines| - 1].start,
                                             AppendPoint(s, click).lines[|AppendPoint(s, click).lines| - 1].end, sqrt)
                                 / referenceLength.value)
  {
  }

  /**
   * The registry after a create-shape click: the old segments keep their
   * endpoints and labels, at most one segment is added (exactly when the pair
   * is new), and every segment but the last is left as it was.
   */
  lemma CreateShapeRegistry(s: Session, click: Point, referenceLength: Option<real>, sqrt: real -> real)
    requires s.mode == CreateShape
    ensures var t := ClickStep(s, click, referenceLength, sqrt).0;
            && EndsExtend(s.lines, t.lines)
            && |s.lines| <= |t.lines| <= |s.lines| + 1
            && (|t.lines| == |s.lines| + 1 <==>
                  s.points != [] && !HasPair(s.lines, s.points[|s.points| - 1], SnapClick(click, s.shapes, s.points)))
            && (forall k :: 0 <= k < |s.lines| ==> t.lines[k].lineLabel == s.lines[k].lineLabel)
            && (forall k :: 0 <= k < |t.lines| - 1 ==> t.lines[k] == s.lines[k])
  {
    var r := AppendPoint(s, click).lines;
    ClickLines(s, click, referenceLength, sqrt);
    assert EndsExtend(s.lines, r);
  }

  /** The registry a create-shape click leaves: the registered one, with the last segment possibly remeasured. */
  lemma ClickLines(s: Session, click: Point, referenceLength: Option<real>, sqrt: real -> real)
    requires s.mode == CreateShape
    ensures var t := ClickStep(s, click, referenceLength, sqrt).0;
            var r := AppendPoint(s, click).lines;
            |t.lines| == |r|
            && (forall k :: 0 <= k < |r| ==> t.lines[k].start == r[k].start && t.lines[k].end == r[k].end)
            && (forall k :: 0 <= k < |r| ==> t.lines[k].lineLabel == r[k].lineLabel)
            && (forall k :: 0 <= k < |r| - 1 ==> t.lines[k] == r[k])
  {
    var s1 := AppendPoint(s, click);
    var s2 := CalibrateOnSecondPoint(s1, referenceLength, sqrt).0;
    assert s2.lines == s1.lines;
    assert ClickStep(s, click, referenceLength, sqrt).0.lines == MeasureLast(s2, sqrt).lines;
  }

  /**
   * The only distance a create-shape click writes is the last segment's, and
   * it is that segment's own length at the scale the click leaves.
   */
  lemma MeasuresLastOnly(s: Session, click: Point, referenceLength: Option<real>, sqrt: real -> real)
    requires s.mode == CreateShape
    ensures var t := ClickStep(s, click, referenceLength, sqrt).0;
            var r := AppendPoint(s, click).lines;
            |t.lines| == |r|
            && (t.lines != [] && t.lines[|t.lines| - 1] != r[|r| - 1] ==>
                  Truthy(t.scale) && |s.points| >= 1
                  && t.lines[|t.lines| - 1] == r[|r| - 1].(distance := Some(CalculateDistance(r[|r| - 1], t.scale.value, sqrt))))
  {
    var s1 := AppendPoint(s, click);
    var s2 := CalibrateOnSecondPoint(s1, referenceLength, sqrt).0;
    assert s2.lines == s1.lines;
    assert ClickStep(s, click, referenceLength, sqrt).0.lines == MeasureLast(s2, sqrt).lines;
    assert ClickStep(s, click, referenceLength, sqrt).0.scale == s2.scale;
  }

  /**
   * Every create-shape click after the first point of a buffer measures the
   * last registered segment once the scale it leaves is truthy: that
   * segment's distance becomes its own length at that scale, and every other
   * segment is the registered one.
   */
  lemma MeasuresLast(s: Session, click: Point, referenceLength: Option<real>, sqrt: real -> real)
    requires s.mode == CreateShape
    ensures var t := ClickStep(s, click, referenceLength, sqrt).0;
            var r := AppendPoint(s, click).lines;
            s.points != [] && Truthy(t.scale) ==>
              r != [] && t.lines == r[|r| - 1 := r[|r| - 1].(distance := Some(CalculateDistance(r[|r| - 1], t.scale.value, sqrt)))]
  {
    var s1 := AppendPoint(s, click);
    var s2 := CalibrateOnSecondPoint(s1, referenceLength, sqrt).0;
    assert s2.lines == s1.lines;
    assert ClickStep(s, click, referenceLength, sqrt).0.lines == MeasureLast(s2, sqrt).lines;
    assert ClickStep(s, click, referenceLength, sqrt).0.scale == s2.scale;
  }

  /**
   * The create-shape click that brings a buffer to two points while no scale
   * is set calibrates with a truthy entered length: the scale becomes the
   * last registered segment's pixel length over that length, and when that
   * pixel length is not zero the segment is measured at exactly the entered
   * length.
   */
  lemma CalibratesOnSecondPoint(s: Session, click: Point, referenceLength: real, sqrt: real -> real)
    requires s.mode == CreateShape && |s.points| == 1 && s.scale.None? && referenceLength != 0.0
    ensures var t := ClickStep(s, click, Some(referenceLength), sqrt).0;
            var r := AppendPoint(s, click).lines;
            && r != []
            && t.scale == Some(PixelLength(r[|r| - 1].start, r[|r| - 1].end, sqrt) / referenceLength)
            && (PixelLength(r[|r| - 1].start, r[|r| - 1].end, sqrt) != 0.0 ==>
                  t.lines[|r| - 1].distance == Some(referenceLength))
  {
    var s1 := AppendPoint(s, click);
    var r := s1.lines;
    var (s2, o) := CalibrateOnSecondPoint(s1, Some(referenceLength), sqrt);
    var len := PixelLength(r[|r| - 1].start, r[|r| - 1].end, sqrt);
    if len != 0.0 {
      CalibrationRoundTrip(r, r[|r| - 1], referenceLength, sqrt);
      MeasuresLast(s, click, Some(referenceLength), sqrt);
    }
  }

  /**
   * Closure: a create-shape click closes the shape exactly when the buffer
   * already holds two points and the shape-snapped click is close to the
   * first; the buffer then becomes a new shape with the first point repeated
   * at the end and is emptied. Otherwise the shapes are unchanged and the
   * buffer grows by the snapped click.
   */
  lemma Closure(s: Session, click: Point, referenceLength: Option<real>, sqrt: real -> real)
    requires s.mode == CreateShape
    ensures var t := ClickStep(s, click, referenceLength, sqrt).0;
            if |s.points| >= 2 && IsCloseToPoint(SnapToShapes(click, s.shapes), s.points[0]) then
              && t.points == []
              && |t.shapes| == |s.shapes| + 1 && t.shapes[..|s.shapes|] == s.shapes
              && t.shapes[|s.shapes|].vertices == s.points + [s.points[0]]
              && t.shapes[|s.shapes|].pitch == DefaultPitch
            else
              t.shapes == s.shapes && t.points == s.points + [SnapClick(click, s.shapes, s.points)]
  {
    var p := SnapToShapes(click, s.shapes);
    if |s.points| >= 2 {
      if IsCloseToPoint(p, s.points[0]) {
        IsCloseToPointReflexive(s.points[0]);
      } else {
        IsCloseToPointSymmetric(p, s.points[0]);
      }
    }
  }

  /**
   * A create-shape click that closes a shape and completes stores the
   * pitch-adjusted area of the new outline at the scale the click leaves,
   * which is at least its flat area, itself non-negative.
   */
  lemma ClosureArea(s: Session, click: Point, referenceLength: Option<real>, sqrt: real -> real)
    requires IsSqrt(sqrt) && s.mode == CreateShape
    ensures var (t, o) := ClickStep(s, click, referenceLength, sqrt);
            o == Completed && |t.shapes| == |s.shapes| + 1 ==>
              var shape := NewShape(t.shapes[|s.shapes|].vertices);
              && AreaIncludingPitch(shape, t.scale, sqrt).Ok?
              && t.shapes[|s.shapes|].area == Some(AreaIncludingPitch(shape, t.scale, sqrt).value)
              && 0.0 <= CalculateFlatArea(shape, t.scale.value) <= t.shapes[|s.shapes|].area.value
  {
    var s1 := AppendPoint(s, click);
    var (s2, o2) := CalibrateOnSecondPoint(s1, referenceLength, sqrt);
    if !o2.Raised? {
      var s3 := MeasureLast(s2, sqrt);
      var (t, o) := CloseShape(s3, sqrt);
      if o == Completed && |t.shapes| == |s.shapes| + 1 {
        AreaIncludingPitchBounds(NewShape(s3.points), s3.scale, sqrt);
      }
    }
  }

  /**
   * A create-shape click raises only when it closes a shape without a usable
   * scale: a missing scale fails the squaring, a zero scale the division.
   */
  lemma CreateShapeRaises(s: Session, click: Point, referenceLength: Option<real>, sqrt: real -> real)
    requires s.mode == CreateShape
    ensures var (t, o) := ClickStep(s, click, referenceLength, sqrt);
            o.Raised? <==> |t.shapes| == |s.shapes| + 1 && !Truthy(t.scale)
    ensures var (t, o) := ClickStep(s, click, referenceLength, sqrt);
            o.Raised? ==> o.fault == (if t.scale.None? then NoneOperand else DivisionByZero)
                          && t.shapes[|s.shapes|].area == None
  {
  }

  /**
   * An edit-line click that completes selects the first segment in registry
   * order whose line passes under the click, with every earlier segment
   * passed over, and gives it the selected label; every other segment, the
   * buffer, the shapes and the scale stay as they were. A click that misses
   * every segment clears the selection and changes nothing else.
   */
  lemma EditLineSelects(s: Session, click: Point, referenceLength: Option<real>, sqrt: real -> real)
    requires s.mode == EditLine
    ensures var (t, o) := ClickStep(s, click, referenceLength, sqrt);
            o == Completed && t.selectedLine.Some? ==>
              var k := t.selectedLine.value;
              && k < |s.lines| && s.lines[k].start != s.lines[k].end
              && IsPointOnLine(click, s.lines[k].start, s.lines[k].end)
              && (forall j :: 0 <= j < k ==> PassesOver(click, (s.lines[j].start, s.lines[j].end)))
              && t.lines == s.lines[k := s.lines[k].(lineLabel := s.selectedLabel)]
              && t.points == s.points && t.shapes == s.shapes && t.scale == s.scale
    ensures var (t, o) := ClickStep(s, click, referenceLength, sqrt);
            o == Completed && t.selectedLine.None? ==>
              (forall j :: 0 <= j < |s.lines| ==> PassesOver(click, (s.lines[j].start, s.lines[j].end)))
              && t == s.(selectedLine := None)
    ensures var (t, o) := ClickStep(s, click, referenceLength, sqrt);
            o.Raised? ==> o.fault == DivisionByZero && t == s
                          && exists j :: 0 <= j < |s.lines| && s.lines[j].start == s.lines[j].end
                                         && forall i :: 0 <= i < j ==> PassesOver(click, (s.lines[i].start, s.lines[i].end))
  {
    var ends := Ends(s.lines);
    match FirstHit(click, ends, 0)
    case Found(k) => {
      assert forall j :: 0 <= j < k ==> ends[j] == (s.lines[j].start, s.lines[j].end);
    }
    case Missed => {
      assert forall j :: 0 <= j < |s.lines| ==> ends[j] == (s.lines[j].start, s.lines[j].end);
    }
    case ZeroLength(k) => {
      assert s.lines[k].start == s.lines[k].end;
      assert forall i :: 0 <= i < k ==> ends[i] == (s.lines[i].start, s.lines[i].end);
    }
  }

  /**
   * Relabelling through an edit-line click moves one label count of the
   * report from the segment's old label to the selected one, and leaves the
   * distance and area totals, and whether the report can be produced, as
   * they were. Relabelling a segment as "Valley" thus adds one to the Valley
   * count.
   */
  lemma EditLineReport(s: Session, click: Point, referenceLength: Option<real>, sqrt: real -> real)
    requires s.mode == EditLine
    ensures var (t, o) := ClickStep(s, click, referenceLength, sqrt);
            ReportOf(t.lines, t.shapes).Ok? == ReportOf(s.lines, s.shapes).Ok?
    ensures var (t, o) := ClickStep(s, click, referenceLength, sqrt);
            ReportOf(s.lines, s.shapes).Ok? ==>
              && ReportOf(t.lines, t.shapes).value.distanceTotal == ReportOf(s.lines, s.shapes).value.distanceTotal
              && ReportOf(t.lines, t.shapes).value.areaTotal == ReportOf(s.lines, s.shapes).value.areaTotal
    ensures var (t, o) := ClickStep(s, click, referenceLength, sqrt);
            o == Completed && t.selectedLine.Some? && ReportOf(s.lines, s.shapes).Ok? ==>
              var k := t.selectedLine.value;
              k < |s.lines|
              && ReportOf(t.lines, t.shapes).value.labelCounts
                 == ReportOf(s.lines, s.shapes).value.labelCounts - multiset{s.lines[k].lineLabel} + multiset{s.selectedLabel}
  {
    match FirstHit(click, Ends(s.lines), 0)
    case Found(k) => {
      ReportRelabel(s.lines, s.shapes, k, s.selectedLabel);
    }
    case Missed => {}
    case ZeroLength(_) => {}
  }

  /**
   * Two clicks at the same pixel with nothing else around register a
   * segment whose ends coincide, and an edit-line click anywhere then
   * divides by zero on it.
   */
  lemma ZeroLengthSegment(p: Point, click: Point, sqrt: real -> real)
    ensures var s := InitialSession().(points := [p]);
            var t := ClickStep(s, p, None, sqrt).0;
            t.lines == [NewLineSegment(p, p)]
            && ClickStep(t.(mode := EditLine), click, None, sqrt) == (t.(mode := EditLine), Raised(DivisionByZero))
  {
    var s := InitialSession().(points := [p]);
    IsCloseToPointReflexive(p);
    assert SnapClick(p, [], [p]) == p;
    assert !HasPair([], p, p);
  }

  /** With (0, 0) alone in the buffer, a click at (100, 0) is appended as it is and registers the first segment. */
  lemma TraceFirstAppend(p0: Point, p1: Point, s: Session)
    requires p0 == Point(0, 0) && p1 == Point(100, 0)
    requires s.points == [p0] && s.shapes == [] && s.lines == []
    ensures AppendPoint(s, p1) == s.(points := [p0, p1], lines := [NewLineSegment(p0, p1)])
  {
    assert SnapClick(p1, [], [p0]) == p1;
  }

  /** A reference length of 10 for that 100-pixel segment sets the scale to 10. */
  lemma TraceFirstCalibration(sqrt: real -> real, p0: Point, p1: Point, s: Session)
    requires IsSqrt(sqrt) && p0 == Point(0, 0) && p1 == Point(100, 0)
    requires |s.points| == 2 && s.lines == [NewLineSegment(p0, p1)] && s.scale == None
    ensures CalibrateOnSecondPoint(s, Some(10.0), sqrt) == (s.(scale := Some(10.0)), Completed)
  {
    RootOfSquare(sqrt, 100.0, 10000.0);
    assert SquaredDistance(p0, p1) == 10000;
    assert PixelLength(p0, p1, sqrt) == 100.0;
  }

  /**
   * A traced session, click by click. With (0, 0) in the buffer, a click at
   * (100, 0) and a reference length of 10 set the scale to 10 and measure the
   * new segment as 10 units.
   */
  lemma TraceCalibrates(sqrt: real -> real, p0: Point, p1: Point)
    requires IsSqrt(sqrt) && p0 == Point(0, 0) && p1 == Point(100, 0)
    ensures ClickStep(InitialSession().(points := [p0]), p1, Some(10.0), sqrt)
         == (InitialSession().(points := [p0, p1], scale := Some(10.0),
                               lines := [LineSegment(p0, p1, Some(10.0), "Eave")]), Completed)
  {
    var s := InitialSession().(points := [p0]);
    TraceFirstAppend(p0, p1, s);
    var s1 := AppendPoint(s, p1);
    TraceFirstCalibration(sqrt, p0, p1, s1);
    var s2 := s1.(scale := Some(10.0));
    RootOfSquare(sqrt, 100.0, 10000.0);
    assert SquaredDistance(p0, p1) == 10000;
    assert CalculateDistance(NewLineSegment(p0, p1), 10.0, sqrt) == 10.0;
    var s3 := MeasureLast(s2, sqrt);
    assert s3 == s2.(lines := [LineSegment(p0, p1, Some(10.0), "Eave")]);
    assert CloseShape(s3, sqrt) == (s3, Completed);
  }

  /** Then a click at (100, 100) adds a second segment, measured as 10 units at that scale. */
  lemma TraceMeasures(sqrt: real -> real, p0: Point, p1: Point, p2: Point)
    requires IsSqrt(sqrt) && p0 == Point(0, 0) && p1 == Point(100, 0) && p2 == Point(100, 100)
    ensures var s := InitialSession().(points := [p0, p1], scale := Some(10.0),
                                       lines := [LineSegment(p0, p1, Some(10.0), "Eave")]);
            (ClickStep(s, p2, None, sqrt)
             == (s.(points := [p0, p1, p2],
                    lines := s.lines + [LineSegment(p1, p2, Some(10.0), "Eave")]), Completed))
  {
    RootOfSquare(sqrt, 100.0, 10000.0);
    var s := InitialSession().(points := [p0, p1], scale := Some(10.0),
                               lines := [LineSegment(p0, p1, Some(10.0), "Eave")]);
    assert SnapClick(p2, [], [p0, p1]) == p2;
    assert SquaredDistance(p1, p2) == 10000;
    assert !HasPair(s.lines, p1, p2);
    var s1 := AppendPoint(s, p2);
    assert s1 == s.(points := [p0, p1, p2], lines := s.lines + [NewLineSegment(p1, p2)]);
    assert CalibrateOnSecondPoint(s1, None, sqrt) == (s1, Completed);
    assert PixelLength(p1, p2, sqrt) == 100.0;
    assert CalculateDistance(NewLineSegment(p1, p2), 10.0, sqrt) == 10.0;
    var s3 := MeasureLast(s1, sqrt);
    assert s3 == s1.(lines := s.lines + [LineSegment(p1, p2, Some(10.0), "Eave")]);
    assert !IsCloseToPoint(p0, p2);
    assert CloseShape(s3, sqrt) == (s3, Completed);
  }

  /** With a truthy scale, a buffer whose last point is back near its first closes without raising. */
  lemma CloseShapeCompletes(s: Session, sqrt: real -> real)
    requires |s.points| >= 3 && IsCloseToPoint(s.points[0], s.points[|s.points| - 1]) && Truthy(s.scale)
    ensures var (t, o) := CloseShape(s, sqrt);
            o == Completed && t.points == [] && |t.shapes| == |s.shapes| + 1
            && t.shapes[|s.shapes|].vertices == s.points && t.lines == s.lines
  {
    assert NewShape(s.points).pitch.run != 0;
  }

  /** The click at (2, 2) after (0, 0), (100, 0), (100, 100) snaps to (0, 0) and registers the closing edge. */
  lemma TraceClosingAppend(p0: Point, p1: Point, p2: Point, s: Session)
    requires p0 == Point(0, 0) && p1 == Point(100, 0) && p2 == Point(100, 100)
    requires s.points == [p0, p1, p2] && s.shapes == []
    ensures AppendPoint(s, Point(2, 2)) == s.(points := [p0, p1, p2, p0], lines := RegisterSegment(s.lines, p2, p0))
  {
    assert SnapToShapes(Point(2, 2), []) == Point(2, 2);
    assert IsCloseToPoint(Point(2, 2), p0);
  }

  /**
   * Then a click at (2, 2) snaps to (0, 0) and closes the outline, which keeps
   * the repeated first vertex, and empties the buffer.
   */
  lemma TraceCloses(sqrt: real -> real, p0: Point, p1: Point, p2: Point, s: Session)
    requires p0 == Point(0, 0) && p1 == Point(100, 0) && p2 == Point(100, 100)
    requires s.mode == CreateShape && s.points == [p0, p1, p2] && s.shapes == [] && s.scale == Some(10.0)
    ensures var (t, o) := ClickStep(s, Point(2, 2), None, sqrt);
            o == Completed && t.points == [] && |t.lines| == |s.lines| + 1 - (if HasPair(s.lines, p2, p0) then 1 else 0)
            && |t.shapes| == 1 && t.shapes[0].vertices == [p0, p1, p2, p0]
  {
    TraceClosingAppend(p0, p1, p2, s);
    var s1 := AppendPoint(s, Point(2, 2));
    assert CalibrateOnSecondPoint(s1, None, sqrt) == (s1, Completed);
    var s3 := MeasureLast(s1, sqrt);
    CloseShapeCompletes(s3, sqrt);
  }

  // ---------------------------------------------------------------------------
  // The pitch query

  /** Which shapes contain the click, in registry order. */
  function Containment(p: Point, shapes: seq<Shape>): (inside: seq<bool>)
    ensures |inside| == |shapes|
    ensures forall k :: 0 <= k < |shapes| ==> inside[k] == PointInPolygon(p, shapes[k].vertices)
  {
    seq(|shapes|, k requires 0 <= k < |shapes| => PointInPolygon(p, shapes[k].vertices))
  }

  /** The first index from `from` on whose flag is set: the scan of a for loop that returns on the first hit. */
  function FirstSet(flags: seq<bool>, from: nat): (r: Option<nat>)
    requires from <= |flags|
    ensures r.Some? ==> from <= r.value < |flags| && flags[r.value]
    ensures r.Some? ==> forall j :: from <= j < r.value ==> !flags[j]
    ensures r.None? ==> forall j :: from <= j < |flags| ==> !flags[j]
    decreases |flags| - from
  {
    if from == |flags| then None
    else if flags[from] then Some(from)
    else FirstSet(flags, from + 1)
  }

  /** controller.py on_right_click: the pitch of the first shape containing the click, if any. */
  function PitchAt(p: Point, shapes: seq<Shape>): (r: Option<Pitch>)
    ensures r.Some? ==> exists k :: 0 <= k < |shapes| && r.value == shapes[k].pitch
  {
    match FirstSet(Containment(p, shapes), 0)
    case Some(k) => Some(shapes[k].pitch)
    case None => None
  }

  /**
   * The query answers with the pitch of the first shape containing the click,
   * every earlier shape not containing it, or with nothing when no shape does.
   */
  lemma PitchAtFirstContaining(p: Point, shapes: seq<Shape>)
    ensures PitchAt(p, shapes).Some? <==> exists k :: 0 <= k < |shapes| && PointInPolygon(p, shapes[k].vertices)
    ensures PitchAt(p, shapes).Some? ==>
              exists k :: 0 <= k < |shapes| && PointInPolygon(p, shapes[k].vertices)
                          && PitchAt(p, shapes) == Some(shapes[k].pitch)
                          && forall j :: 0 <= j < k ==> !PointInPolygon(p, shapes[j].vertices)
  {
    var inside := Containment(p, shapes);
    match FirstSet(inside, 0)
    case Some(k) =>
      assert PointInPolygon(p, shapes[k].vertices);
    case None =>
  }

  /** Every shape a click closes has the default pitch, so the query reports 6 in 12 or nothing. */
  lemma PitchAtDefault(p: Point, shapes: seq<Shape>)
    requires forall k :: 0 <= k < |shapes| ==> shapes[k].pitch == DefaultPitch
    ensures PitchAt(p, shapes) == None || PitchAt(p, shapes) == Some(Pitch(6, 12))
  {
  }

  // ---------------------------------------------------------------------------
  // The controller object

  /** The controller of controller.py: event handlers that update the model in place. */
  class MeasurementController {
    const model: MeasurementModel

    constructor(model: MeasurementModel)
      ensures this.model == model
    {
      this.model := model;
    }

    /** The nested snap loops over the shapes and their vertices. */
    method SnapToShapeVertices(click: Point) returns (q: Point)
      ensures q == SnapToShapes(click, model.shapes)
    {
      var shapes := model.shapes;
      q := click;
      for i := 0 to |shapes|
        invariant SnapToShapes(q, shapes[i..]) == SnapToShapes(click, shapes)
      {
        assert shapes[i..][1..] == shapes[i + 1..];
        var vs := shapes[i].vertices;
        for j := 0 to |vs|
          invariant SnapToShapes(SnapToVertices(q, vs[j..]), shapes[i + 1..]) == SnapToShapes(click, shapes)
        {
          assert vs[j..][1..] == vs[j + 1..];
          if IsCloseToPoint(q, vs[j]) {
            q := vs[j];
          }
        }
      }
    }

    /** The for/else scan of the registry for the segment from `a` to `b`, in either order. */
    method HasSegment(a: Point, b: Point) returns (found: bool)
      ensures found == HasPair(model.lines, a, b)
    {
      var lines := model.lines;
      found := false;
      var k := 0;
      while k < |lines| && !found
        invariant 0 <= k <= |lines|
        invariant found ==> HasPair(lines, a, b)
        invariant !found ==> forall j :: 0 <= j < k ==> !SamePair((lines[j].start, lines[j].end), (a, b))
      {
        var line := lines[k];
        if (line.start, line.end) == (a, b) || (line.end, line.start) == (a, b) {
          assert SamePair((lines[k].start, lines[k].end), (a, b));
          found := true;
        }
        k := k + 1;
      }
    }

    /** Snap the click, append it to the buffer, and register its segment unless the pair is known. */
    method AppendClick(click: Point)
      modifies model`points, model`lines
      ensures model.State() == AppendPoint(old(model.State()), click)
    {
      var q := SnapToShapeVertices(click);
      if model.points != [] && IsCloseToPoint(q, model.points[0]) {
        q := model.points[0];
      }
      model.points := model.points + [q];
      if |model.points| > 1 {
        var a := model.points[|model.points| - 2];
        var found := HasSegment(a, q);
        if !found {
          model.lines := model.lines + [NewLineSegment(a, q)];
        }
      }
    }

    /** One-time calibration on the buffer's second point, from the last segment. */
    method CalibrateClick(referenceLength: Option<real>, sqrt: real -> real) returns (outcome: Outcome)
      requires |model.points| > 1 ==> model.lines != []
      modifies model`scale
      ensures (model.State(), outcome) == CalibrateOnSecondPoint(old(model.State()), referenceLength, sqrt)
    {
      outcome := Completed;
      if |model.points| == 2 && model.scale.None? {
        outcome := model.SetScale(model.lines[|model.lines| - 1], referenceLength, sqrt);
      }
    }

    /** Measure the last segment once the scale is truthy. */
    method MeasureClick(sqrt: real -> real)
      requires |model.points| > 1 ==> model.lines != []
      modifies model`lines
      ensures model.State() == MeasureLast(old(model.State()), sqrt)
    {
      if |model.points| >= 2 && model.scale.Some? && model.scale.value != 0.0 {
        var k := |model.lines| - 1;
        var line := model.lines[k];
        model.lines := model.lines[k := line.(distance := Some(CalculateDistance(line, model.scale.value, sqrt)))];
      }
    }

    /** Close the shape when the last point is back at the first, then compute its area. */
    method CloseClick(sqrt: real -> real) returns (outcome: Outcome)
      modifies model`points, model`shapes
      ensures (model.State(), outcome) == CloseShape(old(model.State()), sqrt)
    {
      outcome := Completed;
      if |model.points| >= 3 && IsCloseToPoint(model.points[0], model.points[|model.points| - 1]) {
        ghost var before := model.shapes;
        var shape := NewShape(model.points);
        model.shapes := model.shapes + [shape];
        model.points := [];
        var last := |model.shapes| - 1;
        var area := AreaIncludingPitch(model.shapes[last], model.scale, sqrt);
        if area.Err? {
          return Raised(area.fault);
        }
        model.shapes := model.shapes[last := model.shapes[last].(area := Some(area.value))];
        assert model.shapes == before + [shape.(area := Some(area.value))];
      }
    }

    /** controller.py on_click in create-shape mode. */
    method CreateShapeClick(click: Point, referenceLength: Option<real>, sqrt: real -> real) returns (outcome: Outcome)
      requires model.mode == CreateShape
      modifies model
      ensures (model.State(), outcome) == CreateShapeStep(old(model.State()), click, referenceLength, sqrt)
    {
      AppendClick(click);
      outcome := CalibrateClick(referenceLength, sqrt);
      if outcome.Raised? {
        return;
      }
      MeasureClick(sqrt);
      outcome := CloseClick(sqrt);
    }

    /** controller.py on_click in edit-line mode: the for/else scan of the registry under the click. */
    method EditLineClick(click: Point) returns (outcome: Outcome)
      requires model.mode == EditLine
      modifies model
      ensures (model.State(), outcome) == EditLineStep(old(model.State()), click)
    {
      var lines := model.lines;
      var k := 0;
      while k < |lines|
        invariant 0 <= k <= |lines|
        invariant FirstHit(click, Ends(lines), k) == FirstHit(click, Ends(lines), 0)
        invariant model.State() == old(model.State())
      {
        var line := lines[k];
        if line.start == line.end {
          return Raised(DivisionByZero);
        }
        if IsPointOnLine(click, line.start, line.end) {
          model.selectedLine := Some(k);
          model.lines := lines[k := line.(lineLabel := model.selectedLabel)];
          return Completed;
        }
        k := k + 1;
      }
      model.selectedLine := None;
      outcome := Completed;
    }

    /** controller.py on_click: the handler for a primary click on the canvas. */
    method OnClick(click: Point, referenceLength: Option<real>, sqrt: real -> real) returns (outcome: Outcome)
      modifies model
      ensures (model.State(), outcome) == ClickStep(old(model.State()), click, referenceLength, sqrt)
    {
      if model.mode == CreateShape {
        outcome := CreateShapeClick(click, referenceLength, sqrt);
      } else {
        outcome := EditLineClick(click);
      }
    }

    /** controller.py on_right_click: the scan of the shapes; it changes nothing. */
    method OnRightClick(p: Point) returns (pitch: Option<Pitch>)
      ensures pitch == PitchAt(p, model.shapes)
    {
      var shapes := model.shapes;
      ghost var inside := Containment(p, shapes);
      for i := 0 to |shapes|
        invariant FirstSet(inside, i) == FirstSet(inside, 0)
      {
        var contains := IsPointInShape(p, shapes[i].vertices);
        if contains {
          return Some(shapes[i].pitch);
        }
      }
      return None;
    }
  }
}
