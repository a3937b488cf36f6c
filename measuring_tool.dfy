/**
 * The earlier single-file tool of MeasuringTool.py: the same click-driven
 * tracing without vertex snapping and without the duplicate-pair check, a
 * manual calibration command, and right-click line selection.
 */
module MeasuringTool {
  import opened Wrappers
  import opened Geometry
  import opened Shapes

  /** The colour a new segment is drawn in. */
  const DefaultColor: string := "blue"

  /** The tool's segment record: endpoints, drawing colour, and the distance once measured. */
  datatype ToolSegment = ToolSegment(start: Point, end: Point, color: string, distance: Option<real>)

  /**
   * The tool's state as a value. Shapes are bare vertex lists; the reference
   * and the selection are indices into `lines`, which only grows.
   */
  datatype ToolSession = ToolSession(
    scale: Option<real>,
    points: seq<Point>,
    shapes: seq<seq<Point>>,
    lines: seq<ToolSegment>,
    referenceLine: Option<nat>,
    selectedLine: Option<nat>)

  /** MeasurementApp.__init__: no scale, nothing traced, no reference, nothing selected. */
  function InitialToolSession(): (s: ToolSession)
    ensures s.scale == None && s.points == [] && s.shapes == [] && s.lines == []
    ensures s.referenceLine == None && s.selectedLine == None
  {
    ToolSession(None, [], [], [], None, None)
  }

  /** The endpoint pairs of the tool's segments, in order. */
  function ToolEnds(lines: seq<ToolSegment>): (ends: seq<(Point, Point)>)
    ensures |ends| == |lines|
    ensures forall k :: 0 <= k < |lines| ==> ends[k] == (lines[k].start, lines[k].end)
  {
    seq(|lines|, k requires 0 <= k < |lines| => (lines[k].start, lines[k].end))
  }

  /**
   * MeasurementApp.set_scale: the reference becomes the last segment, or None
   * without segments; a truthy length then sets the scale from the
   * reference's pixel length, or reads an attribute of None.
   */
  function ToolSetScale(s: ToolSession, referenceLength: Option<real>, sqrt: real -> real): (r: (ToolSession, Outcome))
    ensures r.0.referenceLine == (if s.lines != [] then Some(|s.lines| - 1) else None)
    ensures r.1.Raised? <==> Truthy(referenceLength) && s.lines == []
    ensures r.1.Raised? ==> r.1.fault == NoneAttribute
    ensures r.0.scale != s.scale ==> Truthy(referenceLength) && s.lines != []
    ensures Truthy(referenceLength) && s.lines != [] ==>
              r.0.scale == Some(PixelLength(s.lines[|s.lines| - 1].start, s.lines[|s.lines| - 1].end, sqrt) / referenceLength.value)
    ensures r.0.(scale := s.scale, referenceLine := s.referenceLine) == s
  {
    var reference: Option<nat> := if s.lines != [] then Some(|s.lines| - 1) else None;
    var s1 := s.(referenceLine := reference);
    if !Truthy(referenceLength) then (s1, Completed)
    else if reference.None? then (s1, Raised(NoneAttribute))
    else
      var line := s.lines[reference.value];
      (s1.(scale := Some(PixelLength(line.start, line.end, sqrt) / referenceLength.value)), Completed)
  }

  /**
   * MeasurementApp.calculate_distance applied to the last segment: it gets the
   * distance that, multiplied back by the scale, is its pixel length; the
   * endpoints, the colour and every other segment stay.
   */
  function MeasureLastSegment(lines: seq<ToolSegment>, scale: real, sqrt: real -> real): (r: seq<ToolSegment>)
    requires lines != [] && scale != 0.0
    ensures |r| == |lines| && r[..|lines| - 1] == lines[..|lines| - 1]
    ensures ToolEnds(r) == ToolEnds(lines)
    ensures r[|lines| - 1] == lines[|lines| - 1].(distance := r[|lines| - 1].distance)
    ensures r[|lines| - 1].distance.Some?
    ensures r[|lines| - 1].distance.value * scale == PixelLength(lines[|lines| - 1].start, lines[|lines| - 1].end, sqrt)
  {
    var k := |lines| - 1;
    lines[k := lines[k].(distance := Some(PixelLength(lines[k].start, lines[k].end, sqrt) / scale))]
  }

  /** The first stage of a click: the raw click joins the buffer, with a segment from the previous point. */
  function ToolAppend(s: ToolSession, click: Point): (t: ToolSession)
    ensures t.points == s.points + [click]
    ensures t.lines == if s.points == [] then s.lines
                       else s.lines + [ToolSegment(s.points[|s.points| - 1], click, DefaultColor, None)]
    ensures t.(points := s.points, lines := s.lines) == s
  {
    var points := s.points + [click];
    s.(points := points,
       lines := if |points| > 1 then s.lines + [ToolSegment(points[|points| - 2], click, DefaultColor, None)] else s.lines)
  }

  /** The second stage: calibrate when the buffer has just reached two points and there is no scale. */
  function ToolCalibrateStage(s: ToolSession, referenceLength: Option<real>, sqrt: real -> real): (r: (ToolSession, Outcome))
    ensures r.0.(scale := s.scale, referenceLine := s.referenceLine) == s
    ensures s.scale.Some? ==> r == (s, Completed)
    ensures r.1.Raised? ==> s.lines == []
  {
    if |s.points| == 2 && s.scale.None? then ToolSetScale(s, referenceLength, sqrt) else (s, Completed)
  }

  /**
   * The third stage: once the buffer holds a segment and the scale is truthy,
   * the last segment, and only it, is measured at pixel length over scale;
   * otherwise nothing changes.
   */
  function ToolMeasureStage(s: ToolSession, sqrt: real -> real): (t: ToolSession)
    requires |s.points| >= 2 ==> s.lines != []
    ensures ToolEnds(t.lines) == ToolEnds(s.lines)
    ensures t.(lines := s.lines) == s
    ensures !(|s.points| >= 2 && Truthy(s.scale)) ==> t == s
    ensures |s.points| >= 2 && Truthy(s.scale) ==>
              var k := |s.lines| - 1;
              t.lines == s.lines[k := s.lines[k].(distance := Some(PixelLength(s.lines[k].start, s.lines[k].end, sqrt) / s.scale.value))]
  {
    if |s.points| >= 2 && Truthy(s.scale) then s.(lines := MeasureLastSegment(s.lines, s.scale.value, sqrt)) else s
  }

  /** The last stage: store the buffer as a shape, as it is, when its last point is back near its first. */
  function ToolCloseStage(s: ToolSession): (t: ToolSession)
    ensures |s.points| >= 3 && IsCloseToPoint(s.points[0], s.points[|s.points| - 1]) ==>
              t == s.(shapes := s.shapes + [s.points], points := [])
    ensures !(|s.points| >= 3 && IsCloseToPoint(s.points[0], s.points[|s.points| - 1])) ==> t == s
  {
    if |s.points| >= 3 && IsCloseToPoint(s.points[0], s.points[|s.points| - 1]) then
      s.(shapes := s.shapes + [s.points], points := [])
    else s
  }

  /**
   * MeasurementApp.on_click: append the raw click, add the segment from the
   * previous point, calibrate on the second point while there is no scale,
   * measure the last segment, and close the shape when the click is back near
   * the first point, storing the buffer as it is.
   */
  function ToolClickStep(s: ToolSession, click: Point, referenceLength: Option<real>, sqrt: real -> real): (r: (ToolSession, Outcome))
    ensures r.1 == Completed && r.0.selectedLine == s.selectedLine
  {
    var s1 := ToolAppend(s, click);
    var (s2, o) := ToolCalibrateStage(s1, referenceLength, sqrt);
    if o.Raised? then (s2, o) else (ToolCloseStage(ToolMeasureStage(s2, sqrt)), Completed)
  }

  /**
   * MeasurementApp.on_right_click: the first segment whose line passes under
   * the click becomes the selection; a miss clears it; a zero-length segment
   * met first divides by zero.
   */
  function ToolRightClick(s: ToolSession, click: Point): (r: (ToolSession, Outcome))
    ensures r.0.(selectedLine := s.selectedLine) == s
    ensures r.1 == Completed && r.0.selectedLine.Some? ==> r.0.selectedLine.value < |s.lines|
    ensures r.1.Raised? ==> r == (s, Raised(DivisionByZero))
  {
    match FirstHit(click, ToolEnds(s.lines), 0)
    case Found(k) => (s.(selectedLine := Some(k)), Completed)
    case Missed => (s.(selectedLine := None), Completed)
    case ZeroLength(_) => (s, Raised(DivisionByZero))
  }

  /**
   * Every click appends the raw click to the buffer; the buffer is stored as a
   * shape and emptied exactly when it already held two points and the click
   * is close to the first. A click never raises.
   */
  lemma ToolClickPoints(s: ToolSession, click: Point, referenceLength: Option<real>, sqrt: real -> real)
    ensures var (t, o) := ToolClickStep(s, click, referenceLength, sqrt);
            o == Completed
            && if |s.points| >= 2 && IsCloseToPoint(s.points[0], click) then
                 t.points == [] && t.shapes == s.shapes + [s.points + [click]]
               else
                 t.points == s.points + [click] && t.shapes == s.shapes
  {
  }

  /**
   * Every click after the first of a buffer adds exactly one segment, from the
   * previous point to the click, whether or not that pair is already there;
   * earlier segments keep their endpoints.
   */
  lemma ToolClickLines(s: ToolSession, click: Point, referenceLength: Option<real>, sqrt: real -> real)
    ensures var t := ToolClickStep(s, click, referenceLength, sqrt).0;
            |t.lines| == |s.lines| + (if s.points != [] then 1 else 0)
            && (forall k :: 0 <= k < |s.lines| ==> ToolEnds(t.lines)[k] == ToolEnds(s.lines)[k])
            && (s.points != [] ==> ToolEnds(t.lines)[|s.lines|] == (s.points[|s.points| - 1], click))
  {
  }

  /**
   * The only distance a click writes is the last segment's, and only when the
   * buffer then holds a segment and the scale the click leaves is truthy; it
   * is that segment's pixel length over the scale.
   */
  lemma ToolMeasuresLastOnly(s: ToolSession, click: Point, referenceLength: Option<real>, sqrt: real -> real)
    ensures var t := ToolClickStep(s, click, referenceLength, sqrt).0;
            var r := ToolAppend(s, click).lines;
            if s.points != [] && Truthy(t.scale) then
              var k := |r| - 1;
              t.lines == r[k := r[k].(distance := Some(PixelLength(r[k].start, r[k].end, sqrt) / t.scale.value))]
            else t.lines == r
  {
    var s1 := ToolAppend(s, click);
    var (s2, o) := ToolCalibrateStage(s1, referenceLength, sqrt);
    assert s2.lines == s1.lines && s2.points == s1.points;
    assert o == Completed;
    assert ToolClickStep(s, click, referenceLength, sqrt).0.lines == ToolMeasureStage(s2, sqrt).lines;
    assert ToolClickStep(s, click, referenceLength, sqrt).0.scale == s2.scale;
  }

  /** A scale that is present is never changed by a click. */
  lemma ToolScaleSetOnce(s: ToolSession, click: Point, referenceLength: Option<real>, sqrt: real -> real)
    requires s.scale.Some?
    ensures ToolClickStep(s, click, referenceLength, sqrt).0.scale == s.scale
  {
  }

  /** The scale and the reference change only on the click that brings the buffer to two points. */
  lemma ToolScaleChangesOnlyOnSecondPoint(s: ToolSession, click: Point, referenceLength: Option<real>, sqrt: real -> real)
    ensures var t := ToolClickStep(s, click, referenceLength, sqrt).0;
            t.scale != s.scale || t.referenceLine != s.referenceLine ==> |s.points| == 1 && s.scale.None?
  {
  }

  /**
   * Calibration on the second point: the new segment becomes the reference,
   * the scale is its pixel length over the entered length, and that segment
   * is then measured at exactly the entered length.
   */
  lemma ToolCalibrationRoundTrip(s: ToolSession, click: Point, referenceLength: real, sqrt: real -> real)
    requires |s.points| == 1 && s.scale.None? && referenceLength != 0.0
    requires PixelLength(s.points[0], click, sqrt) != 0.0
    ensures var (t, o) := ToolClickStep(s, click, Some(referenceLength), sqrt);
            o == Completed && t.referenceLine == Some(|s.lines|)
            && t.scale == Some(PixelLength(s.points[0], click, sqrt) / referenceLength)
            && t.lines[|s.lines|].distance == Some(referenceLength)
  {
    var len := PixelLength(s.points[0], click, sqrt);
    var scale := len / referenceLength;
    assert scale * referenceLength == len;
    assert scale != 0.0;
    assert len / scale == referenceLength;
    var s1 := ToolAppend(s, click);
    var s2 := ToolCalibrateStage(s1, Some(referenceLength), sqrt).0;
    assert s2.scale == Some(scale);
    var s3 := ToolMeasureStage(s2, sqrt);
    assert s3.lines[|s.lines|].distance == Some(len / scale);
  }

  /**
   * The Set Scale command at any time, over a present scale or not: the last
   * segment becomes the reference, and measured at the new scale it has
   * exactly the entered length.
   */
  lemma ToolSetScaleRoundTrip(s: ToolSession, referenceLength: real, sqrt: real -> real)
    requires s.lines != [] && referenceLength != 0.0
    requires PixelLength(s.lines[|s.lines| - 1].start, s.lines[|s.lines| - 1].end, sqrt) != 0.0
    ensures var (t, o) := ToolSetScale(s, Some(referenceLength), sqrt);
            o == Completed && t.referenceLine == Some(|s.lines| - 1)
            && t.scale.Some? && t.scale.value != 0.0
            && MeasureLastSegment(t.lines, t.scale.value, sqrt)[|s.lines| - 1].distance == Some(referenceLength)
  {
    var k := |s.lines| - 1;
    var len := PixelLength(s.lines[k].start, s.lines[k].end, sqrt);
    var scale := len / referenceLength;
    assert scale * referenceLength == len;
    assert scale != 0.0;
    assert len / scale == referenceLength;
    var t := ToolSetScale(s, Some(referenceLength), sqrt).0;
    assert t.scale == Some(scale) && t.lines == s.lines;
  }

  /**
   * Without the duplicate check, walking back along the first segment
   * registers the same pair again the other way round.
   */
  lemma ToolDuplicatePair(a: Point, b: Point)
    requires a == Point(0, 0) && b == Point(10, 0)
    ensures var s := InitialToolSession().(points := [a, b], lines := [ToolSegment(a, b, DefaultColor, None)]);
            var t := ToolClickStep(s, a, None, x => x).0;
            t.lines == [ToolSegment(a, b, DefaultColor, None), ToolSegment(b, a, DefaultColor, None)]
            && !UniquePairs(ToolEnds(t.lines))
  {
    var s := InitialToolSession().(points := [a, b], lines := [ToolSegment(a, b, DefaultColor, None)]);
    var s1 := ToolAppend(s, a);
    assert s1.lines == [ToolSegment(a, b, DefaultColor, None), ToolSegment(b, a, DefaultColor, None)];
    assert ToolCalibrateStage(s1, None, x => x) == (s1, Completed);
    assert ToolMeasureStage(s1, x => x) == s1;
    assert ToolCloseStage(s1).lines == s1.lines;
    assert SamePair(ToolEnds(s1.lines)[0], ToolEnds(s1.lines)[1]);
  }

  /**
   * Without snapping, a shape closed by a click near the first point stores
   * that click, not the first point, as its last vertex.
   */
  lemma ToolRawClosingVertex(a: Point, b: Point, c: Point, click: Point)
    requires a == Point(0, 0) && b == Point(10, 0) && c == Point(10, 10) && click == Point(1, 1)
    ensures var s := InitialToolSession().(points := [a, b, c]);
            var t := ToolClickStep(s, click, None, x => x).0;
            t.points == [] && t.shapes == [[a, b, c, click]] && click != a
  {
    var s := InitialToolSession().(points := [a, b, c]);
    var s1 := ToolAppend(s, click);
    assert s1.points == [a, b, c, click];
    assert ToolCalibrateStage(s1, None, x => x) == (s1, Completed);
    var s3 := ToolMeasureStage(s1, x => x);
    assert s3.points == [a, b, c, click] && s3.shapes == [];
    assert IsCloseToPoint(a, click);
  }

  /**
   * The manual calibration command with no segments and a truthy length
   * clears the reference and raises before any scale is set.
   */
  lemma ToolSetScaleWithoutLines(s: ToolSession, referenceLength: real, sqrt: real -> real)
    requires s.lines == [] && referenceLength != 0.0
    ensures ToolSetScale(s, Some(referenceLength), sqrt) == (s.(referenceLine := None), Raised(NoneAttribute))
  {
  }

  /**
   * A right click that completes selects the first segment whose line passes
   * under it, every earlier one passed over, or clears the selection when
   * none does; nothing else changes.
   */
  lemma ToolRightClickSelects(s: ToolSession, click: Point)
    ensures var (t, o) := ToolRightClick(s, click);
            && t.(selectedLine := s.selectedLine) == s
            && (o == Completed && t.selectedLine.Some? ==>
                  var k := t.selectedLine.value;
                  k < |s.lines| && s.lines[k].start != s.lines[k].end
                  && IsPointOnLine(click, s.lines[k].start, s.lines[k].end)
                  && forall j :: 0 <= j < k ==> PassesOver(click, (s.lines[j].start, s.lines[j].end)))
            && (o == Completed && t.selectedLine.None? ==>
                  forall j :: 0 <= j < |s.lines| ==> PassesOver(click, (s.lines[j].start, s.lines[j].end)))
            && (o.Raised? ==>
                  && t == s && o.fault == DivisionByZero
                  && exists j :: 0 <= j < |s.lines| && s.lines[j].start == s.lines[j].end
                                 && forall i :: 0 <= i < j ==> PassesOver(click, (s.lines[i].start, s.lines[i].end)))
  {
    var ends := ToolEnds(s.lines);
    assert forall j :: 0 <= j < |s.lines| ==> ends[j] == (s.lines[j].start, s.lines[j].end);
  }

  /** The tool object of MeasuringTool.py; its handlers update its fields in place. */
  class MeasurementApp {
    var scale: Option<real>
    var points: seq<Point>
    var shapes: seq<seq<Point>>
    var lines: seq<ToolSegment>
    var referenceLine: Option<nat>
    var selectedLine: Option<nat>

    /** The fields read as one value. */
    function State(): ToolSession
      reads this
    {
      ToolSession(scale, points, shapes, lines, referenceLine, selectedLine)
    }

    /** MeasurementApp.__init__, without the window. */
    constructor()
      ensures State() == InitialToolSession()
    {
      scale := None;
      points := [];
      shapes := [];
      lines := [];
      referenceLine := None;
      selectedLine := None;
    }

    /** MeasurementApp.set_scale, with the prompt's answer as a parameter. */
    method SetScale(referenceLength: Option<real>, sqrt: real -> real) returns (outcome: Outcome)
      modifies this`scale, this`referenceLine
      ensures (State(), outcome) == ToolSetScale(old(State()), referenceLength, sqrt)
    {
      referenceLine := if lines != [] then Some(|lines| - 1) else None;
      if referenceLength.Some? && referenceLength.value != 0.0 {
        if referenceLine.None? {
          return Raised(NoneAttribute);
        }
        var line := lines[referenceLine.value];
        scale := Some(PixelLength(line.start, line.end, sqrt) / referenceLength.value);
      }
      outcome := Completed;
    }

    /** MeasurementApp.calculate_area: the area of every stored shape, in order; nothing changes. */
    method CalculateArea() returns (areas: seq<real>)
      ensures |areas| == |shapes|
      ensures forall k :: 0 <= k < |shapes| ==> areas[k] == PolygonArea(shapes[k]) && areas[k] >= 0.0
    {
      areas := [];
      for i := 0 to |shapes|
        invariant |areas| == i
        invariant forall k :: 0 <= k < i ==> areas[k] == PolygonArea(shapes[k]) && areas[k] >= 0.0
      {
        var area := CalculatePolygonArea(shapes[i]);
        PolygonAreaBounds(shapes[i]);
        areas := areas + [area];
      }
    }

    /** Append the raw click and the segment from the previous point. */
    method AppendClick(click: Point)
      modifies this`points, this`lines
      ensures State() == ToolAppend(old(State()), click)
    {
      points := points + [click];
      if |points| > 1 {
        lines := lines + [ToolSegment(points[|points| - 2], points[|points| - 1], DefaultColor, None)];
      }
    }

    /** Calibrate on the second point while there is no scale. */
    method CalibrateClick(referenceLength: Option<real>, sqrt: real -> real) returns (outcome: Outcome)
      modifies this`scale, this`referenceLine
      ensures (State(), outcome) == ToolCalibrateStage(old(State()), referenceLength, sqrt)
    {
      outcome := Completed;
      if |points| == 2 && scale.None? {
        outcome := SetScale(referenceLength, sqrt);
      }
    }

    /** Measure the last segment once the scale is truthy. */
    method MeasureClick(sqrt: real -> real)
      requires |points| >= 2 ==> lines != []
      modifies this`lines
      ensures State() == ToolMeasureStage(old(State()), sqrt)
    {
      if |points| >= 2 && scale.Some? && scale.value != 0.0 {
        lines := MeasureLastSegment(lines, scale.value, sqrt);
      }
    }

    /** Close the shape when the last point is back near the first, then compute the areas. */
    method CloseClick()
      modifies this`points, this`shapes
      ensures State() == ToolCloseStage(old(State()))
    {
      if |points| >= 3 && IsCloseToPoint(points[0], points[|points| - 1]) {
        shapes := shapes + [points];
        points := [];
        var _ := CalculateArea();
      }
    }

    /** MeasurementApp.on_click, with the prompt's answer as a parameter. */
    method OnClick(click: Point, referenceLength: Option<real>, sqrt: real -> real) returns (outcome: Outcome)
      modifies this
      ensures (State(), outcome) == ToolClickStep(old(State()), click, referenceLength, sqrt)
    {
      AppendClick(click);
      outcome := CalibrateClick(referenceLength, sqrt);
      if outcome.Raised? {
        return;
      }
      MeasureClick(sqrt);
      CloseClick();
    }

    /** MeasurementApp.on_right_click: the for/else scan of the segments under the click. */
    method OnRightClick(click: Point) returns (outcome: Outcome)
      modifies this`selectedLine
      ensures (State(), outcome) == ToolRightClick(old(State()), click)
    {
      var k := 0;
      while k < |lines|
        invariant 0 <= k <= |lines|
        invariant FirstHit(click, ToolEnds(lines), k) == FirstHit(click, ToolEnds(lines), 0)
        invariant State() == old(State())
      {
        var line := lines[k];
        if line.start == line.end {
          return Raised(DivisionByZero);
        }
        if IsPointOnLine(click, line.start, line.end) {
          selectedLine := Some(k);
          return Completed;
        }
        k := k + 1;
      }
      selectedLine := None;
      outcome := Completed;
    }
  }
}
