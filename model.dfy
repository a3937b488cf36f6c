/**
 * The measurement session of model.py: the editing mode, the calibration
 * scale, the vertex buffer, the shape and segment registries and the line
 * selection; the calibration step and the report totals.
 */
module Measurement {
  import opened Wrappers
  import opened Geometry
  import opened Segments
  import opened Shapes

  /** The two editing modes; the menu of the window switches between them. */
  datatype Mode = CreateShape | EditLine

  /** The roof-edge labels a segment can be given, in menu order. */
  const Labels: seq<string> := ["Ridge", "Valley", "Rake", "Eave"]

  /**
   * The whole session as a value. `selectedLine` is the index of the selected
   * segment in `lines`: segments are never removed, so an index names one
   * segment for the rest of the session.
   */
  datatype Session = Session(
    mode: Mode,
    scale: Option<real>,
    points: seq<Point>,
    shapes: seq<Shape>,
    lines: seq<LineSegment>,
    selectedLine: Option<nat>,
    selectedLabel: string)

  /** MeasurementModel.__init__: create-shape mode, no scale, nothing traced, nothing selected. */
  function InitialSession(): (s: Session)
    ensures s.mode == CreateShape && s.scale == None
    ensures s.points == [] && s.shapes == [] && s.lines == []
    ensures s.selectedLine == None && s.selectedLabel == ""
  {
    Session(CreateShape, None, [], [], [], None, "")
  }

  /**
   * MeasurementModel.set_scale on the scale alone. The reference segment is
   * dropped when the registry is empty; a truthy length then reads an
   * attribute of None. A length that is None or zero leaves the scale as it is.
   */
  function Calibrate(scale: Option<real>, lines: seq<LineSegment>, referenceLine: LineSegment,
                     referenceLength: Option<real>, sqrt: real -> real): (r: Result<Option<real>>)
    ensures r.Err? <==> Truthy(referenceLength) && lines == []
    ensures r.Err? ==> r.fault == NoneAttribute
    ensures !Truthy(referenceLength) ==> r == Ok(scale)
    ensures r.Ok? && Truthy(referenceLength) ==> r.value.Some?
  {
    if !Truthy(referenceLength) then Ok(scale)
    else if lines == [] then Err(NoneAttribute)
    else Ok(Some(PixelLength(referenceLine.start, referenceLine.end, sqrt) / referenceLength.value))
  }

  /**
   * Calibration round trip: once the scale is taken from a reference segment
   * of non-zero pixel length, that segment measures exactly the length that
   * was entered.
   */
  lemma CalibrationRoundTrip(lines: seq<LineSegment>, referenceLine: LineSegment,
                             referenceLength: real, sqrt: real -> real)
    requires lines != [] && referenceLength != 0.0
    requires PixelLength(referenceLine.start, referenceLine.end, sqrt) != 0.0
    ensures var r := Calibrate(None, lines, referenceLine, Some(referenceLength), sqrt);
            r.Ok? && r.value.Some? && r.value.value != 0.0
            && CalculateDistance(referenceLine, r.value.value, sqrt) == referenceLength
  {
    var len := PixelLength(referenceLine.start, referenceLine.end, sqrt);
    var scale := len / referenceLength;
    assert scale * referenceLength == len;
    assert scale != 0.0;
    assert len / scale == referenceLength;
  }

  /**
   * A reference segment whose endpoints coincide calibrates to a scale of
   * zero: the scale is then present but falsy, so no distance is measured
   * with it, and calibration is not offered again.
   */
  lemma CalibrateZeroLength(lines: seq<LineSegment>, referenceLine: LineSegment,
                            referenceLength: real, sqrt: real -> real)
    requires IsSqrt(sqrt)
    requires lines != [] && referenceLength != 0.0
    requires referenceLine.start == referenceLine.end
    ensures Calibrate(None, lines, referenceLine, Some(referenceLength), sqrt) == Ok(Some(0.0))
  {
    assert SquaredDistance(referenceLine.start, referenceLine.end) == 0;
  }

  /** The report totals: summed distances, summed areas, and how many segments carry each label. */
  datatype Report = Report(distanceTotal: real, areaTotal: real, labelCounts: multiset<string>)

  /**
   * The left-to-right sum of an accumulator loop over optional numbers; the
   * first None raises, as adding None (or rounding it) does.
   */
  function Total(xs: seq<Option<real>>): (r: Result<real>)
    ensures r.Ok? <==> forall k :: 0 <= k < |xs| ==> xs[k].Some?
    ensures r.Err? ==> r.fault == NoneOperand
  {
    if xs == [] then Ok(0.0)
    else
      match Total(xs[..|xs| - 1])
      case Err(f) => Err(f)
      case Ok(t) =>
        if xs[|xs| - 1].None? then Err(NoneOperand) else Ok(t + xs[|xs| - 1].value)
  }

  /** The measured distances of the registry, in registry order. */
  function Distances(lines: seq<LineSegment>): (ds: seq<Option<real>>)
    ensures |ds| == |lines|
    ensures forall k :: 0 <= k < |lines| ==> ds[k] == lines[k].distance
  {
    seq(|lines|, k requires 0 <= k < |lines| => lines[k].distance)
  }

  /** The areas of the closed shapes, in registry order. */
  function Areas(shapes: seq<Shape>): (areas: seq<Option<real>>)
    ensures |areas| == |shapes|
    ensures forall k :: 0 <= k < |shapes| ==> areas[k] == shapes[k].area
  {
    seq(|shapes|, k requires 0 <= k < |shapes| => shapes[k].area)
  }

  /** The label of each segment, in registry order: the list the report counts. */
  function LabelList(lines: seq<LineSegment>): (ls: seq<string>)
    ensures |ls| == |lines|
    ensures forall k :: 0 <= k < |lines| ==> ls[k] == lines[k].lineLabel
  {
    seq(|lines|, k requires 0 <= k < |lines| => lines[k].lineLabel)
  }

  /**
   * MeasurementModel.generate_report: the distance loop, then the area loop,
   * then the label counts. A segment without a distance or a shape without an
   * area makes the loop raise.
   */
  function ReportOf(lines: seq<LineSegment>, shapes: seq<Shape>): (r: Result<Report>)
    ensures r.Ok? <==> (forall k :: 0 <= k < |lines| ==> lines[k].distance.Some?)
                       && (forall k :: 0 <= k < |shapes| ==> shapes[k].area.Some?)
    ensures r.Err? ==> r.fault == NoneOperand
    ensures r.Ok? ==> r.value.distanceTotal == Total(Distances(lines)).value
    ensures r.Ok? ==> r.value.areaTotal == Total(Areas(shapes)).value
    ensures r.Ok? ==> r.value.labelCounts == multiset(LabelList(lines))
    ensures r.Ok? ==> |r.value.labelCounts| == |lines|
    ensures r.Ok? ==> forall k :: 0 <= k < |lines| ==> lines[k].lineLabel in r.value.labelCounts
  {
    var ds := Distances(lines);
    var areas := Areas(shapes);
    assert forall k :: 0 <= k < |lines| ==> ds[k] == lines[k].distance;
    match Total(ds)
    case Err(f) => Err(f)
    case Ok(d) =>
      match Total(areas)
      case Err(f) => Err(f)
      case Ok(a) =>
        var labels := LabelList(lines);
        assert forall k :: 0 <= k < |lines| ==> labels[k] in multiset(labels);
        Ok(Report(d, a, multiset(labels)))
  }

  /** Appending a measured value adds it to the total. */
  lemma TotalAppend(xs: seq<Option<real>>, v: real)
    requires Total(xs).Ok?
    ensures Total(xs + [Some(v)]) == Ok(Total(xs).value + v)
  {
    assert (xs + [Some(v)])[..|xs|] == xs;
  }

  /** The total of non-negative values is not negative. */
  lemma {:induction false} TotalNonNegative(xs: seq<Option<real>>)
    requires forall k :: 0 <= k < |xs| ==> xs[k].Some? && xs[k].value >= 0.0
    ensures Total(xs).Ok? && Total(xs).value >= 0.0
  {
    if xs != [] {
      TotalNonNegative(xs[..|xs| - 1]);
    }
  }

  /**
   * Replacing one measured value by another changes the total by exactly the
   * difference: the total is the plain sum, with no position weighting.
   */
  lemma {:induction false} TotalUpdate(xs: seq<Option<real>>, k: nat, v: real)
    requires Total(xs).Ok? && k < |xs|
    ensures Total(xs[k := Some(v)]).Ok?
    ensures Total(xs[k := Some(v)]).value == Total(xs).value - xs[k].value + v
  {
    var n := |xs|;
    var ys := xs[k := Some(v)];
    assert ys[..n - 1] == if k == n - 1 then xs[..n - 1] else xs[..n - 1][k := Some(v)];
    if k < n - 1 {
      TotalUpdate(xs[..n - 1], k, v);
    }
  }

  /**
   * Relabelling one segment moves one count from its old label to the new
   * one and leaves every other count as it was.
   */
  lemma RelabelCounts(lines: seq<LineSegment>, k: nat, newLabel: string)
    requires k < |lines|
    ensures multiset(LabelList(lines[k := lines[k].(lineLabel := newLabel)]))
         == multiset(LabelList(lines)) - multiset{lines[k].lineLabel} + multiset{newLabel}
  {
    var after := lines[k := lines[k].(lineLabel := newLabel)];
    assert LabelList(after) == LabelList(lines)[k := newLabel];
  }

  /**
   * The report after relabelling one segment: it can be produced exactly when
   * it could before, with the same totals, and one label count moved.
   */
  lemma ReportRelabel(lines: seq<LineSegment>, shapes: seq<Shape>, k: nat, newLabel: string)
    requires k < |lines|
    ensures var after := lines[k := lines[k].(lineLabel := newLabel)];
            && ReportOf(after, shapes).Ok? == ReportOf(lines, shapes).Ok?
            && (ReportOf(lines, shapes).Ok? ==>
                  && ReportOf(after, shapes).value.distanceTotal == ReportOf(lines, shapes).value.distanceTotal
                  && ReportOf(after, shapes).value.areaTotal == ReportOf(lines, shapes).value.areaTotal
                  && ReportOf(after, shapes).value.labelCounts
                     == ReportOf(lines, shapes).value.labelCounts - multiset{lines[k].lineLabel} + multiset{newLabel})
  {
    var after := lines[k := lines[k].(lineLabel := newLabel)];
    RelabelCounts(lines, k, newLabel);
    assert Distances(after) == Distances(lines);
  }

  /**
   * The model object of model.py. Its fields are the session's; the event
   * handlers of the controller update them in place.
   */
  class MeasurementModel {
    var mode: Mode
    var scale: Option<real>
    var points: seq<Point>
    var shapes: seq<Shape>
    var lines: seq<LineSegment>
    var selectedLine: Option<nat>
    var selectedLabel: string
    const labels: seq<string>

    /** The fields read as one session value. */
    function State(): Session
      reads this
    {
      Session(mode, scale, points, shapes, lines, selectedLine, selectedLabel)
    }

    /** MeasurementModel.__init__. */
    constructor()
      ensures State() == InitialSession()
      ensures labels == ["Ridge", "Valley", "Rake", "Eave"]
    {
      mode := CreateShape;
      scale := None;
      points := [];
      shapes := [];
      lines := [];
      selectedLine := None;
      selectedLabel := "";
      labels := Labels;
    }

    /**
     * MeasurementModel.set_scale: writes the scale and nothing else; when it
     * raises, the scale is as it was.
     */
    method SetScale(referenceLine: LineSegment, referenceLength: Option<real>, sqrt: real -> real)
      returns (outcome: Outcome)
      modifies this`scale
      ensures var r := Calibrate(old(scale), lines, referenceLine, referenceLength, sqrt);
              (r.Ok? ==> scale == r.value && outcome == Completed)
              && (r.Err? ==> scale == old(scale) && outcome == Raised(r.fault))
    {
      var reference: Option<LineSegment> := if lines != [] then Some(referenceLine) else None;
      if referenceLength.Some? && referenceLength.value != 0.0 {
        if reference.None? {
          return Raised(NoneAttribute);
        }
        var a, b := reference.value.start, reference.value.end;
        var pixels := sqrt(SquaredDistance(a, b) as real);
        scale := Some(pixels / referenceLength.value);
      }
      outcome := Completed;
    }

    /** MeasurementModel.generate_report, read-only. */
    function GenerateReport(): (r: Result<Report>)
      reads this
      ensures r.Err? <==> (exists k :: 0 <= k < |lines| && lines[k].distance.None?)
                          || (exists k :: 0 <= k < |shapes| && shapes[k].area.None?)
    {
      ReportOf(lines, shapes)
    }
  }
}
