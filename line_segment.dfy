/** The segment record of LineSegment.py and its real-world length. */
module Segments {
  import opened Wrappers
  import opened Geometry

  /** The label a new segment carries. */
  const DefaultLabel: string := "Eave"

  /**
   * One traced roof edge: its endpoints in click order, its real-world length
   * once a scale is known, and its roof-edge label.
   */
  datatype LineSegment = LineSegment(start: Point, end: Point, distance: Option<real>, lineLabel: string)

  /** LineSegment.__init__: endpoints in the given order, no distance yet, labelled "Eave". */
  function NewLineSegment(start: Point, end: Point): (seg: LineSegment)
    ensures seg.start == start && seg.end == end
    ensures seg.distance == None && seg.lineLabel == "Eave"
  {
    LineSegment(start, end, None, DefaultLabel)
  }

  /** LineSegment.calculate_distance: the pixel length converted to real units. */
  function CalculateDistance(seg: LineSegment, scale: real, sqrt: real -> real): real
    requires scale != 0.0
  {
    PixelLength(seg.start, seg.end, sqrt) / scale
  }

  /** The endpoint pairs of a registry, in registry order. */
  function Ends(lines: seq<LineSegment>): (ends: seq<(Point, Point)>)
    ensures |ends| == |lines|
    ensures forall k :: 0 <= k < |lines| ==> ends[k] == (lines[k].start, lines[k].end)
  {
    seq(|lines|, k requires 0 <= k < |lines| => (lines[k].start, lines[k].end))
  }

  /** Some entry of the registry spans the undirected pair {a, b}. */
  predicate HasPair(lines: seq<LineSegment>, a: Point, b: Point)
  {
    exists k :: 0 <= k < |lines| && SamePair((lines[k].start, lines[k].end), (a, b))
  }

  /** The distance is the pixel length divided by the scale: multiplying back gives the pixel length. */
  lemma CalculateDistanceTimesScale(seg: LineSegment, scale: real, sqrt: real -> real)
    requires scale != 0.0
    ensures CalculateDistance(seg, scale, sqrt) * scale == PixelLength(seg.start, seg.end, sqrt)
  {
  }

  /** The length does not depend on which endpoint was clicked first. */
  lemma CalculateDistanceSymmetric(seg: LineSegment, scale: real, sqrt: real -> real)
    requires scale != 0.0
    ensures CalculateDistance(seg.(start := seg.end, end := seg.start), scale, sqrt)
         == CalculateDistance(seg, scale, sqrt)
  {
    IsCloseToPointSymmetric(seg.start, seg.end);
  }

  /** A segment has length zero exactly when its endpoints coincide, and a negative length never. */
  lemma CalculateDistanceZero(seg: LineSegment, scale: real, sqrt: real -> real)
    requires IsSqrt(sqrt)
    requires scale > 0.0
    ensures CalculateDistance(seg, scale, sqrt) >= 0.0
    ensures CalculateDistance(seg, scale, sqrt) == 0.0 <==> seg.start == seg.end
  {
    var d2 := SquaredDistance(seg.start, seg.end) as real;
    var len := PixelLength(seg.start, seg.end, sqrt);
    assert 0.0 <= len && len * len == d2;
    if seg.start != seg.end {
      SquaredDistancePositive(seg.start, seg.end);
      assert len != 0.0;
    } else {
      assert d2 == 0.0;
    }
  }
}
