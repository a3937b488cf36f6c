/**
 * The closed polygons of Shape.py: the shoelace area in pixels, the flat area
 * in real units, and the roof-pitch correction.
 */
module Shapes {
  import opened Wrappers
  import opened Geometry

  /** A roof slope as rise over run. */
  datatype Pitch = Pitch(rise: int, run: int)

  /** The pitch every new shape gets: 6 in 12. */
  const DefaultPitch: Pitch := Pitch(6, 12)

  /** A closed roof plane: its vertices, its pitch-adjusted area once computed, and its pitch. */
  datatype Shape = Shape(vertices: seq<Point>, area: Option<real>, pitch: Pitch)

  /** Shape.__init__: the given vertices, no area yet, pitch 6/12. */
  function NewShape(vertices: seq<Point>): (shape: Shape)
    ensures shape.vertices == vertices && shape.area == None && shape.pitch == Pitch(6, 12)
  {
    Shape(vertices, None, DefaultPitch)
  }

  /** One edge's term of the shoelace sum. */
  function ShoelaceTerm(a: Point, b: Point): int
  {
    a.x * b.y - b.x * a.y
  }

  /** Twice the signed area: the shoelace terms over the cyclic edges. */
  function ShoelaceSum(vs: seq<Point>): int
  {
    CyclicSum(vs, ShoelaceTerm)
  }

  /** The polygon area in square pixels, zero below three vertices. */
  function PolygonArea(vs: seq<Point>): real
  {
    if |vs| < 3 then 0.0 else (Abs(ShoelaceSum(vs)) as real) / 2.0
  }

  /** Shape.calculate_polygon_area: the accumulator loop over the edges `(i, (i + 1) % n)`. */
  method CalculatePolygonArea(vertices: seq<Point>) returns (area: real)
    ensures area == PolygonArea(vertices)
  {
    var n := |vertices|;
    if n < 3 {
      return 0.0;
    }
    var sum := 0;
    for i := 0 to n
      invariant sum == ChainSum(Closed(vertices)[..i + 1], ShoelaceTerm)
    {
      var a, b := vertices[i], vertices[(i + 1) % n];
      ChainSumStep(vertices, i, ShoelaceTerm);
      sum := sum + (a.x * b.y - b.x * a.y);
    }
    assert Closed(vertices)[..n + 1] == Closed(vertices);
    area := (Abs(sum) as real) / 2.0;
  }

  /**
   * Shape.calculate_flat_area: square pixels converted to square real units,
   * the pixel area divided by the square of the scale (written as two
   * divisions by the scale, the same real number).
   */
  function CalculateFlatArea(shape: Shape, scale: real): real
    requires scale != 0.0
  {
    PolygonArea(shape.vertices) / scale / scale
  }

  /** The slope correction `sqrt((rise / run)² + 1)`. */
  function PitchMultiplier(pitch: Pitch, sqrt: real -> real): real
    requires pitch.run != 0
  {
    var ratio := (pitch.rise as real) / (pitch.run as real);
    sqrt(ratio * ratio + 1.0)
  }

  /**
   * Shape.area_including_pitch: the flat area times the pitch multiplier. The
   * source divides by the run, squares the scale and divides by that square,
   * in that order, so a zero run, a missing scale and a zero scale raise.
   */
  function AreaIncludingPitch(shape: Shape, scale: Option<real>, sqrt: real -> real): Result<real>
  {
    if shape.pitch.run == 0 then Err(DivisionByZero)
    else if scale.None? then Err(NoneOperand)
    else if scale.value == 0.0 then Err(DivisionByZero)
    else Ok(CalculateFlatArea(shape, scale.value) * PitchMultiplier(shape.pitch, sqrt))
  }

  /** The area is never negative, and it is zero below three vertices. */
  lemma PolygonAreaBounds(vs: seq<Point>)
    ensures PolygonArea(vs) >= 0.0
    ensures |vs| < 3 ==> PolygonArea(vs) == 0.0
  {
  }

  /** The area does not depend on the vertex the outline starts from. */
  lemma PolygonAreaRotate(vs: seq<Point>, k: nat)
    requires k <= |vs|
    ensures PolygonArea(Rotate(vs, k)) == PolygonArea(vs)
  {
    CyclicSumRotate(vs, k, ShoelaceTerm);
  }

  lemma ShoelaceTermAntisymmetric()
    ensures forall a, b :: ShoelaceTerm(b, a) == -1 * ShoelaceTerm(a, b)
  {
  }

  /** Reversing the winding flips the sign of the shoelace sum, which the absolute value removes. */
  lemma PolygonAreaReverse(vs: seq<Point>)
    ensures ShoelaceSum(Reverse(vs)) == -ShoelaceSum(vs)
    ensures PolygonArea(Reverse(vs)) == PolygonArea(vs)
  {
    ShoelaceTermAntisymmetric();
    CyclicSumReverse(vs, ShoelaceTerm, -1);
  }

  /**
   * Repeating the first vertex at the end, as a closed buffer does, leaves the
   * area unchanged: the extra edge has length zero.
   */
  lemma PolygonAreaClosingVertex(vs: seq<Point>)
    requires vs != []
    ensures ShoelaceSum(vs + [vs[0]]) == ShoelaceSum(vs)
    ensures PolygonArea(vs + [vs[0]]) == PolygonArea(vs)
  {
    CyclicSumClosingVertex(vs, ShoelaceTerm);
    if |vs| == 2 {
      var a, b := vs[0], vs[1];
      assert Closed(vs) == [a, b, a];
      assert [a, b, a][..2] == [a, b];
      assert [a, b][..1] == [a];
      assert ChainSum([a, b], ShoelaceTerm) == ShoelaceTerm(a, b);
      assert ChainSum([a, b, a], ShoelaceTerm) == ShoelaceTerm(a, b) + ShoelaceTerm(b, a);
    }
  }

  /** An axis-aligned w by h rectangle, corner at the origin, traced as on screen. */
  function Rectangle(w: int, h: int): seq<Point>
  {
    [Point(0, 0), Point(w, 0), Point(w, h), Point(0, h)]
  }

  /** The shoelace sum of the rectangle is twice its signed area. */
  lemma RectangleShoelace(w: int, h: int)
    ensures ShoelaceSum(Rectangle(w, h)) == 2 * (w * h)
  {
    var p0, p1, p2, p3 := Point(0, 0), Point(w, 0), Point(w, h), Point(0, h);
    assert Closed(Rectangle(w, h)) == [p0, p1] + [p2, p3, p0];
    ChainSumConcat([p0], [p1], ShoelaceTerm);
    assert [p0] + [p1] == [p0, p1];
    ChainSumConcat([p2], [p3], ShoelaceTerm);
    assert [p2] + [p3] == [p2, p3];
    ChainSumConcat([p2, p3], [p0], ShoelaceTerm);
    assert [p2, p3] + [p0] == [p2, p3, p0];
    ChainSumConcat([p0, p1], [p2, p3, p0], ShoelaceTerm);
  }

  /** A w by h pixel rectangle has an area of |w * h| square pixels, whichever way it is traced. */
  lemma RectangleArea(w: int, h: int)
    ensures PolygonArea(Rectangle(w, h)) == Abs(w * h) as real
  {
    RectangleShoelace(w, h);
  }

  /** Dividing a non-negative number twice by the same non-zero number gives a non-negative number. */
  lemma QuotientNonNegative(a: real, s: real)
    requires 0.0 <= a && s != 0.0
    ensures 0.0 <= a / s / s
  {
    var q := a / s;
    assert q * s == a;
    assert (q / s) * s == q;
    if s > 0.0 {
      assert q >= 0.0;
    } else {
      assert q <= 0.0;
    }
  }

  /**
   * The pitch-adjusted area is defined exactly when the run and the scale are
   * non-zero, and is then at least the flat area, which is not negative.
   */
  lemma AreaIncludingPitchBounds(shape: Shape, scale: Option<real>, sqrt: real -> real)
    requires IsSqrt(sqrt)
    ensures AreaIncludingPitch(shape, scale, sqrt).Ok? <==> shape.pitch.run != 0 && Truthy(scale)
    ensures AreaIncludingPitch(shape, scale, sqrt).Ok? ==>
              0.0 <= CalculateFlatArea(shape, scale.value) <= AreaIncludingPitch(shape, scale, sqrt).value
  {
    if shape.pitch.run != 0 && Truthy(scale) {
      var s := scale.value;
      var flat := CalculateFlatArea(shape, s);
      var ratio := (shape.pitch.rise as real) / (shape.pitch.run as real);
      var q := ratio * ratio + 1.0;
      assert ratio * ratio >= 0.0;
      var m := PitchMultiplier(shape.pitch, sqrt);
      assert 0.0 <= m && m * m == q;
      RootBelow(m, q, 1.0);
      assert m >= 1.0;
      PolygonAreaBounds(shape.vertices);
      QuotientNonNegative(PolygonArea(shape.vertices), s);
      MulMonotone(1.0, m, flat);
    }
  }
}
