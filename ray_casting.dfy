/**
 * The ray-casting containment test of controller.py: a horizontal ray from
 * the click towards negative x, and the parity of the edges it crosses.
 */
module RayCasting {
  import opened Geometry
  import opened Shapes

  /** The edge from `a` to `b` spans the row `y`, lower end included and upper end excluded. */
  predicate Straddles(y: int, a: Point, b: Point)
  {
    (a.y <= y < b.y) || (b.y <= y < a.y)
  }

  /**
   * The edge meets the row of `p` strictly left of `p`, with the source's
   * interpolation `x1 + (y - y1) / (y2 - y1) * (x2 - x1)` in real division.
   */
  predicate CrossesLeftOf(p: Point, a: Point, b: Point)
    requires a.y != b.y
  {
    (a.x as real) + ((p.y - a.y) as real) / ((b.y - a.y) as real) * ((b.x - a.x) as real) < p.x as real
  }

  /** One edge's contribution to the crossing count of `p`. */
  function CrossingAt(p: Point): (Point, Point) -> int
  {
    (a: Point, b: Point) => if Straddles(p.y, a, b) && CrossesLeftOf(p, a, b) then 1 else 0
  }

  /** The number of edges of the cyclic vertex list that the ray from `p` crosses. */
  function CrossingCount(p: Point, vs: seq<Point>): int
  {
    CyclicSum(vs, CrossingAt(p))
  }

  /** An odd number of crossings puts `p` inside. */
  predicate PointInPolygon(p: Point, vs: seq<Point>)
  {
    CrossingCount(p, vs) % 2 == 1
  }

  /** controller.py is_point_in_shape: the counting loop over the edges `(i, (i + 1) % n)`. */
  method IsPointInShape(p: Point, vertices: seq<Point>) returns (inside: bool)
    ensures inside == PointInPolygon(p, vertices)
  {
    var n := |vertices|;
    if n == 0 {
      return false;
    }
    var count := 0;
    for i := 0 to n
      invariant count == ChainSum(Closed(vertices)[..i + 1], CrossingAt(p))
    {
      var a, b := vertices[i], vertices[(i + 1) % n];
      ChainSumStep(vertices, i, CrossingAt(p));
      if (a.y <= p.y < b.y) || (b.y <= p.y < a.y) {
        if (a.x as real) + ((p.y - a.y) as real) / ((b.y - a.y) as real) * ((b.x - a.x) as real) < p.x as real {
          count := count + 1;
        }
      }
    }
    assert Closed(vertices)[..n + 1] == Closed(vertices);
    inside := count % 2 == 1;
  }

  /** Multiplying both sides of a comparison by a non-zero number, flipping it for a negative one. */
  lemma CompareScaled(x: real, c: real, d: real)
    requires d != 0.0
    ensures x < c <==> (if d > 0.0 then x * d < c * d else x * d > c * d)
  {
    if d > 0.0 {
      if x < c {
        MulStrictMonotone(x, c, d);
      } else {
        MulMonotone(c, x, d);
      }
    } else {
      if x < c {
        MulStrictMonotone(x, c, -d);
        assert x * (-d) == -(x * d);
        assert c * (-d) == -(c * d);
      } else {
        MulMonotone(c, x, -d);
        assert x * (-d) == -(x * d);
        assert c * (-d) == -(c * d);
      }
    }
  }

  /** The integer numerator of the crossing test: negative when `p` lies left of the line from `a` to `b`. */
  function Side(p: Point, a: Point, b: Point): int
  {
    (p.y - a.y) * (b.x - a.x) - (p.x - a.x) * (b.y - a.y)
  }

  /**
   * The interpolated crossing test in exact integers: multiplying out the
   * division by `y2 - y1` turns it into a sign test of `Side`, with the sign
   * of `y2 - y1` deciding which side counts.
   */
  lemma CrossesLeftOfAsInteger(p: Point, a: Point, b: Point)
    requires a.y != b.y
    ensures CrossesLeftOf(p, a, b) <==> (if b.y > a.y then Side(p, a, b) < 0 else Side(p, a, b) > 0)
  {
    var dy := (p.y - a.y) as real;
    var d := (b.y - a.y) as real;
    var w := (b.x - a.x) as real;
    var c := (p.x - a.x) as real;
    var q := dy / d;
    assert q * d == dy;
    var x := q * w;
    assert x * d == dy * w by {
      assert (q * w) * d == (q * d) * w;
    }
    assert dy * w == ((p.y - a.y) * (b.x - a.x)) as real;
    assert c * d == ((p.x - a.x) * (b.y - a.y)) as real;
    assert CrossesLeftOf(p, a, b) <==> x < c;
    CompareScaled(x, c, d);
  }

  /** Swapping the ends of an edge negates `Side`. */
  lemma SideSwap(p: Point, a: Point, b: Point)
    ensures Side(p, b, a) == -Side(p, a, b)
  {
    assert (p.y - b.y) * (a.x - b.x) == (p.y - a.y) * (a.x - b.x) + (a.y - b.y) * (a.x - b.x);
    assert (p.x - b.x) * (a.y - b.y) == (p.x - a.x) * (a.y - b.y) + (a.x - b.x) * (a.y - b.y);
  }

  /** An edge is crossed or not whichever way round it is walked. */
  lemma CrossingSymmetric(p: Point, a: Point, b: Point)
    ensures CrossingAt(p)(b, a) == CrossingAt(p)(a, b)
  {
    if Straddles(p.y, a, b) {
      CrossesLeftOfAsInteger(p, a, b);
      CrossesLeftOfAsInteger(p, b, a);
      SideSwap(p, a, b);
    }
  }

  /** No edge from a vertex to itself is crossed. */
  lemma CrossingDegenerate(p: Point)
    ensures forall a :: CrossingAt(p)(a, a) == 0
  {
  }

  /** The containment test does not depend on the vertex the outline starts from. */
  lemma PointInPolygonRotate(p: Point, vs: seq<Point>, k: nat)
    requires k <= |vs|
    ensures PointInPolygon(p, Rotate(vs, k)) == PointInPolygon(p, vs)
  {
    CyclicSumRotate(vs, k, CrossingAt(p));
  }

  /** The containment test does not depend on the winding of the outline. */
  lemma PointInPolygonReverse(p: Point, vs: seq<Point>)
    ensures CrossingCount(p, Reverse(vs)) == CrossingCount(p, vs)
    ensures PointInPolygon(p, Reverse(vs)) == PointInPolygon(p, vs)
  {
    forall a, b
      ensures CrossingAt(p)(b, a) == 1 * CrossingAt(p)(a, b)
    {
      CrossingSymmetric(p, a, b);
    }
    CyclicSumReverse(vs, CrossingAt(p), 1);
  }

  /**
   * The closing duplicate a closed shape stores adds an edge of no height,
   * so the containment test of a stored shape is that of its outline.
   */
  lemma PointInPolygonClosingVertex(p: Point, vs: seq<Point>)
    requires vs != []
    ensures PointInPolygon(p, vs + [vs[0]]) == PointInPolygon(p, vs)
  {
    CrossingDegenerate(p);
    CyclicSumClosingVertex(vs, CrossingAt(p));
  }

  /**
   * On a row the rectangle spans, the ray from `p` crosses the left side when
   * `p` is right of it and the right side when `p` is right of that, so the
   * test accepts exactly the points from just inside the left side up to and
   * including the right side.
   */
  lemma RectangleContainment(w: int, h: int, p: Point)
    requires w > 0 && h > 0 && 0 <= p.y < h
    ensures PointInPolygon(p, Rectangle(w, h)) <==> 0 < p.x <= w
  {
    var f := CrossingAt(p);
    var p0, p1, p2, p3 := Point(0, 0), Point(w, 0), Point(w, h), Point(0, h);
    assert Closed(Rectangle(w, h)) == [p0, p1] + [p2, p3, p0];
    ChainSumConcat([p0], [p1], f);
    assert [p0] + [p1] == [p0, p1];
    ChainSumConcat([p2], [p3], f);
    assert [p2] + [p3] == [p2, p3];
    ChainSumConcat([p2, p3], [p0], f);
    assert [p2, p3] + [p0] == [p2, p3, p0];
    ChainSumConcat([p0, p1], [p2, p3, p0], f);
    assert f(p0, p1) == 0 && f(p2, p3) == 0;
    CrossesLeftOfAsInteger(p, p1, p2);
    CrossesLeftOfAsInteger(p, p3, p0);
    assert f(p1, p2) == (if w < p.x then 1 else 0);
    assert f(p3, p0) == (if 0 < p.x then 1 else 0);
  }
}
