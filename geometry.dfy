/**
 * Pixel-space primitives shared by the controller, the shape code and the
 * earlier single-file tool: integer points, the 5 px proximity and line-hit
 * tests in exact squared form, and cyclic edge sums over a vertex list.
 */
module Geometry {

  /** A canvas position in whole pixels, as a mouse event delivers it. */
  datatype Point = Point(x: int, y: int)

  /** Snap, closure and hit tolerance, in pixels. */
  const Tolerance: int := 5

  function Sq(n: int): nat
  {
    if n < 0 then (-n) * (-n) else n * n
  }

  function Abs(n: int): nat
  {
    if n < 0 then -n else n
  }

  /** Squared Euclidean distance in pixels. */
  function SquaredDistance(p: Point, q: Point): nat
  {
    Sq(q.x - p.x) + Sq(q.y - p.y)
  }

  /**
   * The square root the source takes with `** 0.5` and `math.sqrt`: it is an
   * external numeric primitive, so the model is parametric in it, and this
   * predicate says what a square root is. (The root of zero is pinned
   * separately: it follows from the first conjunct, but the solver does not
   * derive it from a product that equals zero.)
   */
  ghost predicate IsSqrt(sqrt: real -> real)
  {
    && (forall x: real :: 0.0 <= x ==> 0.0 <= sqrt(x) && sqrt(x) * sqrt(x) == x)
    && sqrt(0.0) == 0.0
  }

  /** Pixel length of the segment from `a` to `b`. */
  function PixelLength(a: Point, b: Point, sqrt: real -> real): real
  {
    sqrt(SquaredDistance(a, b) as real)
  }

  /** Two points closer than the tolerance, with both sides of `sqrt(d2) < 5` squared. */
  predicate IsCloseToPoint(p: Point, q: Point)
  {
    SquaredDistance(p, q) < Tolerance * Tolerance
  }

  /**
   * Twice the signed area of the triangle (p, a, b): the numerator of the
   * perpendicular distance from `p` to the line through `a` and `b`.
   */
  function LineCross(p: Point, a: Point, b: Point): int
  {
    (b.x - a.x) * (a.y - p.y) - (a.x - p.x) * (b.y - a.y)
  }

  /**
   * The hit test: `p` lies closer than the tolerance to the infinite line
   * through `a` and `b`. The source divides by the length of the segment, so
   * the test is undefined for coincident endpoints.
   */
  predicate IsPointOnLine(p: Point, a: Point, b: Point)
    requires a != b
  {
    Sq(LineCross(p, a, b)) < Tolerance * Tolerance * SquaredDistance(a, b)
  }

  lemma SqIsProduct(n: int)
    ensures Sq(n) as real == (n as real) * (n as real)
    ensures Sq(n) == n * n
  {
  }

  lemma SquaredDistancePositive(a: Point, b: Point)
    requires a != b
    ensures SquaredDistance(a, b) > 0
  {
    SqIsProduct(b.x - a.x);
    SqIsProduct(b.y - a.y);
  }

  lemma MulMonotone(a: real, b: real, c: real)
    requires a <= b && 0.0 <= c
    ensures a * c <= b * c
  {
    assert (b - a) * c >= 0.0;
  }

  lemma MulStrictMonotone(a: real, b: real, c: real)
    requires a < b && 0.0 < c
    ensures a * c < b * c
  {
    assert (b - a) * c > 0.0;
  }

  /** For non-negative `s` with `s * s == d`, comparing `s` with `t` is comparing `d` with `t * t`. */
  lemma RootBelow(s: real, d: real, t: real)
    requires 0.0 <= s && s * s == d && 0.0 < t
    ensures s < t <==> d < t * t
  {
    var ts := t * s;
    var tt := t * t;
    if s < t {
      assert d <= ts by { assert (t - s) * s >= 0.0; }
      assert ts < tt by { assert (t - s) * t > 0.0; }
    } else {
      assert d >= ts by { assert (s - t) * s >= 0.0; }
      assert ts >= tt by { assert (s - t) * t >= 0.0; }
    }
  }

  /** The root of a square of a non-negative number is that number. */
  lemma RootOfSquare(sqrt: real -> real, t: real, d: real)
    requires IsSqrt(sqrt) && 0.0 < t && t * t == d
    ensures sqrt(d) == t
  {
    var s := sqrt(d);
    RootBelow(s, d, t);
    RootBelow(t, d, s + t);
    if t < s {
      RootBelow(t, d, s);
    }
  }

  /** Dividing by a positive length preserves a strict comparison. */
  lemma DivBelow(c: real, len: real, t: real)
    requires 0.0 < len
    ensures c / len < t <==> c < t * len
  {
    var q := c / len;
    assert q * len == c;
    if q < t {
      MulStrictMonotone(q, t, len);
    } else {
      MulMonotone(t, q, len);
    }
  }

  /** The squared proximity test agrees with the source's `sqrt(dx² + dy²) < 5`. */
  lemma IsCloseToPointAsRoot(p: Point, q: Point, sqrt: real -> real)
    requires IsSqrt(sqrt)
    ensures IsCloseToPoint(p, q) <==> PixelLength(p, q, sqrt) < 5.0
  {
    var d := SquaredDistance(p, q) as real;
    assert 0.0 <= sqrt(d) && sqrt(d) * sqrt(d) == d;
    RootBelow(sqrt(d), d, 5.0);
  }

  /** Proximity does not depend on which point is the click. */
  lemma IsCloseToPointSymmetric(p: Point, q: Point)
    ensures IsCloseToPoint(p, q) == IsCloseToPoint(q, p)
    ensures SquaredDistance(p, q) == SquaredDistance(q, p)
  {
  }

  /** A point always passes the proximity test against itself. */
  lemma IsCloseToPointReflexive(p: Point)
    ensures IsCloseToPoint(p, p)
  {
  }

  /** The integer hit test `c² < 25·l²` read over reals, with `len` a root of `l²`. */
  lemma HitTestAsReals(c: int, l2: nat, len: real)
    requires l2 > 0 && 0.0 <= len && len * len == l2 as real
    ensures len > 0.0
    ensures Sq(c) < Tolerance * Tolerance * l2
            <==> (Abs(c) as real) * (Abs(c) as real) < (5.0 * len) * (5.0 * len)
  {
    var ac := Abs(c) as real;
    assert ac * ac == Sq(c) as real by {
      SqIsProduct(c);
      assert (Abs(c) as real) * (Abs(c) as real) == (c as real) * (c as real);
    }
    assert (5.0 * len) * (5.0 * len) == 25.0 * (len * len);
    assert (Tolerance * Tolerance * l2) as real == 25.0 * (l2 as real);
  }

  /** The integer hit test `c² < 25·l²` is the quotient test `abs(c) / len < 5`, with `len` a root of `l²`. */
  lemma HitTestAsQuotient(c: int, l2: nat, len: real)
    requires l2 > 0 && 0.0 <= len && len * len == l2 as real
    ensures len > 0.0
    ensures Sq(c) < Tolerance * Tolerance * l2 <==> (Abs(c) as real) / len < 5.0
  {
    var ac := Abs(c) as real;
    HitTestAsReals(c, l2, len);
    RootBelow(ac, ac * ac, 5.0 * len);
    DivBelow(ac, len, 5.0);
  }

  /**
   * The squared hit test agrees with the source's
   * `abs(cross) / sqrt(len²) < 5` whenever the endpoints differ.
   */
  lemma IsPointOnLineAsRoot(p: Point, a: Point, b: Point, sqrt: real -> real)
    requires IsSqrt(sqrt)
    requires a != b
    ensures IsPointOnLine(p, a, b) <==> (Abs(LineCross(p, a, b)) as real) / PixelLength(a, b, sqrt) < 5.0
  {
    SquaredDistancePositive(a, b);
    HitTestAsQuotient(LineCross(p, a, b), SquaredDistance(a, b), PixelLength(a, b, sqrt));
  }

  /** The hit test measures distance to the whole line, not to the segment between its endpoints. */
  lemma HitBeyondSegmentEnd()
    ensures IsPointOnLine(Point(1000, 1), Point(0, 0), Point(10, 0))
  {
  }

  /**
   * Sum of `f` over consecutive pairs of `s`: the open chain of edges
   * s[0]-s[1], s[1]-s[2], ..., in the order a loop over the edges adds them.
   */
  function ChainSum(s: seq<Point>, f: (Point, Point) -> int): int
    decreases |s|
  {
    if |s| < 2 then 0 else ChainSum(s[..|s| - 1], f) + f(s[|s| - 2], s[|s| - 1])
  }

  /** The vertex list with its first vertex repeated at the end, so that its chain is the cycle. */
  function Closed(vs: seq<Point>): seq<Point>
  {
    if vs == [] then [] else vs + [vs[0]]
  }

  /** Sum of `f` over the cyclic edges `(vs[i], vs[(i + 1) % n])`. */
  function CyclicSum(vs: seq<Point>, f: (Point, Point) -> int): int
  {
    ChainSum(Closed(vs), f)
  }

  /** The same vertex cycle started at index `k`. */
  function Rotate(vs: seq<Point>, k: nat): (r: seq<Point>)
    requires k <= |vs|
  {
    vs[k..] + vs[..k]
  }

  /** A chain splits at the seam between two non-empty pieces. */
  lemma {:induction false} ChainSumConcat(s: seq<Point>, t: seq<Point>, f: (Point, Point) -> int)
    requires s != [] && t != []
    ensures ChainSum(s + t, f) == ChainSum(s, f) + f(s[|s| - 1], t[0]) + ChainSum(t, f)
    decreases |t|
  {
    if |t| == 1 {
      assert (s + t)[..|s + t| - 1] == s;
    } else {
      var t' := t[..|t| - 1];
      ChainSumConcat(s, t', f);
      assert (s + t)[..|s + t| - 1] == s + t';
    }
  }

  /** The edge at index `i` of the loop, `(vs[i], vs[(i + 1) % n])`, is the next link of the closed chain. */
  lemma ChainSumStep(vs: seq<Point>, i: nat, f: (Point, Point) -> int)
    requires i < |vs|
    ensures ChainSum(Closed(vs)[..i + 2], f)
         == ChainSum(Closed(vs)[..i + 1], f) + f(vs[i], vs[(i + 1) % |vs|])
  {
    var c := Closed(vs);
    var n := |vs|;
    assert c[..i + 2][..i + 1] == c[..i + 1];
    assert c[..i + 2][i] == vs[i];
    if i + 1 < n {
      assert (i + 1) % n == i + 1;
      assert c[..i + 2][i + 1] == vs[i + 1];
    } else {
      assert (i + 1) % n == 0;
      assert c[..i + 2][i + 1] == vs[0];
    }
  }

  /** A cyclic sum does not depend on the vertex the cycle starts from. */
  lemma CyclicSumRotate(vs: seq<Point>, k: nat, f: (Point, Point) -> int)
    requires k <= |vs|
    ensures CyclicSum(Rotate(vs, k), f) == CyclicSum(vs, f)
  {
    if k == 0 || k == |vs| {
      assert Rotate(vs, k) == vs;
    } else {
      var a, b := vs[..k], vs[k..];
      assert vs == a + b;
      assert Closed(vs) == a + (b + [a[0]]);
      ChainSumConcat(a, b + [a[0]], f);
      ChainSumConcat(b, [a[0]], f);
      assert Rotate(vs, k) == b + a;
      assert Closed(Rotate(vs, k)) == b + (a + [b[0]]);
      ChainSumConcat(b, a + [b[0]], f);
      ChainSumConcat(a, [b[0]], f);
    }
  }

  /**
   * Storing the first vertex again at the end of the list adds only the edge
   * from that vertex to itself, so the cyclic sum is unchanged when `f`
   * vanishes on such an edge.
   */
  lemma CyclicSumClosingVertex(vs: seq<Point>, f: (Point, Point) -> int)
    requires vs != []
    requires forall a :: f(a, a) == 0
    ensures CyclicSum(vs + [vs[0]], f) == CyclicSum(vs, f)
  {
    var c := vs + [vs[0]];
    assert Closed(c) == c + [vs[0]];
    assert Closed(c)[..|Closed(c)| - 1] == Closed(vs);
  }

  /** The vertex list in the opposite winding. */
  function Reverse(s: seq<Point>): (r: seq<Point>)
    ensures |r| == |s|
    ensures forall i :: 0 <= i < |s| ==> r[i] == s[|s| - 1 - i]
    decreases |s|
  {
    if s == [] then [] else [s[|s| - 1]] + Reverse(s[..|s| - 1])
  }

  /** Peeling the last point off a chain, walked forwards and backwards. */
  lemma ChainSumReverseStep(s: seq<Point>, f: (Point, Point) -> int)
    requires |s| >= 2
    ensures ChainSum(s, f) == ChainSum(s[..|s| - 1], f) + f(s[|s| - 2], s[|s| - 1])
    ensures ChainSum(Reverse(s), f) == f(s[|s| - 1], s[|s| - 2]) + ChainSum(Reverse(s[..|s| - 1]), f)
  {
    var s', x := s[..|s| - 1], s[|s| - 1];
    assert Reverse(s) == [x] + Reverse(s');
    ChainSumConcat([x], Reverse(s'), f);
    assert Reverse(s')[0] == s[|s| - 2];
  }

  /** Walking a chain backwards scales its sum by `c` when swapping an edge's ends scales `f` by `c`. */
  lemma {:induction false} ChainSumReverse(s: seq<Point>, f: (Point, Point) -> int, c: int)
    requires forall a, b :: f(b, a) == c * f(a, b)
    ensures ChainSum(Reverse(s), f) == c * ChainSum(s, f)
    decreases |s|
  {
    if |s| < 2 {
      assert c * 0 == 0;
    } else {
      var s' := s[..|s| - 1];
      ChainSumReverse(s', f, c);
      ChainSumReverseStep(s, f);
      var rest, edge := ChainSum(s', f), f(s[|s| - 2], s[|s| - 1]);
      assert f(s[|s| - 1], s[|s| - 2]) == c * edge;
      assert c * (rest + edge) == c * edge + c * rest;
    }
  }

  /** Reversing the winding of a cycle scales its cyclic sum by `c` (see ChainSumReverse). */
  lemma CyclicSumReverse(vs: seq<Point>, f: (Point, Point) -> int, c: int)
    requires forall a, b :: f(b, a) == c * f(a, b)
    ensures CyclicSum(Reverse(vs), f) == c * CyclicSum(vs, f)
  {
    if vs == [] {
      assert Reverse(vs) == [];
      assert c * 0 == 0;
    } else {
      var n := |vs|;
      var r := Reverse(vs);
      var q := Rotate(r, n - 1);
      assert r == r[..n - 1] + [vs[0]];
      assert q == [vs[0]] + r[..n - 1];
      assert Closed(q) == [vs[0]] + r;
      var cv := Closed(vs);
      assert cv[..|cv| - 1] == vs;
      assert Reverse(cv) == [vs[0]] + r;
      ChainSumReverse(cv, f, c);
      CyclicSumRotate(r, n - 1, f);
    }
  }

  /** Two endpoint pairs that name the same undirected segment. */
  predicate SamePair(e: (Point, Point), f: (Point, Point))
  {
    e == f || (e.1, e.0) == f
  }

  /** No two entries of a segment registry name the same undirected segment. */
  predicate UniquePairs(ends: seq<(Point, Point)>)
  {
    forall i, j :: 0 <= i < j < |ends| ==> !SamePair(ends[i], ends[j])
  }

  /** What a scan of the segments under a click finds first. */
  datatype Hit =
    | Found(index: nat)       // the first segment the hit test accepts
    | Missed                  // no segment accepted
    | ZeroLength(index: nat)  // the hit test divided by zero at this segment

  /** A segment the scan goes past: it has length and the click is not on its line. */
  predicate PassesOver(p: Point, e: (Point, Point))
  {
    e.0 != e.1 && !IsPointOnLine(p, e.0, e.1)
  }

  /**
   * The for/else scan of the segments from index `from` on, in registry order:
   * the first segment whose line passes under `p` wins, and a zero-length
   * segment met before it ends the scan with a division by zero.
   */
  function FirstHit(p: Point, ends: seq<(Point, Point)>, from: nat): (h: Hit)
    requires from <= |ends|
    ensures h.Found? ==> from <= h.index < |ends| && ends[h.index].0 != ends[h.index].1
                         && IsPointOnLine(p, ends[h.index].0, ends[h.index].1)
    ensures h.ZeroLength? ==> from <= h.index < |ends| && ends[h.index].0 == ends[h.index].1
    ensures !h.Missed? ==> forall j :: from <= j < h.index ==> PassesOver(p, ends[j])
    ensures h.Missed? ==> forall j :: from <= j < |ends| ==> PassesOver(p, ends[j])
    decreases |ends| - from
  {
    if from == |ends| then Missed
    else if ends[from].0 == ends[from].1 then ZeroLength(from)
    else if IsPointOnLine(p, ends[from].0, ends[from].1) then Found(from)
    else FirstHit(p, ends, from + 1)
  }
}
