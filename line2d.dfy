/**
 * 2D lines and line segments, each given by two of its points. Slopes are
 * computed as `dy / dx` in IEEE 754 arithmetic, where dividing by zero
 * gives an infinity or NaN instead of failing; the model keeps those
 * special values, because the library's branches test for them.
 */
module Line2D {

  import opened RealArith
  import opened Vector2D

  /** The tolerance of the sloped-line membership tests. */
  const EPSILON: real := 0.000001

  datatype Option<T> = None | Some(value: T)

  /** An IEEE 754 quotient of two finite numbers: a finite value, a signed infinity, or NaN. */
  datatype Slope = Finite(value: real) | Infinite(positive: bool) | NaN

  /**
   * What intersect and segmentIntersect produce: `false` (Miss), a point,
   * or an `out` vector whose coordinates are NaN (NaNPoint), which the
   * library returns like a point.
   */
  datatype Crossing = Miss | At(p: Vec) | NaNPoint

  function Abs(a: real): real {
    if a < 0.0 then -a else a
  }

  /** `dy / dx` in IEEE 754 arithmetic: `x / 0` is an infinity of the sign of `x`, `0 / 0` is NaN. */
  function Quotient(dy: real, dx: real): Slope {
    if dx != 0.0 then Finite(dy / dx)
    else if dy != 0.0 then Infinite(dy > 0.0)
    else NaN
  }

  /** The slope of the line through `v` and `w`, computed as the library computes it. */
  function SlopeOf(v: Vec, w: Vec): Slope {
    Quotient(w.y - v.y, w.x - v.x)
  }

  /** IEEE 754 subtraction of slopes; an infinity minus the same infinity is NaN. */
  function Minus(s: Slope, t: Slope): Slope {
    match (s, t)
    case (NaN, _) => NaN
    case (_, NaN) => NaN
    case (Finite(a), Finite(b)) => Finite(a - b)
    case (Infinite(p), Finite(_)) => Infinite(p)
    case (Finite(_), Infinite(q)) => Infinite(!q)
    case (Infinite(p), Infinite(q)) => if p == q then NaN else Infinite(p)
  }

  /** IEEE 754 division of a finite `a` by a slope that is neither zero nor NaN; dividing by an infinity gives zero. */
  function Over(a: real, s: Slope): real
    requires s.Infinite? || (s.Finite? && s.value != 0.0)
  {
    if s.Infinite? then 0.0 else a / s.value
  }

  /** `p` lies exactly on the line through `v` and `w`. */
  predicate OnLine(v: Vec, w: Vec, p: Vec) {
    Cross(Difference(w, v), Difference(p, v)) == 0.0
  }

  /** `t` lies between `a` and `b`, bounds included, compared as the library compares it. */
  predicate Between(t: real, a: real, b: real) {
    if a < b then a <= t && t <= b else b <= t && t <= a
  }

  /** How far `p` lies above the non-vertical line through `v` and `w`, negated. */
  function LineOffset(v: Vec, w: Vec, p: Vec): real
    requires v.x != w.x
  {
    (w.y - v.y) / (w.x - v.x) * (p.x - v.x) + v.y - p.y
  }

  /**
   * containsVertex: on a vertical or horizontal line the test is exact; on
   * a sloped line `p` passes when it is within EPSILON of the line,
   * measured vertically.
   */
  predicate ContainsVertex(v: Vec, w: Vec, p: Vec): (r: bool)
    ensures v == w ==> (r <==> p.x == v.x)
    ensures v != w && (v.x == w.x || v.y == w.y) ==> (r <==> OnLine(v, w, p))
    ensures v.x != w.x && v.y != w.y ==>
              (r <==> Abs(Cross(Difference(w, v), Difference(p, v))) < EPSILON * Abs(w.x - v.x))
  {
    if v.x == w.x then
      (OnVerticalLine(v, w, p); p.x == v.x)
    else if v.y == w.y then
      (OnHorizontalLine(v, w, p); p.y == v.y)
    else
      LineOffsetIsCross(v, w, p);
      ToleranceTimesRun(LineOffset(v, w, p), w.x - v.x, Cross(Difference(w, v), Difference(p, v)), EPSILON);
      Abs(LineOffset(v, w, p)) < EPSILON
  }

  /** segmentContainsVertex: the containsVertex test plus the segment's bounds. */
  predicate SegmentContainsVertex(v: Vec, w: Vec, p: Vec): (r: bool)
    ensures r <==> ContainsVertex(v, w, p) && Between(p.x, v.x, w.x) && (v.x == w.x ==> Between(p.y, v.y, w.y))
  {
    if v.x == w.x then p.x == v.x && Between(p.y, v.y, w.y)
    else if v.y == w.y then p.y == v.y && Between(p.x, v.x, w.x)
    else Abs(LineOffset(v, w, p)) < EPSILON && Between(p.x, v.x, w.x)
  }

  /** What intersect computes for the lines through `v1, w1` and `v2, w2`. */
  function Intersection(v1: Vec, w1: Vec, v2: Vec, w2: Vec): Crossing {
    var m1, m2 := SlopeOf(v1, w1), SlopeOf(v2, w2);
    var m := Minus(m1, m2);
    if m == Finite(0.0) || m.NaN? then Miss
    else if m.Infinite? then NaNPoint
    else At(SlopesMeet(v1.x, v1.y, m1.value, v2.x, v2.y, m2.value, m.value))
  }

  /**
   * Where the line of slope `m1` through `(x1, y1)` meets the line of slope
   * `m2` through `(x2, y2)`, solved as intersect solves it; `m` is `m1 - m2`.
   */
  function SlopesMeet(x1: real, y1: real, m1: real, x2: real, y2: real, m2: real, m: real): Vec
    requires m != 0.0
  {
    var x := (x1 * m1 - x2 * m2 + y2 - y1) / m;
    Vec(x, (x - x1) * m1 + y1)
  }

  /** What intersectAxisX computes: where the line through `v` and `w` crosses the horizontal line at height `y`. */
  function AxisXIntersection(v: Vec, w: Vec, y: real): Option<Vec> {
    if v.y == w.y then None
    else Some(Vec(v.x + Over(y - v.y, SlopeOf(v, w)), y))
  }

  /** What intersectAxisY computes: where the line through `v` and `w` crosses the vertical line at `x`. */
  function AxisYIntersection(v: Vec, w: Vec, x: real): Option<Vec> {
    if v.x == w.x then None
    else Some(Vec(x, (x - v.x) * SlopeOf(v, w).value + v.y))
  }

  /**
   * What segmentIntersect computes: the intersection of the two lines when
   * its x coordinate lies within both segments' x ranges. A NaN
   * coordinate fails no comparison, so a NaNPoint passes the bounds checks.
   */
  function SegmentIntersection(v1: Vec, w1: Vec, v2: Vec, w2: Vec): Crossing {
    match Intersection(v1, w1, v2, w2)
    case Miss => Miss
    case NaNPoint => NaNPoint
    case At(p) => if Between(p.x, v1.x, w1.x) && Between(p.x, v2.x, w2.x) then At(p) else Miss
  }

  /**
   * What perpendicular writes: a second point through which the line from
   * `v2` is perpendicular to the line through `v1` and `w1`.
   */
  function PerpendicularPoint(v1: Vec, w1: Vec, v2: Vec): Vec {
    var m1 := SlopeOf(v1, w1);
    if m1 == Finite(0.0) then Vec(v2.x, v2.y + 1.0)
    else if m1.NaN? then Vec(v2.x + 1.0, v2.y)
    else Vec(v2.x + 1.0, v2.y - Over(1.0, m1))
  }

  // ---------------------------------------------------------------------------
  // Helpers on plain reals

  /** Multiplying the slope form back out by the run. */
  lemma SlopeTimesRun(dy: real, dx: real, a: real, b: real)
    requires dx != 0.0
    ensures (dy / dx * a + b) * dx == dy * a + b * dx
  {
    var m := dy / dx;
    MulDivCancel(dy, dx);
    calc {
      (m * a + b) * dx;
    == (dx * m) * a + b * dx;
    == dy * a + b * dx;
    }
  }

  lemma AbsOfProduct(a: real, b: real)
    ensures Abs(a * b) == Abs(a) * Abs(b)
  {
    if a >= 0.0 && b >= 0.0 {
      ProductNonNegative(a, b);
    } else if a >= 0.0 {
      assert a * b == -(a * -b);
      ProductNonNegative(a, -b);
    } else if b >= 0.0 {
      assert a * b == -(-a * b);
      ProductNonNegative(-a, b);
    } else {
      assert a * b == -a * -b;
      ProductNonNegative(-a, -b);
    }
  }

  /** Multiplying both sides by a positive factor keeps a strict inequality, both ways. */
  lemma ScaleLess(a: real, e: real, k: real)
    requires k > 0.0
    ensures a < e <==> a * k < e * k
  {
    if a < e {
      assert (e - a) * k > 0.0;
    } else {
      assert (a - e) * k >= 0.0;
    }
  }

  /** A product with a non-zero factor vanishes only when the other factor does. */
  lemma ZeroProduct(a: real, b: real)
    requires b != 0.0
    ensures a * b == 0.0 <==> a == 0.0
  {
    if a != 0.0 {
      ProductNonZero(a, b);
    }
  }

  /** An offset `l` times a non-zero run `dx` that gives `-c`: `l` is within `e` exactly when `c` is within `e |dx|`. */
  lemma ToleranceTimesRun(l: real, dx: real, c: real, e: real)
    requires dx != 0.0 && l * dx == -c
    ensures Abs(l) < e <==> Abs(c) < e * Abs(dx)
  {
    var al, ad := Abs(l), Abs(dx);
    AbsOfProduct(l, dx);
    assert Abs(c) == Abs(l * dx) == al * ad;
    ScaleLess(al, e, ad);
  }

  // ---------------------------------------------------------------------------
  // containsVertex and segmentContainsVertex

  /** The vertical offset of a sloped line, times the run, is the cross product with the point. */
  lemma LineOffsetIsCross(v: Vec, w: Vec, p: Vec)
    requires v.x != w.x
    ensures LineOffset(v, w, p) * (w.x - v.x) == -Cross(Difference(w, v), Difference(p, v))
  {
    var dx, dy, a, b := w.x - v.x, w.y - v.y, p.x - v.x, v.y - p.y;
    assert LineOffset(v, w, p) == dy / dx * a + b;
    SlopeTimesRun(dy, dx, a, b);
  }

  /** On a vertical line a point lies on the line exactly when it shares the x coordinate. */
  lemma OnVerticalLine(v: Vec, w: Vec, p: Vec)
    requires v.x == w.x
    ensures v != w ==> (OnLine(v, w, p) <==> p.x == v.x)
  {
    if v != w {
      ZeroProduct(p.x - v.x, w.y - v.y);
    }
  }

  /** On a horizontal line a point lies on the line exactly when it shares the y coordinate. */
  lemma OnHorizontalLine(v: Vec, w: Vec, p: Vec)
    requires v.y == w.y
    ensures v != w ==> (OnLine(v, w, p) <==> p.y == v.y)
  {
    if v != w {
      ZeroProduct(p.y - v.y, w.x - v.x);
    }
  }

  /** The line through `v` and `w` is the line through `w` and `v`. */
  lemma LineOffsetSymmetric(v: Vec, w: Vec, p: Vec)
    requires v.x != w.x
    ensures LineOffset(v, w, p) == LineOffset(w, v, p)
  {
    var dx, dy := w.x - v.x, w.y - v.y;
    var m := dy / dx;
    assert (v.y - w.y) / (v.x - w.x) == m;
    MulDivCancel(dy, dx);
    calc {
      LineOffset(w, v, p);
    == m * (p.x - w.x) + w.y - p.y;
    == m * (p.x - v.x) - dx * m + w.y - p.y;
    == m * (p.x - v.x) - dy + w.y - p.y;
    == LineOffset(v, w, p);
    }
  }

  /** Every point exactly on the line passes containsVertex. */
  lemma {:induction false} ContainsVertexOnLine(v: Vec, w: Vec, p: Vec)
    requires v != w && OnLine(v, w, p)
    ensures ContainsVertex(v, w, p)
  {
    if v.x != w.x && v.y != w.y {
      assert Abs(w.x - v.x) > 0.0;
    }
  }

  /** containsVertex does not depend on the order of the two points. */
  lemma ContainsVertexSymmetric(v: Vec, w: Vec, p: Vec)
    ensures ContainsVertex(v, w, p) == ContainsVertex(w, v, p)
  {
    if v.x != w.x {
      LineOffsetSymmetric(v, w, p);
    }
  }

  /** Both defining points lie on the line. */
  lemma ContainsVertexEndpoints(v: Vec, w: Vec)
    ensures ContainsVertex(v, w, v) && ContainsVertex(v, w, w)
  {
    if v != w {
      ContainsVertexOnLine(v, w, v);
      ContainsVertexOnLine(v, w, w);
    }
  }

  /** A point of the segment is a point of the line, within the segment's x range (and y range, when axis-parallel). */
  lemma SegmentContainsVertexOnLine(v: Vec, w: Vec, p: Vec)
    ensures SegmentContainsVertex(v, w, p) ==> ContainsVertex(v, w, p)
    ensures SegmentContainsVertex(v, w, p) ==> Between(p.x, v.x, w.x)
    ensures SegmentContainsVertex(v, w, p) && (v.x == w.x || v.y == w.y) ==> Between(p.y, v.y, w.y)
  {
  }

  /** segmentContainsVertex does not depend on the order of the two bounds. */
  lemma SegmentContainsVertexSymmetric(v: Vec, w: Vec, p: Vec)
    ensures SegmentContainsVertex(v, w, p) == SegmentContainsVertex(w, v, p)
  {
    if v.x != w.x {
      LineOffsetSymmetric(v, w, p);
    }
  }

  /** Both bounds belong to the segment. */
  lemma SegmentContainsVertexEndpoints(v: Vec, w: Vec)
    ensures SegmentContainsVertex(v, w, v) && SegmentContainsVertex(v, w, w)
  {
    if v.x != w.x && v.y != w.y {
      ContainsVertexEndpoints(v, w);
    }
  }

  // ---------------------------------------------------------------------------
  // intersect

  /** Two non-vertical lines have the same slope exactly when their directions are parallel. */
  lemma SameSlope(dx1: real, dy1: real, dx2: real, dy2: real)
    requires dx1 != 0.0 && dx2 != 0.0
    ensures dy1 / dx1 == dy2 / dx2 <==> dx1 * dy2 - dy1 * dx2 == 0.0
  {
    var m1, m2 := dy1 / dx1, dy2 / dx2;
    MulDivCancel(dy1, dx1);
    MulDivCancel(dy2, dx2);
    var k := dx1 * dx2;
    ProductNonZero(dx1, dx2);
    var dm := m2 - m1;
    calc {
      dx1 * dy2 - dy1 * dx2;
    == dx1 * (dx2 * m2) - (dx1 * m1) * dx2;
    == k * dm;
    }
    ZeroProduct(dm, k);
  }

  /** A point `(x1 + a, y1 + b)` with `b == a m`, `m == dy / dx`, lies on the line of direction `(dx, dy)`. */
  lemma OnSlopedLine(dx: real, dy: real, a: real, b: real)
    requires dx != 0.0 && b == a * (dy / dx)
    ensures dx * b - dy * a == 0.0
  {
    var m := dy / dx;
    MulDivCancel(dy, dx);
    calc {
      dx * b - dy * a;
    == dx * (a * m) - (dx * m) * a;
    == 0.0;
    }
  }

  /** A point that satisfies the slope form of the line through `v` and `w` lies on that line. */
  lemma OnLineBySlope(v: Vec, w: Vec, p: Vec)
    requires v.x != w.x && p.y - v.y == (p.x - v.x) * ((w.y - v.y) / (w.x - v.x))
    ensures OnLine(v, w, p)
  {
    OnSlopedLine(w.x - v.x, w.y - v.y, p.x - v.x, p.y - v.y);
  }

  /** The point intersect solves for lies on both sloped lines. */
  lemma SlopesMeetOnBoth(x1: real, y1: real, m1: real, x2: real, y2: real, m2: real)
    requires m1 - m2 != 0.0
    ensures var p := SlopesMeet(x1, y1, m1, x2, y2, m2, m1 - m2);
            p.y - y1 == (p.x - x1) * m1 && p.y - y2 == (p.x - x2) * m2
  {
    var m, n := m1 - m2, x1 * m1 - x2 * m2 + y2 - y1;
    var x := n / m;
    MulDivCancel(n, m);
    calc {
      (x - x1) * m1 + y1 - y2 - (x - x2) * m2;
    == m * x - n;
    == 0.0;
    }
  }

  /** Two equations `a ry - b rx == 0`, `c ry - d rx == 0` with non-zero determinant have only the zero solution. */
  lemma OnlyZeroSolution(a: real, b: real, c: real, d: real, rx: real, ry: real)
    requires a * d - b * c != 0.0
    requires a * ry - b * rx == 0.0 && c * ry - d * rx == 0.0
    ensures rx == 0.0 && ry == 0.0
  {
    var den := a * d - b * c;
    calc {
      ry * den;
    == d * (a * ry - b * rx) - b * (c * ry - d * rx);
    == 0.0;
    }
    calc {
      rx * den;
    == c * (a * ry - b * rx) - a * (c * ry - d * rx);
    == 0.0;
    }
    ZeroProduct(ry, den);
    ZeroProduct(rx, den);
  }

  /** Two lines whose directions are not parallel share at most one point. */
  lemma {:induction false} LinesMeetOnce(v1: Vec, w1: Vec, v2: Vec, w2: Vec, p: Vec, q: Vec)
    requires Cross(Difference(w1, v1), Difference(w2, v2)) != 0.0
    requires OnLine(v1, w1, p) && OnLine(v2, w2, p)
    requires OnLine(v1, w1, q) && OnLine(v2, w2, q)
    ensures p == q
  {
    var a, b, c, d := w1.x - v1.x, w1.y - v1.y, w2.x - v2.x, w2.y - v2.y;
    var rx, ry := q.x - p.x, q.y - p.y;
    assert a * (p.y - v1.y) - b * (p.x - v1.x) == 0.0 && a * (q.y - v1.y) - b * (q.x - v1.x) == 0.0;
    assert c * (p.y - v2.y) - d * (p.x - v2.x) == 0.0 && c * (q.y - v2.y) - d * (q.x - v2.x) == 0.0;
    assert a * ry - b * rx == (a * (q.y - v1.y) - b * (q.x - v1.x)) - (a * (p.y - v1.y) - b * (p.x - v1.x));
    assert c * ry - d * rx == (c * (q.y - v2.y) - d * (q.x - v2.x)) - (c * (p.y - v2.y) - d * (p.x - v2.x));
    OnlyZeroSolution(a, b, c, d, rx, ry);
  }

  /**
   * The point intersect reports lies exactly on both lines, and it only
   * reports one for two non-vertical, non-parallel lines.
   */
  lemma {:induction false} IntersectionOnBothLines(v1: Vec, w1: Vec, v2: Vec, w2: Vec)
    requires Intersection(v1, w1, v2, w2).At?
    ensures v1.x != w1.x && v2.x != w2.x
    ensures Cross(Difference(w1, v1), Difference(w2, v2)) != 0.0
    ensures OnLine(v1, w1, Intersection(v1, w1, v2, w2).p)
    ensures OnLine(v2, w2, Intersection(v1, w1, v2, w2).p)
  {
    var m1, m2 := (w1.y - v1.y) / (w1.x - v1.x), (w2.y - v2.y) / (w2.x - v2.x);
    IntersectionOfSlopes(v1, w1, v2, w2);
    IntersectionOfSlopedLines(v1, w1, v2, w2);
    var p := SlopesMeet(v1.x, v1.y, m1, v2.x, v2.y, m2, m1 - m2);
    SlopesMeetOnBoth(v1.x, v1.y, m1, v2.x, v2.y, m2);
    OnLineBySlope(v1, w1, p);
    OnLineBySlope(v2, w2, p);
  }


  /** A point found by intersect comes from two sloped lines of different slopes, by intersect's formula. */
  lemma IntersectionOfSlopes(v1: Vec, w1: Vec, v2: Vec, w2: Vec)
    requires Intersection(v1, w1, v2, w2).At?
    ensures v1.x != w1.x && v2.x != w2.x
    ensures var m1, m2 := (w1.y - v1.y) / (w1.x - v1.x), (w2.y - v2.y) / (w2.x - v2.x);
            m1 - m2 != 0.0 && Intersection(v1, w1, v2, w2).p == SlopesMeet(v1.x, v1.y, m1, v2.x, v2.y, m2, m1 - m2)
  {
  }


  /** No other point lies on both lines. */
  lemma IntersectionUnique(v1: Vec, w1: Vec, v2: Vec, w2: Vec)
    requires Intersection(v1, w1, v2, w2).At?
    ensures forall q :: OnLine(v1, w1, q) && OnLine(v2, w2, q) ==> q == Intersection(v1, w1, v2, w2).p
  {
    var p := Intersection(v1, w1, v2, w2).p;
    IntersectionOnBothLines(v1, w1, v2, w2);
    forall q | OnLine(v1, w1, q) && OnLine(v2, w2, q)
      ensures q == p
    {
      LinesMeetOnce(v1, w1, v2, w2, q, p);
    }
  }

  /** intersect reports `false` only for parallel lines (or a line given by one point twice). */
  lemma {:induction false} IntersectionMissMeansParallel(v1: Vec, w1: Vec, v2: Vec, w2: Vec)
    ensures Intersection(v1, w1, v2, w2).Miss? ==> Cross(Difference(w1, v1), Difference(w2, v2)) == 0.0
  {
    var dx1, dy1, dx2, dy2 := w1.x - v1.x, w1.y - v1.y, w2.x - v2.x, w2.y - v2.y;
    if Intersection(v1, w1, v2, w2).Miss? {
      if dx1 != 0.0 && dx2 != 0.0 {
        SameSlope(dx1, dy1, dx2, dy2);
      } else if dx1 == 0.0 && dx2 == 0.0 {
        assert Cross(Difference(w1, v1), Difference(w2, v2)) == 0.0 * dy2 - dy1 * 0.0;
      } else if dx1 == 0.0 {
        assert dy1 == 0.0;
        assert Cross(Difference(w1, v1), Difference(w2, v2)) == 0.0 * dy2 - 0.0 * dx2;
      } else {
        assert dy2 == 0.0;
        assert Cross(Difference(w1, v1), Difference(w2, v2)) == dx1 * 0.0 - dy1 * 0.0;
      }
    }
  }

  /** Of two non-zero parallel directions, one is vertical exactly when the other is. */
  lemma ParallelVertical(dx1: real, dy1: real, dx2: real, dy2: real)
    requires (dx1 != 0.0 || dy1 != 0.0) && (dx2 != 0.0 || dy2 != 0.0)
    requires dx1 * dy2 - dy1 * dx2 == 0.0
    ensures dx1 == 0.0 <==> dx2 == 0.0
  {
    if dx1 == 0.0 {
      ZeroProduct(dx2, dy1);
    } else if dx2 == 0.0 {
      ZeroProduct(dx1, dy2);
    }
  }

  /** Two non-degenerate vertical lines whose points run in opposite directions: their slopes are opposite infinities. */
  predicate OppositeVerticals(v1: Vec, w1: Vec, v2: Vec, w2: Vec) {
    v1.x == w1.x && v2.x == w2.x && v1.y != w1.y && v2.y != w2.y && (v1.y < w1.y) != (v2.y < w2.y)
  }

  /**
   * intersect returns false exactly for parallel lines (a line given by one
   * point twice counts as parallel to every line), except for two vertical
   * lines drawn in opposite directions, which get NaN coordinates instead.
   */
  lemma {:induction false} IntersectionMissIffParallel(v1: Vec, w1: Vec, v2: Vec, w2: Vec)
    ensures Intersection(v1, w1, v2, w2).Miss?
        <==> Cross(Difference(w1, v1), Difference(w2, v2)) == 0.0 && !OppositeVerticals(v1, w1, v2, w2)
  {
    var dx1, dy1, dx2, dy2 := w1.x - v1.x, w1.y - v1.y, w2.x - v2.x, w2.y - v2.y;
    IntersectionMissMeansParallel(v1, w1, v2, w2);
    if Cross(Difference(w1, v1), Difference(w2, v2)) == 0.0 && !OppositeVerticals(v1, w1, v2, w2) {
      if v1 == w1 || v2 == w2 {
        assert SlopeOf(v1, w1).NaN? || SlopeOf(v2, w2).NaN?;
      } else {
        ParallelVertical(dx1, dy1, dx2, dy2);
        if dx1 != 0.0 {
          IntersectionOfSlopedLines(v1, w1, v2, w2);
        } else {
          assert SlopeOf(v1, w1) == SlopeOf(v2, w2);
        }
      }
    } else if OppositeVerticals(v1, w1, v2, w2) {
      assert Intersection(v1, w1, v2, w2).NaNPoint?;
    }
  }

  /**
   * A line intersected with itself gives false: for a sloped line the slope
   * difference is 0, for a vertical one it is Infinity - Infinity, which is NaN.
   */
  lemma IntersectionWithItself(v: Vec, w: Vec)
    requires v != w
    ensures Intersection(v, w, v, w) == Miss
  {
    if v.x == w.x {
      assert Minus(SlopeOf(v, w), SlopeOf(v, w)) == NaN;
    } else {
      assert Minus(SlopeOf(v, w), SlopeOf(v, w)) == Finite(0.0);
    }
  }

  /** For two non-vertical lines intersect finds a point exactly when they are not parallel. */
  lemma {:induction false} IntersectionOfSlopedLines(v1: Vec, w1: Vec, v2: Vec, w2: Vec)
    requires v1.x != w1.x && v2.x != w2.x
    ensures Intersection(v1, w1, v2, w2).At? <==> Cross(Difference(w1, v1), Difference(w2, v2)) != 0.0
    ensures Intersection(v1, w1, v2, w2).Miss? <==> Cross(Difference(w1, v1), Difference(w2, v2)) == 0.0
  {
    var dx1, dy1, dx2, dy2 := w1.x - v1.x, w1.y - v1.y, w2.x - v2.x, w2.y - v2.y;
    SameSlope(dx1, dy1, dx2, dy2);
  }

  /**
   * NaN coordinates come only from a vertical line, and a vertical line
   * met by a non-vertical one always produces them.
   */
  lemma IntersectionNaNPoint(v1: Vec, w1: Vec, v2: Vec, w2: Vec)
    ensures Intersection(v1, w1, v2, w2).NaNPoint? ==> v1.x == w1.x || v2.x == w2.x
    ensures v1.x == w1.x && v1.y != w1.y && v2.x != w2.x ==> Intersection(v1, w1, v2, w2).NaNPoint?
    ensures v2.x == w2.x && v2.y != w2.y && v1.x != w1.x ==> Intersection(v1, w1, v2, w2).NaNPoint?
  {
  }

  /** When intersect finds a point it finds the same one with the lines swapped. */
  lemma {:induction false} IntersectionSymmetric(v1: Vec, w1: Vec, v2: Vec, w2: Vec)
    requires Intersection(v1, w1, v2, w2).At?
    ensures Intersection(v2, w2, v1, w1) == Intersection(v1, w1, v2, w2)
  {
    IntersectionOnBothLines(v1, w1, v2, w2);
    IntersectionOfSlopedLines(v2, w2, v1, w1);
    IntersectionOnBothLines(v2, w2, v1, w1);
    IntersectionUnique(v1, w1, v2, w2);
  }

  /**
   * The intersection point of two lines by Cramer's rule, defined for every
   * pair of non-parallel lines, vertical ones included.
   */
  function Meeting(v1: Vec, w1: Vec, v2: Vec, w2: Vec): Option<Vec> {
    var d1, d2 := Difference(w1, v1), Difference(w2, v2);
    var den := Cross(d1, d2);
    if den == 0.0 then None
    else
      var t := Cross(Difference(v2, v1), d2) / den;
      Some(Vec(v1.x + t * d1.x, v1.y + t * d1.y))
  }

  /** The Cramer point satisfies the second line's equation. */
  lemma CramerSecond(ax: real, ay: real, ux: real, uy: real, ex: real, ey: real)
    requires ax * uy - ay * ux != 0.0
    ensures var t := (ex * uy - ey * ux) / (ax * uy - ay * ux);
            ux * (t * ay - ey) - uy * (t * ax - ex) == 0.0
  {
    var den, c := ax * uy - ay * ux, ex * uy - ey * ux;
    var t := c / den;
    MulDivCancel(c, den);
    calc {
      ux * (t * ay - ey) - uy * (t * ax - ex);
    == c - t * den;
    == 0.0;
    }
  }

  /** Two lines meet in a point exactly when they are not parallel, and the point lies on both. */
  lemma {:induction false} MeetingOnBothLines(v1: Vec, w1: Vec, v2: Vec, w2: Vec)
    ensures Meeting(v1, w1, v2, w2).Some? <==> Cross(Difference(w1, v1), Difference(w2, v2)) != 0.0
    ensures Meeting(v1, w1, v2, w2).Some? ==> OnLine(v1, w1, Meeting(v1, w1, v2, w2).value)
    ensures Meeting(v1, w1, v2, w2).Some? ==> OnLine(v2, w2, Meeting(v1, w1, v2, w2).value)
  {
    var d1, d2 := Difference(w1, v1), Difference(w2, v2);
    if Cross(d1, d2) != 0.0 {
      var e := Difference(v2, v1);
      var t := Cross(e, d2) / Cross(d1, d2);
      var p := Meeting(v1, w1, v2, w2).value;
      assert p == Vec(v1.x + t * d1.x, v1.y + t * d1.y);
      assert Cross(d1, Difference(p, v1)) == d1.x * (t * d1.y) - d1.y * (t * d1.x);
      CramerSecond(d1.x, d1.y, d2.x, d2.y, e.x, e.y);
      assert Difference(p, v2) == Vec(t * d1.x - e.x, t * d1.y - e.y);
    }
  }

  /** No other point lies on both lines. */
  lemma MeetingUnique(v1: Vec, w1: Vec, v2: Vec, w2: Vec, q: Vec)
    requires Meeting(v1, w1, v2, w2).Some?
    requires OnLine(v1, w1, q) && OnLine(v2, w2, q)
    ensures q == Meeting(v1, w1, v2, w2).value
  {
    MeetingOnBothLines(v1, w1, v2, w2);
    LinesMeetOnce(v1, w1, v2, w2, q, Meeting(v1, w1, v2, w2).value);
  }

  /** Whenever intersect reports a point, it is the point where the lines meet. */
  lemma IntersectionIsMeeting(v1: Vec, w1: Vec, v2: Vec, w2: Vec)
    requires Intersection(v1, w1, v2, w2).At?
    ensures Meeting(v1, w1, v2, w2) == Some(Intersection(v1, w1, v2, w2).p)
  {
    IntersectionOnBothLines(v1, w1, v2, w2);
    MeetingOnBothLines(v1, w1, v2, w2);
    MeetingUnique(v1, w1, v2, w2, Intersection(v1, w1, v2, w2).p);
  }

  /**
   * The vertical line x = 1 and the diagonal y = x meet at (1, 1), but
   * intersect produces NaN coordinates for them.
   */
  lemma IntersectionMissesVerticalLine()
    ensures Intersection(Vec(1.0, 0.0), Vec(1.0, 2.0), Vec(0.0, 0.0), Vec(2.0, 2.0)) == NaNPoint
  {
    assert SlopeOf(Vec(1.0, 0.0), Vec(1.0, 2.0)) == Infinite(true);
    assert SlopeOf(Vec(0.0, 0.0), Vec(2.0, 2.0)) == Finite(1.0);
  }

  /**
   * Two parallel vertical lines drawn in opposite directions have slopes
   * +Infinity and -Infinity; their difference is +Infinity, which passes the
   * parallel-lines guard, so intersect and segmentIntersect report NaN
   * coordinates where no common point exists.
   */
  lemma IntersectionMissesOppositeVerticals()
    ensures Intersection(Vec(1.0, 0.0), Vec(1.0, 2.0), Vec(2.0, 2.0), Vec(2.0, 0.0)) == NaNPoint
    ensures SegmentIntersection(Vec(1.0, 0.0), Vec(1.0, 2.0), Vec(2.0, 2.0), Vec(2.0, 0.0)) == NaNPoint
    ensures Meeting(Vec(1.0, 0.0), Vec(1.0, 2.0), Vec(2.0, 2.0), Vec(2.0, 0.0)) == None
  {
    assert SlopeOf(Vec(1.0, 0.0), Vec(1.0, 2.0)) == Infinite(true);
    assert SlopeOf(Vec(2.0, 2.0), Vec(2.0, 0.0)) == Infinite(false);
  }

  /** The same two lines meet at (1, 1) by Cramer's rule. */
  lemma MeetingOfVerticalLine()
    ensures Meeting(Vec(1.0, 0.0), Vec(1.0, 2.0), Vec(0.0, 0.0), Vec(2.0, 2.0)) == Some(Vec(1.0, 1.0))
  {
    var d1, d2, e := Vec(0.0, 2.0), Vec(2.0, 2.0), Vec(-1.0, 0.0);
    assert Cross(d1, d2) == -4.0 && Cross(e, d2) == -2.0;
    assert Meeting(Vec(1.0, 0.0), Vec(1.0, 2.0), Vec(0.0, 0.0), Vec(2.0, 2.0))
        == Some(Vec(1.0 + (-2.0 / -4.0) * d1.x, 0.0 + (-2.0 / -4.0) * d1.y));
  }

  // ---------------------------------------------------------------------------
  // intersectAxisX and intersectAxisY

  /** Moving `b / m` along x with `m == dy / dx` climbs `b` along the line of direction `(dx, dy)`. */
  lemma AcrossSlope(dx: real, dy: real, b: real)
    requires dx != 0.0 && dy != 0.0
    ensures dx * b - dy * (b / (dy / dx)) == 0.0
  {
    var m := dy / dx;
    QuotientNonZero(dy, dx);
    var q := b / m;
    MulDivCancel(dy, dx);
    MulDivCancel(b, m);
    calc {
      dx * b - dy * q;
    == dx * (m * q) - (dx * m) * q;
    == 0.0;
    }
  }

  /**
   * intersectAxisX finds a point exactly when the line is not horizontal;
   * the point has the requested height and lies on the line.
   */
  lemma {:induction false} AxisXIntersectionOnLine(v: Vec, w: Vec, y: real)
    ensures AxisXIntersection(v, w, y).Some? <==> v.y != w.y
    ensures AxisXIntersection(v, w, y).Some? ==> AxisXIntersection(v, w, y).value.y == y
    ensures AxisXIntersection(v, w, y).Some? ==> OnLine(v, w, AxisXIntersection(v, w, y).value)
  {
    if v.y != w.y {
      var dx, dy := w.x - v.x, w.y - v.y;
      var p := AxisXIntersection(v, w, y).value;
      if dx == 0.0 {
        assert p.x == v.x;
        assert Cross(Difference(w, v), Difference(p, v)) == 0.0 * (y - v.y) - dy * 0.0;
      } else {
        assert p.x - v.x == (y - v.y) / (dy / dx);
        AcrossSlope(dx, dy, y - v.y);
      }
    }
  }

  /** No other point of the line has that height. */
  lemma {:induction false} AxisXIntersectionUnique(v: Vec, w: Vec, y: real, q: Vec)
    requires v.y != w.y && OnLine(v, w, q) && q.y == y
    ensures q == AxisXIntersection(v, w, y).value
  {
    AxisXIntersectionOnLine(v, w, y);
    var p := AxisXIntersection(v, w, y).value;
    var d := Difference(w, v);
    assert Cross(d, Difference(q, v)) - Cross(d, Difference(p, v)) == -d.y * (q.x - p.x);
    ZeroProduct(q.x - p.x, d.y);
  }

  /**
   * A horizontal line through two distinct points shares every point with
   * the horizontal line at its own height and none with any other, so no
   * single crossing point exists.
   */
  lemma {:induction false} AxisXHorizontalLine(v: Vec, w: Vec, q: Vec)
    requires v.y == w.y && v != w
    ensures OnLine(v, w, q) <==> q.y == v.y
  {
    var dx := w.x - v.x;
    assert Cross(Difference(w, v), Difference(q, v)) == dx * (q.y - v.y);
    ZeroProduct(q.y - v.y, dx);
  }

  /**
   * intersectAxisY finds a point exactly when the line is not vertical;
   * the point has the requested x coordinate and lies on the line.
   */
  lemma {:induction false} AxisYIntersectionOnLine(v: Vec, w: Vec, x: real)
    ensures AxisYIntersection(v, w, x).Some? <==> v.x != w.x
    ensures AxisYIntersection(v, w, x).Some? ==> AxisYIntersection(v, w, x).value.x == x
    ensures AxisYIntersection(v, w, x).Some? ==> OnLine(v, w, AxisYIntersection(v, w, x).value)
  {
    if v.x != w.x {
      var dx, dy := w.x - v.x, w.y - v.y;
      var p := AxisYIntersection(v, w, x).value;
      assert p.y - v.y == (x - v.x) * (dy / dx);
      OnSlopedLine(dx, dy, x - v.x, p.y - v.y);
    }
  }

  /** No other point of the line has that x coordinate. */
  lemma {:induction false} AxisYIntersectionUnique(v: Vec, w: Vec, x: real, q: Vec)
    requires v.x != w.x && OnLine(v, w, q) && q.x == x
    ensures q == AxisYIntersection(v, w, x).value
  {
    AxisYIntersectionOnLine(v, w, x);
    var p := AxisYIntersection(v, w, x).value;
    var d := Difference(w, v);
    assert Cross(d, Difference(q, v)) - Cross(d, Difference(p, v)) == d.x * (q.y - p.y);
    ZeroProduct(q.y - p.y, d.x);
  }

  /** A vertical line through two distinct points shares every or no point with a vertical line. */
  lemma {:induction false} AxisYVerticalLine(v: Vec, w: Vec, q: Vec)
    requires v.x == w.x && v != w
    ensures OnLine(v, w, q) <==> q.x == v.x
  {
    var dy := w.y - v.y;
    assert Cross(Difference(w, v), Difference(q, v)) == -dy * (q.x - v.x);
    ZeroProduct(q.x - v.x, -dy);
  }

  // ---------------------------------------------------------------------------
  // segmentIntersect

  /** For a point on a non-vertical line, segmentContainsVertex is the x-range check alone. */
  lemma {:induction false} SegmentContainsPointOfLine(v: Vec, w: Vec, p: Vec)
    requires v.x != w.x && OnLine(v, w, p)
    ensures SegmentContainsVertex(v, w, p) <==> Between(p.x, v.x, w.x)
  {
    if v.y == w.y {
      AxisXHorizontalLine(v, w, p);
    } else {
      ContainsVertexOnLine(v, w, p);
    }
  }

  /**
   * segmentIntersect reports a point exactly when intersect does and both
   * segments contain it; it reports NaN coordinates exactly when intersect does.
   */
  lemma {:induction false} SegmentIntersectionOnBothSegments(v1: Vec, w1: Vec, v2: Vec, w2: Vec)
    ensures SegmentIntersection(v1, w1, v2, w2).At? <==>
              Intersection(v1, w1, v2, w2).At?
              && SegmentContainsVertex(v1, w1, Intersection(v1, w1, v2, w2).p)
              && SegmentContainsVertex(v2, w2, Intersection(v1, w1, v2, w2).p)
    ensures SegmentIntersection(v1, w1, v2, w2).At? ==> SegmentIntersection(v1, w1, v2, w2) == Intersection(v1, w1, v2, w2)
    ensures SegmentIntersection(v1, w1, v2, w2).NaNPoint? <==> Intersection(v1, w1, v2, w2).NaNPoint?
  {
    if Intersection(v1, w1, v2, w2).At? {
      var p := Intersection(v1, w1, v2, w2).p;
      IntersectionOnBothLines(v1, w1, v2, w2);
      SegmentContainsPointOfLine(v1, w1, p);
      SegmentContainsPointOfLine(v2, w2, p);
    }
  }

  // ---------------------------------------------------------------------------
  // perpendicular

  /** Stepping 1 along x and `-1/m` along y is perpendicular to the direction `(dx, dy)` of slope `m`. */
  lemma InverseSlope(dx: real, dy: real)
    requires dx != 0.0 && dy != 0.0
    ensures dx * 1.0 + dy * -(1.0 / (dy / dx)) == 0.0
  {
    var m := dy / dx;
    QuotientNonZero(dy, dx);
    MulDivCancel(dy, dx);
    var q := 1.0 / m;
    MulDivCancel(1.0, m);
    calc {
      dx * 1.0 + dy * -q;
    == dx * (m * q) - (dx * m) * q;
    == 0.0;
    }
  }

  /**
   * perpendicular writes a point other than `v2` such that the line from
   * `v2` through it is perpendicular to the line through `v1` and `w1`.
   */
  lemma {:induction false} PerpendicularPointIsPerpendicular(v1: Vec, w1: Vec, v2: Vec)
    ensures Dot(Difference(w1, v1), Difference(PerpendicularPoint(v1, w1, v2), v2)) == 0.0
    ensures PerpendicularPoint(v1, w1, v2) != v2
  {
    var dx, dy := w1.x - v1.x, w1.y - v1.y;
    var p := PerpendicularPoint(v1, w1, v2);
    var d := Difference(w1, v1);
    if SlopeOf(v1, w1) == Finite(0.0) {
      if dy != 0.0 {
        QuotientNonZero(dy, dx);
      }
      assert p == Vec(v2.x, v2.y + 1.0);
      assert Dot(d, Difference(p, v2)) == dx * 0.0 + 0.0 * 1.0;
    } else if SlopeOf(v1, w1).NaN? {
      assert p == Vec(v2.x + 1.0, v2.y);
      assert Dot(d, Difference(p, v2)) == 0.0 * 1.0 + 0.0 * 0.0;
    } else if dx == 0.0 {
      assert p == Vec(v2.x + 1.0, v2.y - 0.0);
      assert Dot(d, Difference(p, v2)) == 0.0 * 1.0 + dy * 0.0;
    } else {
      var q := 1.0 / (dy / dx);
      assert p == Vec(v2.x + 1.0, v2.y - q);
      InverseSlope(dx, dy);
      assert Dot(d, Difference(p, v2)) == dx * 1.0 + dy * -q;
    }
  }

  /** Against an axis-parallel line, perpendicular keeps the coordinate that the perpendicular does not change. */
  lemma PerpendicularOnAxes(v1: Vec, w1: Vec, v2: Vec)
    ensures v1.y == w1.y && v1.x != w1.x ==> PerpendicularPoint(v1, w1, v2) == Vec(v2.x, v2.y + 1.0)
    ensures v1.x == w1.x ==> PerpendicularPoint(v1, w1, v2) == Vec(v2.x + 1.0, v2.y)
  {
  }

  // ---------------------------------------------------------------------------
  // The cases of the library's own test suite

  lemma ContainsVertexExamples()
    ensures ContainsVertex(Vec(1.0, 1.0), Vec(9.0, 5.0), Vec(3.0, 2.0))
    ensures !ContainsVertex(Vec(1.0, 1.0), Vec(9.0, 5.0), Vec(3.0, 2.1))
    ensures ContainsVertex(Vec(2.0, 4.0), Vec(5.0, 4.0), Vec(6.0, 4.0))
    ensures ContainsVertex(Vec(4.0, 2.0), Vec(4.0, 5.0), Vec(4.0, 6.0))
  {
  }

  lemma SegmentContainsVertexExamples()
    ensures SegmentContainsVertex(Vec(1.0, 1.0), Vec(9.0, 5.0), Vec(3.0, 2.0))
    ensures !SegmentContainsVertex(Vec(1.0, 1.0), Vec(9.0, 5.0), Vec(-1.0, 0.0))
    ensures SegmentContainsVertex(Vec(2.0, 4.0), Vec(5.0, 4.0), Vec(4.0, 4.0))
    ensures !SegmentContainsVertex(Vec(2.0, 4.0), Vec(5.0, 4.0), Vec(6.0, 4.0))
    ensures SegmentContainsVertex(Vec(4.0, 2.0), Vec(4.0, 5.0), Vec(4.0, 3.0))
    ensures !SegmentContainsVertex(Vec(4.0, 2.0), Vec(4.0, 5.0), Vec(4.0, 6.0))
  {
  }

  lemma IntersectionExamples()
    ensures Intersection(Vec(1.0, 1.0), Vec(2.0, 1.0), Vec(0.0, -3.0), Vec(3.0, 3.0)) == At(Vec(2.0, 1.0))
    ensures Intersection(Vec(0.0, 0.0), Vec(1.0, 1.0), Vec(0.0, 1.0), Vec(1.0, 2.0)) == Miss
  {
    assert SlopeOf(Vec(0.0, -3.0), Vec(3.0, 3.0)) == Finite(2.0);
  }

  lemma AxisIntersectionExamples()
    ensures AxisXIntersection(Vec(1.0, 2.0), Vec(2.0, 4.0), 3.0) == Some(Vec(1.5, 3.0))
    ensures AxisXIntersection(Vec(1.0, 1.0), Vec(2.0, 1.0), 5.0) == None
    ensures AxisYIntersection(Vec(1.0, 2.0), Vec(2.0, 4.0), 3.0) == Some(Vec(3.0, 6.0))
    ensures AxisYIntersection(Vec(1.0, 1.0), Vec(1.0, 2.0), 5.0) == None
  {
  }

  lemma SegmentIntersectionExamples()
    ensures SegmentIntersection(Vec(1.0, 1.0), Vec(5.0, 5.0), Vec(1.0, 5.0), Vec(5.0, 1.0)) == At(Vec(3.0, 3.0))
    ensures SegmentIntersection(Vec(1.0, 1.0), Vec(1.0, 3.0), Vec(4.0, 1.0), Vec(4.0, 3.0)) == Miss
    ensures SegmentIntersection(Vec(1.0, 1.0), Vec(5.0, 5.0), Vec(1.0, 5.0), Vec(2.0, 4.0)) == Miss
  {
    assert SlopeOf(Vec(1.0, 5.0), Vec(5.0, 1.0)) == Finite(-1.0);
    assert SlopeOf(Vec(1.0, 5.0), Vec(2.0, 4.0)) == Finite(-1.0);
  }

  lemma PerpendicularExamples()
    ensures PerpendicularPoint(Vec(1.0, 1.0), Vec(5.0, 5.0), Vec(1.0, 5.0)) == Vec(2.0, 4.0)
    ensures ContainsVertex(Vec(1.0, 5.0), Vec(2.0, 4.0), Vec(5.0, 1.0))
    ensures PerpendicularPoint(Vec(1.0, 5.0), Vec(5.0, 5.0), Vec(3.0, 2.0)).x == 3.0
    ensures PerpendicularPoint(Vec(1.0, 1.0), Vec(1.0, 5.0), Vec(3.0, 2.0)).y == 2.0
  {
  }

  // ---------------------------------------------------------------------------
  // Operations on vector buffers

  /**
   * Writes the intersection of the lines through `v1, w1` and `v2, w2` into
   * `out` and reports it; on Miss `out` is left as it was.
   */
  method Intersect(out: array<real>, v1: array<real>, w1: array<real>, v2: array<real>, w2: array<real>)
    returns (r: Crossing)
    requires out.Length == 2 && v1.Length == 2 && w1.Length == 2 && v2.Length == 2 && w2.Length == 2
    modifies out
    ensures r == Intersection(old(VecOf(v1)), old(VecOf(w1)), old(VecOf(v2)), old(VecOf(w2)))
    ensures r.At? ==> VecOf(out) == r.p
    ensures r.Miss? ==> VecOf(out) == old(VecOf(out))
  {
    ghost var a1, b1, a2, b2 := VecOf(v1), VecOf(w1), VecOf(v2), VecOf(w2);
    var x1, y1 := v1[0], v1[1];
    var x2, y2 := v2[0], v2[1];

    var m1 := Quotient(w1[1] - y1, w1[0] - x1);
    var m2 := Quotient(w2[1] - y2, w2[0] - x2);
    var m := Minus(m1, m2);
    assert m1 == SlopeOf(a1, b1) && m2 == SlopeOf(a2, b2);

    if m == Finite(0.0) || m.NaN? {
      return Miss;
    }
    if m.Infinite? {
      return NaNPoint;
    }

    var p := SlopesMeet(x1, y1, m1.value, x2, y2, m2.value, m.value);
    assert a1.x == x1 && a1.y == y1 && a2.x == x2 && a2.y == y2;
    out[0] := p.x;
    out[1] := p.y;
    r := At(VecOf(out));
  }

  /** Writes where the line through `v` and `w` meets the horizontal line at height `y`; false for a horizontal line. */
  method IntersectAxisX(out: array<real>, v: array<real>, w: array<real>, y: real) returns (ok: bool)
    requires out.Length == 2 && v.Length == 2 && w.Length == 2
    modifies out
    ensures ok <==> AxisXIntersection(old(VecOf(v)), old(VecOf(w)), y).Some?
    ensures ok ==> VecOf(out) == AxisXIntersection(old(VecOf(v)), old(VecOf(w)), y).value
    ensures !ok ==> VecOf(out) == old(VecOf(out))
  {
    var x1, y1 := v[0], v[1];
    var x2, y2 := w[0], w[1];
    if y1 == y2 {
      return false;
    }
    var m := Quotient(y2 - y1, x2 - x1);
    out[0] := x1 + Over(y - y1, m);
    out[1] := y;
    return true;
  }

  /** Writes where the line through `v` and `w` meets the vertical line at `x`; false for a vertical line. */
  method IntersectAxisY(out: array<real>, v: array<real>, w: array<real>, x: real) returns (ok: bool)
    requires out.Length == 2 && v.Length == 2 && w.Length == 2
    modifies out
    ensures ok <==> AxisYIntersection(old(VecOf(v)), old(VecOf(w)), x).Some?
    ensures ok ==> VecOf(out) == AxisYIntersection(old(VecOf(v)), old(VecOf(w)), x).value
    ensures !ok ==> VecOf(out) == old(VecOf(out))
  {
    var x1, y1 := v[0], v[1];
    var x2, y2 := w[0], w[1];
    if x1 == x2 {
      return false;
    }
    var m := (y2 - y1) / (x2 - x1);
    out[0] := x;
    out[1] := (x - x1) * m + y1;
    return true;
  }

  /**
   * Writes the intersection of the segments `v1 w1` and `v2 w2` into `out`
   * and reports it; on Miss `out` is left as it was. The intersection is
   * first computed into a scratch vector.
   */
  method SegmentIntersect(out: array<real>, v1: array<real>, w1: array<real>, v2: array<real>, w2: array<real>)
    returns (r: Crossing)
    requires out.Length == 2 && v1.Length == 2 && w1.Length == 2 && v2.Length == 2 && w2.Length == 2
    modifies out
    ensures r == SegmentIntersection(old(VecOf(v1)), old(VecOf(w1)), old(VecOf(v2)), old(VecOf(w2)))
    ensures r.At? ==> VecOf(out) == r.p
    ensures r.Miss? ==> VecOf(out) == old(VecOf(out))
  {
    var temp := Vector2D.Create();
    var found := Intersect(temp, v1, w1, v2, w2);
    if found.Miss? {
      return Miss;
    }
    if found.NaNPoint? {
      return NaNPoint;
    }
    var x := temp[0];
    var y := temp[1];

    var vx, wx := v1[0], w1[0];
    var minX := if vx < wx then vx else wx;
    var maxX := if vx < wx then wx else vx;
    if x < minX || x > maxX {
      return Miss;
    }

    vx, wx := v2[0], w2[0];
    minX := if vx < wx then vx else wx;
    maxX := if vx < wx then wx else vx;
    if x < minX || x > maxX {
      return Miss;
    }

    out[0] := temp[0];
    out[1] := temp[1];
    r := At(Vec(x, y));
  }

  /**
   * Writes into `w2` a point such that the line from `v2` through it is
   * perpendicular to the line through `v1` and `w1`.
   */
  method Perpendicular(v1: array<real>, w1: array<real>, v2: array<real>, w2: array<real>)
    requires v1.Length == 2 && w1.Length == 2 && v2.Length == 2 && w2.Length == 2
    modifies w2
    ensures VecOf(w2) == PerpendicularPoint(old(VecOf(v1)), old(VecOf(w1)), old(VecOf(v2)))
  {
    var x1, y1 := v1[0], v1[1];
    var x2, y2 := v2[0], v2[1];
    var m1 := Quotient(w1[1] - y1, w1[0] - x1);

    if m1 == Finite(0.0) {
      w2[0] := x2;
      w2[1] := y2 + 1.0;
    } else if m1.NaN? {
      w2[0] := x2 + 1.0;
      w2[1] := y2;
    } else {
      w2[0] := x2 + 1.0;
      w2[1] := y2 - Over(1.0, m1);
    }
  }
}
