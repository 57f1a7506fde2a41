/**
 * 2D vectors. A vector is a caller-owned buffer of two coordinates
 * `[x, y]`; the operations that produce a vector write it into an `out`
 * buffer, which may be one of the inputs, and the queries read their
 * buffers and return a number. Coordinates are exact reals.
 */
module Vector2D {

  import opened RealArith

  /** A point or a direction in the plane. */
  datatype Vec = Vec(x: real, y: real)

  /** The vector held by a 2-element buffer `[x, y]`. */
  function VecOf(a: array<real>): Vec
    requires a.Length == 2
    reads a
  {
    Vec(a[0], a[1])
  }

  function Zero(): Vec {
    Vec(0.0, 0.0)
  }

  /** Component-wise sum `v + w`. */
  function Sum(v: Vec, w: Vec): Vec {
    Vec(v.x + w.x, v.y + w.y)
  }

  /** Component-wise difference `v - w`. */
  function Difference(v: Vec, w: Vec): Vec {
    Vec(v.x - w.x, v.y - w.y)
  }

  /** Both components multiplied by `c`. */
  function Scaled(v: Vec, c: real): Vec {
    Vec(v.x * c, v.y * c)
  }

  /**
   * Dot product, exported by the library both as `dot` and as `multiplyVector`.
   * With the cross product it splits |v|²|w|² (Lagrange's identity), so its
   * square never exceeds |v|²|w|² (Cauchy-Schwarz).
   */
  function Dot(v: Vec, w: Vec): (r: real)
    ensures r * r + Cross(v, w) * Cross(v, w) == (v.x * v.x + v.y * v.y) * (w.x * w.x + w.y * w.y)
    ensures r * r <= (v.x * v.x + v.y * v.y) * (w.x * w.x + w.y * w.y)
  {
    LagrangeIdentity(v.x, v.y, w.x, w.y);
    SquareNonNegative(Cross(v, w));
    v.x * w.x + v.y * w.y
  }

  /** The z-component of the 3D cross product; zero exactly when `v` and `w` are parallel. */
  function Cross(v: Vec, w: Vec): real {
    v.x * w.y - v.y * w.x
  }

  /** Squared length: the dot product of `v` with itself, never negative. */
  function Length2(v: Vec): (r: real)
    ensures r == Dot(v, v)
    ensures r >= 0.0
  {
    SumOfSquaresNonNegative(v.x, v.y);
    v.x * v.x + v.y * v.y
  }

  /** Squared distance: the squared length of the vector from `v` to `w`. */
  function Distance2(v: Vec, w: Vec): (r: real)
    ensures r == Length2(Difference(w, v))
    ensures r >= 0.0
  {
    var x := w.x - v.x;
    var y := w.y - v.y;
    SumOfSquaresNonNegative(x, y);
    x * x + y * y
  }

  /** `len` is what `length(v)` returns: the square root of the squared length. */
  predicate IsLength(v: Vec, len: real) {
    IsSqrt(len, Length2(v))
  }

  /** `d` is what `distance(v, w)` returns: the square root of the squared distance. */
  predicate IsDistance(v: Vec, w: Vec, d: real) {
    IsSqrt(d, Distance2(v, w))
  }

  /** `v` divided component-wise by `len`: the `(cos, sin)` pair of offsetTowardsPoint. */
  function Unit(v: Vec, len: real): Vec
    requires len != 0.0
  {
    Vec(v.x / len, v.y / len)
  }

  /** `v` moved by `distance` along `dir`, written as offsetTowardsAngle and offsetTowardsPoint write it. */
  function Offset(v: Vec, distance: real, dir: Vec): Vec {
    Vec(v.x + distance * dir.x, v.y + distance * dir.y)
  }

  // ---------------------------------------------------------------------------
  // Properties of the specification functions

  lemma DotSymmetric(v: Vec, w: Vec)
    ensures Dot(v, w) == Dot(w, v)
  {
  }

  /** Subtracting what was added gives back the original vector, and the other way round. */
  lemma DifferenceUndoesSum(v: Vec, w: Vec)
    ensures Difference(Sum(v, w), w) == v
    ensures Sum(Difference(v, w), w) == v
  {
  }

  /** Scaling by `c` and then by `1/c` gives back the original vector. */
  lemma ScaledRoundTrip(v: Vec, c: real)
    requires c != 0.0
    ensures Scaled(Scaled(v, c), 1.0 / c) == v
  {
    ScaleRoundTrip(v.x, c);
    ScaleRoundTrip(v.y, c);
  }

  /** Only the zero vector has squared length zero. */
  lemma Length2Zero(v: Vec)
    ensures Length2(v) == 0.0 <==> v == Zero()
  {
    if v != Zero() {
      calc {
        Length2(v);
      == v.x * v.x + v.y * v.y;
      > { SumOfSquaresPositive(v.x, v.y); }
        0.0;
      }
    }
  }

  lemma Distance2Symmetric(v: Vec, w: Vec)
    ensures Distance2(v, w) == Distance2(w, v)
  {
  }

  /** Two points are at squared distance zero exactly when they coincide. */
  lemma Distance2Zero(v: Vec, w: Vec)
    ensures Distance2(v, w) == 0.0 <==> v == w
  {
    if v != w {
      var x, y := w.x - v.x, w.y - v.y;
      assert x != 0.0 || y != 0.0;
      calc {
        Distance2(v, w);
      == x * x + y * y;
      > { SumOfSquaresPositive(x, y); }
        0.0;
      }
    }
  }

  /** The length is zero exactly for the zero vector. */
  lemma LengthZero(v: Vec, len: real)
    requires IsLength(v, len)
    ensures len == 0.0 <==> v == Zero()
  {
    SqrtZero(len, Length2(v));
    Length2Zero(v);
  }

  /** distance(v, w) == distance(w, v), and it is the length of `w - v`. */
  lemma DistanceSymmetric(v: Vec, w: Vec, d: real)
    ensures IsDistance(v, w, d) <==> IsDistance(w, v, d)
    ensures IsDistance(v, w, d) <==> IsLength(Difference(w, v), d)
  {
    Distance2Symmetric(v, w);
  }

  /** Dividing by the length is the same as scaling by its inverse, as normalize does. */
  lemma UnitIsScaled(v: Vec, len: real)
    requires len != 0.0
    ensures Unit(v, len) == Scaled(v, 1.0 / len)
  {
  }

  /** Dividing a non-zero vector by its length gives a vector of length 1. */
  lemma UnitHasLengthOne(v: Vec, len: real)
    requires IsLength(v, len) && len != 0.0
    ensures Length2(Unit(v, len)) == 1.0
    ensures IsLength(Unit(v, len), 1.0)
  {
    QuotientSquares(v.x, v.y, len);
  }

  /** The unit vector does not depend on which square root is passed as the length. */
  lemma UnitIndependentOfRoot(v: Vec, len: real, len': real)
    requires IsLength(v, len) && IsLength(v, len') && len != 0.0
    ensures len' != 0.0 && Unit(v, len) == Unit(v, len')
  {
    SqrtUnique(len, len', Length2(v));
  }

  /** A normalized vector has length 1 and scales back to the original by its length. */
  lemma NormalizedRoundTrip(v: Vec, len: real)
    requires IsLength(v, len) && len != 0.0
    ensures IsLength(Scaled(v, 1.0 / len), 1.0)
    ensures Scaled(Scaled(v, 1.0 / len), len) == v
  {
    UnitIsScaled(v, len);
    UnitHasLengthOne(v, len);
    assert len != 0.0 && 1.0 / (1.0 / len) == len;
    ScaledRoundTrip(Scaled(v, 1.0 / len), len);
    ScaledRoundTrip(v, 1.0 / len);
  }

  /** Moving along a direction of length 1 ends at squared distance `distance²`. */
  lemma OffsetDistance(v: Vec, distance: real, dir: Vec)
    requires Length2(dir) == 1.0
    ensures Distance2(v, Offset(v, distance, dir)) == distance * distance
  {
    var p := Offset(v, distance, dir);
    calc {
      Distance2(v, p);
    == (p.x - v.x) * (p.x - v.x) + (p.y - v.y) * (p.y - v.y);
    == (distance * dir.x) * (distance * dir.x) + (distance * dir.y) * (distance * dir.y);
    == { ScaledSquares(distance, dir.x, dir.y); }
      distance * distance * (dir.x * dir.x + dir.y * dir.y);
    == distance * distance * Length2(dir);
    }
  }

  /**
   * offsetTowardsAngle moves by `distance` when `(cos, sin)` is a point of
   * the unit circle, as Math.cos and Math.sin of one angle are.
   */
  lemma OffsetTowardsAngleDistance(v: Vec, distance: real, cos: real, sin: real)
    requires cos * cos + sin * sin == 1.0
    ensures Distance2(v, Offset(v, distance, Vec(cos, sin))) == distance * distance
  {
    OffsetDistance(v, distance, Vec(cos, sin));
  }

  /**
   * offsetTowardsPoint moves from `v` towards `target` by `distance`: the
   * result is at that distance from `v`, on the line through `v` and
   * `target`, and is `target` itself when `distance` is their distance.
   */
  lemma OffsetTowardsPointProperties(v: Vec, target: Vec, distance: real, len: real)
    requires IsDistance(v, target, len) && len != 0.0
    ensures Distance2(v, Offset(v, distance, Unit(Difference(target, v), len))) == distance * distance
    ensures Cross(Difference(target, v), Difference(Offset(v, distance, Unit(Difference(target, v), len)), v)) == 0.0
    ensures distance == len ==> Offset(v, distance, Unit(Difference(target, v), len)) == target
  {
    var d := Difference(target, v);
    var u := Unit(d, len);
    UnitHasLengthOne(d, len);
    OffsetDistance(v, distance, u);
    var p := Offset(v, distance, u);
    calc {
      Cross(d, Difference(p, v));
    == d.x * (distance * (d.y / len)) - d.y * (distance * (d.x / len));
    == { CrossOfQuotients(d.x, d.y, distance, len); }
      0.0;
    }
    if distance == len {
      MulDivCancel(d.x, len);
      MulDivCancel(d.y, len);
    }
  }

  // ---------------------------------------------------------------------------
  // Operations on vector buffers

  /** A fresh vector holds (0, 0). */
  method Create() returns (out: array<real>)
    ensures fresh(out) && out.Length == 2
    ensures VecOf(out) == Zero()
  {
    out := new real[2](_ => 0.0);
  }

  /** Copies `v` into `out`. */
  method SetVector(out: array<real>, v: array<real>)
    requires out.Length == 2 && v.Length == 2
    modifies out
    ensures VecOf(out) == old(VecOf(v))
  {
    out[0] := v[0];
    out[1] := v[1];
  }

  /** Writes `(x, y)` into `out`. */
  method SetScalar(out: array<real>, x: real, y: real)
    requires out.Length == 2
    modifies out
    ensures VecOf(out) == Vec(x, y)
  {
    out[0] := x;
    out[1] := y;
  }

  /** `out := v + w`; correct when `out` is `v` or `w`. */
  method Add(out: array<real>, v: array<real>, w: array<real>)
    requires out.Length == 2 && v.Length == 2 && w.Length == 2
    modifies out
    ensures VecOf(out) == Sum(old(VecOf(v)), old(VecOf(w)))
  {
    out[0] := v[0] + w[0];
    out[1] := v[1] + w[1];
  }

  /** `out := v - w`; correct when `out` is `v` or `w`. */
  method Subtract(out: array<real>, v: array<real>, w: array<real>)
    requires out.Length == 2 && v.Length == 2 && w.Length == 2
    modifies out
    ensures VecOf(out) == Difference(old(VecOf(v)), old(VecOf(w)))
  {
    out[0] := v[0] - w[0];
    out[1] := v[1] - w[1];
  }

  /** `out := c v`; correct when `out` is `v`. */
  method MultiplyScalar(out: array<real>, v: array<real>, c: real)
    requires out.Length == 2 && v.Length == 2
    modifies out
    ensures VecOf(out) == Scaled(old(VecOf(v)), c)
  {
    ghost var r := Scaled(VecOf(v), c);
    out[0] := v[0] * c;
    out[1] := v[1] * c;
    assert VecOf(out) == Vec(r.x, r.y);
  }

  /**
   * `out := v / |v|`. `length` stands for `Math.sqrt(length2(v))`, which
   * the source computes; the zero vector, whose normalization is NaN in
   * IEEE 754 arithmetic, is excluded.
   */
  method Normalize(out: array<real>, v: array<real>, length: real)
    requires out.Length == 2 && v.Length == 2
    requires IsLength(VecOf(v), length) && length != 0.0
    modifies out
    ensures VecOf(out) == Scaled(old(VecOf(v)), 1.0 / length)
  {
    ghost var r := Scaled(VecOf(v), 1.0 / length);
    var len := 1.0 / length;
    out[0] := v[0] * len;
    out[1] := v[1] * len;
    assert VecOf(out) == Vec(r.x, r.y);
  }

  /** `out := vertex + distance (cos, sin)`, with `cos`, `sin` standing for Math.cos and Math.sin of the angle. */
  method OffsetTowardsAngle(out: array<real>, vertex: array<real>, distance: real, cos: real, sin: real)
    requires out.Length == 2 && vertex.Length == 2
    modifies out
    ensures VecOf(out) == Offset(old(VecOf(vertex)), distance, Vec(cos, sin))
  {
    ghost var r := Offset(VecOf(vertex), distance, Vec(cos, sin));
    out[0] := vertex[0] + distance * cos;
    out[1] := vertex[1] + distance * sin;
    assert VecOf(out) == Vec(r.x, r.y);
  }

  /**
   * `out := vertex + distance (target - vertex) / len`, exported as both
   * offsetTowardsPoint and offsetTowardsVertex. `len` stands for the
   * `Math.sqrt` the source takes of the squared distance; `target ==
   * vertex`, which divides zero by zero, is excluded.
   */
  method OffsetTowardsPoint(out: array<real>, vertex: array<real>, distance: real, target: array<real>, len: real)
    requires out.Length == 2 && vertex.Length == 2 && target.Length == 2
    requires IsDistance(VecOf(vertex), VecOf(target), len) && len != 0.0
    modifies out
    ensures VecOf(out) == Offset(old(VecOf(vertex)), distance, Unit(Difference(old(VecOf(target)), old(VecOf(vertex))), len))
  {
    ghost var v0, t0 := VecOf(vertex), VecOf(target);
    var x := target[0] - vertex[0];
    var y := target[1] - vertex[1];
    var cos := x / len;
    var sin := y / len;
    assert Unit(Difference(t0, v0), len) == Vec(cos, sin);
    out[0] := vertex[0] + distance * cos;
    out[1] := vertex[1] + distance * sin;
  }
}
