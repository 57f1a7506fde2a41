/**
 * 3x3 matrices for 2D affine transforms in homogeneous coordinates. A
 * matrix is a caller-owned buffer of nine entries in row-major order,
 *
 *     [0, 1, 2]   [a, b, c]
 *     [3, 4, 5] = [d, e, f]
 *     [6, 7, 8]   [g, h, i]
 *
 * and every operation that produces a matrix or a vector writes it into an
 * `out` buffer, which may be one of the inputs.
 */
module Matrix3D {

  import Vector2D

  /** The nine entries of a matrix, named as in the row-major layout above. */
  datatype Mat = Mat(a: real, b: real, c: real,
                     d: real, e: real, f: real,
                     g: real, h: real, i: real)

  /** A 3D (homogeneous) vector. */
  datatype Vec3 = Vec3(x: real, y: real, z: real)

  /** The matrix held by a 9-element buffer. */
  function MatOf(m: array<real>): Mat
    requires m.Length == 9
    reads m
  {
    Mat(m[0], m[1], m[2], m[3], m[4], m[5], m[6], m[7], m[8])
  }

  /** The vector held by a 3-element buffer `[x, y, z]`. */
  function Vec3Of(v: array<real>): Vec3
    requires v.Length == 3
    reads v
  {
    Vec3(v[0], v[1], v[2])
  }

  function Zero(): Mat {
    Mat(0.0, 0.0, 0.0, 0.0, 0.0, 0.0, 0.0, 0.0, 0.0)
  }

  function Identity(): Mat {
    Mat(1.0, 0.0, 0.0, 0.0, 1.0, 0.0, 0.0, 0.0, 1.0)
  }

  /** Entry-wise sum `m + n`. */
  function Sum(m: Mat, n: Mat): Mat {
    Mat(m.a + n.a, m.b + n.b, m.c + n.c,
        m.d + n.d, m.e + n.e, m.f + n.f,
        m.g + n.g, m.h + n.h, m.i + n.i)
  }

  /** Entry-wise difference `m - n`. */
  function Difference(m: Mat, n: Mat): Mat {
    Mat(m.a - n.a, m.b - n.b, m.c - n.c,
        m.d - n.d, m.e - n.e, m.f - n.f,
        m.g - n.g, m.h - n.h, m.i - n.i)
  }

  /** Every entry multiplied by `k`. */
  function Scaled(m: Mat, k: real): Mat {
    Mat(Times(m.a, k), Times(m.b, k), Times(m.c, k),
        Times(m.d, k), Times(m.e, k), Times(m.f, k),
        Times(m.g, k), Times(m.h, k), Times(m.i, k))
  }

  /** One entry multiplied by the scalar `k`. */
  function Times(x: real, k: real): real {
    x * k
  }

  /** Row `(r0, r1, r2)` times column `(c0, c1, c2)`. */
  function Dot3(r0: real, r1: real, r2: real, c0: real, c1: real, c2: real): real {
    r0 * c0 + r1 * c1 + r2 * c2
  }

  /** The matrix product `m n`: entry (r, c) is row r of `m` times column c of `n`. */
  function Product(m: Mat, n: Mat): Mat {
    Mat(Dot3(m.a, m.b, m.c, n.a, n.d, n.g), Dot3(m.a, m.b, m.c, n.b, n.e, n.h), Dot3(m.a, m.b, m.c, n.c, n.f, n.i),
        Dot3(m.d, m.e, m.f, n.a, n.d, n.g), Dot3(m.d, m.e, m.f, n.b, n.e, n.h), Dot3(m.d, m.e, m.f, n.c, n.f, n.i),
        Dot3(m.g, m.h, m.i, n.a, n.d, n.g), Dot3(m.g, m.h, m.i, n.b, n.e, n.h), Dot3(m.g, m.h, m.i, n.c, n.f, n.i))
  }

  /** `m` applied to the 3D vector `v`. */
  function Apply3D(m: Mat, v: Vec3): Vec3 {
    Vec3(Dot3(m.a, m.b, m.c, v.x, v.y, v.z),
         Dot3(m.d, m.e, m.f, v.x, v.y, v.z),
         Dot3(m.g, m.h, m.i, v.x, v.y, v.z))
  }

  /** `m` applied to the 2D point `v`: the point `(x, y, 1)` transformed, bottom row dropped. */
  function Apply2D(m: Mat, v: Vector2D.Vec): Vector2D.Vec {
    Vector2D.Vec(m.a * v.x + m.b * v.y + m.c,
                 m.d * v.x + m.e * v.y + m.f)
  }

  /** The matrix that moves every point by `(x, y)`. */
  function Translation(x: real, y: real): Mat {
    Mat(1.0, 0.0, x, 0.0, 1.0, y, 0.0, 0.0, 1.0)
  }

  /** The counter-clockwise rotation whose angle has cosine `cos` and sine `sin`. */
  function Rotation(cos: real, sin: real): Mat {
    Mat(cos, -sin, 0.0, sin, cos, 0.0, 0.0, 0.0, 1.0)
  }

  /** The matrix that scales x by `x` and y by `y`. */
  function Scaling(x: real, y: real): Mat {
    Mat(x, 0.0, 0.0, 0.0, y, 0.0, 0.0, 0.0, 1.0)
  }

  /** The bottom row is `[0, 0, 1]`: `m` maps points `(x, y, 1)` to points `(x', y', 1)`. */
  predicate IsAffine(m: Mat) {
    m.g == 0.0 && m.h == 0.0 && m.i == 1.0
  }

  // ---------------------------------------------------------------------------
  // Helpers on plain reals

  /** The distributive step behind "(m n) v == m (n v)", for one row `m0 m1 m2` of `m`. */
  lemma RowTimesColumns(m0: real, m1: real, m2: real,
                        n0: real, n1: real, n2: real, n3: real, n4: real, n5: real,
                        n6: real, n7: real, n8: real, x: real, y: real, z: real)
    ensures Dot3(Dot3(m0, m1, m2, n0, n3, n6), Dot3(m0, m1, m2, n1, n4, n7), Dot3(m0, m1, m2, n2, n5, n8), x, y, z)
         == Dot3(m0, m1, m2, Dot3(n0, n1, n2, x, y, z), Dot3(n3, n4, n5, x, y, z), Dot3(n6, n7, n8, x, y, z))
  {
  }

  /** Multiplying an entry by `k` and then by `l` multiplies it by `k * l`. */
  lemma TimesTwice(x: real, k: real, l: real)
    ensures Times(Times(x, k), l) == Times(x, k * l)
  {
  }

  /** The bottom row of an affine matrix maps a point `(x, y, 1)` to the third coordinate 1. */
  lemma AffineBottomRow(g: real, h: real, i: real, x: real, y: real)
    requires g == 0.0 && h == 0.0 && i == 1.0
    ensures g * x + h * y + i * 1.0 == 1.0
  {
  }

  /**
   * The dot product of two vectors rotated by a point `(cos, sin)` of the
   * unit circle is the dot product of the originals: `(a1, b1)` is `(x1, y1)`
   * rotated and `(a2, b2)` is `(x2, y2)` rotated.
   */
  lemma RotatedProducts(cos: real, sin: real, x1: real, y1: real, x2: real, y2: real,
                        a1: real, b1: real, a2: real, b2: real)
    requires cos * cos + sin * sin == 1.0
    requires a1 == cos * x1 - sin * y1 && b1 == sin * x1 + cos * y1
    requires a2 == cos * x2 - sin * y2 && b2 == sin * x2 + cos * y2
    ensures a1 * a2 + b1 * b2 == x1 * x2 + y1 * y2
  {
    var u, t := cos * cos + sin * sin, x1 * x2 + y1 * y2;
    assert a1 * a2 + b1 * b2 == u * t;
    assert u * t == t;
  }

  /** A row times the columns of a rotation. */
  lemma RowTimesRotation(r0: real, r1: real, r2: real, cos: real, sin: real)
    ensures Dot3(r0, r1, r2, cos, sin, 0.0) == r0 * cos + r1 * sin
    ensures Dot3(r0, r1, r2, -sin, cos, 0.0) == r1 * cos - r0 * sin
    ensures Dot3(r0, r1, r2, 0.0, 0.0, 1.0) == r2
  {
  }

  /**
   * Multiplying by a translation on the right adds a combination of the
   * first two columns to the third; `m0`, `m1`, `m3`, `m4`, `m6`, `m7` are
   * the entries of those two columns.
   */
  lemma TranslationOnRight(p: Mat, m0: real, m1: real, m3: real, m4: real, m6: real, m7: real, x: real, y: real)
    requires p.a == m0 && p.b == m1 && p.d == m3 && p.e == m4 && p.g == m6 && p.h == m7
    ensures Product(p, Translation(x, y))
         == Mat(m0, m1, m0 * x + m1 * y + p.c, m3, m4, m3 * x + m4 * y + p.f, m6, m7, m6 * x + m7 * y + p.i)
  {
  }

  /** Multiplying by a rotation on the right rotates the first two columns, named as in TranslationOnRight. */
  lemma RotationOnRight(p: Mat, m0: real, m1: real, m3: real, m4: real, m6: real, m7: real, cos: real, sin: real)
    requires p.a == m0 && p.b == m1 && p.d == m3 && p.e == m4 && p.g == m6 && p.h == m7
    ensures Product(p, Rotation(cos, sin))
         == Mat(m0 * cos + m1 * sin, m1 * cos - m0 * sin, p.c,
                m3 * cos + m4 * sin, m4 * cos - m3 * sin, p.f,
                m6 * cos + m7 * sin, m7 * cos - m6 * sin, p.i)
  {
    RowTimesRotation(m0, m1, p.c, cos, sin);
    RowTimesRotation(m3, m4, p.f, cos, sin);
    RowTimesRotation(m6, m7, p.i, cos, sin);
  }

  /** Multiplying by a scaling on the right scales the first two columns. */
  lemma ScalingOnRight(m: Mat, x: real, y: real)
    ensures Product(m, Scaling(x, y)) == Mat(m.a * x, m.b * y, m.c, m.d * x, m.e * y, m.f, m.g * x, m.h * y, m.i)
  {
  }

  // ---------------------------------------------------------------------------
  // Properties of the specification functions

  lemma DifferenceWithSelf(m: Mat)
    ensures Difference(m, m) == Zero()
  {
  }

  /** Subtracting what was added gives back the original matrix, and the other way round. */
  lemma DifferenceUndoesSum(m: Mat, n: Mat)
    ensures Difference(Sum(m, n), n) == m
    ensures Sum(Difference(m, n), n) == m
  {
  }

  /** Scaling by `k` and then by `1/k` gives back the original matrix. */
  lemma ScaledRoundTrip(m: Mat, k: real)
    requires k != 0.0
    ensures Scaled(Scaled(m, k), 1.0 / k) == m
  {
    var l := 1.0 / k;
    assert k * l == 1.0;
    calc {
      Scaled(Scaled(m, k), l);
    == { ScaledTwice(m, k, l); }
      Scaled(m, k * l);
    == Scaled(m, 1.0);
    == m;
    }
  }

  /** Scaling twice is scaling once by the product of the factors. */
  lemma ScaledTwice(m: Mat, k: real, l: real)
    ensures Scaled(Scaled(m, k), l) == Scaled(m, k * l)
  {
    TimesTwice(m.a, k, l); TimesTwice(m.b, k, l); TimesTwice(m.c, k, l);
    TimesTwice(m.d, k, l); TimesTwice(m.e, k, l); TimesTwice(m.f, k, l);
    TimesTwice(m.g, k, l); TimesTwice(m.h, k, l); TimesTwice(m.i, k, l);
  }

  /** The identity matrix is neutral on both sides of the product, and fixes every point. */
  lemma ProductIdentity(m: Mat, v: Vector2D.Vec)
    ensures Product(m, Identity()) == m
    ensures Product(Identity(), m) == m
    ensures Apply2D(Identity(), v) == v
  {
  }

  /** Applying a product to a vector applies the right factor first. */
  lemma ProductApply3D(m: Mat, n: Mat, v: Vec3)
    ensures Apply3D(Product(m, n), v) == Apply3D(m, Apply3D(n, v))
  {
    RowTimesColumns(m.a, m.b, m.c, n.a, n.b, n.c, n.d, n.e, n.f, n.g, n.h, n.i, v.x, v.y, v.z);
    RowTimesColumns(m.d, m.e, m.f, n.a, n.b, n.c, n.d, n.e, n.f, n.g, n.h, n.i, v.x, v.y, v.z);
    RowTimesColumns(m.g, m.h, m.i, n.a, n.b, n.c, n.d, n.e, n.f, n.g, n.h, n.i, v.x, v.y, v.z);
  }

  /** For an affine right factor the same holds of 2D points. */
  lemma ProductApply2D(m: Mat, n: Mat, v: Vector2D.Vec)
    requires IsAffine(n)
    ensures Apply2D(Product(m, n), v) == Apply2D(m, Apply2D(n, v))
  {
    var v3 := Vec3(v.x, v.y, 1.0);
    ProductApply3D(m, n, v3);
    AffineBottomRow(n.g, n.h, n.i, v.x, v.y);
    Apply2DIsApply3D(Product(m, n), v);
    Apply2DIsApply3D(n, v);
    Apply2DIsApply3D(m, Apply2D(n, v));
  }

  /** multiplyVector2D is multiplyVector3D on `(x, y, 1)` with the third coordinate dropped. */
  lemma Apply2DIsApply3D(m: Mat, v: Vector2D.Vec)
    ensures Apply2D(m, v).x == Apply3D(m, Vec3(v.x, v.y, 1.0)).x
    ensures Apply2D(m, v).y == Apply3D(m, Vec3(v.x, v.y, 1.0)).y
    ensures IsAffine(m) ==> Apply3D(m, Vec3(v.x, v.y, 1.0)).z == 1.0
  {
  }

  /** The bottom row plays no part in multiplyVector2D. */
  lemma Apply2DIgnoresBottomRow(m: Mat, g: real, h: real, i: real, v: Vector2D.Vec)
    ensures Apply2D(Mat(m.a, m.b, m.c, m.d, m.e, m.f, g, h, i), v) == Apply2D(m, v)
  {
  }

  /** Two matrices that agree on the three unit vectors are equal. */
  lemma EqualOnBasis(p: Mat, q: Mat)
    requires Apply3D(p, Vec3(1.0, 0.0, 0.0)) == Apply3D(q, Vec3(1.0, 0.0, 0.0))
    requires Apply3D(p, Vec3(0.0, 1.0, 0.0)) == Apply3D(q, Vec3(0.0, 1.0, 0.0))
    requires Apply3D(p, Vec3(0.0, 0.0, 1.0)) == Apply3D(q, Vec3(0.0, 0.0, 1.0))
    ensures p == q
  {
    assert Apply3D(p, Vec3(1.0, 0.0, 0.0)) == Vec3(p.a, p.d, p.g);
    assert Apply3D(p, Vec3(0.0, 1.0, 0.0)) == Vec3(p.b, p.e, p.h);
    assert Apply3D(p, Vec3(0.0, 0.0, 1.0)) == Vec3(p.c, p.f, p.i);
    assert Apply3D(q, Vec3(1.0, 0.0, 0.0)) == Vec3(q.a, q.d, q.g);
    assert Apply3D(q, Vec3(0.0, 1.0, 0.0)) == Vec3(q.b, q.e, q.h);
    assert Apply3D(q, Vec3(0.0, 0.0, 1.0)) == Vec3(q.c, q.f, q.i);
  }

  /** Both bracketings of a triple product act alike on every vector. */
  lemma ProductAssociativeOn(m: Mat, n: Mat, p: Mat, v: Vec3)
    ensures Apply3D(Product(Product(m, n), p), v) == Apply3D(Product(m, Product(n, p)), v)
  {
    ProductApply3D(Product(m, n), p, v);
    ProductApply3D(m, n, Apply3D(p, v));
    ProductApply3D(m, Product(n, p), v);
    ProductApply3D(n, p, v);
  }

  /** The matrix product is associative, so chains of transforms can be grouped freely. */
  lemma {:induction false} ProductAssociative(m: Mat, n: Mat, p: Mat)
    ensures Product(Product(m, n), p) == Product(m, Product(n, p))
  {
    ProductAssociativeOn(m, n, p, Vec3(1.0, 0.0, 0.0));
    ProductAssociativeOn(m, n, p, Vec3(0.0, 1.0, 0.0));
    ProductAssociativeOn(m, n, p, Vec3(0.0, 0.0, 1.0));
    EqualOnBasis(Product(Product(m, n), p), Product(m, Product(n, p)));
  }

  /** Affine matrices are closed under the product. */
  lemma AffineProduct(m: Mat, n: Mat)
    requires IsAffine(m) && IsAffine(n)
    ensures IsAffine(Product(m, n))
  {
  }

  /** Translations, rotations and scalings are affine. */
  lemma TransformsAreAffine(x: real, y: real, cos: real, sin: real)
    ensures IsAffine(Translation(x, y))
    ensures IsAffine(Rotation(cos, sin))
    ensures IsAffine(Scaling(x, y))
    ensures IsAffine(Identity())
  {
  }

  /** A translation matrix moves a point by its offset. */
  lemma TranslationMovesPoint(x: real, y: real, v: Vector2D.Vec)
    ensures Apply2D(Translation(x, y), v) == Vector2D.Sum(v, Vector2D.Vec(x, y))
  {
  }

  /** Two translations compose into one by the sum of their offsets; opposite ones cancel. */
  lemma TranslationsCompose(x1: real, y1: real, x2: real, y2: real)
    ensures Product(Translation(x1, y1), Translation(x2, y2)) == Translation(x1 + x2, y1 + y2)
    ensures Product(Translation(x1, y1), Translation(-x1, -y1)) == Identity()
  {
  }

  /** A scaling matrix scales a point component-wise. */
  lemma ScalingScalesPoint(x: real, y: real, v: Vector2D.Vec)
    ensures Apply2D(Scaling(x, y), v) == Vector2D.Vec(v.x * x, v.y * y)
  {
  }

  /** A rotation matrix turns a point about the origin. */
  lemma RotationTurnsPoint(cos: real, sin: real, v: Vector2D.Vec)
    ensures Apply2D(Rotation(cos, sin), v) == Vector2D.Vec(cos * v.x - sin * v.y, sin * v.x + cos * v.y)
  {
  }

  /** Two scalings compose into one by the products of their factors. */
  lemma ScalingsCompose(x1: real, y1: real, x2: real, y2: real)
    ensures Product(Scaling(x1, y1), Scaling(x2, y2)) == Scaling(x1 * x2, y1 * y2)
  {
  }

  /**
   * A rotation keeps dot products, hence lengths and angles, when `(cos,
   * sin)` lies on the unit circle as Math.cos and Math.sin of one angle do.
   */
  lemma RotationPreservesDot(cos: real, sin: real, v: Vector2D.Vec, w: Vector2D.Vec)
    requires cos * cos + sin * sin == 1.0
    ensures Vector2D.Dot(Apply2D(Rotation(cos, sin), v), Apply2D(Rotation(cos, sin), w)) == Vector2D.Dot(v, w)
  {
    var rv, rw := Apply2D(Rotation(cos, sin), v), Apply2D(Rotation(cos, sin), w);
    RotationTurnsPoint(cos, sin, v);
    RotationTurnsPoint(cos, sin, w);
    RotatedProducts(cos, sin, v.x, v.y, w.x, w.y, rv.x, rv.y, rw.x, rw.y);
  }

  /** Hence a rotation keeps lengths. */
  lemma RotationPreservesLength(cos: real, sin: real, v: Vector2D.Vec)
    requires cos * cos + sin * sin == 1.0
    ensures Vector2D.Length2(Apply2D(Rotation(cos, sin), v)) == Vector2D.Length2(v)
  {
    RotationPreservesDot(cos, sin, v, v);
  }

  /**
   * Rotations compose by the angle-addition formulas, and rotating by an
   * angle and then by its opposite (cosine kept, sine negated) is the identity.
   */
  lemma RotationsCompose(cos1: real, sin1: real, cos2: real, sin2: real)
    ensures Product(Rotation(cos1, sin1), Rotation(cos2, sin2))
         == Rotation(cos1 * cos2 - sin1 * sin2, sin1 * cos2 + cos1 * sin2)
    ensures cos1 * cos1 + sin1 * sin1 == 1.0 ==> Product(Rotation(cos1, sin1), Rotation(cos1, -sin1)) == Identity()
  {
  }

  /** A translated matrix maps a point as the original maps the point moved by the offset. */
  lemma TranslatedApply(m: Mat, x: real, y: real, v: Vector2D.Vec)
    ensures Apply2D(Product(m, Translation(x, y)), v) == Apply2D(m, Vector2D.Sum(v, Vector2D.Vec(x, y)))
  {
    TransformsAreAffine(x, y, 0.0, 0.0);
    ProductApply2D(m, Translation(x, y), v);
    TranslationMovesPoint(x, y, v);
  }

  /** A rotated matrix maps a point as the original maps the rotated point. */
  lemma RotatedApply(m: Mat, cos: real, sin: real, v: Vector2D.Vec)
    ensures Apply2D(Product(m, Rotation(cos, sin)), v) == Apply2D(m, Apply2D(Rotation(cos, sin), v))
  {
    TransformsAreAffine(0.0, 0.0, cos, sin);
    ProductApply2D(m, Rotation(cos, sin), v);
  }

  /** A scaled matrix maps a point as the original maps the scaled point. */
  lemma ScaledApply(m: Mat, x: real, y: real, v: Vector2D.Vec)
    ensures Apply2D(Product(m, Scaling(x, y)), v) == Apply2D(m, Vector2D.Vec(v.x * x, v.y * y))
  {
    TransformsAreAffine(x, y, 0.0, 0.0);
    ProductApply2D(m, Scaling(x, y), v);
    ScalingScalesPoint(x, y, v);
  }

  // ---------------------------------------------------------------------------
  // Operations on matrix buffers

  /** A fresh matrix holds nine zeros. */
  method Create() returns (out: array<real>)
    ensures fresh(out) && out.Length == 9
    ensures MatOf(out) == Zero()
  {
    out := new real[9](_ => 0.0);
  }

  /** A fresh matrix set to the identity. */
  method CreateIdentity() returns (out: array<real>)
    ensures fresh(out) && out.Length == 9
    ensures MatOf(out) == Identity()
  {
    out := Create();
    SetIdentity(out);
  }

  /** Copies `m` into `out`. */
  method SetMatrix(out: array<real>, m: array<real>)
    requires out.Length == 9 && m.Length == 9
    modifies out
    ensures MatOf(out) == old(MatOf(m))
  {
    ghost var r := MatOf(m);
    out[0] := m[0];
    out[1] := m[1];
    out[2] := m[2];
    out[3] := m[3];
    out[4] := m[4];
    out[5] := m[5];
    out[6] := m[6];
    out[7] := m[7];
    out[8] := m[8];
    assert out[0] == r.a && out[1] == r.b && out[2] == r.c;
    assert out[3] == r.d && out[4] == r.e && out[5] == r.f;
    assert out[6] == r.g && out[7] == r.h && out[8] == r.i;
  }

  /** Writes the nine entries `a` to `i` into `out`, row by row. */
  method SetScalar(out: array<real>, a: real, b: real, c: real, d: real, e: real,
                   f: real, g: real, h: real, i: real)
    requires out.Length == 9
    modifies out
    ensures MatOf(out) == Mat(a, b, c, d, e, f, g, h, i)
  {
    out[0] := a;
    out[1] := b;
    out[2] := c;
    out[3] := d;
    out[4] := e;
    out[5] := f;
    out[6] := g;
    out[7] := h;
    out[8] := i;
  }

  method SetZero(out: array<real>)
    requires out.Length == 9
    modifies out
    ensures MatOf(out) == Zero()
  {
    out[0], out[1], out[2], out[3], out[4], out[5], out[6], out[7], out[8]
      := 0.0, 0.0, 0.0, 0.0, 0.0, 0.0, 0.0, 0.0, 0.0;
  }

  method SetIdentity(out: array<real>)
    requires out.Length == 9
    modifies out
    ensures MatOf(out) == Identity()
  {
    out[0], out[4], out[8] := 1.0, 1.0, 1.0;
    out[1], out[2], out[3], out[5], out[6], out[7] := 0.0, 0.0, 0.0, 0.0, 0.0, 0.0;
  }

  /** `out := m + n`; correct when `out` is `m` or `n`. */
  method Add(out: array<real>, m: array<real>, n: array<real>)
    requires out.Length == 9 && m.Length == 9 && n.Length == 9
    modifies out
    ensures MatOf(out) == Sum(old(MatOf(m)), old(MatOf(n)))
  {
    ghost var r := Sum(MatOf(m), MatOf(n));
    out[0] := m[0] + n[0];
    out[1] := m[1] + n[1];
    out[2] := m[2] + n[2];
    out[3] := m[3] + n[3];
    out[4] := m[4] + n[4];
    out[5] := m[5] + n[5];
    out[6] := m[6] + n[6];
    out[7] := m[7] + n[7];
    out[8] := m[8] + n[8];
    assert out[0] == r.a && out[1] == r.b && out[2] == r.c;
    assert out[3] == r.d && out[4] == r.e && out[5] == r.f;
    assert out[6] == r.g && out[7] == r.h && out[8] == r.i;
  }

  /** `out := m - n`; correct when `out` is `m` or `n`. */
  method Subtract(out: array<real>, m: array<real>, n: array<real>)
    requires out.Length == 9 && m.Length == 9 && n.Length == 9
    modifies out
    ensures MatOf(out) == Difference(old(MatOf(m)), old(MatOf(n)))
  {
    ghost var r := Difference(MatOf(m), MatOf(n));
    out[0] := m[0] - n[0];
    out[1] := m[1] - n[1];
    out[2] := m[2] - n[2];
    out[3] := m[3] - n[3];
    out[4] := m[4] - n[4];
    out[5] := m[5] - n[5];
    out[6] := m[6] - n[6];
    out[7] := m[7] - n[7];
    out[8] := m[8] - n[8];
    assert out[0] == r.a && out[1] == r.b && out[2] == r.c;
    assert out[3] == r.d && out[4] == r.e && out[5] == r.f;
    assert out[6] == r.g && out[7] == r.h && out[8] == r.i;
  }

  /** `out := k m`; correct when `out` is `m`. */
  method MultiplyScalar(out: array<real>, m: array<real>, k: real)
    requires out.Length == 9 && m.Length == 9
    modifies out
    ensures MatOf(out) == Scaled(old(MatOf(m)), k)
  {
    ghost var r := Scaled(MatOf(m), k);
    out[0] := m[0] * k;
    out[1] := m[1] * k;
    out[2] := m[2] * k;
    out[3] := m[3] * k;
    out[4] := m[4] * k;
    out[5] := m[5] * k;
    out[6] := m[6] * k;
    out[7] := m[7] * k;
    out[8] := m[8] * k;
    assert out[0] == r.a && out[1] == r.b && out[2] == r.c;
    assert out[3] == r.d && out[4] == r.e && out[5] == r.f;
    assert out[6] == r.g && out[7] == r.h && out[8] == r.i;
  }

  /** `out := m (x, y, 1)`, first two coordinates; correct when `out` is `v`. */
  method MultiplyVector2D(out: array<real>, m: array<real>, v: array<real>)
    requires out.Length == 2 && m.Length == 9 && v.Length == 2
    modifies out
    ensures Vector2D.VecOf(out) == Apply2D(old(MatOf(m)), old(Vector2D.VecOf(v)))
  {
    ghost var r := Apply2D(MatOf(m), Vector2D.VecOf(v));
    var x := v[0];
    var y := v[1];
    out[0] := m[0] * x + m[1] * y + m[2];
    out[1] := m[3] * x + m[4] * y + m[5];
    assert Vector2D.VecOf(out) == Vector2D.Vec(r.x, r.y);
  }

  /** `out := m v`; correct when `out` is `v`. */
  method MultiplyVector3D(out: array<real>, m: array<real>, v: array<real>)
    requires out.Length == 3 && m.Length == 9 && v.Length == 3
    modifies out
    ensures Vec3Of(out) == Apply3D(old(MatOf(m)), old(Vec3Of(v)))
  {
    ghost var r := Apply3D(MatOf(m), Vec3Of(v));
    var x := v[0];
    var y := v[1];
    var z := v[2];
    out[0] := Dot3(m[0], m[1], m[2], x, y, z);
    out[1] := Dot3(m[3], m[4], m[5], x, y, z);
    out[2] := Dot3(m[6], m[7], m[8], x, y, z);
    assert out[0] == r.x && out[1] == r.y && out[2] == r.z;
  }

  /** `out := m n`; both factors are read before `out` is written, so `out` may be either. */
  method MultiplyMatrix3D(out: array<real>, m: array<real>, n: array<real>)
    requires out.Length == 9 && m.Length == 9 && n.Length == 9
    modifies out
    ensures MatOf(out) == Product(old(MatOf(m)), old(MatOf(n)))
  {
    var m0, m1, m2 := m[0], m[1], m[2];
    var m3, m4, m5 := m[3], m[4], m[5];
    var m6, m7, m8 := m[6], m[7], m[8];

    var n0, n1, n2 := n[0], n[1], n[2];
    var n3, n4, n5 := n[3], n[4], n[5];
    var n6, n7, n8 := n[6], n[7], n[8];

    out[0] := Dot3(m0, m1, m2, n0, n3, n6);
    out[1] := Dot3(m0, m1, m2, n1, n4, n7);
    out[2] := Dot3(m0, m1, m2, n2, n5, n8);

    out[3] := Dot3(m3, m4, m5, n0, n3, n6);
    out[4] := Dot3(m3, m4, m5, n1, n4, n7);
    out[5] := Dot3(m3, m4, m5, n2, n5, n8);

    out[6] := Dot3(m6, m7, m8, n0, n3, n6);
    out[7] := Dot3(m6, m7, m8, n1, n4, n7);
    out[8] := Dot3(m6, m7, m8, n2, n5, n8);
  }

  /** `out :=` the translation by `(x, y)`. */
  method SetTranslation(out: array<real>, x: real, y: real)
    requires out.Length == 9
    modifies out
    ensures MatOf(out) == Translation(x, y)
  {
    out[0], out[4], out[8] := 1.0, 1.0, 1.0;
    out[1], out[3], out[6], out[7] := 0.0, 0.0, 0.0, 0.0;
    out[2] := x;
    out[5] := y;
  }

  /** `out :=` the translation by the vector `v`. */
  method SetTranslationVector(out: array<real>, v: array<real>)
    requires out.Length == 9 && v.Length == 2
    modifies out
    ensures MatOf(out) == Translation(old(v[0]), old(v[1]))
  {
    out[0], out[4], out[8] := 1.0, 1.0, 1.0;
    out[1], out[3], out[6], out[7] := 0.0, 0.0, 0.0, 0.0;
    out[2] := v[0];
    out[5] := v[1];
  }

  /** `out := m T(x, y)`: the translation is applied to points before `m`; `out` may be `m`. */
  method Translate(out: array<real>, m: array<real>, x: real, y: real)
    requires out.Length == 9 && m.Length == 9
    modifies out
    ensures MatOf(out) == Product(old(MatOf(m)), Translation(x, y))
  {
    var m0, m1 := m[0], m[1];
    var m3, m4 := m[3], m[4];
    var m6, m7 := m[6], m[7];
    TranslationOnRight(MatOf(m), m0, m1, m3, m4, m6, m7, x, y);

    out[0] := m0;
    out[1] := m1;
    out[2] := m0 * x + m1 * y + m[2];
    out[3] := m3;
    out[4] := m4;
    out[5] := m3 * x + m4 * y + m[5];
    out[6] := m6;
    out[7] := m7;
    out[8] := m6 * x + m7 * y + m[8];
  }

  /** `out :=` the rotation by the angle whose cosine and sine are `cos` and `sin`. */
  method SetRotation(out: array<real>, cos: real, sin: real)
    requires out.Length == 9
    modifies out
    ensures MatOf(out) == Rotation(cos, sin)
  {
    out[0] := cos;
    out[1] := -sin;
    out[2] := 0.0;
    out[3] := sin;
    out[4] := cos;
    out[5] := 0.0;
    out[6] := 0.0;
    out[7] := 0.0;
    out[8] := 1.0;
  }

  /** `out := m R`: the rotation is applied to points before `m`; `out` may be `m`. */
  method Rotate(out: array<real>, m: array<real>, cos: real, sin: real)
    requires out.Length == 9 && m.Length == 9
    modifies out
    ensures MatOf(out) == Product(old(MatOf(m)), Rotation(cos, sin))
  {
    var m0, m1 := m[0], m[1];
    var m3, m4 := m[3], m[4];
    var m6, m7 := m[6], m[7];
    RotationOnRight(MatOf(m), m0, m1, m3, m4, m6, m7, cos, sin);

    out[0] := m0 * cos + m1 * sin;
    out[1] := m1 * cos - m0 * sin;
    out[2] := m[2];
    out[3] := m3 * cos + m4 * sin;
    out[4] := m4 * cos - m3 * sin;
    out[5] := m[5];
    out[6] := m6 * cos + m7 * sin;
    out[7] := m7 * cos - m6 * sin;
    out[8] := m[8];
  }

  /** `out :=` the scaling by `x` and `y`. */
  method SetScaling(out: array<real>, x: real, y: real)
    requires out.Length == 9
    modifies out
    ensures MatOf(out) == Scaling(x, y)
  {
    out[0] := x;
    out[4] := y;
    out[8] := 1.0;
    out[1], out[2], out[3], out[5], out[6], out[7] := 0.0, 0.0, 0.0, 0.0, 0.0, 0.0;
  }

  /** `out := m S(x, y)`: the scaling is applied to points before `m`; `out` may be `m`. */
  method Scale(out: array<real>, m: array<real>, x: real, y: real)
    requires out.Length == 9 && m.Length == 9
    modifies out
    ensures MatOf(out) == Product(old(MatOf(m)), Scaling(x, y))
  {
    ghost var r := Product(MatOf(m), Scaling(x, y));
    ScalingOnRight(MatOf(m), x, y);
    out[0] := m[0] * x;
    out[1] := m[1] * y;
    out[2] := m[2];
    out[3] := m[3] * x;
    out[4] := m[4] * y;
    out[5] := m[5];
    out[6] := m[6] * x;
    out[7] := m[7] * y;
    out[8] := m[8];
    assert out[0] == r.a && out[1] == r.b && out[2] == r.c;
    assert out[3] == r.d && out[4] == r.e && out[5] == r.f;
    assert out[6] == r.g && out[7] == r.h && out[8] == r.i;
  }
}
