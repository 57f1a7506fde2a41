# node-oo-mat geometry kernels in Dafny

This project models the three geometry kernels of node-oo-mat and proves properties of them:

- `lib/Vector2D.js`: 2D vectors.
- `lib/Matrix3D.js`: 3×3 row-major matrices for 2D affine transforms in homogeneous coordinates.
- `lib/Line2D.js`: lines and segments given by two points. This covers containment tests with the `EPSILON = 1E-6` tolerance, line–line intersection, intersection with an axis-parallel line, segment intersection and perpendicular construction.

The library functions that produce a vector or a matrix write it into a caller-owned `out` buffer, which may be one of their inputs. The queries (`dot`, `length2`, `length`, `distance2`, `distance`, `containsVertex`, `segmentContainsVertex`) return a number or a boolean, and `create` and `createIdentity` allocate a new buffer.

- Buffers are `array<real>`. Each operation that writes `out` is a `method` with `modifies out`; `create` and `createIdentity` are methods returning a fresh array; the queries are Dafny functions and predicates (`Vector2D.Dot`, `Vector2D.Length2`, `Vector2D.Distance2`, `Vector2D.IsLength`, `Vector2D.IsDistance`, `Line2D.ContainsVertex`, `Line2D.SegmentContainsVertex`).
- The postcondition of a method that writes `out` ties the new contents of `out` to a specification function of the inputs' old contents: `MatOf(out) == Product(old(MatOf(m)), old(MatOf(n)))`. That covers the in-place calls (`out == m`).
- The specification functions work on values: `Vector2D.Vec`, `Matrix3D.Mat`, `Matrix3D.Vec3`.
- Lemmas state what the library promises of them: round trips, symmetry, what a transform does to a point, and that a reported intersection lies on both lines and is the only such point.

Coordinates are exact reals. Line2D's slopes are the one place where IEEE 754 behaviour drives the control flow, so the model keeps it:

- A slope `dy / dx` is `Finite`, a signed `Infinite`, or `NaN` (`Line2D.Quotient`, `Line2D.Minus`, `Line2D.Over`).
- An intersection result is `Miss` (the library returns `false`), `At(p)`, or `NaNPoint`. `NaNPoint` is an `out` vector with NaN coordinates that the library returns like a point.

Modules:

- `RealArith` (arith.dfy): facts about real arithmetic, and `IsSqrt`.
- `Vector2D` (vector2d.dfy).
- `Matrix3D` (matrix3d.dfy).
- `Line2D` (line2d.dfy).

Two slope cases decide what the library returns:

- `intersect` (lib/Line2D.js:89-94) returns `false` when the slope difference `m = m1 - m2` is 0 or NaN. `m` is NaN when either line is given by one point twice (its slope is 0/0). It is also NaN when both lines are vertical with their points running in the same direction (infinity minus the same infinity). `m` is an infinity when exactly one line is vertical and the other is non-degenerate, and also when both lines are vertical with their points running in opposite directions (`+Infinity - (-Infinity)`). In both cases `intersect` (lib/Line2D.js:97-100) writes NaN coordinates into `out` and returns it, and `segmentIntersect` passes that on. The model returns `NaNPoint` there (see Findings). A line given by two distinct points and intersected with itself gives `false`. A sloped line takes the `m == 0` test, and a vertical line takes the NaN test, since `Infinity - Infinity` is NaN (lib/Line2D.js:89-94).
- `perpendicular` (lib/Line2D.js:186-195) takes its NaN branch only when `v1 == w1`. A vertical reference line has an infinite slope, so it goes through the slope branch, where `1 / ±Infinity` is 0. Both routes write `(x2 + 1, y2)`, and `Line2D.PerpendicularOnAxes` states the result.

## Model

| member | source | states |
|---|---|---|
| Vector2D.Create | lib/Vector2D.js:17-19 | a fresh two-element buffer holding (0, 0) |
| Vector2D.SetVector | lib/Vector2D.js:26-30 | `out` becomes a copy of `v` |
| Vector2D.SetScalar | lib/Vector2D.js:38-42 | `out` becomes `(x, y)` |
| Vector2D.Add | lib/Vector2D.js:50-54 | `out` becomes the component-wise sum of the old `v` and `w`, also when `out` is `v` or `w` |
| Vector2D.Subtract | lib/Vector2D.js:62-66 | `out` becomes the component-wise difference of the old `v` and `w`, also in place |
| Vector2D.DifferenceUndoesSum | lib/Vector2D.js:50-66 | subtracting what was added gives back the vector, and adding back what was subtracted does too |
| Vector2D.MultiplyScalar | lib/Vector2D.js:74-78 | `out` becomes the old `v` with both components times `c`, also in place |
| Vector2D.ScaledRoundTrip | lib/Vector2D.js:74-78 | scaling by `c` and then by `1/c` (c ≠ 0) gives back the vector |
| Vector2D.Dot | lib/Vector2D.js:85-88 | `(v·w)² + (v×w)²` equals the product of the two squared lengths (Lagrange's identity), so `(v·w)²` never exceeds that product |
| Vector2D.DotSymmetric | lib/Vector2D.js:85-88 | `dot(v, w) == dot(w, v)` |
| Vector2D.Length2 | lib/Vector2D.js:94-96 | `length2(v)` is `dot(v, v)` and is never negative |
| Vector2D.Length2Zero | lib/Vector2D.js:94-96 | `length2(v)` is zero exactly for the zero vector |
| Vector2D.LengthZero | lib/Vector2D.js:102-104 | the square root that `length` returns is zero exactly for the zero vector |
| Vector2D.Distance2 | lib/Vector2D.js:111-115 | `distance2(v, w)` is `length2(w - v)` and is never negative |
| Vector2D.Distance2Symmetric | lib/Vector2D.js:111-115 | `distance2(v, w) == distance2(w, v)` |
| Vector2D.Distance2Zero | lib/Vector2D.js:111-115 | `distance2(v, w)` is zero exactly when `v == w`, so `distance2(v, v) == 0` |
| Vector2D.DistanceSymmetric | lib/Vector2D.js:122-126 | `distance` is symmetric and is the length of `w - v` |
| Vector2D.Normalize | lib/Vector2D.js:133-138 | `out` becomes the old `v` times `1 / length(v)`, also in place |
| Vector2D.UnitIsScaled | lib/Vector2D.js:133-138 | dividing by the length equals multiplying by its inverse, as normalize computes it |
| Vector2D.UnitIndependentOfRoot | lib/Vector2D.js:133-138 | any two square roots passed as the length give the same unit vector |
| Vector2D.UnitHasLengthOne | lib/Vector2D.js:133-138 | a non-zero vector divided by its length has length 1 |
| Vector2D.NormalizedRoundTrip | lib/Vector2D.js:133-138 | the normalized vector has length 1 and scales back to the original by the length |
| Vector2D.OffsetTowardsAngle | lib/Vector2D.js:147-154 | `out` becomes `vertex + distance (cos, sin)` of the old `vertex` |
| Vector2D.OffsetDistance | lib/Vector2D.js:147-174 | moving along a unit direction ends at squared distance `distance²` |
| Vector2D.OffsetTowardsAngleDistance | lib/Vector2D.js:147-154 | for `(cos, sin)` on the unit circle the result is `distance` away from `vertex` |
| Vector2D.OffsetTowardsPoint | lib/Vector2D.js:163-174 | `out` becomes `vertex + distance (target - vertex) / len` of the old buffers, where `len` is the length of `target - vertex` |
| Vector2D.OffsetTowardsPointProperties | lib/Vector2D.js:163-174 | the result is `distance` away from `vertex`, on the line through `vertex` and `target`, and is `target` when `distance` is their distance |
| Matrix3D.Create | lib/Matrix3D.js:19-21 | a fresh nine-element buffer of zeros |
| Matrix3D.CreateIdentity | lib/Matrix3D.js:26-28 | a fresh buffer holding the identity |
| Matrix3D.SetMatrix | lib/Matrix3D.js:35-46 | `out` becomes a copy of `m` |
| Matrix3D.SetScalar | lib/Matrix3D.js:53-64 | `out` holds `a` to `i` in row-major order |
| Matrix3D.SetZero | lib/Matrix3D.js:70-81 | all nine entries become 0, whatever they held |
| Matrix3D.SetIdentity | lib/Matrix3D.js:87-98 | entries 0, 4, 8 become 1 and the other six 0, whatever they held |
| Matrix3D.Add | lib/Matrix3D.js:106-117 | `out` becomes the entry-wise sum of the old `m` and `n`, also in place |
| Matrix3D.Subtract | lib/Matrix3D.js:125-136 | `out` becomes the entry-wise difference of the old `m` and `n`, also in place |
| Matrix3D.DifferenceWithSelf | lib/Matrix3D.js:125-136 | `subtract(m, m)` is the zero matrix |
| Matrix3D.DifferenceUndoesSum | lib/Matrix3D.js:106-136 | subtracting what was added gives back the matrix |
| Matrix3D.MultiplyScalar | lib/Matrix3D.js:144-155 | `out` becomes the old `m` with every entry times `c`, also in place |
| Matrix3D.ScaledTwice | lib/Matrix3D.js:144-155 | scaling by `k` and then by `l` is scaling by `k l` |
| Matrix3D.ScaledRoundTrip | lib/Matrix3D.js:144-155 | scaling by `c` and then by `1/c` (c ≠ 0) gives back the matrix |
| Matrix3D.MultiplyVector2D | lib/Matrix3D.js:163-170 | `out` becomes the first two rows of `m` applied to `(x, y, 1)`, also when `out` is `v` |
| Matrix3D.Apply2DIsApply3D | lib/Matrix3D.js:163-187 | multiplyVector2D is multiplyVector3D on `(x, y, 1)` with the third coordinate dropped, and that coordinate is 1 for an affine matrix |
| Matrix3D.Apply2DIgnoresBottomRow | lib/Matrix3D.js:163-170 | entries 6 to 8 play no part in multiplyVector2D |
| Matrix3D.MultiplyVector3D | lib/Matrix3D.js:178-187 | `out` becomes the full 3×3 product of `m` with `v`, also when `out` is `v` |
| Matrix3D.MultiplyMatrix3D | lib/Matrix3D.js:195-217 | `out[3r+c]` becomes row r of the old `m` times column c of the old `n`, also when `out` is `m` or `n` |
| Matrix3D.ProductIdentity | lib/Matrix3D.js:195-217 | the identity is a unit of the product on both sides and fixes every point |
| Matrix3D.ProductApply3D | lib/Matrix3D.js:178-217 | applying `m n` to a vector applies `n` first, then `m` |
| Matrix3D.ProductApply2D | lib/Matrix3D.js:163-217 | the same for 2D points, when `n` is affine |
| Matrix3D.EqualOnBasis | lib/Matrix3D.js:178-187 | two matrices that agree on the three unit vectors are equal |
| Matrix3D.ProductAssociativeOn | lib/Matrix3D.js:178-217 | both bracketings of a triple product act alike on every vector |
| Matrix3D.ProductAssociative | lib/Matrix3D.js:195-217 | the product is associative |
| Matrix3D.AffineProduct | lib/Matrix3D.js:195-217 | the product of two affine matrices (bottom row `0 0 1`) is affine |
| Matrix3D.TransformsAreAffine | lib/Matrix3D.js:225-347 | translations, rotations, scalings and the identity are affine |
| Matrix3D.SetTranslation | lib/Matrix3D.js:225-236 | `out` becomes `[1,0,x, 0,1,y, 0,0,1]` |
| Matrix3D.SetTranslationVector | lib/Matrix3D.js:243-254 | `out` becomes the same matrix for the vector `[x, y]` |
| Matrix3D.TranslationMovesPoint | lib/Matrix3D.js:225-236 | the translation matrix adds `(x, y)` to a point |
| Matrix3D.TranslationsCompose | lib/Matrix3D.js:225-236 | two translations compose into one by the sum of their offsets, and opposite ones cancel |
| Matrix3D.Translate | lib/Matrix3D.js:263-279 | `out` becomes the old `m` times the translation matrix, also in place |
| Matrix3D.TranslationOnRight | lib/Matrix3D.js:263-279 | `m` times a translation keeps the first two columns and adds their combination to the third |
| Matrix3D.TranslatedApply | lib/Matrix3D.js:263-279 | the translated matrix maps a point as `m` maps the moved point |
| Matrix3D.SetRotation | lib/Matrix3D.js:286-301 | `out` becomes `[cos,-sin,0, sin,cos,0, 0,0,1]` |
| Matrix3D.RotationTurnsPoint | lib/Matrix3D.js:286-301 | the rotation matrix turns a point about the origin |
| Matrix3D.RotationPreservesDot | lib/Matrix3D.js:286-301 | for `(cos, sin)` on the unit circle the rotation keeps dot products |
| Matrix3D.RotationPreservesLength | lib/Matrix3D.js:286-301 | and so keeps lengths |
| Matrix3D.RotationsCompose | lib/Matrix3D.js:286-301 | rotations compose by the angle-addition formulas, and opposite rotations cancel |
| Matrix3D.Rotate | lib/Matrix3D.js:309-328 | `out` becomes the old `m` times the rotation matrix, also in place |
| Matrix3D.RotationOnRight | lib/Matrix3D.js:309-328 | `m` times a rotation rotates the first two columns and keeps the third |
| Matrix3D.RotatedApply | lib/Matrix3D.js:309-328 | the rotated matrix maps a point as `m` maps the rotated point |
| Matrix3D.SetScaling | lib/Matrix3D.js:336-347 | `out` becomes `diag(x, y, 1)` |
| Matrix3D.ScalingScalesPoint | lib/Matrix3D.js:336-347 | the scaling matrix scales a point component-wise |
| Matrix3D.ScalingsCompose | lib/Matrix3D.js:336-347 | two scalings compose by the products of their factors |
| Matrix3D.Scale | lib/Matrix3D.js:356-367 | `out` becomes the old `m` times the scaling matrix, also in place |
| Matrix3D.ScalingOnRight | lib/Matrix3D.js:356-367 | `m` times a scaling scales the first two columns and keeps the third |
| Matrix3D.ScaledApply | lib/Matrix3D.js:356-367 | the scaled matrix maps a point as `m` maps the scaled point |
| Line2D.ContainsVertex | lib/Line2D.js:27-40 | exact membership on a vertical or horizontal line, with no tolerance; with `v == w` the vertical branch answers `p.x == v.x`; on a sloped line the EPSILON residual passes exactly when the cross product `(w - v) × (p - v)` is below EPSILON times the run |
| Line2D.ContainsVertexOnLine | lib/Line2D.js:27-40 | every point exactly on the line passes |
| Line2D.ContainsVertexSymmetric | lib/Line2D.js:27-40 | the result does not depend on the order of the two points |
| Line2D.ContainsVertexEndpoints | lib/Line2D.js:27-40 | both defining points pass |
| Line2D.LineOffsetIsCross | lib/Line2D.js:37-39 | the sloped-line residual times the run is minus the cross product of `w - v` and `p - v`, so it is zero exactly on the line |
| Line2D.LineOffsetSymmetric | lib/Line2D.js:38-39 | the sloped-line residual is the same with the points swapped |
| Line2D.SegmentContainsVertex | lib/Line2D.js:48-74 | a point belongs to the segment exactly when containsVertex accepts it, its x lies between the bounds' x, and, for a vertical segment, its y lies between the bounds' y |
| Line2D.SegmentContainsVertexOnLine | lib/Line2D.js:48-74 | a point of the segment passes containsVertex and lies in the segment's x range, and in its y range when the segment is axis-parallel |
| Line2D.SegmentContainsVertexSymmetric | lib/Line2D.js:48-74 | the result does not depend on which bound is `v` and which is `w` |
| Line2D.SegmentContainsVertexEndpoints | lib/Line2D.js:48-74 | both bounds belong to the segment |
| Line2D.SegmentContainsPointOfLine | lib/Line2D.js:60-73 | for a point on a non-vertical line, segment membership is the x-range check alone |
| Line2D.Intersect | lib/Line2D.js:85-101 | returns intersect's result for the old buffers, writes the point on success, and leaves `out` alone on `false` |
| Line2D.IntersectionOfSlopes | lib/Line2D.js:89-98 | a point is reported only for two non-vertical lines of different slopes, by intersect's formula |
| Line2D.SlopesMeetOnBoth | lib/Line2D.js:97-98 | the solved point satisfies both `y == (x - x1) m1 + y1` and `y == (x - x2) m2 + y2` |
| Line2D.IntersectionOnBothLines | lib/Line2D.js:85-101 | a reported point lies exactly on both lines, which are non-vertical and not parallel |
| Line2D.LinesMeetOnce | lib/Line2D.js:85-101 | two lines whose directions are not parallel share at most one point |
| Line2D.IntersectionUnique | lib/Line2D.js:85-101 | no other point lies on both lines |
| Line2D.IntersectionOfSlopedLines | lib/Line2D.js:89-94 | for non-vertical lines, intersect returns `false` exactly when the lines are parallel, and a point otherwise |
| Line2D.IntersectionMissMeansParallel | lib/Line2D.js:93-94 | `false` is returned only for parallel lines, or a line given by one point twice |
| Line2D.IntersectionMissIffParallel | lib/Line2D.js:89-94 | intersect returns `false` exactly when the two directions are parallel, with a line given by one point twice counting as parallel to every line, except for two vertical lines drawn in opposite directions |
| Line2D.IntersectionWithItself | lib/Line2D.js:89-94 | a line given by two distinct points, intersected with itself, gives `false` |
| Line2D.IntersectionNaNPoint | lib/Line2D.js:91-98 | NaN coordinates come only from a vertical line, and one vertical line met by a non-vertical one always produces them |
| Line2D.IntersectionSymmetric | lib/Line2D.js:85-101 | a reported point is the same with the two lines swapped |
| Line2D.MeetingOnBothLines | lib/Line2D.js:85-101 | the corrected intersection exists exactly for non-parallel lines, vertical ones included, and lies on both |
| Line2D.MeetingUnique | lib/Line2D.js:85-101 | no other point lies on both lines |
| Line2D.IntersectionIsMeeting | lib/Line2D.js:85-101 | whenever intersect reports a point, it is the corrected intersection |
| Line2D.IntersectionMissesVerticalLine | lib/Line2D.js:89-98 | x = 1 and y = x give NaN coordinates, although they meet at (1, 1) |
| Line2D.IntersectionMissesOppositeVerticals | lib/Line2D.js:89-100 | the parallel vertical lines x = 1 (drawn upwards) and x = 2 (drawn downwards) get NaN coordinates from intersect and segmentIntersect, although they have no common point |
| Line2D.MeetingOfVerticalLine | lib/Line2D.js:85-101 | the corrected intersection of the same two lines is (1, 1) |
| Line2D.IntersectAxisX | lib/Line2D.js:110-119 | returns `false` without writing for a horizontal line, and otherwise writes `(x1 + (y - y1) / m, y)` |
| Line2D.AxisXIntersectionOnLine | lib/Line2D.js:110-119 | a point is found exactly when the line is not horizontal; it has height `y` and lies on the line, vertical lines included |
| Line2D.AxisXIntersectionUnique | lib/Line2D.js:110-119 | no other point of the line has that height |
| Line2D.AxisXHorizontalLine | lib/Line2D.js:113-118 | a horizontal line shares all its points with the axis at its height and none with another, so there is no single crossing |
| Line2D.IntersectAxisY | lib/Line2D.js:128-137 | returns `false` without writing for a vertical line, and otherwise writes `(x, (x - x1) m + y1)` |
| Line2D.AxisYIntersectionOnLine | lib/Line2D.js:128-137 | a point is found exactly when the line is not vertical; it has the given x and lies on the line |
| Line2D.AxisYIntersectionUnique | lib/Line2D.js:128-137 | no other point of the line has that x |
| Line2D.AxisYVerticalLine | lib/Line2D.js:131-136 | a vertical line shares all or none of its points with a vertical axis |
| Line2D.SegmentIntersect | lib/Line2D.js:148-172 | returns segmentIntersect's result for the old buffers, writes the point only on success, and leaves `out` alone on every `false` |
| Line2D.SegmentIntersectionOnBothSegments | lib/Line2D.js:148-172 | a point is reported exactly when intersect reports it and both segments contain it, and then it is intersect's point; NaN coordinates pass through exactly when intersect gives them |
| Line2D.Perpendicular | lib/Line2D.js:181-198 | `w2` becomes the constructed point for the old buffers |
| Line2D.PerpendicularPointIsPerpendicular | lib/Line2D.js:181-198 | `(w1 - v1) · (out - v2) == 0` and `out != v2` |
| Line2D.PerpendicularOnAxes | lib/Line2D.js:186-195 | against a horizontal line `out` is `(x2, y2 + 1)`; against a vertical one it is `(x2 + 1, y2)` |
| Line2D.ContainsVertexExamples | test/Line2D.js:30-47 | the library's containsVertex cases, including (3, 2.1) off the line through (1, 1) and (9, 5) |
| Line2D.SegmentContainsVertexExamples | test/Line2D.js:50-75 | the library's segmentContainsVertex cases |
| Line2D.IntersectionExamples | test/Line2D.js:78-90 | (2, 1) for the crossing lines, and `false` for the parallel ones |
| Line2D.AxisIntersectionExamples | test/Line2D.js:93-114 | (1.5, 3) and (3, 6), and `false` for the lines parallel to the axis |
| Line2D.SegmentIntersectionExamples | test/Line2D.js:117-132 | (3, 3) for the crossing segments, and `false` for the parallel and out-of-bounds ones |
| Line2D.PerpendicularExamples | test/Line2D.js:135-151 | the library's perpendicular cases |

## Left out

- Float32Array storage and IEEE 754 rounding: coordinates are exact reals. IEEE special values are kept only for Line2D's slopes, whose infinities and NaN select branches.
- `Math.sqrt`, `Math.cos` and `Math.sin` are not computed. Their results are parameters:
  - `length` of `Vector2D.Normalize` and `len` of `Vector2D.OffsetTowardsPoint`, tied to the squared length by `RealArith.IsSqrt`;
  - `cos` and `sin` of `Vector2D.OffsetTowardsAngle`, `Matrix3D.SetRotation` and `Matrix3D.Rotate`.
  - The lemmas that need `cos² + sin² == 1` require it.
- `length` and `distance` have no members of their own. They are the square roots described by `Vector2D.IsLength` and `Vector2D.IsDistance`. `Line2D.segmentLength` is the same function as `distance`.
- Vector2D.Normalize: requires a non-zero vector. For the zero vector the library computes `0 * Infinity`, which is NaN, and no real models it.
- Vector2D.OffsetTowardsPoint: requires `target != vertex`. There the library divides zero by zero.
- Line2D.Intersect, Line2D.SegmentIntersect: on a `NaNPoint` result the NaN coordinates written into `out` are not modelled, so the contents of `out` are left unspecified.
- Line2D.SegmentIntersect: the module-level `temp` buffer is a local buffer allocated per call. Calls are sequential, so nothing observable changes.
- Every method requires its buffers to have the lengths the library assumes: two for a vector, three for a 3D vector, nine for a matrix.

## Findings

| source | as written | input that shows it | evidently intended | confidence | as-written member | corrected member |
|---|---|---|---|---|---|---|
| lib/Line2D.js:85-101 | `intersect` rejects only a zero or NaN slope difference. With exactly one vertical line the difference is an infinity, and it writes `out[0] = (… ± Infinity …) / ±Infinity`, which is NaN, then returns `out` as if it held a point | `v1 = (1, 0), w1 = (1, 2), v2 = (0, 0), w2 = (2, 2)`: the line x = 1 and the line y = x | the point (1, 1), where the lines meet. Line2D.MeetingOnBothLines and Line2D.MeetingUnique prove the corrected definition gives the unique common point of any two non-parallel lines, vertical ones included, and Line2D.IntersectionIsMeeting proves it agrees with intersect wherever intersect reports a point | not executed | Line2D.IntersectionMissesVerticalLine | Line2D.Meeting |
| lib/Line2D.js:89-100 | `intersect` rejects only a zero or NaN slope difference. Two parallel vertical lines whose points run in opposite directions have slopes +Infinity and -Infinity, so the difference is +Infinity; it passes both guards, and `intersect` writes NaN coordinates and returns `out` as if it held a point. `segmentIntersect` passes the same result on | `v1 = (1, 0), w1 = (1, 2), v2 = (2, 2), w2 = (2, 0)`: the lines x = 1 and x = 2 | `false`, since parallel lines have no common point. Line2D.MeetingOnBothLines proves the corrected definition is `None` exactly when the two directions are parallel, which covers this pair | not executed | Line2D.IntersectionMissesOppositeVerticals | Line2D.Meeting |
