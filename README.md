# A verified model of the glMatrix 4x4 matrix module

The WebGL front end builds its camera and projection transforms with a small
matrix module: `mat4.create` returns the identity, `multiply4x4` composes two
matrices, `mat4.perspective` builds a frustum matrix and composes it with a
given matrix, and `mat4.translate` adds an offset to a matrix's translation
column in place.

This project models that module in Dafny and proves what it does.

- A matrix is a flat sequence of 16 numbers in row-major order. The entry at
  row `i`, column `j` is flat index `4*i + j` (`Mat4.Entry`). Entries are
  exact reals (`Mat4.Matrix4` is a `seq<real>` of length 16).
- `create`, `multiply4x4` and `perspective` build fresh arrays and change
  nothing, so they are functions over values: `Mat4.Create`,
  `Mat4.Multiply` and `Mat4.Perspective`. The frustum matrix that
  `perspective` builds is `Mat4.Projection`.
- `translate` updates the caller's array, so it is a method over an
  `array<real>` (`Mat4.Translate`). Its pure specification is
  `Mat4.Translated`.
- `perspective` computes `x = tan(fov / 2)` from a field-of-view angle in
  degrees. The model takes that tangent `x` as its parameter, with
  `y = aspectRatio * x` as in the source.

Files:

- `mat4.dfy`: the module itself (module `Mat4`).
- `mat4_laws.dfy`: algebraic laws (module `Mat4Laws`). The identity is
  neutral on both sides. Multiplication is associative and not commutative.
  A product transforms a point as its two factors do, one after the other.
- `projection_laws.dfy`: properties of the perspective matrix (module
  `ProjectionLaws`). It keeps eye depth in clip w. It maps the near plane to
  depth -1 and the far plane to +1. It maps every depth in between into
  [-1, 1]. It also holds the worked example with fov 90, aspect ratio 1,
  near 1 and far 100.
- `translate_laws.dfy`: properties of translation (module `TranslateLaws`).
  Offsets accumulate. On an affine matrix, translating equals multiplying by
  a translation matrix on the left, so every mapped point moves by the
  offset.

## Model

| member | source | states |
|---|---|---|
| Mat4.Create | javascript/static/js/glMatrix.js:4-11 | the result has 1 on the diagonal and 0 everywhere else |
| Mat4.Multiply | javascript/static/js/glMatrix.js:45-132 | entry (i, j) of `first × second` is the inner product of row i of `first` with column j of `second`, as given by the independent recursive sum `Dot` |
| Mat4.Projection | javascript/static/js/glMatrix.js:15-27 | the frustum matrix has 1/y at (0,0), 1/x at (1,1), -(far+near)/(far-near) at (2,2), -(2·far·near)/(far-near) at (2,3), -1 at (3,2) and 0 in the other eleven entries |
| Mat4.ProductRow | javascript/static/js/glMatrix.js:45-132 | a row of a product is the combination of the right factor's rows weighted by the left factor's row |
| Mat4.DepthScale | javascript/static/js/glMatrix.js:19 | the coefficient a33 is the one number s with s·(far - near) = -(far + near) |
| Mat4.DepthOffset | javascript/static/js/glMatrix.js:20 | the coefficient a34 is the one number o with o·(far - near) = -(2·far·near) |
| Mat4.ProjectedRow0 | javascript/static/js/glMatrix.js:22-29 | row 0 of (frustum matrix × `matrix`) is row 0 of `matrix` scaled by 1/y |
| Mat4.ProjectedRow1 | javascript/static/js/glMatrix.js:22-29 | row 1 of (frustum matrix × `matrix`) is row 1 of `matrix` scaled by 1/x |
| Mat4.ProjectedRow2 | javascript/static/js/glMatrix.js:22-29 | row 2 of (frustum matrix × `matrix`) is a33·row 2 + a34·row 3 of `matrix` |
| Mat4.ProjectedRow3 | javascript/static/js/glMatrix.js:22-29 | row 3 of (frustum matrix × `matrix`) is row 2 of `matrix` negated |
| Mat4.Perspective | javascript/static/js/glMatrix.js:13-30 | the result of `perspective(matrix, …)`, row by row: row 0 of `matrix` scaled by 1/y, row 1 scaled by 1/x, a33·row 2 + a34·row 3, and row 2 negated as row 3 |
| Mat4.Translated | javascript/static/js/glMatrix.js:32-35 | entries (0,3), (1,3) and (2,3) (flat 3, 7, 11) gain v[0], v[1] and v[2], and the other thirteen entries are unchanged |
| Mat4.Translate | javascript/static/js/glMatrix.js:32-38 | updates the given array in place to `Translated` of its old contents and returns that same array |
| Mat4Laws.CreateIsLeftIdentity | javascript/static/js/glMatrix.js:4-11 | `multiply4x4(create(), m) == m` |
| Mat4Laws.CreateIsRightIdentity | javascript/static/js/glMatrix.js:4-11 | `multiply4x4(m, create()) == m` |
| Mat4Laws.ProductEntry | javascript/static/js/glMatrix.js:46-124 | each product entry is the four products of a row of `first` with a column of `second` |
| Mat4Laws.MultiplyAssociativeAt | javascript/static/js/glMatrix.js:45-132 | each entry of (a × b) × c equals that entry of a × (b × c) |
| Mat4Laws.MultiplyAssociative | javascript/static/js/glMatrix.js:45-132 | `multiply4x4` is associative |
| Mat4Laws.MultiplyNotCommutative | javascript/static/js/glMatrix.js:45-132 | there are matrices a, b with a × b ≠ b × a |
| Mat4Laws.ApplyMultiplyAt | javascript/static/js/glMatrix.js:45-132 | each coordinate of a point mapped by a × b equals that coordinate mapped by b and then by a |
| Mat4Laws.ApplyMultiply | javascript/static/js/glMatrix.js:45-132 | `first × second` maps a point as `second` does followed by `first` |
| ProjectionLaws.PerspectiveOfCreate | javascript/static/js/glMatrix.js:13-30 | `perspective(create(), …)` is exactly the frustum matrix |
| ProjectionLaws.PerspectiveAppliesAfter | javascript/static/js/glMatrix.js:29 | the result of `perspective` maps a point by `matrix` first and the frustum matrix second |
| ProjectionLaws.ProjectEyePoint | javascript/static/js/glMatrix.js:17-27 | the frustum matrix sends (px, py, pz, 1) to (px/y, py/x, a33·pz + a34, -pz), so clip w is the eye distance -pz |
| ProjectionLaws.DepthAtNear | javascript/static/js/glMatrix.js:19-20 | the depth row sends eye depth -near to clip depth -near |
| ProjectionLaws.DepthAtFar | javascript/static/js/glMatrix.js:19-20 | the depth row sends eye depth -far to clip depth far |
| ProjectionLaws.NearPlaneMapsToMinusOne | javascript/static/js/glMatrix.js:17-27 | a point on the near plane has clip w = near and lands at normalised depth -1 |
| ProjectionLaws.FarPlaneMapsToOne | javascript/static/js/glMatrix.js:17-27 | a point on the far plane has clip w = far and lands at normalised depth +1 |
| ProjectionLaws.DepthNumerator | javascript/static/js/glMatrix.js:19-20 | the depth row at eye depth -w is ((far+near)·w - 2·far·near)/(far-near) |
| ProjectionLaws.DepthRowBounds | javascript/static/js/glMatrix.js:19-20 | for 0 < near < far and near ≤ w ≤ far, the depth row at -w divided by w lies in [-1, 1] |
| ProjectionLaws.DepthWithinUnitRange | javascript/static/js/glMatrix.js:17-27 | for 0 < near < far, a point at depth between the planes has clip w = w > 0 and lands at a normalised depth in [-1, 1] |
| ProjectionLaws.PerspectiveExample | javascript/static/js/glMatrix.js:13-30 | fov 90 (tangent 1), aspect ratio 1, near 1 and far 100 applied to the identity give 1, 1, -101/99, -200/99 and -1 in the five non-zero slots |
| TranslateLaws.TranslationMatrix | javascript/static/js/glMatrix.js:32-35 | translating the identity gives the identity with v in column 3 of rows 0 to 2 |
| TranslateLaws.TranslatedAccumulates | javascript/static/js/glMatrix.js:33-35 | translating by v1 and then by v2 equals translating once by v1 + v2: the offsets accumulate rather than overwrite |
| TranslateLaws.TranslatedIsPremultiplyAt | javascript/static/js/glMatrix.js:32-35 | each entry of a translated affine matrix equals that entry of (translation matrix × matrix) |
| TranslateLaws.TranslatedIsPremultiply | javascript/static/js/glMatrix.js:32-35 | on a matrix with bottom row (0, 0, 0, 1), translate equals multiplying by the translation matrix on the left |
| TranslateLaws.TranslatedMovesCoordinate | javascript/static/js/glMatrix.js:33-35 | for a point with w = 1, each of x, y and z mapped by the translated matrix is the old mapped value plus the offset |
| TranslateLaws.TranslatedMovesPoints | javascript/static/js/glMatrix.js:32-35 | a translated affine matrix maps every point with w = 1 to the old image moved by v, still with w = 1 |
| TranslateLaws.TranslateTwiceExample | javascript/static/js/glMatrix.js:32-38 | translating the identity twice by (1, 2, 3) leaves 2, 4 and 6 in the translation column |

## Left out

- `toRadians` and `Math.tan` (javascript/static/js/glMatrix.js:14, 41-43) are trigonometry over floating point. The model takes the tangent `x` of half the field of view as the parameter, with `y = aspectRatio * x` as in the source.
- Floating point: entries are exact reals. IEEE-754 rounding is not modelled. Neither is the Infinity/NaN that `perspective` produces when `far == near`, `x == 0` or `aspectRatio == 0`. Those inputs are excluded by preconditions instead (`x != 0`, `aspectRatio != 0`, `far != near`). The near/far lemmas also need `near != 0` or `far != 0`, and the range lemma needs `0 < near < far`, so that the perspective divide is defined. Because of exact arithmetic, associativity holds exactly, while floating point gives it only approximately.
- Mat4.Multiply: that it does not mutate its arguments holds by construction, since matrices are immutable sequence values. A caller's array aliasing with the result is not modelled.
- Mat4.Translate: the offset is a sequence value, not an array. The case where the offset array is the matrix array itself is not modelled, and neither is the source's acceptance of arrays of any length. The matrix is required to have 16 entries.
- `javascript/app.py` (Flask route and template serving) and `javascript/static/js/utils.js` (canvas lookup and WebGL context acquisition) are web and browser plumbing, and are not part of this model.
