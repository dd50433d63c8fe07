/**
 * The 4x4 matrix module of a WebGL front end.
 *
 * A matrix is a flat sequence of 16 numbers in row-major order: the entry at
 * row `i`, column `j` (both in 0..3) sits at flat index `4*i + j`. Entries are
 * idealised as exact reals. The pure operations (Create, Multiply, Perspective)
 * build fresh values; Translate updates the caller's array in place.
 */
module Mat4 {

  /** A 4x4 matrix, flattened row by row. */
  type Matrix4 = m: seq<real> | |m| == 16 witness seq(16, _ => 0.0)

  /** A translation offset (x, y, z). */
  type Vec3 = v: seq<real> | |v| == 3 witness [0.0, 0.0, 0.0]

  /** A homogeneous column vector (x, y, z, w). */
  type Vec4 = v: seq<real> | |v| == 4 witness [0.0, 0.0, 0.0, 0.0]

  /** The entry at row `i`, column `j` under the row-major layout. */
  function Entry(m: Matrix4, i: nat, j: nat): real
    requires i < 4 && j < 4
  {
    m[4 * i + j]
  }

  /** Reference definition of an inner product: the sum over k < n of
      a(i, k) * b(k, j), i.e. row i of `a` against column j of `b`. */
  function Dot(a: Matrix4, b: Matrix4, i: nat, j: nat, n: nat): real
    requires i < 4 && j < 4 && n <= 4
    decreases n
  {
    if n == 0 then 0.0 else Dot(a, b, i, j, n - 1) + Entry(a, i, n - 1) * Entry(b, n - 1, j)
  }

  /** Dot with n = 4, written out as its four products. */
  lemma DotExpanded(a: Matrix4, b: Matrix4, i: nat, j: nat)
    requires i < 4 && j < 4
    ensures Dot(a, b, i, j, 4)
         == Entry(a, i, 0) * Entry(b, 0, j) + Entry(a, i, 1) * Entry(b, 1, j)
          + Entry(a, i, 2) * Entry(b, 2, j) + Entry(a, i, 3) * Entry(b, 3, j)
  {
  }

  /** Matrix times column vector: the point `v` transformed by `m`, entry i
      being row i of `m` against `v`. */
  function Apply(m: Matrix4, v: Vec4): Vec4
  {
    seq(4, i requires 0 <= i < 4 =>
      Entry(m, i, 0) * v[0] + Entry(m, i, 1) * v[1] + Entry(m, i, 2) * v[2] + Entry(m, i, 3) * v[3])
  }

  /** Componentwise sum of two offsets. */
  function AddVec(u: Vec3, v: Vec3): Vec3
  {
    [u[0] + v[0], u[1] + v[1], u[2] + v[2]]
  }

  /** `create`: the identity matrix. */
  function Create(): (r: Matrix4)
    ensures forall i: nat, j: nat | i < 4 && j < 4 :: Entry(r, i, j) == if i == j then 1.0 else 0.0
  {
    [ 1.0, 0.0, 0.0, 0.0,
      0.0, 1.0, 0.0, 0.0,
      0.0, 0.0, 1.0, 0.0,
      0.0, 0.0, 0.0, 1.0 ]
  }

  /** `multiply4x4`: the product `first × second`. Entry k (row k / 4,
      column k % 4) is the four products of that row of `first` with that
      column of `second`, summed left to right as the source writes each of
      its sixteen entries out. */
  function Multiply(first: Matrix4, second: Matrix4): (r: Matrix4)
    ensures forall i: nat, j: nat | i < 4 && j < 4 :: Entry(r, i, j) == Dot(first, second, i, j, 4)
  {
    var r := seq(16, k requires 0 <= k < 16 =>
               first[4 * (k / 4)] * second[k % 4] +
               first[4 * (k / 4) + 1] * second[4 + k % 4] +
               first[4 * (k / 4) + 2] * second[8 + k % 4] +
               first[4 * (k / 4) + 3] * second[12 + k % 4]);
    assert forall i: nat, j: nat | i < 4 && j < 4 :: Entry(r, i, j) == Dot(first, second, i, j, 4) by {
      forall i: nat, j: nat | i < 4 && j < 4
        ensures Entry(r, i, j) == Dot(first, second, i, j, 4)
      {
        assert (4 * i + j) / 4 == i && (4 * i + j) % 4 == j;
      }
    }
    r
  }

  /** The depth-row coefficient at row 2, column 2 of the projection: the
      one number s with s * (far - near) == -(far + near). */
  function DepthScale(near: real, far: real): (s: real)
    requires far != near
    ensures s * (far - near) == -(far + near)
  {
    -1.0 * ((far + near) / (far - near))
  }

  /** The depth-row coefficient at row 2, column 3 of the projection: the
      one number o with o * (far - near) == -(2 * far * near). */
  function DepthOffset(near: real, far: real): (o: real)
    requires far != near
    ensures o * (far - near) == -(2.0 * far * near)
  {
    -1.0 * ((2.0 * far * near) / (far - near))
  }

  /** The frustum matrix `perspective` builds, given the tangent `x` of half
      the vertical field of view (so `y = aspectRatio * x`). */
  function Projection(x: real, aspectRatio: real, near: real, far: real): (p: Matrix4)
    requires x != 0.0 && aspectRatio != 0.0 && far != near
    ensures Entry(p, 0, 0) == 1.0 / (aspectRatio * x)
    ensures Entry(p, 1, 1) == 1.0 / x
    ensures Entry(p, 2, 2) == -(far + near) / (far - near)
    ensures Entry(p, 2, 3) == -(2.0 * far * near) / (far - near)
    ensures Entry(p, 3, 2) == -1.0
    ensures forall i: nat, j: nat | i < 4 && j < 4 && !(i == j && i < 3) && !(i == 2 && j == 3) && !(i == 3 && j == 2)
              :: Entry(p, i, j) == 0.0
  {
    var y := aspectRatio * x;
    var a11 := 1.0 / y;
    var a22 := 1.0 / x;
    var a33 := DepthScale(near, far);
    var a34 := DepthOffset(near, far);
    [ a11, 0.0, 0.0, 0.0,
      0.0, a22, 0.0, 0.0,
      0.0, 0.0, a33, a34,
      0.0, 0.0, -1.0, 0.0 ]
  }

  /** Row `i` of a product when row `i` of the left factor is (s0, s1, s2, s3):
      that combination of the rows of the right factor. */
  lemma ProductRow(a: Matrix4, b: Matrix4, i: nat, j: nat, s0: real, s1: real, s2: real, s3: real)
    requires i < 4 && j < 4
    requires Entry(a, i, 0) == s0 && Entry(a, i, 1) == s1 && Entry(a, i, 2) == s2 && Entry(a, i, 3) == s3
    ensures Entry(Multiply(a, b), i, j) == s0 * Entry(b, 0, j) + s1 * Entry(b, 1, j) + s2 * Entry(b, 2, j) + s3 * Entry(b, 3, j)
  {
    DotExpanded(a, b, i, j);
  }

  /** Row 0 of the frustum matrix times `matrix` is row 0 of `matrix`
      scaled by 1/y. */
  lemma ProjectedRow0(matrix: Matrix4, x: real, aspectRatio: real, near: real, far: real, j: nat)
    requires x != 0.0 && aspectRatio != 0.0 && far != near && j < 4
    ensures Entry(Multiply(Projection(x, aspectRatio, near, far), matrix), 0, j) == (1.0 / (aspectRatio * x)) * Entry(matrix, 0, j)
  {
    ProductRow(Projection(x, aspectRatio, near, far), matrix, 0, j, 1.0 / (aspectRatio * x), 0.0, 0.0, 0.0);
  }

  /** Row 1 of the frustum matrix times `matrix` is row 1 of `matrix`
      scaled by 1/x. */
  lemma ProjectedRow1(matrix: Matrix4, x: real, aspectRatio: real, near: real, far: real, j: nat)
    requires x != 0.0 && aspectRatio != 0.0 && far != near && j < 4
    ensures Entry(Multiply(Projection(x, aspectRatio, near, far), matrix), 1, j) == (1.0 / x) * Entry(matrix, 1, j)
  {
    ProductRow(Projection(x, aspectRatio, near, far), matrix, 1, j, 0.0, 1.0 / x, 0.0, 0.0);
  }

  /** Row 2 of the frustum matrix times `matrix` mixes rows 2 and 3 of
      `matrix` by the depth coefficients. */
  lemma ProjectedRow2(matrix: Matrix4, x: real, aspectRatio: real, near: real, far: real, j: nat)
    requires x != 0.0 && aspectRatio != 0.0 && far != near && j < 4
    ensures Entry(Multiply(Projection(x, aspectRatio, near, far), matrix), 2, j)
         == DepthScale(near, far) * Entry(matrix, 2, j) + DepthOffset(near, far) * Entry(matrix, 3, j)
  {
    ProductRow(Projection(x, aspectRatio, near, far), matrix, 2, j, 0.0, 0.0, DepthScale(near, far), DepthOffset(near, far));
  }

  /** Row 3 of the frustum matrix times `matrix` is row 2 of `matrix`
      negated. */
  lemma ProjectedRow3(matrix: Matrix4, x: real, aspectRatio: real, near: real, far: real, j: nat)
    requires x != 0.0 && aspectRatio != 0.0 && far != near && j < 4
    ensures Entry(Multiply(Projection(x, aspectRatio, near, far), matrix), 3, j) == -Entry(matrix, 2, j)
  {
    ProductRow(Projection(x, aspectRatio, near, far), matrix, 3, j, 0.0, 0.0, -1.0, 0.0);
  }

  /** `perspective`: the frustum matrix composed on the left of `matrix`, so
      the projection acts after whatever `matrix` does. Row by row: rows 0
      and 1 of `matrix` scaled by 1/y and 1/x, the depth coefficients applied
      to rows 2 and 3, and row 2 negated as the new row 3. */
  function Perspective(matrix: Matrix4, x: real, aspectRatio: real, near: real, far: real): (r: Matrix4)
    requires x != 0.0 && aspectRatio != 0.0 && far != near
    ensures forall j: nat | j < 4 :: Entry(r, 0, j) == (1.0 / (aspectRatio * x)) * Entry(matrix, 0, j)
    ensures forall j: nat | j < 4 :: Entry(r, 1, j) == (1.0 / x) * Entry(matrix, 1, j)
    ensures forall j: nat | j < 4 :: Entry(r, 2, j) == DepthScale(near, far) * Entry(matrix, 2, j) + DepthOffset(near, far) * Entry(matrix, 3, j)
    ensures forall j: nat | j < 4 :: Entry(r, 3, j) == -Entry(matrix, 2, j)
  {
    var r := Multiply(Projection(x, aspectRatio, near, far), matrix);
    assert forall j: nat | j < 4 :: Entry(r, 0, j) == (1.0 / (aspectRatio * x)) * Entry(matrix, 0, j) by {
      forall j: nat | j < 4 ensures Entry(r, 0, j) == (1.0 / (aspectRatio * x)) * Entry(matrix, 0, j) {
        ProjectedRow0(matrix, x, aspectRatio, near, far, j);
      }
    }
    assert forall j: nat | j < 4 :: Entry(r, 1, j) == (1.0 / x) * Entry(matrix, 1, j) by {
      forall j: nat | j < 4 ensures Entry(r, 1, j) == (1.0 / x) * Entry(matrix, 1, j) {
        ProjectedRow1(matrix, x, aspectRatio, near, far, j);
      }
    }
    assert forall j: nat | j < 4 :: Entry(r, 2, j) == DepthScale(near, far) * Entry(matrix, 2, j) + DepthOffset(near, far) * Entry(matrix, 3, j) by {
      forall j: nat | j < 4
        ensures Entry(r, 2, j) == DepthScale(near, far) * Entry(matrix, 2, j) + DepthOffset(near, far) * Entry(matrix, 3, j)
      {
        ProjectedRow2(matrix, x, aspectRatio, near, far, j);
      }
    }
    assert forall j: nat | j < 4 :: Entry(r, 3, j) == -Entry(matrix, 2, j) by {
      forall j: nat | j < 4 ensures Entry(r, 3, j) == -Entry(matrix, 2, j) {
        ProjectedRow3(matrix, x, aspectRatio, near, far, j);
      }
    }
    r
  }

  /** Pure specification of `translate`: adds the offset to the translation
      column (rows 0 to 2 of column 3). */
  function Translated(m: Matrix4, v: Vec3): (r: Matrix4)
    ensures Entry(r, 0, 3) == Entry(m, 0, 3) + v[0]
    ensures Entry(r, 1, 3) == Entry(m, 1, 3) + v[1]
    ensures Entry(r, 2, 3) == Entry(m, 2, 3) + v[2]
    ensures forall i: nat, j: nat | i < 4 && j < 4 && !(j == 3 && i < 3) :: Entry(r, i, j) == Entry(m, i, j)
  {
    m[3 := m[3] + v[0]][7 := m[7] + v[1]][11 := m[11] + v[2]]
  }

  /** `translate`: updates `matrix` in place and hands the same array back. */
  method Translate(matrix: array<real>, v: Vec3) returns (r: array<real>)
    requires matrix.Length == 16
    modifies matrix
    ensures r == matrix
    ensures matrix[..] == Translated(old(matrix[..]), v)
  {
    matrix[3] := matrix[3] + v[0];
    matrix[7] := matrix[7] + v[1];
    matrix[11] := matrix[11] + v[2];
    r := matrix;
  }
}
