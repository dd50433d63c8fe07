/**
 * What `translate` does to a transform: offsets accumulate, and on an affine
 * matrix (bottom row 0, 0, 0, 1) adding the offset to the translation column
 * is the same as composing a translation matrix after it, so every point the
 * matrix maps is moved by the offset.
 */
module TranslateLaws {
  import opened Mat4
  import Mat4Laws

  /** The translation matrix for `v`: the identity with `v` in column 3. */
  function TranslationMatrix(v: Vec3): (t: Matrix4)
    ensures forall i: nat, j: nat | i < 4 && j < 4 ::
              Entry(t, i, j) == if j == 3 && i < 3 then v[i] else if i == j then 1.0 else 0.0
  {
    Translated(Create(), v)
  }

  /** Translating by v1 and then by v2 is translating once by v1 + v2. */
  lemma TranslatedAccumulates(m: Matrix4, v1: Vec3, v2: Vec3)
    ensures Translated(Translated(m, v1), v2) == Translated(m, AddVec(v1, v2))
  {
    var lhs, rhs := Translated(Translated(m, v1), v2), Translated(m, AddVec(v1, v2));
    forall i: nat, j: nat | i < 4 && j < 4
      ensures Entry(lhs, i, j) == Entry(rhs, i, j)
    {
    }
    Mat4Laws.EntriesEqual(lhs, rhs);
  }

  /** The bottom row is (0, 0, 0, 1): the matrix is an affine transform. */
  predicate IsAffine(m: Matrix4)
  {
    Entry(m, 3, 0) == 0.0 && Entry(m, 3, 1) == 0.0 && Entry(m, 3, 2) == 0.0 && Entry(m, 3, 3) == 1.0
  }

  /** One entry of TranslatedIsPremultiply. */
  lemma TranslatedIsPremultiplyAt(m: Matrix4, v: Vec3, i: nat, j: nat)
    requires IsAffine(m) && i < 4 && j < 4
    ensures Entry(Translated(m, v), i, j) == Entry(Multiply(TranslationMatrix(v), m), i, j)
  {
    var t := TranslationMatrix(v);
    if i == 0 {
      ProductRow(t, m, i, j, 1.0, 0.0, 0.0, v[0]);
    } else if i == 1 {
      ProductRow(t, m, i, j, 0.0, 1.0, 0.0, v[1]);
    } else if i == 2 {
      ProductRow(t, m, i, j, 0.0, 0.0, 1.0, v[2]);
    } else {
      ProductRow(t, m, i, j, 0.0, 0.0, 0.0, 1.0);
    }
  }

  /** On an affine matrix, translate is multiplication by the translation
      matrix on the left: the offset is applied after the matrix. */
  lemma TranslatedIsPremultiply(m: Matrix4, v: Vec3)
    requires IsAffine(m)
    ensures Translated(m, v) == Multiply(TranslationMatrix(v), m)
  {
    forall i: nat, j: nat | i < 4 && j < 4
      ensures Entry(Translated(m, v), i, j) == Entry(Multiply(TranslationMatrix(v), m), i, j)
    {
      TranslatedIsPremultiplyAt(m, v, i, j);
    }
    Mat4Laws.EntriesEqual(Translated(m, v), Multiply(TranslationMatrix(v), m));
  }

  /** Coordinate i < 3 of a point mapped by the translated matrix, for a
      point with w = 1: the original coordinate plus the offset. */
  lemma TranslatedMovesCoordinate(m: Matrix4, v: Vec3, p: Vec4, i: nat)
    requires p[3] == 1.0 && i < 3
    ensures Apply(Translated(m, v), p)[i] == Apply(m, p)[i] + v[i]
  {
    var r := Translated(m, v);
    Mat4Laws.ApplyEntry(r, p, i);
    Mat4Laws.ApplyEntry(m, p, i);
    assert Entry(r, i, 0) == Entry(m, i, 0) && Entry(r, i, 1) == Entry(m, i, 1) && Entry(r, i, 2) == Entry(m, i, 2);
    assert Entry(r, i, 3) == Entry(m, i, 3) + v[i];
  }

  /** Translating an affine matrix moves every point it maps by the offset,
      and the mapped point keeps w = 1. */
  lemma TranslatedMovesPoints(m: Matrix4, v: Vec3, p: Vec4)
    requires IsAffine(m) && p[3] == 1.0
    ensures Apply(Translated(m, v), p)
         == [Apply(m, p)[0] + v[0], Apply(m, p)[1] + v[1], Apply(m, p)[2] + v[2], 1.0]
  {
    var r := Translated(m, v);
    TranslatedMovesCoordinate(m, v, p, 0);
    TranslatedMovesCoordinate(m, v, p, 1);
    TranslatedMovesCoordinate(m, v, p, 2);
    Mat4Laws.ApplyEntry(r, p, 3);
    assert Entry(r, 3, 0) == 0.0 && Entry(r, 3, 1) == 0.0 && Entry(r, 3, 2) == 0.0 && Entry(r, 3, 3) == 1.0;
  }

  /** Translating the identity twice by (1, 2, 3) leaves (2, 4, 6) in the
      translation column. */
  lemma TranslateTwiceExample()
    ensures Translated(Translated(Create(), [1.0, 2.0, 3.0]), [1.0, 2.0, 3.0])
         == [ 1.0, 0.0, 0.0, 2.0,
              0.0, 1.0, 0.0, 4.0,
              0.0, 0.0, 1.0, 6.0,
              0.0, 0.0, 0.0, 1.0 ]
  {
    TranslatedAccumulates(Create(), [1.0, 2.0, 3.0], [1.0, 2.0, 3.0]);
    assert AddVec([1.0, 2.0, 3.0], [1.0, 2.0, 3.0]) == [2.0, 4.0, 6.0];
  }
}
