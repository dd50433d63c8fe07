/**
 * Algebraic laws of the matrix module: the identity from Create is neutral
 * for Multiply, Multiply is associative but not commutative, and a product
 * transforms a point as its two factors do one after the other.
 */
module Mat4Laws {
  import opened Mat4

  /** Two matrices with the same entries are the same matrix. */
  lemma EntriesEqual(a: Matrix4, b: Matrix4)
    requires forall i: nat, j: nat | i < 4 && j < 4 :: Entry(a, i, j) == Entry(b, i, j)
    ensures a == b
  {
    forall k | 0 <= k < 16
      ensures a[k] == b[k]
    {
      assert Entry(a, k / 4, k % 4) == Entry(b, k / 4, k % 4);
    }
  }

  /** Real multiplication behind a function symbol. It is a proof helper
      only: the entry lemmas below (ProductEntry, ApplyEntry) state their
      products with it, so that products built from different lemma instances
      are matched syntactically instead of by nonlinear arithmetic. Times(x, y)
      is x * y. */
  function Times(x: real, y: real): real
  {
    x * y
  }

  /** Create is a left identity: multiplying it on the left changes nothing. */
  lemma CreateIsLeftIdentity(m: Matrix4)
    ensures Multiply(Create(), m) == m
  {
    var id := Create();
    forall i: nat, j: nat | i < 4 && j < 4
      ensures Entry(Multiply(id, m), i, j) == Entry(m, i, j)
    {
      DotExpanded(id, m, i, j);
    }
    EntriesEqual(Multiply(id, m), m);
  }

  /** Create is a right identity: multiplying it on the right changes nothing. */
  lemma CreateIsRightIdentity(m: Matrix4)
    ensures Multiply(m, Create()) == m
  {
    var id := Create();
    forall i: nat, j: nat | i < 4 && j < 4
      ensures Entry(Multiply(m, id), i, j) == Entry(m, i, j)
    {
      DotExpanded(m, id, i, j);
      // Case split on the column, so that each case sees which entry of
      // column j of the identity is the 1.
      if j == 0 {
      } else if j == 1 {
      } else if j == 2 {
      } else {
      }
    }
    EntriesEqual(Multiply(m, id), m);
  }

  /** The polynomial identity behind associativity, for one row `a*` of the
      left factor, the middle factor `b**` and one column `c*` of the right
      factor: summing (row × b) against the column equals summing the row
      against (b × column). */
  lemma SumOfProductsRegroups(a0: real, a1: real, a2: real, a3: real,
                              b00: real, b01: real, b02: real, b03: real,
                              b10: real, b11: real, b12: real, b13: real,
                              b20: real, b21: real, b22: real, b23: real,
                              b30: real, b31: real, b32: real, b33: real,
                              c0: real, c1: real, c2: real, c3: real,
                              ab0: real, ab1: real, ab2: real, ab3: real,
                              bc0: real, bc1: real, bc2: real, bc3: real)
    requires ab0 == Times(a0, b00) + Times(a1, b10) + Times(a2, b20) + Times(a3, b30)
    requires ab1 == Times(a0, b01) + Times(a1, b11) + Times(a2, b21) + Times(a3, b31)
    requires ab2 == Times(a0, b02) + Times(a1, b12) + Times(a2, b22) + Times(a3, b32)
    requires ab3 == Times(a0, b03) + Times(a1, b13) + Times(a2, b23) + Times(a3, b33)
    requires bc0 == Times(b00, c0) + Times(b01, c1) + Times(b02, c2) + Times(b03, c3)
    requires bc1 == Times(b10, c0) + Times(b11, c1) + Times(b12, c2) + Times(b13, c3)
    requires bc2 == Times(b20, c0) + Times(b21, c1) + Times(b22, c2) + Times(b23, c3)
    requires bc3 == Times(b30, c0) + Times(b31, c1) + Times(b32, c2) + Times(b33, c3)
    ensures Times(ab0, c0) + Times(ab1, c1) + Times(ab2, c2) + Times(ab3, c3)
         == Times(a0, bc0) + Times(a1, bc1) + Times(a2, bc2) + Times(a3, bc3)
  {
    calc {
      Times(ab0, c0) + Times(ab1, c1) + Times(ab2, c2) + Times(ab3, c3);
      (a0 * b00 + a1 * b10 + a2 * b20 + a3 * b30) * c0 + (a0 * b01 + a1 * b11 + a2 * b21 + a3 * b31) * c1
        + (a0 * b02 + a1 * b12 + a2 * b22 + a3 * b32) * c2 + (a0 * b03 + a1 * b13 + a2 * b23 + a3 * b33) * c3;
      a0 * (b00 * c0 + b01 * c1 + b02 * c2 + b03 * c3) + a1 * (b10 * c0 + b11 * c1 + b12 * c2 + b13 * c3)
        + a2 * (b20 * c0 + b21 * c1 + b22 * c2 + b23 * c3) + a3 * (b30 * c0 + b31 * c1 + b32 * c2 + b33 * c3);
      Times(a0, bc0) + Times(a1, bc1) + Times(a2, bc2) + Times(a3, bc3);
    }
  }

  /** An entry of a product, written out as its four products (a proof
      helper for associativity; Times is plain multiplication). */
  lemma ProductEntry(a: Matrix4, b: Matrix4, i: nat, j: nat)
    requires i < 4 && j < 4
    ensures Entry(Multiply(a, b), i, j)
         == Times(Entry(a, i, 0), Entry(b, 0, j)) + Times(Entry(a, i, 1), Entry(b, 1, j))
          + Times(Entry(a, i, 2), Entry(b, 2, j)) + Times(Entry(a, i, 3), Entry(b, 3, j))
  {
    DotExpanded(a, b, i, j);
  }

  /** One entry of (a × b) × c equals the same entry of a × (b × c). */
  lemma MultiplyAssociativeAt(a: Matrix4, b: Matrix4, c: Matrix4, i: nat, j: nat)
    requires i < 4 && j < 4
    ensures Entry(Multiply(Multiply(a, b), c), i, j) == Entry(Multiply(a, Multiply(b, c)), i, j)
  {
    var ab, bc := Multiply(a, b), Multiply(b, c);
    ProductEntry(ab, c, i, j);
    ProductEntry(a, bc, i, j);
    ProductEntry(a, b, i, 0); ProductEntry(a, b, i, 1); ProductEntry(a, b, i, 2); ProductEntry(a, b, i, 3);
    ProductEntry(b, c, 0, j); ProductEntry(b, c, 1, j); ProductEntry(b, c, 2, j); ProductEntry(b, c, 3, j);
    SumOfProductsRegroups(
      Entry(a, i, 0), Entry(a, i, 1), Entry(a, i, 2), Entry(a, i, 3),
      Entry(b, 0, 0), Entry(b, 0, 1), Entry(b, 0, 2), Entry(b, 0, 3),
      Entry(b, 1, 0), Entry(b, 1, 1), Entry(b, 1, 2), Entry(b, 1, 3),
      Entry(b, 2, 0), Entry(b, 2, 1), Entry(b, 2, 2), Entry(b, 2, 3),
      Entry(b, 3, 0), Entry(b, 3, 1), Entry(b, 3, 2), Entry(b, 3, 3),
      Entry(c, 0, j), Entry(c, 1, j), Entry(c, 2, j), Entry(c, 3, j),
      Entry(ab, i, 0), Entry(ab, i, 1), Entry(ab, i, 2), Entry(ab, i, 3),
      Entry(bc, 0, j), Entry(bc, 1, j), Entry(bc, 2, j), Entry(bc, 3, j));
  }

  /** Multiply is associative (over exact arithmetic). */
  lemma MultiplyAssociative(a: Matrix4, b: Matrix4, c: Matrix4)
    ensures Multiply(Multiply(a, b), c) == Multiply(a, Multiply(b, c))
  {
    forall i: nat, j: nat | i < 4 && j < 4
      ensures Entry(Multiply(Multiply(a, b), c), i, j) == Entry(Multiply(a, Multiply(b, c)), i, j)
    {
      MultiplyAssociativeAt(a, b, c, i, j);
    }
    EntriesEqual(Multiply(Multiply(a, b), c), Multiply(a, Multiply(b, c)));
  }

  /** Multiply is not commutative: a matrix with a single 1 at row 0, column 1
      and one with a single 1 at row 1, column 0 give different products in
      the two orders. */
  lemma MultiplyNotCommutative()
    ensures exists a: Matrix4, b: Matrix4 :: Multiply(a, b) != Multiply(b, a)
  {
    var a: Matrix4 := seq(16, k => if k == 1 then 1.0 else 0.0);
    var b: Matrix4 := seq(16, k => if k == 4 then 1.0 else 0.0);
    assert Multiply(a, b)[0] == 1.0;
    assert Multiply(b, a)[0] == 0.0;
  }

  /** An entry of a transformed point, written out as its four products (a
      proof helper for ApplyMultiply; Times is plain multiplication). */
  lemma ApplyEntry(m: Matrix4, v: Vec4, i: nat)
    requires i < 4
    ensures Apply(m, v)[i]
         == Times(Entry(m, i, 0), v[0]) + Times(Entry(m, i, 1), v[1])
          + Times(Entry(m, i, 2), v[2]) + Times(Entry(m, i, 3), v[3])
  {
  }

  /** One coordinate of (a × b) applied to v equals that coordinate of a
      applied to (b applied to v). */
  lemma ApplyMultiplyAt(a: Matrix4, b: Matrix4, v: Vec4, i: nat)
    requires i < 4
    ensures Apply(Multiply(a, b), v)[i] == Apply(a, Apply(b, v))[i]
  {
    var ab, bv := Multiply(a, b), Apply(b, v);
    ApplyEntry(ab, v, i);
    ApplyEntry(a, bv, i);
    ProductEntry(a, b, i, 0); ProductEntry(a, b, i, 1); ProductEntry(a, b, i, 2); ProductEntry(a, b, i, 3);
    ApplyEntry(b, v, 0); ApplyEntry(b, v, 1); ApplyEntry(b, v, 2); ApplyEntry(b, v, 3);
    SumOfProductsRegroups(
      Entry(a, i, 0), Entry(a, i, 1), Entry(a, i, 2), Entry(a, i, 3),
      Entry(b, 0, 0), Entry(b, 0, 1), Entry(b, 0, 2), Entry(b, 0, 3),
      Entry(b, 1, 0), Entry(b, 1, 1), Entry(b, 1, 2), Entry(b, 1, 3),
      Entry(b, 2, 0), Entry(b, 2, 1), Entry(b, 2, 2), Entry(b, 2, 3),
      Entry(b, 3, 0), Entry(b, 3, 1), Entry(b, 3, 2), Entry(b, 3, 3),
      v[0], v[1], v[2], v[3],
      Entry(ab, i, 0), Entry(ab, i, 1), Entry(ab, i, 2), Entry(ab, i, 3),
      bv[0], bv[1], bv[2], bv[3]);
  }

  /** The product `first × second` transforms a point as `second` does
      followed by `first`: the composition order of multiply4x4. */
  lemma ApplyMultiply(a: Matrix4, b: Matrix4, v: Vec4)
    ensures Apply(Multiply(a, b), v) == Apply(a, Apply(b, v))
  {
    forall i | 0 <= i < 4
      ensures Apply(Multiply(a, b), v)[i] == Apply(a, Apply(b, v))[i]
    {
      ApplyMultiplyAt(a, b, v, i);
    }
  }
}
