/**
 * What the frustum matrix built by `perspective` does to points: it keeps the
 * eye-space depth in the clip-space w coordinate, and its depth row sends the
 * near plane to -1 and the far plane to +1 after the perspective divide.
 */
module ProjectionLaws {
  import opened Mat4
  import Mat4Laws

  /** Applied to the identity, perspective returns the frustum matrix itself. */
  lemma PerspectiveOfCreate(x: real, aspectRatio: real, near: real, far: real)
    requires x != 0.0 && aspectRatio != 0.0 && far != near
    ensures Perspective(Create(), x, aspectRatio, near, far) == Projection(x, aspectRatio, near, far)
  {
    Mat4Laws.CreateIsRightIdentity(Projection(x, aspectRatio, near, far));
  }

  /** The result of perspective transforms a point as `matrix` does, then
      the frustum matrix: the projection is the outer transform. */
  lemma PerspectiveAppliesAfter(matrix: Matrix4, x: real, aspectRatio: real, near: real, far: real, v: Vec4)
    requires x != 0.0 && aspectRatio != 0.0 && far != near
    ensures Apply(Perspective(matrix, x, aspectRatio, near, far), v)
         == Apply(Projection(x, aspectRatio, near, far), Apply(matrix, v))
  {
    Mat4Laws.ApplyMultiply(Projection(x, aspectRatio, near, far), matrix, v);
  }

  /** The clip coordinates of an eye-space point (px, py, pz, 1): x and y
      scaled by 1/y and 1/x, depth remapped by the depth row, and w = -pz,
      the value the perspective divide later divides by. */
  lemma ProjectEyePoint(x: real, aspectRatio: real, near: real, far: real, px: real, py: real, pz: real)
    requires x != 0.0 && aspectRatio != 0.0 && far != near
    ensures Apply(Projection(x, aspectRatio, near, far), [px, py, pz, 1.0])
         == [ (1.0 / (aspectRatio * x)) * px,
              (1.0 / x) * py,
              DepthScale(near, far) * pz + DepthOffset(near, far),
              -pz ]
  {
    var p := Projection(x, aspectRatio, near, far);
    var c := Apply(p, [px, py, pz, 1.0]);
    var q := [ (1.0 / (aspectRatio * x)) * px,
               (1.0 / x) * py,
               DepthScale(near, far) * pz + DepthOffset(near, far),
               -pz ];
    assert c[0] == q[0] by {
      assert c[0] == Entry(p, 0, 0) * px;
    }
    assert c[1] == q[1] by {
      assert c[1] == Entry(p, 1, 1) * py;
    }
    assert c[2] == q[2] by {
      assert c[2] == Entry(p, 2, 2) * pz + Entry(p, 2, 3);
    }
    assert c[3] == q[3];
  }

  /** The depth row sends eye depth -near to clip depth -near. */
  lemma DepthAtNear(near: real, far: real)
    requires far != near
    ensures DepthScale(near, far) * -near + DepthOffset(near, far) == -near
  {
    var d := far - near;
    var num := (far + near) * near - 2.0 * far * near;
    DepthNumerator(near, far, near);
    assert num == -near * d;
    QuotientOfMultiple(num, d, -near);
  }

  /** The depth row sends eye depth -far to clip depth far. */
  lemma DepthAtFar(near: real, far: real)
    requires far != near
    ensures DepthScale(near, far) * -far + DepthOffset(near, far) == far
  {
    var d := far - near;
    var num := (far + near) * far - 2.0 * far * near;
    DepthNumerator(near, far, far);
    assert num == far * d;
    QuotientOfMultiple(num, d, far);
  }

  /** Normalised device depth: clip depth over clip w. */
  function NdcDepth(clip: Vec4): real
    requires clip[3] != 0.0
  {
    clip[2] / clip[3]
  }

  /** A multiple of a nonzero number, divided by it, gives the factor back. */
  lemma QuotientOfMultiple(e: real, w: real, s: real)
    requires w != 0.0 && e == s * w
    ensures e / w == s
  {
  }

  /** After the perspective divide, a point on the near plane (eye depth
      -near) has clip w equal to near and lands at depth -1. */
  lemma NearPlaneMapsToMinusOne(x: real, aspectRatio: real, near: real, far: real, px: real, py: real)
    requires x != 0.0 && aspectRatio != 0.0 && far != near && near != 0.0
    ensures Apply(Projection(x, aspectRatio, near, far), [px, py, -near, 1.0])[3] == near
    ensures NdcDepth(Apply(Projection(x, aspectRatio, near, far), [px, py, -near, 1.0])) == -1.0
  {
    var clip := Apply(Projection(x, aspectRatio, near, far), [px, py, -near, 1.0]);
    ProjectEyePoint(x, aspectRatio, near, far, px, py, -near);
    DepthAtNear(near, far);
    var e, w := clip[2], clip[3];
    assert e == -near && w == near;
    QuotientOfMultiple(e, w, -1.0);
  }

  /** After the perspective divide, a point on the far plane (eye depth -far)
      has clip w equal to far and lands at depth +1. */
  lemma FarPlaneMapsToOne(x: real, aspectRatio: real, near: real, far: real, px: real, py: real)
    requires x != 0.0 && aspectRatio != 0.0 && far != near && far != 0.0
    ensures Apply(Projection(x, aspectRatio, near, far), [px, py, -far, 1.0])[3] == far
    ensures NdcDepth(Apply(Projection(x, aspectRatio, near, far), [px, py, -far, 1.0])) == 1.0
  {
    var clip := Apply(Projection(x, aspectRatio, near, far), [px, py, -far, 1.0]);
    ProjectEyePoint(x, aspectRatio, near, far, px, py, -far);
    DepthAtFar(near, far);
    var e, w := clip[2], clip[3];
    assert e == far && w == far;
    QuotientOfMultiple(e, w, 1.0);
  }

  /** The depth row at eye depth -w, over the common denominator far - near. */
  lemma DepthNumerator(near: real, far: real, w: real)
    requires far != near
    ensures DepthScale(near, far) * -w + DepthOffset(near, far) == ((far + near) * w - 2.0 * far * near) / (far - near)
  {
    var d := far - near;
    calc {
      DepthScale(near, far) * -w + DepthOffset(near, far);
      ((far + near) / d) * w - (2.0 * far * near) / d;
      ((far + near) * w - 2.0 * far * near) / d;
    }
  }

  /** For w between near and far, the depth numerator lies within
      [-(far - near) w, (far - near) w]. */
  lemma NumeratorBounds(near: real, far: real, w: real, d: real, num: real)
    requires 0.0 < near < far && near <= w <= far && d == far - near
    requires num == (far + near) * w - 2.0 * far * near
    ensures -(d * w) <= num <= d * w
  {
    assert num - d * w == 2.0 * near * (w - far);
    assert num + d * w == 2.0 * far * (w - near);
    assert near * (w - far) <= 0.0;
    assert far * (w - near) >= 0.0;
  }

  /** Dividing by a positive number keeps a value inside the matching interval. */
  lemma QuotientBounds(num: real, den: real, bound: real)
    requires den > 0.0 && -(den * bound) <= num <= den * bound
    ensures -bound <= num / den <= bound
  {
    var q := num / den;
    assert q * den == num;
  }

  /** For 0 < near <= w <= far, the depth row at eye depth -w, divided by w,
      lies in [-1, 1]. */
  lemma DepthRowBounds(near: real, far: real, w: real, e: real)
    requires 0.0 < near < far && near <= w <= far
    requires e == DepthScale(near, far) * -w + DepthOffset(near, far)
    ensures -1.0 <= e / w <= 1.0
  {
    var d := far - near;
    var num := (far + near) * w - 2.0 * far * near;
    DepthNumerator(near, far, w);
    assert e == num / d;
    NumeratorBounds(near, far, w, d, num);
    QuotientBounds(num, d, w);
    var one := 1.0;
    assert -(w * one) <= e <= w * one;
    QuotientBounds(e, w, one);
  }

  /** With 0 < near < far, every eye-space point whose depth lies between the
      two planes (pz = -w, near <= w <= far) has clip w equal to w and lands
      in the normalised depth range [-1, 1]. */
  lemma DepthWithinUnitRange(x: real, aspectRatio: real, near: real, far: real, px: real, py: real, w: real)
    requires x != 0.0 && aspectRatio != 0.0
    requires 0.0 < near < far && near <= w <= far
    ensures Apply(Projection(x, aspectRatio, near, far), [px, py, -w, 1.0])[3] == w
    ensures -1.0 <= NdcDepth(Apply(Projection(x, aspectRatio, near, far), [px, py, -w, 1.0])) <= 1.0
  {
    var clip := Apply(Projection(x, aspectRatio, near, far), [px, py, -w, 1.0]);
    ProjectEyePoint(x, aspectRatio, near, far, px, py, -w);
    var e := clip[2];
    assert clip[3] == w;
    DepthRowBounds(near, far, w, e);
    assert NdcDepth(clip) == e / w;
  }

  /** A 90 degree field of view (half-angle tangent 1), aspect ratio 1, near
      plane 1 and far plane 100, applied to the identity. */
  lemma PerspectiveExample()
    ensures Perspective(Create(), 1.0, 1.0, 1.0, 100.0)
         == [ 1.0, 0.0, 0.0, 0.0,
              0.0, 1.0, 0.0, 0.0,
              0.0, 0.0, -101.0 / 99.0, -200.0 / 99.0,
              0.0, 0.0, -1.0, 0.0 ]
  {
    PerspectiveOfCreate(1.0, 1.0, 1.0, 100.0);
  }
}
