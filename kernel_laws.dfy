/** Algebraic laws of the kernel: how the matrices act on points, the rotation
    builders, and the quaternion operations. */
module KernelLaws {
  import opened LinAlg

  // ---------------------------------------------------------------- real-number facts

  lemma PositiveProduct(a: real, b: real)
    requires a > 0.0 && b > 0.0
    ensures !(a * b <= 0.0)
  {
  }

  lemma NegativeProduct(a: real, b: real)
    requires a < 0.0 && b < 0.0
    ensures !(a * b <= 0.0)
  {
  }

  /** A square is never negative, and it is positive unless its root is zero. */
  lemma Square(a: real)
    ensures a * a >= 0.0
    ensures a != 0.0 ==> !(a * a <= 0.0)
  {
    if a < 0.0 {
      NegativeProduct(a, a);
    } else if a > 0.0 {
      PositiveProduct(a, a);
    }
  }

  lemma SumOfSquares(q: Quaternion)
    ensures NormSquared(q) >= 0.0
    ensures q != Quaternion(0.0, 0.0, 0.0, 0.0) ==> !(NormSquared(q) <= 0.0)
  {
    Square(q.x);
    Square(q.y);
    Square(q.z);
    Square(q.w);
  }

  /** Of two non-negative reals the smaller has the smaller square. */
  lemma LessSquare(s: real, t: real)
    requires 0.0 <= s < t
    ensures s * s < t * t
  {
    PositiveProduct(t - s, t + s);
    assert (t - s) * (t + s) == t * t - s * s;
  }

  lemma EqualSquares(s: real, t: real)
    requires s >= 0.0 && t >= 0.0 && s * s == t * t
    ensures s == t
  {
    if s < t {
      LessSquare(s, t);
    } else if t < s {
      LessSquare(t, s);
    }
  }

  // ---------------------------------------------------------------- matrices acting on points

  /** MatrixMultiply(a, b) applies b first and then a, provided b is affine. */
  lemma TransformMultiply(v: Vector3, a: Matrix, b: Matrix)
    requires IsAffine(b)
    ensures Vector3Transform(v, MatrixMultiply(a, b)) == Vector3Transform(Vector3Transform(v, b), a)
  {
    ProductApplied(v, a, b);
    AppliedTwice(v, a, b);
    AffineRow(v.x, v.y, v.z, a.m0, a.m4, a.m8, a.m12, b.m0, b.m1, b.m2, b.m3, b.m4, b.m5, b.m6, b.m7,
              b.m8, b.m9, b.m10, b.m11, b.m12, b.m13, b.m14, b.m15);
    AffineRow(v.x, v.y, v.z, a.m1, a.m5, a.m9, a.m13, b.m0, b.m1, b.m2, b.m3, b.m4, b.m5, b.m6, b.m7,
              b.m8, b.m9, b.m10, b.m11, b.m12, b.m13, b.m14, b.m15);
    AffineRow(v.x, v.y, v.z, a.m2, a.m6, a.m10, a.m14, b.m0, b.m1, b.m2, b.m3, b.m4, b.m5, b.m6, b.m7,
              b.m8, b.m9, b.m10, b.m11, b.m12, b.m13, b.m14, b.m15);
  }

  /** One row r of a against b, applied to v, both ways round: the identity behind
      TransformMultiply once b's bottom row is (0, 0, 0, 1). */
  lemma AffineRow(vx: real, vy: real, vz: real, r0: real, r1: real, r2: real, r3: real,
                  b0: real, b1: real, b2: real, b3: real, b4: real, b5: real, b6: real, b7: real,
                  b8: real, b9: real, b10: real, b11: real, b12: real, b13: real, b14: real, b15: real)
    requires b3 == 0.0 && b7 == 0.0 && b11 == 0.0 && b15 == 1.0
    ensures vx * (r0 * b0 + r1 * b1 + r2 * b2 + r3 * b3)
          + vy * (r0 * b4 + r1 * b5 + r2 * b6 + r3 * b7)
          + vz * (r0 * b8 + r1 * b9 + r2 * b10 + r3 * b11)
          + (r0 * b12 + r1 * b13 + r2 * b14 + r3 * b15)
         == (vx * b0 + vy * b4 + vz * b8 + b12) * r0
          + (vx * b1 + vy * b5 + vz * b9 + b13) * r1
          + (vx * b2 + vy * b6 + vz * b10 + b14) * r2 + r3
  {
  }

  lemma ProductApplied(v: Vector3, a: Matrix, b: Matrix)
    ensures var r := Vector3Transform(v, MatrixMultiply(a, b));
      && r.x == v.x * (a.m0 * b.m0 + a.m4 * b.m1 + a.m8 * b.m2 + a.m12 * b.m3)
              + v.y * (a.m0 * b.m4 + a.m4 * b.m5 + a.m8 * b.m6 + a.m12 * b.m7)
              + v.z * (a.m0 * b.m8 + a.m4 * b.m9 + a.m8 * b.m10 + a.m12 * b.m11)
              + (a.m0 * b.m12 + a.m4 * b.m13 + a.m8 * b.m14 + a.m12 * b.m15)
      && r.y == v.x * (a.m1 * b.m0 + a.m5 * b.m1 + a.m9 * b.m2 + a.m13 * b.m3)
              + v.y * (a.m1 * b.m4 + a.m5 * b.m5 + a.m9 * b.m6 + a.m13 * b.m7)
              + v.z * (a.m1 * b.m8 + a.m5 * b.m9 + a.m9 * b.m10 + a.m13 * b.m11)
              + (a.m1 * b.m12 + a.m5 * b.m13 + a.m9 * b.m14 + a.m13 * b.m15)
      && r.z == v.x * (a.m2 * b.m0 + a.m6 * b.m1 + a.m10 * b.m2 + a.m14 * b.m3)
              + v.y * (a.m2 * b.m4 + a.m6 * b.m5 + a.m10 * b.m6 + a.m14 * b.m7)
              + v.z * (a.m2 * b.m8 + a.m6 * b.m9 + a.m10 * b.m10 + a.m14 * b.m11)
              + (a.m2 * b.m12 + a.m6 * b.m13 + a.m10 * b.m14 + a.m14 * b.m15)
  {
  }

  lemma AppliedTwice(v: Vector3, a: Matrix, b: Matrix)
    ensures var t := Vector3Transform(Vector3Transform(v, b), a);
      && t.x == (v.x * b.m0 + v.y * b.m4 + v.z * b.m8 + b.m12) * a.m0
              + (v.x * b.m1 + v.y * b.m5 + v.z * b.m9 + b.m13) * a.m4
              + (v.x * b.m2 + v.y * b.m6 + v.z * b.m10 + b.m14) * a.m8 + a.m12
      && t.y == (v.x * b.m0 + v.y * b.m4 + v.z * b.m8 + b.m12) * a.m1
              + (v.x * b.m1 + v.y * b.m5 + v.z * b.m9 + b.m13) * a.m5
              + (v.x * b.m2 + v.y * b.m6 + v.z * b.m10 + b.m14) * a.m9 + a.m13
      && t.z == (v.x * b.m0 + v.y * b.m4 + v.z * b.m8 + b.m12) * a.m2
              + (v.x * b.m1 + v.y * b.m5 + v.z * b.m9 + b.m13) * a.m6
              + (v.x * b.m2 + v.y * b.m6 + v.z * b.m10 + b.m14) * a.m10 + a.m14
  {
    var u := Vector3Transform(v, b);
    assert u == Vector3(v.x * b.m0 + v.y * b.m4 + v.z * b.m8 + b.m12,
                        v.x * b.m1 + v.y * b.m5 + v.z * b.m9 + b.m13,
                        v.x * b.m2 + v.y * b.m6 + v.z * b.m10 + b.m14);
  }

  // ---------------------------------------------------------------- rotation builders

  /** With zero Euler angles the rotation is the identity. */
  lemma RotateXYZZero(m: MathLib)
    requires Lawful(m)
    ensures MatrixRotateXYZ(m, Vector3Zero()) == IdentityMatrix
  {
    assert -0.0 == 0.0;
  }

  /** MatrixRotateV of (0, 0, 0) degrees is the identity. */
  lemma RotateVZero(m: MathLib)
    requires Lawful(m)
    ensures MatrixRotateV(m, Vector3Zero()) == IdentityMatrix
  {
    assert Vector3(0.0 * Deg2Rad, 0.0 * Deg2Rad, 0.0 * Deg2Rad) == Vector3Zero();
    RotateXYZZero(m);
  }

  /** For every angle the Euler rotation has orthonormal columns. */
  lemma RotateXYZOrthonormal(m: MathLib, angle: Vector3)
    requires Lawful(m)
    ensures Orthonormal(MatrixRotateXYZ(m, angle))
  {
    Pythagoras(m, -angle.x);
    Pythagoras(m, -angle.y);
    Pythagoras(m, -angle.z);
    EulerOrthonormal(m, angle);
  }

  lemma EulerOrthonormal(m: MathLib, angle: Vector3)
    requires m.sin(-angle.x) * m.sin(-angle.x) + m.cos(-angle.x) * m.cos(-angle.x) == 1.0
    requires m.sin(-angle.y) * m.sin(-angle.y) + m.cos(-angle.y) * m.cos(-angle.y) == 1.0
    requires m.sin(-angle.z) * m.sin(-angle.z) + m.cos(-angle.z) * m.cos(-angle.z) == 1.0
    ensures Orthonormal(MatrixRotateXYZ(m, angle))
  {
    var r := MatrixRotateXYZ(m, angle);
    var sx, cx := m.sin(-angle.x), m.cos(-angle.x);
    var sy, cy := m.sin(-angle.y), m.cos(-angle.y);
    var sz, cz := m.sin(-angle.z), m.cos(-angle.z);
    RotateXYZEntries(m, angle);
    var m0, m1, m2, m4, m5, m6, m8, m9, m10 := r.m0, r.m1, r.m2, r.m4, r.m5, r.m6, r.m8, r.m9, r.m10;
    EulerColumns(m0, m1, m2, m4, m5, m6, m8, m9, m10, sx, cx, sy, cy, sz, cz);
  }

  lemma RotateXYZEntries(m: MathLib, angle: Vector3)
    ensures var r := MatrixRotateXYZ(m, angle);
      var sx, cx := m.sin(-angle.x), m.cos(-angle.x);
      var sy, cy := m.sin(-angle.y), m.cos(-angle.y);
      var sz, cz := m.sin(-angle.z), m.cos(-angle.z);
      && r.m0 == cz * cy && r.m1 == (cz * sy * sx) - (sz * cx) && r.m2 == (cz * sy * cx) + (sz * sx)
      && r.m4 == sz * cy && r.m5 == (sz * sy * sx) + (cz * cx) && r.m6 == (sz * sy * cx) - (cz * sx)
      && r.m8 == -sy && r.m9 == cy * sx && r.m10 == cy * cx
  {
  }

  lemma Pythagoras(m: MathLib, a: real)
    requires Lawful(m)
    ensures m.sin(a) * m.sin(a) + m.cos(a) * m.cos(a) == 1.0
  {
  }

  /** MatrixRotateV has orthonormal columns for every rotation in degrees. */
  lemma RotateVOrthonormal(m: MathLib, v: Vector3)
    requires Lawful(m)
    ensures Orthonormal(MatrixRotateV(m, v))
  {
    RotateXYZOrthonormal(m, Vector3(v.x * Deg2Rad, v.y * Deg2Rad, v.z * Deg2Rad));
  }

  /** The entries of MatrixRotateXYZ, written over the sines and cosines of the three
      negated angles, form orthonormal columns. */
  lemma EulerColumns(m0: real, m1: real, m2: real, m4: real, m5: real, m6: real, m8: real, m9: real, m10: real,
                     sx: real, cx: real, sy: real, cy: real, sz: real, cz: real)
    requires sx * sx + cx * cx == 1.0 && sy * sy + cy * cy == 1.0 && sz * sz + cz * cz == 1.0
    requires m0 == cz * cy && m1 == (cz * sy * sx) - (sz * cx) && m2 == (cz * sy * cx) + (sz * sx)
    requires m4 == sz * cy && m5 == (sz * sy * sx) + (cz * cx) && m6 == (sz * sy * cx) - (cz * sx)
    requires m8 == -sy && m9 == cy * sx && m10 == cy * cx
    ensures m0 * m0 + m1 * m1 + m2 * m2 == 1.0
    ensures m4 * m4 + m5 * m5 + m6 * m6 == 1.0
    ensures m8 * m8 + m9 * m9 + m10 * m10 == 1.0
    ensures m0 * m4 + m1 * m5 + m2 * m6 == 0.0
    ensures m0 * m8 + m1 * m9 + m2 * m10 == 0.0
    ensures m4 * m8 + m5 * m9 + m6 * m10 == 0.0
  {
    EulerColumn0(m0, m1, m2, sx, cx, sy, cy, sz, cz);
    EulerColumn1(m4, m5, m6, sx, cx, sy, cy, sz, cz);
    EulerColumn2(m8, m9, m10, sx, cx, sy, cy);
    EulerColumns01(m0, m1, m2, m4, m5, m6, sx, cx, sy, cy, sz, cz);
    EulerColumns02(m0, m1, m2, m8, m9, m10, sx, cx, sy, cy, sz, cz);
    EulerColumns12(m4, m5, m6, m8, m9, m10, sx, cx, sy, cy, sz, cz);
  }

  lemma EulerColumn0(m0: real, m1: real, m2: real, sx: real, cx: real, sy: real, cy: real, sz: real, cz: real)
    requires sx * sx + cx * cx == 1.0 && sy * sy + cy * cy == 1.0 && sz * sz + cz * cz == 1.0
    requires m0 == cz * cy && m1 == (cz * sy * sx) - (sz * cx) && m2 == (cz * sy * cx) + (sz * sx)
    ensures m0 * m0 + m1 * m1 + m2 * m2 == 1.0
  {
    var p := cz * sy;
    PlaneRotationNorm(p, sz, sx, cx);
    assert m0 * m0 + p * p == cz * cz * (cy * cy + sy * sy);
  }

  lemma EulerColumn1(m4: real, m5: real, m6: real, sx: real, cx: real, sy: real, cy: real, sz: real, cz: real)
    requires sx * sx + cx * cx == 1.0 && sy * sy + cy * cy == 1.0 && sz * sz + cz * cz == 1.0
    requires m4 == sz * cy && m5 == (sz * sy * sx) + (cz * cx) && m6 == (sz * sy * cx) - (cz * sx)
    ensures m4 * m4 + m5 * m5 + m6 * m6 == 1.0
  {
    var p := sz * sy;
    PlaneRotationNorm(p, cz, cx, sx);
    assert m4 * m4 + p * p == sz * sz * (cy * cy + sy * sy);
  }

  lemma EulerColumn2(m8: real, m9: real, m10: real, sx: real, cx: real, sy: real, cy: real)
    requires sx * sx + cx * cx == 1.0 && sy * sy + cy * cy == 1.0
    requires m8 == -sy && m9 == cy * sx && m10 == cy * cx
    ensures m8 * m8 + m9 * m9 + m10 * m10 == 1.0
  {
    assert m8 * m8 == sy * sy;
    assert m9 * m9 + m10 * m10 == cy * cy * (sx * sx + cx * cx);
  }

  lemma EulerColumns01(m0: real, m1: real, m2: real, m4: real, m5: real, m6: real,
                       sx: real, cx: real, sy: real, cy: real, sz: real, cz: real)
    requires sx * sx + cx * cx == 1.0 && sy * sy + cy * cy == 1.0
    requires m0 == cz * cy && m1 == (cz * sy * sx) - (sz * cx) && m2 == (cz * sy * cx) + (sz * sx)
    requires m4 == sz * cy && m5 == (sz * sy * sx) + (cz * cx) && m6 == (sz * sy * cx) - (cz * sx)
    ensures m0 * m4 + m1 * m5 + m2 * m6 == 0.0
  {
    var p, p2 := cz * sy, sz * sy;
    assert m1 == p * sx - sz * cx && m2 == p * cx + sz * sx;
    assert m5 == p2 * sx + cz * cx && m6 == p2 * cx - cz * sx;
    PlaneRotationDot(p, sz, p2, cz, sx, cx);
    assert m1 * m5 + m2 * m6 == p * p2 - sz * cz;
    assert m0 * m4 + p * p2 == (cz * sz) * (sy * sy + cy * cy);
  }

  lemma EulerColumns02(m0: real, m1: real, m2: real, m8: real, m9: real, m10: real,
                       sx: real, cx: real, sy: real, cy: real, sz: real, cz: real)
    requires sx * sx + cx * cx == 1.0
    requires m0 == cz * cy && m1 == (cz * sy * sx) - (sz * cx) && m2 == (cz * sy * cx) + (sz * sx)
    requires m8 == -sy && m9 == cy * sx && m10 == cy * cx
    ensures m0 * m8 + m1 * m9 + m2 * m10 == 0.0
  {
    var p := cz * sy;
    assert m1 * m9 + m2 * m10 == p * cy * (sx * sx + cx * cx);
  }

  lemma EulerColumns12(m4: real, m5: real, m6: real, m8: real, m9: real, m10: real,
                       sx: real, cx: real, sy: real, cy: real, sz: real, cz: real)
    requires sx * sx + cx * cx == 1.0
    requires m4 == sz * cy && m5 == (sz * sy * sx) + (cz * cx) && m6 == (sz * sy * cx) - (cz * sx)
    requires m8 == -sy && m9 == cy * sx && m10 == cy * cx
    ensures m4 * m8 + m5 * m9 + m6 * m10 == 0.0
  {
    var p := sz * sy;
    assert m5 * m9 + m6 * m10 == p * cy * (sx * sx + cx * cx);
  }

  /** Two vectors rotated by the same plane rotation keep their dot product. */
  lemma PlaneRotationDot(p: real, q: real, p2: real, q2: real, s: real, c: real)
    requires s * s + c * c == 1.0
    ensures (p * s - q * c) * (p2 * s + q2 * c) + (p * c + q * s) * (p2 * c - q2 * s) == p * p2 - q * q2
  {
    assert (p * s - q * c) * (p2 * s + q2 * c) + (p * c + q * s) * (p2 * c - q2 * s) == (p * p2 - q * q2) * (s * s + c * c);
  }

  /** A plane rotation by (s, c) with s^2 + c^2 = 1 keeps the length of (p, q). */
  lemma PlaneRotationNorm(p: real, q: real, s: real, c: real)
    requires s * s + c * c == 1.0
    ensures (p * s - q * c) * (p * s - q * c) + (p * c + q * s) * (p * c + q * s) == p * p + q * q
  {
    assert (p * s - q * c) * (p * s - q * c) + (p * c + q * s) * (p * c + q * s) == (p * p + q * q) * (s * s + c * c);
  }

  // ---------------------------------------------------------------- quaternion inverse

  /** A quaternion with positive squared norm times its inverse is the identity. */
  lemma MultiplyInverse(q: Quaternion)
    requires NormSquared(q) > 0.0
    ensures QuaternionMultiply(q, QuaternionInvert(q)) == IdentityQuaternion
  {
    var k := 1.0 / NormSquared(q);
    InvertForm(q);
    DivMul(1.0, NormSquared(q));
    ScaledConjugate(q, k);
  }

  lemma InvertForm(q: Quaternion)
    requires NormSquared(q) > 0.0
    ensures var k := 1.0 / NormSquared(q);
      QuaternionInvert(q) == Quaternion(-q.x * k, -q.y * k, -q.z * k, q.w * k)
  {
  }

  lemma DivMul(a: real, s: real)
    requires s != 0.0
    ensures (a / s) * s == a
  {
  }

  /** q times its conjugate scaled by k is the identity when k is the reciprocal of
      q's squared norm. */
  lemma ScaledConjugate(q: Quaternion, k: real)
    requires NormSquared(q) * k == 1.0
    ensures QuaternionMultiply(q, Quaternion(-q.x * k, -q.y * k, -q.z * k, q.w * k)) == IdentityQuaternion
  {
    ConjugateProduct(q.x, q.y, q.z, q.w, k);
  }

  lemma ConjugateProduct(x: real, y: real, z: real, w: real, k: real)
    requires (x * x + y * y + z * z + w * w) * k == 1.0
    ensures w * (-x * k) + x * (w * k) + y * (-z * k) - z * (-y * k) == 0.0
    ensures w * (-y * k) - x * (-z * k) + y * (w * k) + z * (-x * k) == 0.0
    ensures w * (-z * k) + x * (-y * k) - y * (-x * k) + z * (w * k) == 0.0
    ensures w * (w * k) - x * (-x * k) - y * (-y * k) - z * (-z * k) == 1.0
  {
  }

  // ---------------------------------------------------------------- quaternion to matrix

  /** Every component of q multiplied by k. */
  function QuaternionScale(q: Quaternion, k: real): Quaternion
  {
    Quaternion(q.x * k, q.y * k, q.z * k, q.w * k)
  }

  /** The zero quaternion, which QuaternionToMatrix does not normalise, gives the identity. */
  lemma ToMatrixZero(m: MathLib)
    ensures QuaternionToMatrix(m, Quaternion(0.0, 0.0, 0.0, 0.0)) == IdentityMatrix
  {
    NormaliseZero(m);
    UnitMatrixZero();
  }

  lemma NormaliseZero(m: MathLib)
    ensures Normalise(m, Quaternion(0.0, 0.0, 0.0, 0.0)) == Quaternion(0.0, 0.0, 0.0, 0.0)
  {
    var z := Quaternion(0.0, 0.0, 0.0, 0.0);
    var norm := m.sqrt(NormSquared(z));
    if norm > 0.0 {
      NormaliseForm(m, z, norm);
      ZeroDiv(norm);
    }
  }

  lemma ZeroDiv(s: real)
    requires s != 0.0
    ensures 0.0 / s == 0.0
  {
  }

  lemma UnitMatrixZero()
    ensures UnitQuaternionMatrix(Quaternion(0.0, 0.0, 0.0, 0.0)) == IdentityMatrix
  {
  }

  /** Scaling q by any nonzero real leaves its rotation matrix unchanged. */
  lemma ToMatrixScaleInvariant(m: MathLib, q: Quaternion, k: real)
    requires Lawful(m) && k != 0.0
    ensures QuaternionToMatrix(m, QuaternionScale(q, k)) == QuaternionToMatrix(m, q)
  {
    if m.sqrt(NormSquared(q)) > 0.0 {
      NormaliseScaled(m, q, k);
      if k < 0.0 {
        SignInvariance(Normalise(m, q), -1.0);
      }
    } else {
      ZeroNorm(m, q);
    }
  }

  /** A quaternion whose norm is not positive is the zero quaternion. */
  lemma ZeroNorm(m: MathLib, q: Quaternion)
    requires Lawful(m) && !(m.sqrt(NormSquared(q)) > 0.0)
    ensures q == Quaternion(0.0, 0.0, 0.0, 0.0)
  {
    SumOfSquares(q);
    ZeroRoot(m.sqrt(NormSquared(q)), NormSquared(q));
  }

  lemma ZeroRoot(s: real, v: real)
    requires s >= 0.0 && !(s > 0.0) && s * s == v
    ensures v <= 0.0
  {
    assert s == 0.0;
  }

  /** Negating every component of a quaternion does not change the products
      UnitQuaternionMatrix is built from. */
  lemma SignInvariance(n: Quaternion, c: real)
    requires c * c == 1.0
    ensures UnitQuaternionMatrix(QuaternionScale(n, c)) == UnitQuaternionMatrix(n)
  {
    SignedProduct(n.x, n.x, c);
    SignedProduct(n.y, n.y, c);
    SignedProduct(n.z, n.z, c);
    SignedProduct(n.x, n.y, c);
    SignedProduct(n.x, n.z, c);
    SignedProduct(n.y, n.z, c);
    SignedProduct(n.w, n.x, c);
    SignedProduct(n.w, n.y, c);
    SignedProduct(n.w, n.z, c);
  }

  lemma SignedProduct(a: real, b: real, c: real)
    requires c * c == 1.0
    ensures (a * c) * (b * c) == a * b
  {
    assert (a * c) * (b * c) == (a * b) * (c * c);
  }

  /** Normalising k*q gives the normalised q, negated when k is negative. */
  lemma NormaliseScaled(m: MathLib, q: Quaternion, k: real)
    requires Lawful(m) && k != 0.0 && m.sqrt(NormSquared(q)) > 0.0
    ensures k > 0.0 ==> Normalise(m, QuaternionScale(q, k)) == Normalise(m, q)
    ensures k < 0.0 ==> Normalise(m, QuaternionScale(q, k)) == QuaternionScale(Normalise(m, q), -1.0)
  {
    var norm := m.sqrt(NormSquared(q));
    var a := if k < 0.0 then -k else k;
    assert a * a == k * k;
    ScaledNorm(m, q, k, a);
    PositiveProduct(a, norm);
    NormaliseForm(m, q, norm);
    NormaliseForm(m, QuaternionScale(q, k), a * norm);
    if k < 0.0 {
      NegScaledComponents(q, k, norm, a * norm);
    } else {
      ScaledComponents(q, k, norm, a * norm);
    }
  }

  lemma NormaliseForm(m: MathLib, q: Quaternion, norm: real)
    requires norm == m.sqrt(NormSquared(q)) && norm > 0.0
    ensures Normalise(m, q) == Quaternion(q.x / norm, q.y / norm, q.z / norm, q.w / norm)
  {
  }

  /** A quaternion with a positive norm normalises to a unit quaternion. */
  lemma NormaliseUnit(m: MathLib, q: Quaternion)
    requires Lawful(m) && m.sqrt(NormSquared(q)) > 0.0
    ensures NormSquared(Normalise(m, q)) == 1.0
  {
    var norm := m.sqrt(NormSquared(q));
    NormaliseForm(m, q, norm);
    SumOfSquares(q);
    var n := Normalise(m, q);
    DividedNorm(q.x, q.y, q.z, q.w, norm, n.x, n.y, n.z, n.w);
  }

  /** Dividing each component by the norm gives squared norm 1. */
  lemma DividedNorm(x: real, y: real, z: real, w: real, norm: real, a: real, b: real, c: real, d: real)
    requires norm > 0.0 && norm * norm == x * x + y * y + z * z + w * w
    requires a == x / norm && b == y / norm && c == z / norm && d == w / norm
    ensures a * a + b * b + c * c + d * d == 1.0
  {
    assert a * norm == x && b * norm == y && c * norm == z && d * norm == w;
    var n2 := norm * norm;
    assert (a * a) * n2 == x * x by { assert (a * a) * n2 == (a * norm) * (a * norm); }
    assert (b * b) * n2 == y * y by { assert (b * b) * n2 == (b * norm) * (b * norm); }
    assert (c * c) * n2 == z * z by { assert (c * c) * n2 == (c * norm) * (c * norm); }
    assert (d * d) * n2 == w * w by { assert (d * d) * n2 == (d * norm) * (d * norm); }
    var s := a * a + b * b + c * c + d * d;
    assert s * n2 == (a * a) * n2 + (b * b) * n2 + (c * c) * n2 + (d * d) * n2;
    Square(norm);
    assert (s - 1.0) * n2 == 0.0;
  }

  /** The norm of k*q is |k| times the norm of q, written with a == |k|. */
  lemma ScaledNorm(m: MathLib, q: Quaternion, k: real, a: real)
    requires Lawful(m) && a >= 0.0 && a * a == k * k
    ensures m.sqrt(NormSquared(QuaternionScale(q, k))) == a * m.sqrt(NormSquared(q))
  {
    SumOfSquares(q);
    ScaledNormSquared(q, k);
    SqrtOfScaled(m, NormSquared(q), k, a);
  }

  lemma ScaledNormSquared(q: Quaternion, k: real)
    ensures NormSquared(QuaternionScale(q, k)) == (k * k) * NormSquared(q)
  {
  }

  lemma SqrtOfScaled(m: MathLib, v: real, k: real, a: real)
    requires Lawful(m) && v >= 0.0 && a >= 0.0 && a * a == k * k
    ensures m.sqrt((k * k) * v) == a * m.sqrt(v)
  {
    Square(k);
    var s, t := m.sqrt((k * k) * v), m.sqrt(v);
    assert s >= 0.0 && s * s == (k * k) * v;
    assert t >= 0.0 && t * t == v;
    assert (a * t) * (a * t) == (a * a) * (t * t);
    NonNegativeProduct(a, t);
    EqualSquares(s, a * t);
  }

  lemma NonNegativeProduct(a: real, t: real)
    requires a >= 0.0 && t >= 0.0
    ensures a * t >= 0.0
  {
  }

  lemma ScaledComponents(q: Quaternion, k: real, s: real, t: real)
    requires k > 0.0 && s > 0.0 && t == k * s
    ensures var sq := QuaternionScale(q, k);
      sq.x / t == q.x / s && sq.y / t == q.y / s && sq.z / t == q.z / s && sq.w / t == q.w / s
  {
    CancelFactor(q.x, k, s);
    CancelFactor(q.y, k, s);
    CancelFactor(q.z, k, s);
    CancelFactor(q.w, k, s);
  }

  lemma NegScaledComponents(q: Quaternion, k: real, s: real, t: real)
    requires k < 0.0 && s > 0.0 && t == -k * s
    ensures var sq := QuaternionScale(q, k);
      sq.x / t == (q.x / s) * -1.0 && sq.y / t == (q.y / s) * -1.0 &&
      sq.z / t == (q.z / s) * -1.0 && sq.w / t == (q.w / s) * -1.0
  {
    CancelNegFactor(q.x, k, s);
    CancelNegFactor(q.y, k, s);
    CancelNegFactor(q.z, k, s);
    CancelNegFactor(q.w, k, s);
  }

  lemma CancelFactor(x: real, k: real, s: real)
    requires k != 0.0 && s != 0.0
    ensures (x * k) / (k * s) == x / s
  {
  }

  lemma CancelNegFactor(x: real, k: real, s: real)
    requires k != 0.0 && s != 0.0
    ensures (x * k) / (-k * s) == (x / s) * -1.0
  {
  }

  // ---------------------------------------------------------------- Euler angles and rotation by a quaternion

  /** Zero Euler angles give the identity quaternion. */
  lemma FromEulerZero(m: MathLib)
    requires Lawful(m)
    ensures QuaternionFromEuler(m, Vector3Zero()) == IdentityQuaternion
  {
    assert 0.0 * 0.5 == 0.0;
  }

  /** For every angle QuaternionFromEuler gives a unit quaternion. */
  lemma FromEulerUnit(m: MathLib, angle: Vector3)
    requires Lawful(m)
    ensures NormSquared(QuaternionFromEuler(m, angle)) == 1.0
  {
    Pythagoras(m, angle.x * 0.5);
    Pythagoras(m, angle.y * 0.5);
    Pythagoras(m, angle.z * 0.5);
    HalfAngleUnit(m, angle);
  }

  lemma HalfAngleUnit(m: MathLib, angle: Vector3)
    requires m.sin(angle.x * 0.5) * m.sin(angle.x * 0.5) + m.cos(angle.x * 0.5) * m.cos(angle.x * 0.5) == 1.0
    requires m.sin(angle.y * 0.5) * m.sin(angle.y * 0.5) + m.cos(angle.y * 0.5) * m.cos(angle.y * 0.5) == 1.0
    requires m.sin(angle.z * 0.5) * m.sin(angle.z * 0.5) + m.cos(angle.z * 0.5) * m.cos(angle.z * 0.5) == 1.0
    ensures NormSquared(QuaternionFromEuler(m, angle)) == 1.0
  {
    var q := QuaternionFromEuler(m, angle);
    var sp, cp := m.sin(angle.x * 0.5), m.cos(angle.x * 0.5);
    var sy, cy := m.sin(angle.y * 0.5), m.cos(angle.y * 0.5);
    var sr, cr := m.sin(angle.z * 0.5), m.cos(angle.z * 0.5);
    FromEulerEntries(m, angle);
    var x, y, z, w := q.x, q.y, q.z, q.w;
    HalfAngleNorm(x, y, z, w, sp, cp, sy, cy, sr, cr);
  }

  /** The components of QuaternionFromEuler over the half-angle sines and cosines. */
  lemma FromEulerEntries(m: MathLib, angle: Vector3)
    ensures var q := QuaternionFromEuler(m, angle);
      var sp, cp := m.sin(angle.x * 0.5), m.cos(angle.x * 0.5);
      var sy, cy := m.sin(angle.y * 0.5), m.cos(angle.y * 0.5);
      var sr, cr := m.sin(angle.z * 0.5), m.cos(angle.z * 0.5);
      && q.x == cy * sp * cr + sy * cp * sr && q.y == sy * cp * cr - cy * sp * sr
      && q.z == cy * cp * sr - sy * sp * cr && q.w == cy * cp * cr + sy * sp * sr
  {
  }

  /** The components of QuaternionFromEuler, written over the half-angle sines and
      cosines, have squares summing to 1. */
  lemma HalfAngleNorm(x: real, y: real, z: real, w: real,
                      sp: real, cp: real, sy: real, cy: real, sr: real, cr: real)
    requires sp * sp + cp * cp == 1.0 && sy * sy + cy * cy == 1.0 && sr * sr + cr * cr == 1.0
    requires x == cy * sp * cr + sy * cp * sr && y == sy * cp * cr - cy * sp * sr
    requires z == cy * cp * sr - sy * sp * cr && w == cy * cp * cr + sy * sp * sr
    ensures x * x + y * y + z * z + w * w == 1.0
  {
    var s, t, u, v := cy * sp, sy * cp, cy * cp, sy * sp;
    HalfAnglePair(x, y, s, t, sr, cr);
    HalfAnglePair(w, z, v, u, cr, sr);
    assert s * s + t * t + u * u + v * v == (cy * cy + sy * sy) * (sp * sp + cp * cp);
  }

  /** (a, b) = (s*c + t*r, t*c - s*r) for a unit (r, c) has the length of (s, t). */
  lemma HalfAnglePair(a: real, b: real, s: real, t: real, r: real, c: real)
    requires r * r + c * c == 1.0
    requires a == s * c + t * r && b == t * c - s * r
    ensures a * a + b * b == s * s + t * t
  {
    assert a * a + b * b == (s * s + t * t) * (r * r + c * c);
  }

  /** The conjugate of q: the vector part negated. */
  function Conjugate(q: Quaternion): Quaternion
  {
    Quaternion(-q.x, -q.y, -q.z, q.w)
  }

  /** Vector3RotateByQuaternion is the vector part of the sandwich product q * v * conj(q). */
  lemma RotateIsSandwich(v: Vector3, q: Quaternion)
    ensures var p := QuaternionMultiply(QuaternionMultiply(q, Quaternion(v.x, v.y, v.z, 0.0)), Conjugate(q));
      Vector3RotateByQuaternion(v, q) == Vector3(p.x, p.y, p.z)
  {
  }

  /** For a unit quaternion the conjugate is the inverse, so the rotation is q * v * q^-1. */
  lemma RotateByUnit(v: Vector3, q: Quaternion)
    requires NormSquared(q) == 1.0
    ensures var p := QuaternionMultiply(QuaternionMultiply(q, Quaternion(v.x, v.y, v.z, 0.0)), QuaternionInvert(q));
      Vector3RotateByQuaternion(v, q) == Vector3(p.x, p.y, p.z)
  {
    assert QuaternionInvert(q) == Conjugate(q);
    RotateIsSandwich(v, q);
  }

  /** The identity quaternion leaves every vector where it is. */
  lemma RotateByIdentity(v: Vector3)
    ensures Vector3RotateByQuaternion(v, IdentityQuaternion) == v
  {
  }

  // ---------------------------------------------------------------- distance

  lemma DistanceSymmetric(m: MathLib, a: Vector3, b: Vector3)
    ensures Vector3Distance(m, a, b) == Vector3Distance(m, b, a)
  {
    NegatedSquare(b.x - a.x, a.x - b.x);
    NegatedSquare(b.y - a.y, a.y - b.y);
    NegatedSquare(b.z - a.z, a.z - b.z);
  }

  lemma NegatedSquare(d: real, e: real)
    requires e == -d
    ensures d * d == e * e
  {
  }

  /** A point is at distance zero from itself. */
  lemma DistanceSelf(m: MathLib, a: Vector3)
    requires Lawful(m)
    ensures Vector3Distance(m, a, a) == 0.0
  {
    var s := m.sqrt(0.0);
    assert s >= 0.0 && s * s == 0.0;
    Square(s);
  }
}
