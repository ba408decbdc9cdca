/** The viewer's linear-algebra kernel: 3-vectors, quaternions and 4x4 matrices
    over the reals, with the libm functions it calls passed in as a parameter. */
module LinAlg {

  datatype Vector3 = Vector3(x: real, y: real, z: real)

  datatype Quaternion = Quaternion(x: real, y: real, z: real, w: real)

  /** A 4x4 matrix stored column-major. The fields are declared in the order of
      raylib's struct (first row m0 m4 m8 m12, ...), so a positional constructor
      reads like the C initialisers: Matrix(1,0,0,tx, ...) puts tx in m12. */
  datatype Matrix = Matrix(m0: real, m4: real, m8: real, m12: real,
                           m1: real, m5: real, m9: real, m13: real,
                           m2: real, m6: real, m10: real, m14: real,
                           m3: real, m7: real, m11: real, m15: real)

  /** sinf, cosf and sqrt/sqrtf of the C library. */
  datatype MathLib = MathLib(sin: real -> real, cos: real -> real, sqrt: real -> real)

  /** The laws of the real sine, cosine and square root that the proofs rely on. */
  ghost predicate Lawful(m: MathLib)
  {
    (forall a :: m.sin(a) * m.sin(a) + m.cos(a) * m.cos(a) == 1.0) &&
    (forall a, b :: a == -b ==> m.sin(a) == -m.sin(b)) &&
    (forall a, b :: a == -b ==> m.cos(a) == m.cos(b)) &&
    m.sin(0.0) == 0.0 && m.cos(0.0) == 1.0 &&
    (forall v :: v >= 0.0 ==> m.sqrt(v) >= 0.0 && m.sqrt(v) * m.sqrt(v) == v)
  }

  /** DEG2RAD, that is PI/180 with raylib's PI literal. */
  const Deg2Rad: real := 3.14159265358979323846 / 180.0

  const IdentityMatrix: Matrix := Matrix(1.0, 0.0, 0.0, 0.0,
                                         0.0, 1.0, 0.0, 0.0,
                                         0.0, 0.0, 1.0, 0.0,
                                         0.0, 0.0, 0.0, 1.0)

  const IdentityQuaternion: Quaternion := Quaternion(0.0, 0.0, 0.0, 1.0)

  /** The bottom row is (0, 0, 0, 1): the matrix is an affine transform. */
  predicate IsAffine(a: Matrix)
  {
    a.m3 == 0.0 && a.m7 == 0.0 && a.m11 == 0.0 && a.m15 == 1.0
  }

  /** The three columns (m0, m1, m2), (m4, m5, m6) and (m8, m9, m10) have unit
      length and are pairwise orthogonal: the upper 3x3 block is a rotation or a
      reflection. */
  predicate Orthonormal(a: Matrix)
  {
    && a.m0 * a.m0 + a.m1 * a.m1 + a.m2 * a.m2 == 1.0
    && a.m4 * a.m4 + a.m5 * a.m5 + a.m6 * a.m6 == 1.0
    && a.m8 * a.m8 + a.m9 * a.m9 + a.m10 * a.m10 == 1.0
    && a.m0 * a.m4 + a.m1 * a.m5 + a.m2 * a.m6 == 0.0
    && a.m0 * a.m8 + a.m1 * a.m9 + a.m2 * a.m10 == 0.0
    && a.m4 * a.m8 + a.m5 * a.m9 + a.m6 * a.m10 == 0.0
  }

  // ---------------------------------------------------------------- vectors

  function Vector3Zero(): Vector3 { Vector3(0.0, 0.0, 0.0) }

  function Vector3One(): Vector3 { Vector3(1.0, 1.0, 1.0) }

  function Vector3Add(a: Vector3, b: Vector3): Vector3
  {
    Vector3(a.x + b.x, a.y + b.y, a.z + b.z)
  }

  function Vector3Subtract(a: Vector3, b: Vector3): Vector3
  {
    Vector3(a.x - b.x, a.y - b.y, a.z - b.z)
  }

  function Vector3Multiply(a: Vector3, b: Vector3): Vector3
  {
    Vector3(a.x * b.x, a.y * b.y, a.z * b.z)
  }

  function Vector3Scale(v: Vector3, scalar: real): Vector3
  {
    Vector3(v.x * scalar, v.y * scalar, v.z * scalar)
  }

  function Vector3DotProduct(a: Vector3, b: Vector3): real
  {
    a.x * b.x + a.y * b.y + a.z * b.z
  }

  function Vector3Distance(m: MathLib, a: Vector3, b: Vector3): real
  {
    var dx := b.x - a.x;
    var dy := b.y - a.y;
    var dz := b.z - a.z;
    m.sqrt(dx * dx + dy * dy + dz * dz)
  }

  function Vector3RotateByQuaternion(v: Vector3, q: Quaternion): Vector3
  {
    var qConjugate := Quaternion(-q.x, -q.y, -q.z, q.w);
    var vQuat := Quaternion(v.x, v.y, v.z, 0.0);
    var qv := Quaternion(q.w * vQuat.x + q.y * vQuat.z - q.z * vQuat.y,
                         q.w * vQuat.y + q.z * vQuat.x - q.x * vQuat.z,
                         q.w * vQuat.z + q.x * vQuat.y - q.y * vQuat.x,
                         -q.x * vQuat.x - q.y * vQuat.y - q.z * vQuat.z);
    var resultQuat := Quaternion(
      qv.w * qConjugate.x + qv.x * qConjugate.w + qv.y * qConjugate.z - qv.z * qConjugate.y,
      qv.w * qConjugate.y - qv.x * qConjugate.z + qv.y * qConjugate.w + qv.z * qConjugate.x,
      qv.w * qConjugate.z + qv.x * qConjugate.y - qv.y * qConjugate.x + qv.z * qConjugate.w,
      qv.w * qConjugate.w - qv.x * qConjugate.x - qv.y * qConjugate.y - qv.z * qConjugate.z);
    Vector3(resultQuat.x, resultQuat.y, resultQuat.z)
  }

  /** Applies the upper 3x4 block of mat to the point v (the bottom row is ignored).
      The identity matrix leaves every point where it is. */
  function Vector3Transform(v: Vector3, mat: Matrix): (r: Vector3)
    ensures mat == IdentityMatrix ==> r == v
  {
    Vector3(v.x * mat.m0 + v.y * mat.m4 + v.z * mat.m8 + mat.m12,
            v.x * mat.m1 + v.y * mat.m5 + v.z * mat.m9 + mat.m13,
            v.x * mat.m2 + v.y * mat.m6 + v.z * mat.m10 + mat.m14)
  }

  // ---------------------------------------------------------------- matrices

  function MatrixMultiply(a: Matrix, b: Matrix): (r: Matrix)
    ensures IsAffine(a) && IsAffine(b) ==> IsAffine(r)
  {
    Matrix(
      m0 := a.m0 * b.m0 + a.m4 * b.m1 + a.m8 * b.m2 + a.m12 * b.m3,
      m1 := a.m1 * b.m0 + a.m5 * b.m1 + a.m9 * b.m2 + a.m13 * b.m3,
      m2 := a.m2 * b.m0 + a.m6 * b.m1 + a.m10 * b.m2 + a.m14 * b.m3,
      m3 := a.m3 * b.m0 + a.m7 * b.m1 + a.m11 * b.m2 + a.m15 * b.m3,

      m4 := a.m0 * b.m4 + a.m4 * b.m5 + a.m8 * b.m6 + a.m12 * b.m7,
      m5 := a.m1 * b.m4 + a.m5 * b.m5 + a.m9 * b.m6 + a.m13 * b.m7,
      m6 := a.m2 * b.m4 + a.m6 * b.m5 + a.m10 * b.m6 + a.m14 * b.m7,
      m7 := a.m3 * b.m4 + a.m7 * b.m5 + a.m11 * b.m6 + a.m15 * b.m7,

      m8 := a.m0 * b.m8 + a.m4 * b.m9 + a.m8 * b.m10 + a.m12 * b.m11,
      m9 := a.m1 * b.m8 + a.m5 * b.m9 + a.m9 * b.m10 + a.m13 * b.m11,
      m10 := a.m2 * b.m8 + a.m6 * b.m9 + a.m10 * b.m10 + a.m14 * b.m11,
      m11 := a.m3 * b.m8 + a.m7 * b.m9 + a.m11 * b.m10 + a.m15 * b.m11,

      m12 := a.m0 * b.m12 + a.m4 * b.m13 + a.m8 * b.m14 + a.m12 * b.m15,
      m13 := a.m1 * b.m12 + a.m5 * b.m13 + a.m9 * b.m14 + a.m13 * b.m15,
      m14 := a.m2 * b.m12 + a.m6 * b.m13 + a.m10 * b.m14 + a.m14 * b.m15,
      m15 := a.m3 * b.m12 + a.m7 * b.m13 + a.m11 * b.m14 + a.m15 * b.m15)
  }

  /** The translation by v: every point is moved by exactly v. */
  function MatrixTranslateV(v: Vector3): (r: Matrix)
    ensures IsAffine(r)
    ensures forall p {:trigger Vector3Transform(p, r)} :: Vector3Transform(p, r) == Vector3Add(p, v)
  {
    Matrix(1.0, 0.0, 0.0, v.x,
           0.0, 1.0, 0.0, v.y,
           0.0, 0.0, 1.0, v.z,
           0.0, 0.0, 0.0, 1.0)
  }

  /** The scaling by v: every point is multiplied component-wise by v. */
  function MatrixScaleV(v: Vector3): (r: Matrix)
    ensures IsAffine(r)
    ensures forall p {:trigger Vector3Transform(p, r)} :: Vector3Transform(p, r) == Vector3Multiply(p, v)
  {
    Matrix(v.x, 0.0, 0.0, 0.0,
           0.0, v.y, 0.0, 0.0,
           0.0, 0.0, v.z, 0.0,
           0.0, 0.0, 0.0, 1.0)
  }

  /** Rotation from Euler angles in radians, composed from the NEGATED angles
      about Z, then Y, then X, as raylib does. A pure rotation: no translation. */
  function MatrixRotateXYZ(m: MathLib, angle: Vector3): (r: Matrix)
    ensures IsAffine(r) && r.m12 == 0.0 && r.m13 == 0.0 && r.m14 == 0.0
  {
    var cosz := m.cos(-angle.z);
    var sinz := m.sin(-angle.z);
    var cosy := m.cos(-angle.y);
    var siny := m.sin(-angle.y);
    var cosx := m.cos(-angle.x);
    var sinx := m.sin(-angle.x);
    Matrix(
      m0 := cosz * cosy,
      m1 := (cosz * siny * sinx) - (sinz * cosx),
      m2 := (cosz * siny * cosx) + (sinz * sinx),
      m3 := 0.0,

      m4 := sinz * cosy,
      m5 := (sinz * siny * sinx) + (cosz * cosx),
      m6 := (sinz * siny * cosx) - (cosz * sinx),
      m7 := 0.0,

      m8 := -siny,
      m9 := cosy * sinx,
      m10 := cosy * cosx,
      m11 := 0.0,

      m12 := 0.0,
      m13 := 0.0,
      m14 := 0.0,
      m15 := 1.0)
  }

  /** MatrixRotateXYZ of Euler angles given in degrees. */
  function MatrixRotateV(m: MathLib, v: Vector3): (r: Matrix)
    ensures IsAffine(r) && r.m12 == 0.0 && r.m13 == 0.0 && r.m14 == 0.0
  {
    MatrixRotateXYZ(m, Vector3(v.x * Deg2Rad, v.y * Deg2Rad, v.z * Deg2Rad))
  }

  /** The squared norm that QuaternionInvert and QuaternionToMatrix compute. */
  function NormSquared(q: Quaternion): real
  {
    q.x * q.x + q.y * q.y + q.z * q.z + q.w * q.w
  }

  /** The rotation matrix of a quaternion assumed normalised, built from the nine
      component products. */
  function UnitQuaternionMatrix(n: Quaternion): (r: Matrix)
    ensures IsAffine(r) && r.m12 == 0.0 && r.m13 == 0.0 && r.m14 == 0.0
  {
    var xx := n.x * n.x;
    var yy := n.y * n.y;
    var zz := n.z * n.z;
    var xy := n.x * n.y;
    var xz := n.x * n.z;
    var yz := n.y * n.z;
    var wx := n.w * n.x;
    var wy := n.w * n.y;
    var wz := n.w * n.z;
    Matrix(
      m0 := 1.0 - 2.0 * (yy + zz),
      m1 := 2.0 * (xy - wz),
      m2 := 2.0 * (xz + wy),
      m3 := 0.0,

      m4 := 2.0 * (xy + wz),
      m5 := 1.0 - 2.0 * (xx + zz),
      m6 := 2.0 * (yz - wx),
      m7 := 0.0,

      m8 := 2.0 * (xz - wy),
      m9 := 2.0 * (yz + wx),
      m10 := 1.0 - 2.0 * (xx + yy),
      m11 := 0.0,

      m12 := 0.0,
      m13 := 0.0,
      m14 := 0.0,
      m15 := 1.0)
  }

  /** q divided by its norm when the norm is positive, q itself otherwise. */
  function Normalise(m: MathLib, q: Quaternion): Quaternion
  {
    var norm := m.sqrt(q.x * q.x + q.y * q.y + q.z * q.z + q.w * q.w);
    if norm > 0.0 then Quaternion(q.x / norm, q.y / norm, q.z / norm, q.w / norm) else q
  }

  /** Rotation matrix of q, normalising q first when its norm is positive.
      The result has no translation and an affine bottom row. */
  function QuaternionToMatrix(m: MathLib, q: Quaternion): (r: Matrix)
    ensures IsAffine(r) && r.m12 == 0.0 && r.m13 == 0.0 && r.m14 == 0.0
  {
    UnitQuaternionMatrix(Normalise(m, q))
  }

  // ---------------------------------------------------------------- quaternions

  /** Hamilton product a*b, w last. The identity quaternion is neutral on both sides. */
  function QuaternionMultiply(a: Quaternion, b: Quaternion): (r: Quaternion)
    ensures b == IdentityQuaternion ==> r == a
    ensures a == IdentityQuaternion ==> r == b
  {
    Quaternion(a.w * b.x + a.x * b.w + a.y * b.z - a.z * b.y,
               a.w * b.y - a.x * b.z + a.y * b.w + a.z * b.x,
               a.w * b.z + a.x * b.y - a.y * b.x + a.z * b.w,
               a.w * b.w - a.x * b.x - a.y * b.y - a.z * b.z)
  }

  /** Conjugate over squared norm; the identity quaternion when the norm is not positive. */
  function QuaternionInvert(q: Quaternion): (r: Quaternion)
    ensures NormSquared(q) <= 0.0 ==> r == IdentityQuaternion
    ensures NormSquared(q) > 0.0 ==> NormSquared(r) * NormSquared(q) == 1.0
  {
    var normSquared := q.x * q.x + q.y * q.y + q.z * q.z + q.w * q.w;
    if normSquared > 0.0 then
      var invNorm := 1.0 / normSquared;
      var r := Quaternion(-q.x * invNorm, -q.y * invNorm, -q.z * invNorm, q.w * invNorm);
      InverseNorm(q, invNorm);
      r
    else
      IdentityQuaternion
  }

  /** Scaling the conjugate of q by the reciprocal k of its squared norm gives a
      quaternion whose squared norm is k. */
  lemma InverseNorm(q: Quaternion, k: real)
    requires NormSquared(q) > 0.0 && k == 1.0 / NormSquared(q)
    ensures NormSquared(Quaternion(-q.x * k, -q.y * k, -q.z * k, q.w * k)) * NormSquared(q) == 1.0
  {
    var ns := NormSquared(q);
    var r := Quaternion(-q.x * k, -q.y * k, -q.z * k, q.w * k);
    calc {
      NormSquared(r);
      (q.x * k) * (q.x * k) + (q.y * k) * (q.y * k) + (q.z * k) * (q.z * k) + (q.w * k) * (q.w * k);
      { assert (q.x * k) * (q.x * k) == (q.x * q.x) * (k * k); assert (q.y * k) * (q.y * k) == (q.y * q.y) * (k * k);
        assert (q.z * k) * (q.z * k) == (q.z * q.z) * (k * k); assert (q.w * k) * (q.w * k) == (q.w * q.w) * (k * k); }
      ns * (k * k);
    }
    assert ns * k == 1.0;
    assert ns * (k * k) * ns == (ns * k) * (ns * k);
  }

  /** Quaternion of Euler angles (pitch = x, yaw = y, roll = z) in radians. */
  function QuaternionFromEuler(m: MathLib, angle: Vector3): Quaternion
  {
    var halfPitch := angle.x * 0.5;
    var halfYaw := angle.y * 0.5;
    var halfRoll := angle.z * 0.5;
    var sinPitch := m.sin(halfPitch);
    var cosPitch := m.cos(halfPitch);
    var sinYaw := m.sin(halfYaw);
    var cosYaw := m.cos(halfYaw);
    var sinRoll := m.sin(halfRoll);
    var cosRoll := m.cos(halfRoll);
    Quaternion(cosYaw * sinPitch * cosRoll + sinYaw * cosPitch * sinRoll,
               sinYaw * cosPitch * cosRoll - cosYaw * sinPitch * sinRoll,
               cosYaw * cosPitch * sinRoll - sinYaw * sinPitch * cosRoll,
               cosYaw * cosPitch * cosRoll + sinYaw * sinPitch * sinRoll)
  }

}
