/** How the viewer places a model in the world: the model matrix built by
    DrawModelPro and DrawModelWiresPro, and the three axis lines of DrawTransform. */
module Transform {
  import opened LinAlg
  import opened KernelLaws

  /** The model matrix Translate(pos) * (RotateV(rot) * Scale(scl)). */
  function WorldMatrix(m: MathLib, pos: Vector3, rot: Vector3, scl: Vector3): (r: Matrix)
    ensures IsAffine(r)
  {
    MatrixMultiply(MatrixTranslateV(pos), MatrixMultiply(MatrixRotateV(m, rot), MatrixScaleV(scl)))
  }

  /** A point of the model is scaled, then rotated, then moved by pos. */
  lemma WorldMatrixApplied(m: MathLib, v: Vector3, pos: Vector3, rot: Vector3, scl: Vector3)
    ensures Vector3Transform(v, WorldMatrix(m, pos, rot, scl))
         == Vector3Add(Vector3Transform(Vector3Multiply(v, scl), MatrixRotateV(m, rot)), pos)
  {
    var t, rr, s := MatrixTranslateV(pos), MatrixRotateV(m, rot), MatrixScaleV(scl);
    TransformMultiply(v, t, MatrixMultiply(rr, s));
    TransformMultiply(v, rr, s);
  }

  /** The model's origin is drawn exactly at pos, whatever the rotation and scale. */
  lemma WorldOrigin(m: MathLib, pos: Vector3, rot: Vector3, scl: Vector3)
    ensures Vector3Transform(Vector3Zero(), WorldMatrix(m, pos, rot, scl)) == pos
  {
    WorldMatrixApplied(m, Vector3Zero(), pos, rot, scl);
    assert Vector3Multiply(Vector3Zero(), scl) == Vector3Zero();
  }

  /** With no rotation and unit scale the model is only moved by pos. */
  lemma WorldTranslationOnly(m: MathLib, v: Vector3, pos: Vector3)
    requires Lawful(m)
    ensures Vector3Transform(v, WorldMatrix(m, pos, Vector3Zero(), Vector3One())) == Vector3Add(v, pos)
  {
    RotateVZero(m);
    WorldIdentityRotation(m, v, pos);
  }

  lemma WorldIdentityRotation(m: MathLib, v: Vector3, pos: Vector3)
    requires MatrixRotateV(m, Vector3Zero()) == IdentityMatrix
    ensures Vector3Transform(v, WorldMatrix(m, pos, Vector3Zero(), Vector3One())) == Vector3Add(v, pos)
  {
    WorldMatrixApplied(m, v, pos, Vector3Zero(), Vector3One());
    assert Vector3Multiply(v, Vector3One()) == v;
    assert Vector3Transform(v, IdentityMatrix) == v;
  }

  /** The end points of DrawTransform's three axis lines (red, green, blue). */
  datatype AxisLines = AxisLines(xEnd: Vector3, yEnd: Vector3, zEnd: Vector3)

  /** The axis length: a tenth of the mean scale. */
  function AxisLength(scl: Vector3): real
  {
    (scl.x + scl.y + scl.z) / 3.0 * 0.1
  }

  /** Each line runs from pos along one column of the rotation matrix. */
  function AxisEndpoints(m: MathLib, pos: Vector3, rot: Vector3, scl: Vector3): AxisLines
  {
    var rotMatrix := MatrixRotateV(m, rot);
    var fScl := AxisLength(scl);
    AxisLines(Vector3Add(pos, Vector3(fScl * rotMatrix.m0, fScl * rotMatrix.m1, fScl * rotMatrix.m2)),
              Vector3Add(pos, Vector3(fScl * rotMatrix.m4, fScl * rotMatrix.m5, fScl * rotMatrix.m6)),
              Vector3Add(pos, Vector3(fScl * rotMatrix.m8, fScl * rotMatrix.m9, fScl * rotMatrix.m10)))
  }

  /** Each axis line ends at pos plus the rotated unit axis, scaled by the axis length. */
  lemma AxisEndpointsRotateUnitAxes(m: MathLib, pos: Vector3, rot: Vector3, scl: Vector3)
    ensures var r := MatrixRotateV(m, rot);
            var lines := AxisEndpoints(m, pos, rot, scl);
      && lines.xEnd == Vector3Add(pos, Vector3Scale(Vector3Transform(Vector3(1.0, 0.0, 0.0), r), AxisLength(scl)))
      && lines.yEnd == Vector3Add(pos, Vector3Scale(Vector3Transform(Vector3(0.0, 1.0, 0.0), r), AxisLength(scl)))
      && lines.zEnd == Vector3Add(pos, Vector3Scale(Vector3Transform(Vector3(0.0, 0.0, 1.0), r), AxisLength(scl)))
  {
  }

  /** Without rotation the three lines are parallel to the world axes. */
  lemma AxisEndpointsUnrotated(m: MathLib, pos: Vector3, scl: Vector3)
    requires Lawful(m)
    ensures var k := AxisLength(scl);
            var lines := AxisEndpoints(m, pos, Vector3Zero(), scl);
      && lines.xEnd == Vector3(pos.x + k, pos.y, pos.z)
      && lines.yEnd == Vector3(pos.x, pos.y + k, pos.z)
      && lines.zEnd == Vector3(pos.x, pos.y, pos.z + k)
  {
    RotateVZero(m);
  }
}
