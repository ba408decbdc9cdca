/** The translation gizmo: three handles, one per axis, that the user drags with
    the left mouse button to move the model. Each frame the main loop runs the hit
    test and drag rule for the X, Y and Z handle in turn, and DrawGizmo then either
    moves the model to follow the handles or puts the handles back around the model. */
module Gizmo {
  import opened LinAlg
  import opened KernelLaws

  /** gizmoRad: how close the mouse ray must pass to a handle. */
  const GizmoRad: real := 0.5

  /** gizmoSize = gizmoRad * 10 - 1: the distance from the model to each handle. */
  const GizmoSize: real := GizmoRad * 10.0 - 1.0

  /** How far one frame of dragging moves the handles. */
  const DragStep: real := 0.1

  /** The mouse ray, from the camera through the cursor. */
  datatype Ray = Ray(position: Vector3, direction: Vector3)

  /** What one frame reads from outside: the mouse ray, the cursor position in
      pixels, whether the left button is down, and the camera position. */
  datatype FrameInput = FrameInput(ray: Ray, mouseX: int, mouseY: int, leftDown: bool, cameraPos: Vector3)

  /** The gizmo variables of the main loop. */
  datatype GizmoState = GizmoState(gizmoX: Vector3, gizmoY: Vector3, gizmoZ: Vector3,
                                   colorX: bool, colorY: bool, colorZ: bool,
                                   isGizmoMod: bool, lastX: int, lastY: int, modelPos: Vector3)

  // ---------------------------------------------------------------- hit test

  /** The ray parameter of the point closest to the handle, clamped so that the
      point never lies behind the ray's origin. */
  function ClosestParameter(ray: Ray, handle: Vector3): (t: real)
    ensures t >= 0.0
  {
    var projection := Vector3DotProduct(ray.direction, Vector3Subtract(handle, ray.position));
    if projection < 0.0 then 0.0 else projection
  }

  function ClosestPoint(ray: Ray, handle: Vector3): Vector3
  {
    Vector3Add(ray.position, Vector3Scale(ray.direction, ClosestParameter(ray, handle)))
  }

  /** The square of Vector3Distance(a, b), without the square root. */
  function DistanceSquared(a: Vector3, b: Vector3): real
  {
    var dx := b.x - a.x;
    var dy := b.y - a.y;
    var dz := b.z - a.z;
    dx * dx + dy * dy + dz * dz
  }

  /** The ray passes within gizmoRad of the handle. */
  predicate Touches(ray: Ray, handle: Vector3)
  {
    DistanceSquared(ClosestPoint(ray, handle), handle) <= GizmoRad * GizmoRad
  }

  /** Comparing squared distances decides the same as the source's test
      Vector3Distance(closest, handle) <= gizmoRad. */
  lemma TouchesIffWithinRadius(m: MathLib, ray: Ray, handle: Vector3)
    requires Lawful(m)
    ensures Touches(ray, handle) <==> Vector3Distance(m, ClosestPoint(ray, handle), handle) <= GizmoRad
  {
    var c := ClosestPoint(ray, handle);
    var s := DistanceSquared(c, handle);
    NonNegativeDistance(c, handle);
    var d := Vector3Distance(m, c, handle);
    assert d == m.sqrt(s);
    RootOfSquare(m, s, d);
    if d < GizmoRad {
      LessSquare(d, GizmoRad);
    } else if d > GizmoRad {
      LessSquare(GizmoRad, d);
    }
  }

  lemma NonNegativeDistance(a: Vector3, b: Vector3)
    ensures DistanceSquared(a, b) >= 0.0
  {
    Square(b.x - a.x);
    Square(b.y - a.y);
    Square(b.z - a.z);
  }

  lemma RootOfSquare(m: MathLib, s: real, d: real)
    requires Lawful(m) && s >= 0.0 && d == m.sqrt(s)
    ensures d >= 0.0 && d * d == s
  {
  }

  /** A handle lying on a ray of unit direction, at a non-negative parameter, is touched. */
  lemma HandleOnRayTouched(ray: Ray, t: real)
    requires Vector3DotProduct(ray.direction, ray.direction) == 1.0 && t >= 0.0
    ensures Touches(ray, Vector3Add(ray.position, Vector3Scale(ray.direction, t)))
  {
    var handle := Vector3Add(ray.position, Vector3Scale(ray.direction, t));
    assert Vector3Subtract(handle, ray.position) == Vector3Scale(ray.direction, t);
    DotScaled(ray.direction, t);
    assert ClosestPoint(ray, handle) == handle;
  }

  lemma DotScaled(v: Vector3, t: real)
    ensures Vector3DotProduct(v, Vector3Scale(v, t)) == t * Vector3DotProduct(v, v)
  {
  }

  // ---------------------------------------------------------------- drag rule

  /** The step along X while the X handle is held. Which way the mouse moves the
      handle depends on whether the camera looks from larger or smaller z. */
  function XStep(cameraFartherZ: bool, currentX: int, lastX: int): (d: real)
    ensures d == 0.0 <==> currentX == lastX
    ensures cameraFartherZ ==> (d > 0.0 <==> currentX > lastX)
    ensures !cameraFartherZ ==> (d > 0.0 <==> currentX < lastX)
  {
    if cameraFartherZ then
      (if currentX < lastX then -DragStep else if currentX > lastX then DragStep else 0.0)
    else
      (if currentX < lastX then DragStep else if currentX > lastX then -DragStep else 0.0)
  }

  /** The step along Y while the Y handle is held: moving the mouse up (to a
      smaller pixel row) raises the handle. */
  function YStep(currentY: int, lastY: int): (d: real)
    ensures d > 0.0 <==> currentY < lastY
    ensures d < 0.0 <==> currentY > lastY
  {
    if currentY < lastY then DragStep else if currentY > lastY then -DragStep else 0.0
  }

  /** The step along Z while the Z handle is held. A horizontal mouse move is
      used when there is one; only otherwise does a vertical move count. */
  function ZStep(cameraFartherX: bool, currentX: int, lastX: int, currentY: int, lastY: int): (d: real)
    ensures d == 0.0 <==> currentX == lastX && currentY == lastY
  {
    if cameraFartherX then
      (if currentX < lastX then DragStep else if currentX > lastX then -DragStep
       else if currentY < lastY then -DragStep else if currentY > lastY then DragStep else 0.0)
    else
      (if currentX < lastX then -DragStep else if currentX > lastX then DragStep
       else if currentY < lastY then DragStep else if currentY > lastY then -DragStep else 0.0)
  }

  /** Seen from the other side, the X and Z rules move the handle the other way. */
  lemma StepsFlipWithCameraSide(currentX: int, lastX: int, currentY: int, lastY: int)
    ensures XStep(false, currentX, lastX) == -XStep(true, currentX, lastX)
    ensures ZStep(false, currentX, lastX, currentY, lastY) == -ZStep(true, currentX, lastX, currentY, lastY)
  {
  }

  /** On Z a horizontal move decides alone: the vertical move is then ignored. */
  lemma ZHorizontalPrecedence(cameraFartherX: bool, currentX: int, lastX: int, currentY: int, lastY: int, otherY: int)
    requires currentX != lastX
    ensures ZStep(cameraFartherX, currentX, lastX, currentY, lastY) == ZStep(cameraFartherX, currentX, lastX, otherY, lastY)
    ensures ZStep(cameraFartherX, currentX, lastX, currentY, lastY) == (if cameraFartherX then -1.0 else 1.0) * XStep(true, currentX, lastX)
  {
  }

  function ShiftX(v: Vector3, d: real): Vector3 { Vector3(v.x + d, v.y, v.z) }
  function ShiftY(v: Vector3, d: real): Vector3 { Vector3(v.x, v.y + d, v.z) }
  function ShiftZ(v: Vector3, d: real): Vector3 { Vector3(v.x, v.y, v.z + d) }

  // ---------------------------------------------------------------- one frame

  /** Start of the frame: the highlight flags are cleared while the left button is
      up, and the "moving" flag is cleared in any case. */
  function BeginFrame(s: GizmoState, input: FrameInput): (r: GizmoState)
    ensures !r.isGizmoMod
    ensures !input.leftDown ==> !r.colorX && !r.colorY && !r.colorZ
    ensures input.leftDown ==> r.colorX == s.colorX && r.colorY == s.colorY && r.colorZ == s.colorZ
    ensures r.(isGizmoMod := s.isGizmoMod, colorX := s.colorX, colorY := s.colorY, colorZ := s.colorZ) == s
  {
    var s0 := if !input.leftDown then s.(colorX := false, colorY := false, colorZ := false) else s;
    s0.(isGizmoMod := false)
  }

  predicate HitX(s: GizmoState, input: FrameInput) { Touches(input.ray, s.gizmoX) && input.leftDown }
  predicate HitY(s: GizmoState, input: FrameInput) { Touches(input.ray, s.gizmoY) && input.leftDown }
  predicate HitZ(s: GizmoState, input: FrameInput) { Touches(input.ray, s.gizmoZ) && input.leftDown }

  /** The X block: a held X handle lights up and moves all three handles along X. */
  function AxisX(s: GizmoState, input: FrameInput): (r: GizmoState)
    ensures r.modelPos == s.modelPos && r.lastX == s.lastX && r.lastY == s.lastY
  {
    if HitX(s, input) then
      var d := XStep(s.modelPos.z < input.cameraPos.z, input.mouseX, s.lastX);
      s.(isGizmoMod := true, colorX := true,
         gizmoX := ShiftX(s.gizmoX, d), gizmoY := ShiftX(s.gizmoY, d), gizmoZ := ShiftX(s.gizmoZ, d))
    else s
  }

  /** The Y block, run on the handles as the X block left them. */
  function AxisY(s: GizmoState, input: FrameInput): (r: GizmoState)
    ensures r.modelPos == s.modelPos && r.lastX == s.lastX && r.lastY == s.lastY
  {
    if HitY(s, input) then
      var d := YStep(input.mouseY, s.lastY);
      s.(isGizmoMod := true, colorY := true,
         gizmoX := ShiftY(s.gizmoX, d), gizmoY := ShiftY(s.gizmoY, d), gizmoZ := ShiftY(s.gizmoZ, d))
    else s
  }

  /** The Z block, run on the handles as the X and Y blocks left them. */
  function AxisZ(s: GizmoState, input: FrameInput): (r: GizmoState)
    ensures r.modelPos == s.modelPos && r.lastX == s.lastX && r.lastY == s.lastY
  {
    if HitZ(s, input) then
      var d := ZStep(s.modelPos.x < input.cameraPos.x, input.mouseX, s.lastX, input.mouseY, s.lastY);
      s.(isGizmoMod := true, colorZ := true,
         gizmoX := ShiftZ(s.gizmoX, d), gizmoY := ShiftZ(s.gizmoY, d), gizmoZ := ShiftZ(s.gizmoZ, d))
    else s
  }

  /** The whole gizmo update of one frame of the main loop. */
  function UpdateStep(s: GizmoState, input: FrameInput): (r: GizmoState)
    ensures r.modelPos == s.modelPos
    ensures r.lastX == input.mouseX && r.lastY == input.mouseY
    ensures !input.leftDown ==> !r.isGizmoMod && !r.colorX && !r.colorY && !r.colorZ
  {
    var s3 := AxisZ(AxisY(AxisX(BeginFrame(s, input), input), input), input);
    s3.(lastX := input.mouseX, lastY := input.mouseY)
  }

  /** The "moving" flag of a frame is set exactly when one of the handles was hit,
      each handle tested where the earlier blocks of the same frame left it. */
  lemma UpdateStepMoving(s: GizmoState, input: FrameInput)
    ensures var s0 := BeginFrame(s, input);
            var s1 := AxisX(s0, input);
            var s2 := AxisY(s1, input);
      UpdateStep(s, input).isGizmoMod <==> HitX(s0, input) || HitY(s1, input) || HitZ(s2, input)
  {
  }

  /** Dragging moves all three handles by the same amount, so their offsets from
      each other are kept. */
  lemma UpdateStepKeepsOffsets(s: GizmoState, input: FrameInput)
    ensures SameOffsets(s, UpdateStep(s, input))
  {
    var s0 := BeginFrame(s, input);
    var s1 := AxisX(s0, input);
    var s2 := AxisY(s1, input);
    AxesKeepOffsets(s0, input);
    AxesKeepOffsets(s1, input);
    AxesKeepOffsets(s2, input);
  }

  /** The handles' offsets from the X handle. */
  predicate SameOffsets(a: GizmoState, b: GizmoState)
  {
    && Vector3Subtract(b.gizmoY, b.gizmoX) == Vector3Subtract(a.gizmoY, a.gizmoX)
    && Vector3Subtract(b.gizmoZ, b.gizmoX) == Vector3Subtract(a.gizmoZ, a.gizmoX)
  }

  lemma AxesKeepOffsets(s: GizmoState, input: FrameInput)
    ensures SameOffsets(s, AxisX(s, input))
    ensures SameOffsets(s, AxisY(s, input))
    ensures SameOffsets(s, AxisZ(s, input))
  {
  }

  /** A held handle moves all three handles by the same step, 0 or 0.1 either way,
      along its own axis only; a handle that is not held changes nothing. */
  lemma AxesMoveAlongOwnAxis(s: GizmoState, input: FrameInput)
    ensures var r := AxisX(s, input);
      && (!HitX(s, input) ==> r == s)
      && r.gizmoX.y == s.gizmoX.y && r.gizmoY.y == s.gizmoY.y && r.gizmoZ.y == s.gizmoZ.y
      && r.gizmoX.z == s.gizmoX.z && r.gizmoY.z == s.gizmoY.z && r.gizmoZ.z == s.gizmoZ.z
      && r.gizmoX.x - s.gizmoX.x == r.gizmoY.x - s.gizmoY.x == r.gizmoZ.x - s.gizmoZ.x
      && r.gizmoX.x - s.gizmoX.x in {0.0, DragStep, -DragStep}
    ensures var r := AxisY(s, input);
      && (!HitY(s, input) ==> r == s)
      && r.gizmoX.x == s.gizmoX.x && r.gizmoY.x == s.gizmoY.x && r.gizmoZ.x == s.gizmoZ.x
      && r.gizmoX.z == s.gizmoX.z && r.gizmoY.z == s.gizmoY.z && r.gizmoZ.z == s.gizmoZ.z
      && r.gizmoX.y - s.gizmoX.y == r.gizmoY.y - s.gizmoY.y == r.gizmoZ.y - s.gizmoZ.y
      && r.gizmoX.y - s.gizmoX.y in {0.0, DragStep, -DragStep}
    ensures var r := AxisZ(s, input);
      && (!HitZ(s, input) ==> r == s)
      && r.gizmoX.x == s.gizmoX.x && r.gizmoY.x == s.gizmoY.x && r.gizmoZ.x == s.gizmoZ.x
      && r.gizmoX.y == s.gizmoX.y && r.gizmoY.y == s.gizmoY.y && r.gizmoZ.y == s.gizmoZ.y
      && r.gizmoX.z - s.gizmoX.z == r.gizmoY.z - s.gizmoY.z == r.gizmoZ.z - s.gizmoZ.z
      && r.gizmoX.z - s.gizmoX.z in {0.0, DragStep, -DragStep}
  {
  }

  /** Without mouse movement no handle moves, whatever is held. */
  lemma StillMouseKeepsHandles(s: GizmoState, input: FrameInput)
    requires input.mouseX == s.lastX && input.mouseY == s.lastY
    ensures var r := UpdateStep(s, input);
      r.gizmoX == s.gizmoX && r.gizmoY == s.gizmoY && r.gizmoZ == s.gizmoZ
  {
    var s0 := BeginFrame(s, input);
    var s1 := AxisX(s0, input);
    var s2 := AxisY(s1, input);
    assert s1.gizmoX == s.gizmoX && s1.gizmoY == s.gizmoY && s1.gizmoZ == s.gizmoZ;
    assert s2.gizmoX == s.gizmoX && s2.gizmoY == s.gizmoY && s2.gizmoZ == s.gizmoZ;
  }

  // ---------------------------------------------------------------- DrawGizmo

  /** DrawGizmo: while a handle is held the model follows the handles; otherwise the
      handles are put back at size along each axis from the model. */
  function Sync(s: GizmoState, size: real): (r: GizmoState)
    ensures s.isGizmoMod ==> r.gizmoX == s.gizmoX && r.gizmoY == s.gizmoY && r.gizmoZ == s.gizmoZ
    ensures !s.isGizmoMod ==> r.modelPos == s.modelPos && Glued(r, size)
  {
    if s.isGizmoMod then
      s.(modelPos := Vector3(s.gizmoX.x - size, s.gizmoY.y - size, s.gizmoZ.z - size))
    else
      var p := s.modelPos;
      s.(gizmoX := Vector3(p.x + size, p.y, p.z),
         gizmoY := Vector3(p.x, p.y + size, p.z),
         gizmoZ := Vector3(p.x, p.y, p.z + size))
  }

  /** Each handle sits at size along its own axis from the model. */
  predicate Glued(s: GizmoState, size: real)
  {
    && s.gizmoX == Vector3(s.modelPos.x + size, s.modelPos.y, s.modelPos.z)
    && s.gizmoY == Vector3(s.modelPos.x, s.modelPos.y + size, s.modelPos.z)
    && s.gizmoZ == Vector3(s.modelPos.x, s.modelPos.y, s.modelPos.z + size)
  }

  /** Glued handles stay glued through a frame and its DrawGizmo, and the model then
      moves by exactly the handles' displacement. */
  lemma FrameKeepsGlued(s: GizmoState, input: FrameInput, size: real)
    requires Glued(s, size)
    ensures var r := Sync(UpdateStep(s, input), size);
      && Glued(r, size)
      && Vector3Subtract(r.modelPos, s.modelPos) == Vector3Subtract(r.gizmoX, s.gizmoX)
  {
    var u := UpdateStep(s, input);
    UpdateStepKeepsOffsets(s, input);
    if u.isGizmoMod {
      assert Vector3Subtract(u.gizmoY, u.gizmoX) == Vector3(-size, size, 0.0);
      assert Vector3Subtract(u.gizmoZ, u.gizmoX) == Vector3(-size, 0.0, size);
    }
  }

  /** A frame in which nothing is held, followed by one in which a handle is held
      but the mouse does not move, leaves the model where it was. */
  lemma IdleThenStillDragKeepsModel(s: GizmoState, input: FrameInput, size: real)
    requires !s.isGizmoMod
    requires input.mouseX == s.lastX && input.mouseY == s.lastY
    ensures Sync(UpdateStep(Sync(s, size), input), size).modelPos == s.modelPos
  {
    var s1 := Sync(s, size);
    StillMouseKeepsHandles(s1, input);
  }

  /** The handles as the program starts them, with gizmoSize = 4. */
  lemma StartsGlued(mouseX: int, mouseY: int)
    ensures Glued(InitialState(mouseX, mouseY), GizmoSize)
  {
  }

  function InitialState(mouseX: int, mouseY: int): GizmoState
  {
    GizmoState(Vector3(0.0 + 4.0, 0.0, 0.0), Vector3(0.0, 0.0 + 4.0, 0.0), Vector3(0.0, 0.0, 0.0 + 4.0),
               false, false, false, false, mouseX, mouseY, Vector3Zero())
  }

  // ---------------------------------------------------------------- the main loop's variables

  /** The gizmo variables of the main loop, updated in place frame by frame. */
  class GizmoSession {
    var gizmoX: Vector3
    var gizmoY: Vector3
    var gizmoZ: Vector3
    const colors: array<bool>
    var isGizmoMod: bool
    var lastX: int
    var lastY: int
    var modelPos: Vector3

    predicate Valid()
      reads this
    {
      colors.Length == 3
    }

    function State(): GizmoState
      reads this, colors
      requires Valid()
    {
      GizmoState(gizmoX, gizmoY, gizmoZ, colors[0], colors[1], colors[2], isGizmoMod, lastX, lastY, modelPos)
    }

    constructor (mouseX: int, mouseY: int)
      ensures Valid() && fresh(colors)
      ensures State() == InitialState(mouseX, mouseY)
    {
      lastX, lastY := mouseX, mouseY;
      gizmoX := Vector3(0.0 + 4.0, 0.0, 0.0);
      gizmoY := Vector3(0.0, 0.0 + 4.0, 0.0);
      gizmoZ := Vector3(0.0, 0.0, 0.0 + 4.0);
      isGizmoMod := false;
      colors := new bool[3](_ => false);
      modelPos := Vector3Zero();
    }

    /** Runs the hit test the source writes out for each handle. */
    static method Probe(ray: Ray, handle: Vector3) returns (touching: bool)
      ensures touching == Touches(ray, handle)
    {
      var toPoint := Vector3Subtract(handle, ray.position);
      var projection := Vector3DotProduct(ray.direction, toPoint);
      if projection < 0.0 {
        projection := 0.0;
      }
      var closestPoint := Vector3Add(ray.position, Vector3Scale(ray.direction, projection));
      touching := DistanceSquared(closestPoint, handle) <= GizmoRad * GizmoRad;
    }

    /** The gizmo block of one iteration of the main loop. */
    method Update(input: FrameInput)
      requires Valid()
      modifies this, colors
      ensures Valid()
      ensures State() == UpdateStep(old(State()), input)
    {
      if !input.leftDown {
        for i := 0 to 3
          modifies colors
          invariant forall j :: 0 <= j < i ==> !colors[j]
        {
          colors[i] := false;
        }
      }
      isGizmoMod := false;
      assert State() == BeginFrame(old(State()), input);
      UpdateX(input);
      UpdateY(input);
      UpdateZ(input);
      lastX := input.mouseX;
      lastY := input.mouseY;
    }

    /** The X handle's block. */
    method UpdateX(input: FrameInput)
      requires Valid()
      modifies this, colors
      ensures Valid()
      ensures State() == AxisX(old(State()), input)
    {
      var currentX := input.mouseX;
      var touching := Probe(input.ray, gizmoX);
      if touching && input.leftDown {
        isGizmoMod := true;
        colors[0] := true;
        if modelPos.z < input.cameraPos.z {
          if currentX < lastX {
            gizmoX, gizmoY, gizmoZ := ShiftX(gizmoX, -DragStep), ShiftX(gizmoY, -DragStep), ShiftX(gizmoZ, -DragStep);
          } else if currentX > lastX {
            gizmoX, gizmoY, gizmoZ := ShiftX(gizmoX, DragStep), ShiftX(gizmoY, DragStep), ShiftX(gizmoZ, DragStep);
          }
        } else {
          if currentX < lastX {
            gizmoX, gizmoY, gizmoZ := ShiftX(gizmoX, DragStep), ShiftX(gizmoY, DragStep), ShiftX(gizmoZ, DragStep);
          } else if currentX > lastX {
            gizmoX, gizmoY, gizmoZ := ShiftX(gizmoX, -DragStep), ShiftX(gizmoY, -DragStep), ShiftX(gizmoZ, -DragStep);
          }
        }
      }
    }

    /** The Y handle's block. */
    method UpdateY(input: FrameInput)
      requires Valid()
      modifies this, colors
      ensures Valid()
      ensures State() == AxisY(old(State()), input)
    {
      var currentY := input.mouseY;
      var touching := Probe(input.ray, gizmoY);
      if touching && input.leftDown {
        isGizmoMod := true;
        colors[1] := true;
        if currentY < lastY {
          gizmoX, gizmoY, gizmoZ := ShiftY(gizmoX, DragStep), ShiftY(gizmoY, DragStep), ShiftY(gizmoZ, DragStep);
        } else if currentY > lastY {
          gizmoX, gizmoY, gizmoZ := ShiftY(gizmoX, -DragStep), ShiftY(gizmoY, -DragStep), ShiftY(gizmoZ, -DragStep);
        }
      }
    }

    /** The Z handle's block. */
    method UpdateZ(input: FrameInput)
      requires Valid()
      modifies this, colors
      ensures Valid()
      ensures State() == AxisZ(old(State()), input)
    {
      var currentX, currentY := input.mouseX, input.mouseY;
      var touching := Probe(input.ray, gizmoZ);
      if touching && input.leftDown {
        isGizmoMod := true;
        colors[2] := true;
        if modelPos.x < input.cameraPos.x {
          if currentX < lastX {
            gizmoX, gizmoY, gizmoZ := ShiftZ(gizmoX, DragStep), ShiftZ(gizmoY, DragStep), ShiftZ(gizmoZ, DragStep);
          } else if currentX > lastX {
            gizmoX, gizmoY, gizmoZ := ShiftZ(gizmoX, -DragStep), ShiftZ(gizmoY, -DragStep), ShiftZ(gizmoZ, -DragStep);
          } else if currentY < lastY {
            gizmoX, gizmoY, gizmoZ := ShiftZ(gizmoX, -DragStep), ShiftZ(gizmoY, -DragStep), ShiftZ(gizmoZ, -DragStep);
          } else if currentY > lastY {
            gizmoX, gizmoY, gizmoZ := ShiftZ(gizmoX, DragStep), ShiftZ(gizmoY, DragStep), ShiftZ(gizmoZ, DragStep);
          }
        } else {
          if currentX < lastX {
            gizmoX, gizmoY, gizmoZ := ShiftZ(gizmoX, -DragStep), ShiftZ(gizmoY, -DragStep), ShiftZ(gizmoZ, -DragStep);
          } else if currentX > lastX {
            gizmoX, gizmoY, gizmoZ := ShiftZ(gizmoX, DragStep), ShiftZ(gizmoY, DragStep), ShiftZ(gizmoZ, DragStep);
          } else if currentY < lastY {
            gizmoX, gizmoY, gizmoZ := ShiftZ(gizmoX, DragStep), ShiftZ(gizmoY, DragStep), ShiftZ(gizmoZ, DragStep);
          } else if currentY > lastY {
            gizmoX, gizmoY, gizmoZ := ShiftZ(gizmoX, -DragStep), ShiftZ(gizmoY, -DragStep), ShiftZ(gizmoZ, -DragStep);
          }
        }
      }
    }

    /** DrawGizmo's updates through its pointer arguments (the drawing is left out). */
    method DrawGizmo(size: real)
      requires Valid()
      modifies this
      ensures Valid()
      ensures State() == Sync(old(State()), size)
    {
      if isGizmoMod {
        modelPos := Vector3(gizmoX.x - size, gizmoY.y - size, gizmoZ.z - size);
      } else {
        gizmoX := Vector3(modelPos.x + size, modelPos.y, modelPos.z);
        gizmoY := Vector3(modelPos.x, modelPos.y + size, modelPos.z);
        gizmoZ := Vector3(modelPos.x, modelPos.y, modelPos.z + size);
      }
    }
  }
}
