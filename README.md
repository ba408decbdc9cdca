# glb-viewer core, modelled in Dafny

glb-viewer is a small raylib desktop program that loads a glTF/GLB model and its
skeletal animations and shows them in a 3D scene. The user can place the model
with a three-handle translation gizmo and can play or scrub the animation. This
project models the computations the viewer does every frame, all of them in
`main.c`:

- `linalg.dfy` (`LinAlg`): the linear-algebra kernel. It covers 3-vectors,
  quaternions and 4x4 matrices over the reals. The matrix fields follow raylib's
  struct order, so `MatrixTranslateV` puts the translation in m12..m14. `sinf`,
  `cosf` and `sqrt` are a parameter `m: MathLib`. Lemmas that need their laws
  require `Lawful(m)`: sin²+cos² = 1, the parities, the values at 0, and the
  square root of a non-negative number.
- `kernel_laws.dfy` (`KernelLaws`): the kernel's laws. A matrix product acts on a
  point as two transforms in turn. Zero angles give the identity rotation. A
  quaternion times its inverse is the identity. `QuaternionToMatrix` ignores any
  nonzero scaling of its argument. Rotation by a quaternion is the sandwich
  product. Distance is symmetric. Under the trigonometric laws the Euler rotation
  matrices are orthonormal, and `QuaternionFromEuler` and `Normalise` give unit
  quaternions.
- `transform.dfy` (`Transform`): the model matrix of `DrawModelPro` and
  `DrawModelWiresPro`, and the axis lines of `DrawTransform`.
- `skeleton.dfy` (`Skeleton`): `DrawModelBones`. A loop computes the bone points
  and bone-to-parent lines of one frame. It is proved equal to two recursive
  specification functions.
- `gizmo.dfy` (`Gizmo`): one frame of the gizmo block of the main loop, and
  `DrawGizmo`. The frame is the hit test, then the X, Y and Z drag blocks in
  order, each seeing the handles as the blocks before it left them. The
  specification is written on values (`UpdateStep`, `Sync`). `GizmoSession` is a
  class holding the main loop's variables; its methods are proved to follow the
  specification.
- `playback.dfy` (`Playback`): the per-frame playback step. While playing, the
  frame advances with unsigned wrap-around modulo the frame count. While paused,
  the frame is the truncated slider value. `Player` holds the three variables.
- `anim_names.dfy` (`AnimNames`): the `;`-joined option string of the animation
  drop-down. It is built, as in the source, by summing `strlen`, allocating the
  buffer, then running `strcpy` and a `strcat` loop over a `char` array. The
  model proves the buffer is exactly full, and that splitting on `;` gives the
  names back.

Where the code departs from the viewer's intended behaviour, the model follows
the code.

- `QuaternionToMatrix` normalises through `sqrt` in the code, and the model does
  the same. It does not divide the products by the squared norm.
- The intended behaviour keeps the frame index inside the clip. The paused path
  does not clamp it (see Findings).
- `Vector3RotateByQuaternion` uses the conjugate, not the inverse. The two agree
  for unit quaternions (`KernelLaws.RotateByUnit`).
- The intended behaviour draws every bone of the skeleton. The loop at main.c:384
  stops at `boneCount - 1`, so the last bone gets no point and no segment to its
  parent. `Skeleton.ResolvePose` follows the loop as written and visits bones
  0..boneCount-2.

## Model

| member | source | states |
|---|---|---|
| LinAlg.MatrixMultiply | main.c:34-59 | the product of two affine matrices is affine |
| LinAlg.MatrixTranslateV | main.c:61-67 | affine; maps every point p to p + v |
| LinAlg.MatrixScaleV | main.c:69-75 | affine; maps every point p to p multiplied component-wise by v |
| LinAlg.MatrixRotateXYZ | main.c:77-109 | the Euler rotation is affine and has no translation |
| LinAlg.MatrixRotateV | main.c:160-167 | the rotation from degrees is affine and has no translation |
| KernelLaws.RotateXYZOrthonormal | main.c:77-109 | under the trigonometric laws, for every angle the three columns of MatrixRotateXYZ have unit length and are pairwise orthogonal |
| KernelLaws.RotateVOrthonormal | main.c:160-167 | MatrixRotateV is orthonormal for every angle in degrees |
| LinAlg.Vector3Transform | main.c:317-325 | the identity matrix leaves every point where it is; transforming by a product is KernelLaws.TransformMultiply |
| LinAlg.QuaternionMultiply | main.c:173-183 | (0,0,0,1) is a unit on both sides of the product |
| LinAlg.UnitQuaternionMatrix | main.c:125-157 | the matrix of the nine component products has m3, m7, m11, m12, m13, m14 zero and m15 one |
| LinAlg.QuaternionToMatrix | main.c:111-158 | for every quaternion, m3, m7, m11, m12, m13, m14 are 0 and m15 is 1 |
| LinAlg.QuaternionInvert | main.c:185-211 | exactly (0,0,0,1) when the squared norm is <= 0; otherwise the result's squared norm is the reciprocal of q's |
| LinAlg.InverseNorm | main.c:185-211 | the conjugate scaled by 1/normSquared has squared norm 1/normSquared |
| KernelLaws.TransformMultiply | main.c:34-59 | transforming by MatrixMultiply(a, b) is transforming by b and then by a, whenever b's bottom row is (0,0,0,1) |
| KernelLaws.RotateXYZZero | main.c:77-109 | under the trigonometric laws, zero angles give the identity matrix |
| KernelLaws.RotateVZero | main.c:160-167 | RotateV(0,0,0) is the identity matrix |
| KernelLaws.MultiplyInverse | main.c:173-211 | q times QuaternionInvert(q) is (0,0,0,1) whenever the squared norm is positive |
| KernelLaws.ScaledConjugate | main.c:173-211 | q times its conjugate scaled by the reciprocal of its squared norm is the identity quaternion |
| KernelLaws.ToMatrixZero | main.c:111-158 | the zero quaternion, left unnormalised, yields the identity matrix |
| KernelLaws.ToMatrixScaleInvariant | main.c:111-158 | scaling q by any nonzero real, negative included, leaves its matrix unchanged |
| KernelLaws.NormaliseScaled | main.c:114-122 | normalising k*q gives normalised q for k > 0, and its negation for k < 0 |
| KernelLaws.SignInvariance | main.c:125-157 | negating a quaternion does not change the matrix built from its products |
| KernelLaws.ZeroNorm | main.c:114-122 | a quaternion whose norm is not positive is the zero quaternion |
| KernelLaws.NormaliseUnit | main.c:114-123 | Normalise turns every quaternion with a positive norm into one of squared norm 1 |
| KernelLaws.FromEulerZero | main.c:213-235 | zero Euler angles give the identity quaternion |
| KernelLaws.FromEulerUnit | main.c:213-235 | under the trigonometric laws, QuaternionFromEuler gives a unit quaternion for every angle |
| KernelLaws.RotateIsSandwich | main.c:288-315 | the rotated vector is the vector part of q * (v, 0) * conj(q) |
| KernelLaws.RotateByUnit | main.c:288-315 | for a unit quaternion the rotation is q * v * q^-1 with QuaternionInvert |
| KernelLaws.RotateByIdentity | main.c:288-315 | the identity quaternion leaves every vector unchanged |
| KernelLaws.DistanceSymmetric | main.c:276-286 | Vector3Distance(a, b) == Vector3Distance(b, a) |
| KernelLaws.DistanceSelf | main.c:276-286 | a point is at distance 0 from itself |
| Transform.WorldMatrix | main.c:343-347 | the model matrix Translate(pos) * (RotateV(rot) * Scale(scl)) is affine |
| Transform.WorldMatrixApplied | main.c:343-353 | the model matrix scales a point by scl, rotates it by RotateV(rot), then adds pos |
| Transform.WorldOrigin | main.c:343-353 | the model's origin is drawn at exactly pos, for any rot and scl |
| Transform.WorldTranslationOnly | main.c:343-353 | with zero rotation and unit scale, every point is only moved by pos |
| Transform.WorldIdentityRotation | main.c:343-353 | when RotateV(0) is the identity, unit scale and zero rotation give p + pos |
| Transform.AxisEndpointsRotateUnitAxes | main.c:355-378 | AxisEndpoints: each axis line ends at pos + fScl * (unit axis k transformed by RotateV(rot)), a column of an orthonormal matrix by RotateVOrthonormal |
| Transform.AxisEndpointsUnrotated | main.c:355-378 | without rotation the three lines end at pos + fScl along x, y and z |
| Skeleton.BonePointIsWorld | main.c:384-389 | BonePoint: each bone point is the bone translation mapped by the model matrix |
| Skeleton.PosePoints | main.c:382-392 | one point per visited bone, each Transform(translation ⊙ scl, RotateV(rot)) + pos |
| Skeleton.PoseSegments | main.c:404-417 | every segment joins a bone's point to its parent's point in the same frame, in increasing bone order |
| Skeleton.SegmentIffParent | main.c:404-417 | a visited bone gets a segment if and only if its parent index is >= 0 |
| Skeleton.ResolvePose | main.c:380-419 | the loop visits exactly bones 0..boneCount-2 with one rotation matrix, and its points and segments are PosePoints and PoseSegments |
| Gizmo.ClosestParameter | main.c:735-741 | the projection is never negative: the ray parameter clamped at 0 |
| Gizmo.TouchesIffWithinRadius | main.c:735-748 | Touches, the squared-distance test against ClosestPoint, agrees with Vector3Distance(closest, handle) <= gizmoRad, both ways |
| Gizmo.HandleOnRayTouched | main.c:735-748 | a handle on a unit-direction ray at a non-negative parameter is always hit |
| Gizmo.XStep | main.c:754-785 | zero exactly when the mouse did not move horizontally; positive for a rightward move iff modelPos.z < camera.z |
| Gizmo.YStep | main.c:811-823 | positive exactly when currentY < lastY, negative exactly when currentY > lastY |
| Gizmo.ZStep | main.c:849-904 | zero exactly when the mouse did not move at all |
| Gizmo.StepsFlipWithCameraSide | main.c:754-904 | the X and Z steps change sign with the camera side, for every mouse move |
| Gizmo.ZHorizontalPrecedence | main.c:849-904 | on Z a horizontal move decides alone and the vertical move is ignored |
| Gizmo.AxisX | main.c:735-786 | the X block leaves modelPos, lastX and lastY unchanged |
| Gizmo.AxisY | main.c:792-824 | the Y block leaves modelPos, lastX and lastY unchanged |
| Gizmo.AxisZ | main.c:830-905 | the Z block leaves modelPos, lastX and lastY unchanged |
| Gizmo.AxesKeepOffsets | main.c:754-905 | each axis block keeps the handles' offsets from each other |
| Gizmo.AxesMoveAlongOwnAxis | main.c:748-905 | an active axis moves all three handles by the same 0 or ±0.1 along that axis only; an inactive one changes nothing |
| Gizmo.BeginFrame | main.c:714-722 | the frame starts with isGizmoMod cleared; the three colour flags are cleared when the button is up and kept when it is down; nothing else changes |
| Gizmo.UpdateStep | main.c:714-908 | the frame keeps modelPos, records the mouse position, and with the button up clears every flag |
| Gizmo.UpdateStepMoving | main.c:714-908 | isGizmoMod is set iff some handle is hit, each tested where the earlier blocks left it |
| Gizmo.UpdateStepKeepsOffsets | main.c:714-908 | a whole frame keeps the handles' relative offsets |
| Gizmo.StillMouseKeepsHandles | main.c:714-908 | when the mouse did not move, no handle moves |
| Gizmo.Sync | main.c:421-432 | when active the handles stay and the model follows them; when idle the model stays and the handles are glued around it |
| Gizmo.FrameKeepsGlued | main.c:421-432 | glued handles stay glued through a frame and DrawGizmo, and the model moves exactly as the X handle does |
| Gizmo.IdleThenStillDragKeepsModel | main.c:421-432 | an idle frame followed by an active frame without mouse movement leaves modelPos unchanged |
| Gizmo.StartsGlued | main.c:683-685 | the initial handles sit at gizmoSize = 4 along each axis from the origin |
| Gizmo.GizmoSession.constructor | main.c:680-691 | the session starts in the initial gizmo state |
| Gizmo.GizmoSession.Probe | main.c:735-748 | the source's hit-test steps compute Touches |
| Gizmo.GizmoSession.Update | main.c:714-908 | the in-place frame update (colour reset loop and the three blocks) produces UpdateStep of the old state |
| Gizmo.GizmoSession.UpdateX | main.c:735-786 | the X block in place produces AxisX of the old state |
| Gizmo.GizmoSession.UpdateY | main.c:792-824 | the Y block in place produces AxisY of the old state |
| Gizmo.GizmoSession.UpdateZ | main.c:830-905 | the Z block in place produces AxisZ of the old state |
| Gizmo.GizmoSession.DrawGizmo | main.c:421-432 | the writes through DrawGizmo's pointers produce Sync of the old state |
| Playback.NextFrame | main.c:1568-1572 | the next frame is below frameCount, and equals (frame + 1) % frameCount without 32-bit wrap |
| Playback.PlayStep | main.c:1566-1584 | playing moves the frame to NextFrame (so k steps reach (f + k) % frameCount by PlayStepsModular) and copies it to the slider; frameCount 0 resets to 0; paused truncates any slider value the unsigned cast accepts, inside the clip or not |
| Playback.PlayStepsModular | main.c:1566-1579 | k playing steps from frame f reach (f + k) % frameCount |
| Playback.PlayingCycles | main.c:1566-1579 | frameCount playing steps return to the starting frame |
| Playback.PausedAtEndLeavesClip | main.c:1580-1596 | with the slider at or past frameCount, the paused step sets the frame to the truncated slider, outside the clip |
| Playback.ClipSwitchWhilePaused | main.c:1580-1584 | paused at 90 after switching from a 100-frame clip to a 10-frame one, the step sets the frame to 90 |
| Playback.PausedFrame | main.c:1580-1584 | the clamped paused frame is inside the clip: the truncated slider below frameCount, the last frame at or past it |
| Playback.PlayStepClamped | main.c:1566-1584 | for every castable slider the frame stays inside the clip; it agrees with PlayStep while playing or with the slider inside the clip, and is the last frame otherwise |
| Playback.Player.constructor | main.c:605-654 | frame 0, slider 0, playing |
| Playback.Player.Step | main.c:1566-1584 | the in-place step produces PlayStepClamped of the old state |
| Playback.Player.Toggle | main.c:1598-1602 | the play button flips isPlayAnimation and nothing else |
| AnimNames.Join | main.c:972-979 | the joined length is the sum of the lengths plus n - 1; it has no NUL when no name has |
| AnimNames.SizeT | main.c:959-966 | size_t conversion: in range, and the identity on values already in range |
| AnimNames.BufferSize | main.c:958-966 | the size_t buffer size computed by the loader |
| AnimNames.BufferFitsJoin | main.c:958-979 | without overflow, the buffer holds the joined string and its terminator exactly |
| AnimNames.NoNamesWrapsToEmptyBuffer | main.c:1049-1073 | with no animations the size computation wraps round to 0 |
| AnimNames.SplitJoin | main.c:972-979 | splitting the joined string on ';' gives the names back, when no name contains ';' |
| AnimNames.JoinInjective | main.c:972-979 | different name lists give different option strings |
| AnimNames.StrLenOf | main.c:962-963 | strlen is the index of the first NUL |
| AnimNames.StrLen | main.c:962-963 | the scanning loop returns the index of the first NUL |
| AnimNames.CopyAt | main.c:972-978 | the string and a terminator are written at the given index; the rest of the buffer is unchanged |
| AnimNames.StrCpy | main.c:972 | the buffer then holds the string as its C string; the bytes after the new terminator are unchanged |
| AnimNames.StrCat | main.c:977-978 | the C string in the buffer is extended by s; the bytes after the new terminator are unchanged |
| AnimNames.AppendOption | main.c:975-978 | one loop turn extends the C string in the buffer by ";" and the next name; the bytes after the new terminator are unchanged |
| AnimNames.NulAfter | main.c:972-978 | a buffer starting with s and NUL has strlen \|s\| and C string s |
| AnimNames.TotalLength | main.c:959-965 | the computed size is the sum of the lengths plus n - 1 separators plus 1 |
| AnimNames.FillNameOptions | main.c:972-979 | the strcpy/strcat loop leaves exactly the joined names and a NUL in the buffer |
| AnimNames.BuildNameOptions | main.c:958-979 | the allocated buffer is exactly Join(names) + NUL, so the string is one shorter than totalLength |
| AnimNames.JoinPrefixLength | main.c:975-979 | every partial join fits in the final buffer |
| AnimNames.NameOptions | main.c:1024-1081 | no animations give the placeholder " "; otherwise the join, of the computed length |
| AnimNames.LoadNameOptions | main.c:1049-1081 | loading with the join guarded by n >= 1 yields NameOptions |

## Left out

- Drawing, windowing and input: the raylib and raygui draw calls, `GetMouseRay`,
  mouse polling, `UpdateCamera` and the camera. Their results are parameters
  (`Gizmo.FrameInput`, the camera position) or are not modelled.
- `GuiDropdownPro` and the other widgets, the file dialog, the extension check,
  the max-scale and FPS menus, the bone colours and `LoadRobot`. These are user
  interface state with no arithmetic content.
- Asset loading and unloading, `malloc`, `free`, `strdup` and the vector
  container. Names are `seq<string>` and clips are plain sequences.
- IEEE float32 rounding. The model works over `real`, and `sinf`, `cosf`,
  `sqrt` and `DEG2RAD` stay abstract or are taken as exact reals.
- LinAlg.QuaternionToMatrix: its formula (main.c:125-157) is the transpose of
  raylib's, so transforming by it rotates by the conjugate quaternion. The model
  keeps the formula as written and proves nothing about that relation; nothing in
  main.c calls the function.
- Skeleton.ResolvePose: requires boneCount >= 1. With boneCount 0 the unsigned
  bound `boneCount - 1` wraps round and the source reads far out of range, which
  the model does not follow.
- Skeleton.ResolvePose: the per-bone cubes, circles and `DrawTransform` calls are
  drawing. Only the points and lines are modelled.
- Gizmo.GizmoSession.DrawGizmo: the colour choice of the drawn lines and cubes is
  drawing and is left out.
- The slider edits and the Reset Transform/Reset Scale buttons that change
  `modelPos`, rotation and scale are user interface state.
- Playback.Player.Step: follows the corrected, clamped paused path
  (`PlayStepClamped`), not the source's `PlayStep` (see Findings).
- Playback.PlayStep: requires frameCount < 2^32 (frameCount is an `int` read
  from the clip), and while paused a slider value in 0 <= slider < 2^32. The
  conversion to `unsigned` truncates toward zero first, so only values at or below
  -1, or at or above 2^32, are undefined in C; the slider widget never produces a
  negative value.
- AnimNames.TotalLength: computes with unbounded integers. Size_t overflow for
  sums of 2^64 or more is modelled only in `BufferSize`.
- AnimNames.BuildNameOptions: the fresh buffer is filled with NUL, while
  `malloc` leaves it undefined. Every byte is written before it is read, so
  nothing depends on this.
- The `else` branches of the `< 8` tests are not modelled, because neither can
  run. On the file-dialog path `animName` is recreated empty at main.c:941, just
  before the test at main.c:948, so the branch at main.c:981-1013 is dead. On the
  key-load path `animName` is recreated empty at main.c:1044, before the test at
  main.c:1049, so the branch at main.c:1082-1114 is dead too. That branch would
  also join `animNameSlice`, which is never cleared.

## Findings

| source | as written | input that shows it | evidently intended | confidence | as-written member | corrected member |
|---|---|---|---|---|---|---|
| main.c:1582 | paused, `animCurrentFrame = (unsigned)currentFrame` with the slider ranging over 0..frameCount (main.c:1594-1595), and kept across a clip switch (main.c:1385) | slider dragged to its right end, currentFrame == frameCount; or paused at 90 on a 100-frame clip, then a 10-frame clip picked in the drop-down | a frame inside the clip, 0..frameCount-1 | not executed | Playback.PausedAtEndLeavesClip | Playback.PlayStepClamped |
| main.c:1049-1073 | the key-load join runs without an `animsCount > 0` guard | a model with no animations: the size is 0 + (0 - 1) + 1, which wraps to 0, yet `strcpy` reads `animName[0]` | join only when there is at least one animation, otherwise keep " " | not executed | AnimNames.NoNamesWrapsToEmptyBuffer | AnimNames.LoadNameOptions |
