/** DrawModelBones: where the bones of one animation frame are drawn, and which
    bone-to-parent lines join them. */
module Skeleton {
  import opened LinAlg
  import opened Transform

  /** One animation clip: the parent index of every bone (negative for a root) and,
      for every frame, the translation of every bone. */
  datatype Clip = Clip(parents: seq<int>, framePoses: seq<seq<Vector3>>)

  /** A line from a bone's point to its parent's point. */
  datatype Segment = Segment(bone: nat, parent: nat, from: Vector3, to: Vector3)

  /** What DrawModelBones reads without checking: a bone count of at least one
      (boneCount - 1 is compared as unsigned), the frame, and every parent index
      of the bones it visits. */
  predicate Resolvable(clip: Clip, frame: nat, boneCount: int)
  {
    && boneCount >= 1
    && frame < |clip.framePoses|
    && boneCount - 1 <= |clip.parents|
    && boneCount - 1 <= |clip.framePoses[frame]|
    && ParentsInRange(clip.parents, clip.framePoses[frame], boneCount - 1)
  }

  predicate ParentsInRange(parents: seq<int>, poses: seq<Vector3>, k: nat)
    requires k <= |parents|
  {
    forall i :: 0 <= i < k && parents[i] >= 0 ==> parents[i] < |poses|
  }

  /** A bone translation scaled by scl, rotated by rot (degrees) and moved to pos. */
  function BonePoint(m: MathLib, t: Vector3, pos: Vector3, rot: Vector3, scl: Vector3): Vector3
  {
    Vector3Add(Vector3Transform(Vector3Multiply(t, scl), MatrixRotateV(m, rot)), pos)
  }

  /** A bone is drawn where the model matrix puts its translation. */
  lemma BonePointIsWorld(m: MathLib, t: Vector3, pos: Vector3, rot: Vector3, scl: Vector3)
    ensures BonePoint(m, t, pos, rot, scl) == Vector3Transform(t, WorldMatrix(m, pos, rot, scl))
  {
    WorldMatrixApplied(m, t, pos, rot, scl);
  }

  /** The points of the first k bones, in bone order. */
  function PosePoints(m: MathLib, poses: seq<Vector3>, k: nat, pos: Vector3, rot: Vector3, scl: Vector3)
    : (points: seq<Vector3>)
    requires k <= |poses|
    ensures |points| == k
    ensures forall i :: 0 <= i < k ==> points[i] == BonePoint(m, poses[i], pos, rot, scl)
  {
    if k == 0 then [] else PosePoints(m, poses, k - 1, pos, rot, scl) + [BonePoint(m, poses[k - 1], pos, rot, scl)]
  }

  /** The lines of the first k bones: one per bone with a parent, in bone order,
      each from the bone's point to its parent's point in the same frame. */
  function PoseSegments(m: MathLib, parents: seq<int>, poses: seq<Vector3>, k: nat,
                        pos: Vector3, rot: Vector3, scl: Vector3): (segs: seq<Segment>)
    requires k <= |parents| && k <= |poses| && ParentsInRange(parents, poses, k)
    ensures forall j :: 0 <= j < |segs| ==>
      && segs[j].bone < k
      && parents[segs[j].bone] == segs[j].parent
      && segs[j].parent < |poses|
      && segs[j].from == BonePoint(m, poses[segs[j].bone], pos, rot, scl)
      && segs[j].to == BonePoint(m, poses[segs[j].parent], pos, rot, scl)
    ensures forall j, j' :: 0 <= j < j' < |segs| ==> segs[j].bone < segs[j'].bone
  {
    if k == 0 then []
    else
      var earlier := PoseSegments(m, parents, poses, k - 1, pos, rot, scl);
      var p := parents[k - 1];
      if p >= 0 then
        earlier + [Segment(k - 1, p, BonePoint(m, poses[k - 1], pos, rot, scl), BonePoint(m, poses[p], pos, rot, scl))]
      else earlier
  }

  /** A bone among the first k gets a line exactly when its parent index is not negative. */
  lemma {:induction false} SegmentIffParent(m: MathLib, parents: seq<int>, poses: seq<Vector3>, k: nat,
                                            pos: Vector3, rot: Vector3, scl: Vector3, i: nat)
    requires k <= |parents| && k <= |poses| && ParentsInRange(parents, poses, k)
    requires i < k
    ensures var segs := PoseSegments(m, parents, poses, k, pos, rot, scl);
      (exists j :: 0 <= j < |segs| && segs[j].bone == i) <==> parents[i] >= 0
  {
    var segs := PoseSegments(m, parents, poses, k, pos, rot, scl);
    if i == k - 1 {
      if parents[i] >= 0 {
        assert segs[|segs| - 1].bone == i;
      }
    } else {
      var earlier := PoseSegments(m, parents, poses, k - 1, pos, rot, scl);
      SegmentIffParent(m, parents, poses, k - 1, pos, rot, scl, i);
      assert forall j :: 0 <= j < |earlier| ==> segs[j] == earlier[j];
      if parents[i] >= 0 {
        var j :| 0 <= j < |earlier| && earlier[j].bone == i;
        assert segs[j].bone == i;
      }
    }
  }

  /** DrawModelBones for one frame of one clip: the loop runs over bones
      0 .. boneCount - 2 with one rotation matrix, recording each bone's point and,
      when the bone has a parent, the line to the parent's point. */
  method ResolvePose(m: MathLib, clip: Clip, frame: nat, boneCount: int, pos: Vector3, rot: Vector3, scl: Vector3)
    returns (points: seq<Vector3>, segments: seq<Segment>)
    requires Resolvable(clip, frame, boneCount)
    ensures points == PosePoints(m, clip.framePoses[frame], boneCount - 1, pos, rot, scl)
    ensures segments == PoseSegments(m, clip.parents, clip.framePoses[frame], boneCount - 1, pos, rot, scl)
  {
    var poses := clip.framePoses[frame];
    var rotMatrix := MatrixRotateV(m, rot);
    points := [];
    segments := [];
    var i := 0;
    while i < boneCount - 1
      invariant 0 <= i <= boneCount - 1
      invariant points == PosePoints(m, poses, i, pos, rot, scl)
      invariant segments == PoseSegments(m, clip.parents, poses, i, pos, rot, scl)
    {
      var translation := poses[i];
      var finalTranslation := Vector3Add(Vector3Transform(Vector3Multiply(translation, scl), rotMatrix), pos);
      points := points + [finalTranslation];
      var parentIndex := clip.parents[i];
      if parentIndex >= 0 {
        var parentTranslation := poses[parentIndex];
        var parentFinalTranslation := Vector3Add(Vector3Transform(Vector3Multiply(parentTranslation, scl), rotMatrix), pos);
        segments := segments + [Segment(i, parentIndex, finalTranslation, parentFinalTranslation)];
      }
      i := i + 1;
    }
  }
}
