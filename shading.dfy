/**
 * RayMarching/visualization.py: the render parameters the control channel
 * writes. Per-joint and per-edge tables are allocated once from the
 * skeleton's counts and updated in place, slot by slot or all at once;
 * scalar and vector parameters are replaced; the ground transform is
 * recomputed from the ground position and rotation.
 */
module Shading {
  import opened Geometry
  import opened PyValues
  import opened Rigging

  /** The size rows of the two size tables at construction. */
  const JOINT_SIZE := Vec3(0.1, 0.1, 0.1)
  const EDGE_SIZE := Vec3(0.01, 0.01, 1.0)

  /**
   * The transform updateGroundTransform stores: the ground placed at its
   * position and then rotated, i.e. the transpose of the affine map with
   * the ground rotation R and the translation R * position (the product the
   * source writes out is this map, see GroundTransformPlaces). quat2mat
   * needs a four-number rotation and compose a three-number position;
   * otherwise ValueError (None).
   */
  function GroundTransform(lib: MathLib, position: seq<real>, rotation: seq<real>): (r: Option<Mat4>)
    ensures r.Some? <==> |position| == 3 && |rotation| == 4
  {
    if |rotation| != 4 || |position| != 3 then None
    else
      var rot := lib.quatToMat(Quat(rotation[0], rotation[1], rotation[2], rotation[3]));
      Some(Transpose(Compose(Apply3(rot, Vec3(position[0], position[1], position[2])), rot)))
  }

  /**
   * The product updateGroundTransform computes, the rotation affine times
   * the translation affine (composed with quat2mat of the identity
   * quaternion) and transposed, is the ground transform.
   */
  lemma GroundTransformPlaces(lib: Numerics, position: seq<real>, rotation: seq<real>)
    requires |position| == 3 && |rotation| == 4
    ensures var rot := lib.quatToMat(Quat(rotation[0], rotation[1], rotation[2], rotation[3]));
            var pos := Vec3(position[0], position[1], position[2]);
            GroundTransform(lib, position, rotation)
              == Some(Transpose(Mul(Compose(ORIGIN, rot), Compose(pos, lib.quatToMat(IDENTITY_QUAT)))))
  {
    var rot := lib.quatToMat(Quat(rotation[0], rotation[1], rotation[2], rotation[3]));
    RotateAfterTranslate(rot, Vec3(position[0], position[1], position[2]));
  }

  /** With the identity rotation the ground transform is the transpose of the translation by the ground position. */
  lemma GroundTransformUnrotated(lib: Numerics, position: seq<real>)
    requires |position| == 3
    ensures GroundTransform(lib, position, [1.0, 0.0, 0.0, 0.0])
         == Some(Transpose(Translation(Vec3(position[0], position[1], position[2]))))
  {
    var rotation := [1.0, 0.0, 0.0, 0.0];
    assert Quat(rotation[0], rotation[1], rotation[2], rotation[3]) == IDENTITY_QUAT;
    var pos := Vec3(position[0], position[1], position[2]);
    assert Apply3(IDENTITY3, pos) == pos;
  }

  /**
   * `table[index] = value` behind the guard `if index >= n: return`, where n
   * is the length of the table the guard consults; the slot lies in `a`.
   */
  method Store<T>(a: array<T>, slot: Slot, v: T) returns (outcome: Outcome)
    requires slot.At? ==> slot.k < a.Length
    modifies a
    ensures a[..] == Written(old(a[..]), slot, v)
    ensures outcome == SlotOutcome(slot)
  {
    if slot.At? {
      a[slot.k] := v;
    }
    outcome := SlotOutcome(slot);
  }

  /** `table[:] = value` */
  method Fill<T>(a: array<T>, v: T)
    modifies a
    ensures forall k :: 0 <= k < a.Length ==> a[k] == v
  {
    forall k | 0 <= k < a.Length {
      a[k] := v;
    }
  }

  /**
   * The fields class Visualization reassigns, read together so that a call
   * can state which of them it leaves alone (the tables aside).
   */
  datatype Scene = Scene(
    camPosition: seq<real>, camAngle: seq<real>, bgColor: seq<real>, objectColor: seq<real>,
    lightPosition: seq<real>, lightAmbientScale: real, lightDiffuseScale: real,
    lightSpecularScale: real, lightSpecularPow: real, lightOcclusionScale: real,
    lightOcclusionRange: real, lightOcclusionResolution: real, jointEdgeSmoothing: real,
    groundPrimitive: Number, groundPosition: seq<real>, groundRotation: seq<real>,
    groundTransform: Mat4, groundSize: seq<real>, groundRounding: real, groundSmoothing: real)

  class Visualization {
    const skeleton: Skeleton

    var camPosition: seq<real>
    var camAngle: seq<real>
    var bgColor: seq<real>
    var objectColor: seq<real>
    var lightPosition: seq<real>
    var lightAmbientScale: real
    var lightDiffuseScale: real
    var lightSpecularScale: real
    var lightSpecularPow: real
    var lightOcclusionScale: real
    var lightOcclusionRange: real
    /** Spelled lightOcclusinResolution in the source. */
    var lightOcclusionResolution: real

    const jointPrimitives: array<int>
    const jointSizes: array<Vec3>
    const jointRoundings: array<real>
    const jointSmoothings: array<real>
    const edgePrimitives: array<int>
    const edgeSizes: array<Vec3>
    /** Allocated with one entry per joint, not per edge. */
    const edgeRoundings: array<real>
    const edgeSmoothings: array<real>
    var jointEdgeSmoothing: real

    var groundPrimitive: Number
    var groundPosition: seq<real>
    var groundRotation: seq<real>
    var groundTransform: Mat4
    var groundSize: seq<real>
    var groundRounding: real
    var groundSmoothing: real

    ghost function SceneState(): Scene
      reads this
    {
      Scene(camPosition, camAngle, bgColor, objectColor, lightPosition, lightAmbientScale,
            lightDiffuseScale, lightSpecularScale, lightSpecularPow, lightOcclusionScale,
            lightOcclusionRange, lightOcclusionResolution, jointEdgeSmoothing, groundPrimitive,
            groundPosition, groundRotation, groundTransform, groundSize, groundRounding, groundSmoothing)
    }

    /** The eight per-joint and per-edge tables. */
    ghost function Tables(): set<object>
      reads this
    {
      {jointPrimitives as object, jointSizes, jointRoundings, jointSmoothings,
       edgePrimitives, edgeSizes, edgeRoundings, edgeSmoothings}
    }

    /** Every table holds what it held before. */
    twostate predicate TablesKept()
      reads this, Tables()
    {
      unchanged(jointPrimitives, jointSizes, jointRoundings, jointSmoothings,
                edgePrimitives, edgeSizes, edgeRoundings, edgeSmoothings)
    }

    /** Every table other than t holds what it held before. */
    twostate predicate TablesKeptBut(t: object)
      reads this, Tables()
    {
      unchanged(Tables() - {t})
    }

    /**
     * Table lengths follow the skeleton's counts (edgeRoundings the joint
     * count), and no two tables of one element type are the same array.
     */
    ghost predicate Valid()
    {
      && jointPrimitives.Length == skeleton.jointCount
      && jointSizes.Length == skeleton.jointCount
      && jointRoundings.Length == skeleton.jointCount
      && jointSmoothings.Length == skeleton.jointCount
      && edgePrimitives.Length == skeleton.edgeCount
      && edgeSizes.Length == skeleton.edgeCount
      && edgeRoundings.Length == skeleton.jointCount
      && edgeSmoothings.Length == skeleton.edgeCount
      && jointPrimitives != edgePrimitives
      && jointSizes != edgeSizes
      && jointRoundings != jointSmoothings && jointRoundings != edgeRoundings && jointRoundings != edgeSmoothings
      && jointSmoothings != edgeRoundings && jointSmoothings != edgeSmoothings
      && edgeRoundings != edgeSmoothings
      && skeleton.edgeLengths !in {jointRoundings, jointSmoothings, edgeRoundings, edgeSmoothings}
    }

    constructor(skeleton: Skeleton)
      ensures Valid()
      ensures this.skeleton == skeleton
      ensures camPosition == [1.0, 0.0, 0.0] && camAngle == [45.0]
      ensures bgColor == [0.0, 0.0, 0.0] && objectColor == [1.0, 0.0, 0.0] && lightPosition == [1.0, 0.0, 0.0]
      ensures lightAmbientScale == 0.5 && lightDiffuseScale == 0.5 && lightSpecularScale == 0.5
      ensures lightSpecularPow == 10.0
      ensures lightOcclusionScale == 1.0 && lightOcclusionRange == 3.0 && lightOcclusionResolution == 1.0
      ensures fresh(jointPrimitives) && fresh(jointSizes) && fresh(jointRoundings) && fresh(jointSmoothings)
      ensures fresh(edgePrimitives) && fresh(edgeSizes) && fresh(edgeRoundings) && fresh(edgeSmoothings)
      ensures forall j :: 0 <= j < skeleton.jointCount ==>
        && jointPrimitives[j] == 0 && jointSizes[j] == JOINT_SIZE
        && jointRoundings[j] == 0.01 && jointSmoothings[j] == 0.01 && edgeRoundings[j] == 0.1
      ensures forall e :: 0 <= e < skeleton.edgeCount ==>
        edgePrimitives[e] == 0 && edgeSizes[e] == EDGE_SIZE && edgeSmoothings[e] == 0.01
      ensures jointEdgeSmoothing == 0.0
      ensures groundPrimitive == Int(0) && groundPosition == [0.0, 0.0, 0.0] && groundRotation == [1.0, 0.0, 0.0, 0.0]
      ensures groundTransform == IDENTITY4
      ensures groundSize == [0.1, 0.1, 0.1] && groundRounding == 0.01 && groundSmoothing == 0.01
    {
      this.skeleton := skeleton;
      var jointCount := skeleton.jointCount;
      var edgeCount := skeleton.edgeCount;
      camPosition := [1.0, 0.0, 0.0];
      camAngle := [45.0];
      bgColor := [0.0, 0.0, 0.0];
      objectColor := [1.0, 0.0, 0.0];
      lightPosition := [1.0, 0.0, 0.0];
      lightAmbientScale := 0.5;
      lightDiffuseScale := 0.5;
      lightSpecularScale := 0.5;
      lightSpecularPow := 10.0;
      lightOcclusionScale := 1.0;
      lightOcclusionRange := 3.0;
      lightOcclusionResolution := 1.0;
      jointPrimitives := new int[jointCount](_ => 0);
      jointSizes := new Vec3[jointCount](_ => JOINT_SIZE);
      jointRoundings := new real[jointCount](_ => 0.01);
      jointSmoothings := new real[jointCount](_ => 0.01);
      edgePrimitives := new int[edgeCount](_ => 0);
      edgeSizes := new Vec3[edgeCount](_ => EDGE_SIZE);
      edgeRoundings := new real[jointCount](_ => 0.1);
      edgeSmoothings := new real[edgeCount](_ => 0.01);
      jointEdgeSmoothing := 0.0;
      groundPrimitive := Int(0);
      groundPosition := [0.0, 0.0, 0.0];
      groundRotation := [1.0, 0.0, 0.0, 0.0];
      groundTransform := IDENTITY4;
      groundSize := [0.1, 0.1, 0.1];
      groundRounding := 0.01;
      groundSmoothing := 0.01;
    }

    // ----- scalar and vector parameters: each replaces one field -----

    method SetBGColor(bgColor: seq<real>)
      modifies this`bgColor
      ensures this.bgColor == bgColor
      ensures SceneState() == old(SceneState()).(bgColor := bgColor)
    {
      this.bgColor := bgColor;
    }

    method SetObjectColor(objectColor: seq<real>)
      modifies this`objectColor
      ensures this.objectColor == objectColor
      ensures SceneState() == old(SceneState()).(objectColor := objectColor)
    {
      this.objectColor := objectColor;
    }

    method SetCamPosition(camPosition: seq<real>)
      modifies this`camPosition
      ensures this.camPosition == camPosition
      ensures SceneState() == old(SceneState()).(camPosition := camPosition)
    {
      this.camPosition := camPosition;
    }

    method SetCamAngle(camAngle: seq<real>)
      modifies this`camAngle
      ensures this.camAngle == camAngle
      ensures SceneState() == old(SceneState()).(camAngle := camAngle)
    {
      this.camAngle := camAngle;
    }

    method SetLightPosition(position: seq<real>)
      modifies this`lightPosition
      ensures lightPosition == position
      ensures SceneState() == old(SceneState()).(lightPosition := position)
    {
      lightPosition := position;
    }

    method SetLightAmbientScale(scale: real)
      modifies this`lightAmbientScale
      ensures lightAmbientScale == scale
      ensures SceneState() == old(SceneState()).(lightAmbientScale := scale)
    {
      lightAmbientScale := scale;
    }

    method SetLightDiffuseScale(scale: real)
      modifies this`lightDiffuseScale
      ensures lightDiffuseScale == scale
      ensures SceneState() == old(SceneState()).(lightDiffuseScale := scale)
    {
      lightDiffuseScale := scale;
    }

    method SetLightSpecularScale(scale: real)
      modifies this`lightSpecularScale
      ensures lightSpecularScale == scale
      ensures SceneState() == old(SceneState()).(lightSpecularScale := scale)
    {
      lightSpecularScale := scale;
    }

    method SetLightSpecularPow(pow: real)
      modifies this`lightSpecularPow
      ensures lightSpecularPow == pow
      ensures SceneState() == old(SceneState()).(lightSpecularPow := pow)
    {
      lightSpecularPow := pow;
    }

    method SetLightOcclusionScale(scale: real)
      modifies this`lightOcclusionScale
      ensures lightOcclusionScale == scale
      ensures SceneState() == old(SceneState()).(lightOcclusionScale := scale)
    {
      lightOcclusionScale := scale;
    }

    method SetLightOcclusionRange(range: real)
      modifies this`lightOcclusionRange
      ensures lightOcclusionRange == range
      ensures SceneState() == old(SceneState()).(lightOcclusionRange := range)
    {
      lightOcclusionRange := range;
    }

    method SetLightOcclusionResolution(resolution: real)
      modifies this`lightOcclusionResolution
      ensures lightOcclusionResolution == resolution
      ensures SceneState() == old(SceneState()).(lightOcclusionResolution := resolution)
    {
      lightOcclusionResolution := resolution;
    }

    method SetJointEdgeSmoothing(smooth: real)
      modifies this`jointEdgeSmoothing
      ensures jointEdgeSmoothing == smooth
      ensures SceneState() == old(SceneState()).(jointEdgeSmoothing := smooth)
    {
      jointEdgeSmoothing := smooth;
    }

    method SetGroundPrimitive(primitive: Number)
      modifies this`groundPrimitive
      ensures groundPrimitive == primitive
      ensures SceneState() == old(SceneState()).(groundPrimitive := primitive)
    {
      groundPrimitive := primitive;
    }

    method SetGroundSize(size: seq<real>)
      modifies this`groundSize
      ensures groundSize == size
      ensures SceneState() == old(SceneState()).(groundSize := size)
    {
      groundSize := size;
    }

    method SetGroundRounding(round: real)
      modifies this`groundRounding
      ensures groundRounding == round
      ensures SceneState() == old(SceneState()).(groundRounding := round)
    {
      groundRounding := round;
    }

    method SetGroundSmoothing(smooth: real)
      modifies this`groundSmoothing
      ensures groundSmoothing == smooth
      ensures SceneState() == old(SceneState()).(groundSmoothing := smooth)
    {
      groundSmoothing := smooth;
    }

    // ----- joint tables -----

    /** The primitive is stored as an int32 table entry: a float is truncated toward zero. */
    method SetJointPrimitive(index: Number, primitive: Number) returns (outcome: Outcome)
      requires Valid()
      modifies jointPrimitives
      ensures TablesKeptBut(jointPrimitives)
      ensures jointPrimitives[..] == Written(old(jointPrimitives[..]), GuardedSlot(index, jointPrimitives.Length), ToInt32(primitive))
      ensures outcome == SlotOutcome(GuardedSlot(index, jointPrimitives.Length))
    {
      outcome := Store(jointPrimitives, GuardedSlot(index, jointPrimitives.Length), ToInt32(primitive));
    }

    method SetJointPrimitives(primitive: Number)
      modifies jointPrimitives
      ensures TablesKeptBut(jointPrimitives)
      ensures forall j :: 0 <= j < jointPrimitives.Length ==> jointPrimitives[j] == ToInt32(primitive)
    {
      Fill(jointPrimitives, ToInt32(primitive));
    }

    /** The guard consults jointPrimitives' length, which Valid makes equal to jointSizes'. */
    method SetJointSize(index: Number, size: Vec3) returns (outcome: Outcome)
      requires Valid()
      modifies jointSizes
      ensures TablesKeptBut(jointSizes)
      ensures jointSizes[..] == Written(old(jointSizes[..]), GuardedSlot(index, jointPrimitives.Length), size)
      ensures outcome == SlotOutcome(GuardedSlot(index, jointPrimitives.Length))
    {
      outcome := Store(jointSizes, GuardedSlot(index, jointPrimitives.Length), size);
    }

    method SetJointSizes(size: Vec3)
      modifies jointSizes
      ensures TablesKeptBut(jointSizes)
      ensures forall j :: 0 <= j < jointSizes.Length ==> jointSizes[j] == size
    {
      Fill(jointSizes, size);
    }

    method SetJointRounding(index: Number, round: Number) returns (outcome: Outcome)
      requires Valid()
      modifies jointRoundings
      ensures TablesKeptBut(jointRoundings)
      ensures jointRoundings[..] == Written(old(jointRoundings[..]), GuardedSlot(index, jointRoundings.Length), ToReal(round))
      ensures outcome == SlotOutcome(GuardedSlot(index, jointRoundings.Length))
    {
      outcome := Store(jointRoundings, GuardedSlot(index, jointRoundings.Length), ToReal(round));
    }

    method SetJointRoundings(round: Number)
      modifies jointRoundings
      ensures TablesKeptBut(jointRoundings)
      ensures forall j :: 0 <= j < jointRoundings.Length ==> jointRoundings[j] == ToReal(round)
    {
      Fill(jointRoundings, ToReal(round));
    }

    /** The guard consults jointRoundings' length, which Valid makes equal to jointSmoothings'. */
    method SetJointSmoothing(index: Number, smooth: Number) returns (outcome: Outcome)
      requires Valid()
      modifies jointSmoothings
      ensures TablesKeptBut(jointSmoothings)
      ensures jointSmoothings[..] == Written(old(jointSmoothings[..]), GuardedSlot(index, jointRoundings.Length), ToReal(smooth))
      ensures outcome == SlotOutcome(GuardedSlot(index, jointRoundings.Length))
    {
      outcome := Store(jointSmoothings, GuardedSlot(index, jointRoundings.Length), ToReal(smooth));
    }

    method SetJointSmoothings(smooth: Number)
      modifies jointSmoothings
      ensures TablesKeptBut(jointSmoothings)
      ensures forall j :: 0 <= j < jointSmoothings.Length ==> jointSmoothings[j] == ToReal(smooth)
    {
      Fill(jointSmoothings, ToReal(smooth));
    }

    // ----- edge tables -----

    method SetEdgePrimitive(index: Number, primitive: Number) returns (outcome: Outcome)
      requires Valid()
      modifies edgePrimitives
      ensures TablesKeptBut(edgePrimitives)
      ensures edgePrimitives[..] == Written(old(edgePrimitives[..]), GuardedSlot(index, edgePrimitives.Length), ToInt32(primitive))
      ensures outcome == SlotOutcome(GuardedSlot(index, edgePrimitives.Length))
    {
      outcome := Store(edgePrimitives, GuardedSlot(index, edgePrimitives.Length), ToInt32(primitive));
    }

    method SetEdgePrimitives(primitive: Number)
      modifies edgePrimitives
      ensures TablesKeptBut(edgePrimitives)
      ensures forall e :: 0 <= e < edgePrimitives.Length ==> edgePrimitives[e] == ToInt32(primitive)
    {
      Fill(edgePrimitives, ToInt32(primitive));
    }

    method SetEdgeSize(index: Number, size: Vec3) returns (outcome: Outcome)
      requires Valid()
      modifies edgeSizes
      ensures TablesKeptBut(edgeSizes)
      ensures edgeSizes[..] == Written(old(edgeSizes[..]), GuardedSlot(index, edgeSizes.Length), size)
      ensures outcome == SlotOutcome(GuardedSlot(index, edgeSizes.Length))
    {
      outcome := Store(edgeSizes, GuardedSlot(index, edgeSizes.Length), size);
    }

    method SetEdgeSizes(size: Vec3)
      modifies edgeSizes
      ensures TablesKeptBut(edgeSizes)
      ensures forall e :: 0 <= e < edgeSizes.Length ==> edgeSizes[e] == size
    {
      Fill(edgeSizes, size);
    }

    /** edgeRoundings has jointCount entries, so the guard admits indices up to jointCount - 1. */
    method SetEdgeRounding(index: Number, round: Number) returns (outcome: Outcome)
      requires Valid()
      modifies edgeRoundings
      ensures TablesKeptBut(edgeRoundings)
      ensures edgeRoundings[..] == Written(old(edgeRoundings[..]), GuardedSlot(index, skeleton.jointCount), ToReal(round))
      ensures outcome == SlotOutcome(GuardedSlot(index, skeleton.jointCount))
    {
      outcome := Store(edgeRoundings, GuardedSlot(index, edgeRoundings.Length), ToReal(round));
    }

    method SetEdgeRoundings(round: Number)
      modifies edgeRoundings
      ensures TablesKeptBut(edgeRoundings)
      ensures forall e :: 0 <= e < edgeRoundings.Length ==> edgeRoundings[e] == ToReal(round)
    {
      Fill(edgeRoundings, ToReal(round));
    }

    method SetEdgeSmoothing(index: Number, smooth: Number) returns (outcome: Outcome)
      requires Valid()
      modifies edgeSmoothings
      ensures TablesKeptBut(edgeSmoothings)
      ensures edgeSmoothings[..] == Written(old(edgeSmoothings[..]), GuardedSlot(index, edgeSmoothings.Length), ToReal(smooth))
      ensures outcome == SlotOutcome(GuardedSlot(index, edgeSmoothings.Length))
    {
      outcome := Store(edgeSmoothings, GuardedSlot(index, edgeSmoothings.Length), ToReal(smooth));
    }

    method SetEdgeSmoothings(smooth: Number)
      modifies edgeSmoothings
      ensures TablesKeptBut(edgeSmoothings)
      ensures forall e :: 0 <= e < edgeSmoothings.Length ==> edgeSmoothings[e] == ToReal(smooth)
    {
      Fill(edgeSmoothings, ToReal(smooth));
    }

    // ----- ground -----

    /**
     * Recomputes groundTransform from the stored position and rotation; a
     * wrongly shaped one raises ValueError and leaves the transform as it was.
     */
    method UpdateGroundTransform() returns (outcome: Outcome)
      modifies this`groundTransform
      ensures GroundTransform(skeleton.lib, groundPosition, groundRotation).Some? ==>
        outcome == Done && groundTransform == GroundTransform(skeleton.lib, groundPosition, groundRotation).value
      ensures GroundTransform(skeleton.lib, groundPosition, groundRotation).None? ==>
        outcome == Raised(ValueError) && groundTransform == old(groundTransform)
    {
      var lib := skeleton.lib;
      if |groundRotation| != 4 || |groundPosition| != 3 {
        return Raised(ValueError);
      }
      var defaultRotMat := lib.quatToMat(IDENTITY_QUAT);
      var groundRotMat := lib.quatToMat(Quat(groundRotation[0], groundRotation[1], groundRotation[2], groundRotation[3]));
      var groundTransMat := Compose(Vec3(groundPosition[0], groundPosition[1], groundPosition[2]), defaultRotMat);
      var groundRotAffine := Compose(ORIGIN, groundRotMat);
      groundTransform := Transpose(Mul(groundRotAffine, groundTransMat));
      GroundTransformPlaces(lib, groundPosition, groundRotation);
      outcome := Done;
    }

    /** The position is stored even when the transform update then raises. */
    method SetGroundPosition(position: seq<real>) returns (outcome: Outcome)
      modifies this`groundPosition, this`groundTransform
      ensures groundPosition == position
      ensures SceneState() == old(SceneState()).(groundPosition := position, groundTransform := groundTransform)
      ensures GroundTransform(skeleton.lib, position, groundRotation).Some? ==>
        outcome == Done && groundTransform == GroundTransform(skeleton.lib, position, groundRotation).value
      ensures GroundTransform(skeleton.lib, position, groundRotation).None? ==>
        outcome == Raised(ValueError) && groundTransform == old(groundTransform)
    {
      groundPosition := position;
      outcome := UpdateGroundTransform();
    }

    /** The rotation is stored even when the transform update then raises. */
    method SetGroundRotation(rotation: seq<real>) returns (outcome: Outcome)
      modifies this`groundRotation, this`groundTransform
      ensures groundRotation == rotation
      ensures SceneState() == old(SceneState()).(groundRotation := rotation, groundTransform := groundTransform)
      ensures GroundTransform(skeleton.lib, groundPosition, rotation).Some? ==>
        outcome == Done && groundTransform == GroundTransform(skeleton.lib, groundPosition, rotation).value
      ensures GroundTransform(skeleton.lib, groundPosition, rotation).None? ==>
        outcome == Raised(ValueError) && groundTransform == old(groundTransform)
    {
      groundRotation := rotation;
      outcome := UpdateGroundTransform();
    }
  }

  /**
   * The initial ground transform (the identity) is the one the initial
   * ground position and rotation give.
   */
  lemma InitialGroundTransformConsistent(lib: Numerics)
    ensures GroundTransform(lib, [0.0, 0.0, 0.0], [1.0, 0.0, 0.0, 0.0]) == Some(IDENTITY4)
  {
    var position := [0.0, 0.0, 0.0];
    assert GroundTransform(lib, position, [1.0, 0.0, 0.0, 0.0]) == Some(Transpose(Translation(ORIGIN))) by {
      GroundTransformUnrotated(lib, position);
      assert Vec3(position[0], position[1], position[2]) == ORIGIN;
    }
    assert Transpose(Translation(ORIGIN)) == IDENTITY4;
  }

  /**
   * Because edgeRoundings is sized by the joint count, the edge-rounding
   * setter writes a slot for an index that names no edge whenever the rig
   * has fewer edges than joints (a tree has one fewer), and every edge has a
   * rounding slot exactly when there are no more edges than joints.
   */
  lemma EdgeRoundingsSizedByJoints(v: Visualization, index: int)
    requires v.Valid()
    requires v.skeleton.edgeCount <= index < v.skeleton.jointCount
    ensures GuardedSlot(Int(index), v.edgeRoundings.Length) == At(index)
    ensures GuardedSlot(Int(index), v.edgeSmoothings.Length) == PastEnd
  {
  }
}
