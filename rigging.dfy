/**
 * RayMarching/skeleton.py: the rig (a joint filter and a parent -> children
 * adjacency list), the smoothed pose held by class Skeleton, and the joint
 * and edge transforms derived from it.
 */
module Rigging {
  import opened Geometry
  import opened PyValues

  // ===================== rig topology =====================

  /** One bone: a parent joint and the child index as the adjacency list spells it. */
  datatype Edge = Edge(parent: nat, child: int)

  function ChildEdges(parent: nat, children: seq<int>): seq<Edge>
  {
    seq(|children|, k requires 0 <= k < |children| => Edge(parent, children[k]))
  }

  /** The number of children listed for parents 0 .. n-1. */
  function ChildCount(conn: seq<seq<int>>, n: nat): nat
    requires n <= |conn|
  {
    if n == 0 then 0 else ChildCount(conn, n - 1) + |conn[n - 1]|
  }

  /** The edges of parents 0 .. n-1: parents ascending, each parent's children in list order. */
  function WalkedEdges(conn: seq<seq<int>>, n: nat): seq<Edge>
    requires n <= |conn|
  {
    if n == 0 then [] else WalkedEdges(conn, n - 1) + ChildEdges(n - 1, conn[n - 1])
  }

  /** The walk visits as many edges as the child lists hold. */
  lemma {:induction false} WalkedEdgesCount(conn: seq<seq<int>>, n: nat)
    requires n <= |conn|
    ensures |WalkedEdges(conn, n)| == ChildCount(conn, n)
  {
    if n > 0 {
      WalkedEdgesCount(conn, n - 1);
    }
  }

  lemma {:induction false} ChildCountMonotone(conn: seq<seq<int>>, m: nat, n: nat)
    requires m <= |conn| && n <= |conn|
    ensures m <= n ==> ChildCount(conn, m) <= ChildCount(conn, n)
  {
    if m < n {
      ChildCountMonotone(conn, m, n - 1);
    }
  }

  /** Slot ChildCount(conn, p) + k of the walk holds the edge from p to its k-th listed child. */
  lemma {:induction false} EdgeSlot(conn: seq<seq<int>>, n: nat, p: nat, k: nat)
    requires p < n <= |conn| && k < |conn[p]|
    ensures ChildCount(conn, p) + k < |WalkedEdges(conn, n)|
    ensures WalkedEdges(conn, n)[ChildCount(conn, p) + k] == Edge(p, conn[p][k])
  {
    WalkedEdgesCount(conn, n);
    WalkedEdgesCount(conn, n - 1);
    if p < n - 1 {
      EdgeSlot(conn, n - 1, p, k);
    }
  }

  /**
   * Every slot e of the walk belongs to exactly one parent p, namely the one
   * with ChildCount(conn, p) <= e < ChildCount(conn, p + 1), and holds that
   * parent's child number e - ChildCount(conn, p).
   */
  lemma {:induction false} SlotEdge(conn: seq<seq<int>>, n: nat, e: nat)
    requires n <= |conn| && e < |WalkedEdges(conn, n)|
    ensures WalkedEdges(conn, n)[e].parent < n
    ensures ChildCount(conn, WalkedEdges(conn, n)[e].parent) <= e < ChildCount(conn, WalkedEdges(conn, n)[e].parent + 1)
    ensures WalkedEdges(conn, n)[e].child
         == conn[WalkedEdges(conn, n)[e].parent][e - ChildCount(conn, WalkedEdges(conn, n)[e].parent)]
  {
    WalkedEdgesCount(conn, n - 1);
    if e < |WalkedEdges(conn, n - 1)| {
      SlotEdge(conn, n - 1, e);
    }
  }

  /** Slots are filled in order of ascending parent. */
  lemma WalkOrdered(conn: seq<seq<int>>, n: nat, i: nat, j: nat)
    requires n <= |conn| && i <= j < |WalkedEdges(conn, n)|
    ensures WalkedEdges(conn, n)[i].parent <= WalkedEdges(conn, n)[j].parent
  {
    SlotEdge(conn, n, i);
    SlotEdge(conn, n, j);
    var pi, pj := WalkedEdges(conn, n)[i].parent, WalkedEdges(conn, n)[j].parent;
    ChildCountMonotone(conn, pj + 1, pi);
  }

  /** The constructor's count: the sum of the lengths of all child lists. */
  method CountEdges(conn: seq<seq<int>>) returns (count: nat)
    ensures count == ChildCount(conn, |conn|)
  {
    count := 0;
    for i := 0 to |conn|
      invariant count == ChildCount(conn, i)
    {
      count := count + |conn[i]|;
    }
  }

  /** A bone the skeleton can read: its parent is a joint and its child an index Python accepts. */
  predicate EdgeFits(e: Edge, n: nat)
  {
    e.parent < n && InBounds(e.child, n)
  }

  /**
   * The rig the walk can traverse without an IndexError: a child list for
   * each of the n joints (more lists are allowed and only counted), and
   * every child listed for those joints an index into n joints.
   */
  predicate RigFits(n: nat, conn: seq<seq<int>>)
  {
    n <= |conn| && forall p, k :: 0 <= p < n && 0 <= k < |conn[p]| ==> InBounds(conn[p][k], n)
  }

  /** On a rig that fits, every walked edge can be read, and the walk fits in the counted edge table. */
  lemma WalkFits(conn: seq<seq<int>>, n: nat)
    requires RigFits(n, conn)
    ensures forall e :: 0 <= e < |WalkedEdges(conn, n)| ==> EdgeFits(WalkedEdges(conn, n)[e], n)
    ensures |WalkedEdges(conn, n)| <= ChildCount(conn, |conn|)
  {
    forall e | 0 <= e < |WalkedEdges(conn, n)|
      ensures EdgeFits(WalkedEdges(conn, n)[e], n)
    {
      SlotEdge(conn, n, e);
    }
    WalkedEdgesCount(conn, n);
    ChildCountMonotone(conn, n, |conn|);
  }

  // ===================== positions =====================

  /** The rows of a 3-column array as points. */
  function AsVec3s(g: Array2): (r: seq<Vec3>)
    requires g.width == 3
    ensures |r| == |g.rows|
  {
    seq(|g.rows|, j requires 0 <= j < |g.rows| => Vec3(g.rows[j][0], g.rows[j][1], g.rows[j][2]))
  }

  /** `old * s + incoming * (1 - s)`, joint by joint. */
  function Blend(current: seq<Vec3>, incoming: seq<Vec3>, s: real): (r: seq<Vec3>)
    requires |current| == |incoming|
    ensures |r| == |current|
  {
    seq(|current|, j requires 0 <= j < |current| => Add(Scale(current[j], s), Scale(incoming[j], 1.0 - s)))
  }

  /** Smoothing 0 adopts the incoming pose; smoothing 1 keeps the current one. */
  lemma BlendEndpoints(current: seq<Vec3>, incoming: seq<Vec3>)
    requires |current| == |incoming|
    ensures Blend(current, incoming, 0.0) == incoming
    ensures Blend(current, incoming, 1.0) == current
  {
  }

  predicate Between(v: real, a: real, b: real)
  {
    (a <= v <= b) || (b <= v <= a)
  }

  lemma MulNonNegative(x: real, y: real)
    requires 0.0 <= x && 0.0 <= y
    ensures 0.0 <= x * y
  {
  }

  lemma MulPositive(x: real, y: real)
    requires 0.0 < x && 0.0 < y
    ensures 0.0 < x * y
  {
  }

  lemma MixBetween(a: real, b: real, s: real)
    requires 0.0 <= s <= 1.0
    ensures Between(a * s + b * (1.0 - s), a, b)
  {
    assert a * s + b * (1.0 - s) == b + s * (a - b);
    assert a * s + b * (1.0 - s) == a - (1.0 - s) * (a - b);
    if a >= b {
      MulNonNegative(s, a - b);
      MulNonNegative(1.0 - s, a - b);
    } else {
      MulNonNegative(s, b - a);
      MulNonNegative(1.0 - s, b - a);
    }
  }

  /** With a smoothing factor in [0, 1] every coordinate lands between the old and the incoming one. */
  lemma BlendBetween(current: seq<Vec3>, incoming: seq<Vec3>, s: real, j: nat)
    requires |current| == |incoming| && 0.0 <= s <= 1.0 && j < |current|
    ensures Between(Blend(current, incoming, s)[j].x, current[j].x, incoming[j].x)
    ensures Between(Blend(current, incoming, s)[j].y, current[j].y, incoming[j].y)
    ensures Between(Blend(current, incoming, s)[j].z, current[j].z, incoming[j].z)
  {
    var v := Blend(current, incoming, s)[j];
    assert v == Add(Scale(current[j], s), Scale(incoming[j], 1.0 - s));
    MixBetween(current[j].x, incoming[j].x, s);
    MixBetween(current[j].y, incoming[j].y, s);
    MixBetween(current[j].z, incoming[j].z, s);
  }

  /**
   * The factor is not clamped: above 1 the blend overshoots past the old
   * position, away from the incoming one.
   */
  lemma BlendOvershoots(current: seq<Vec3>, incoming: seq<Vec3>, s: real, j: nat)
    requires |current| == |incoming| && 1.0 < s && j < |current|
    requires incoming[j].x < current[j].x
    ensures current[j].x < Blend(current, incoming, s)[j].x
  {
    var a, b := current[j].x, incoming[j].x;
    assert a * s + b * (1.0 - s) == a + (s - 1.0) * (a - b);
    MulPositive(s - 1.0, a - b);
  }

  // ===================== rotations =====================

  /** The rows of a 4-column array as quaternions. */
  function AsQuats(g: Array2): (r: seq<Quat>)
    requires g.width == 4
    ensures |r| == |g.rows|
  {
    seq(|g.rows|, j requires 0 <= j < |g.rows| => Quat(g.rows[j][0], g.rows[j][1], g.rows[j][2], g.rows[j][3]))
  }

  /** The number of filtered rows the prerotations index into (the highest is 27). */
  const PREROTATED_ROWS := 28

  /** Joints 0 (hips) and 6..19 (shoulders, arms, hands) turn a quarter about z. */
  predicate TurnsAboutZ(k: nat)
  {
    k == 0 || 6 <= k <= 19
  }

  /** Joints 22, 23, 26, 27 (feet and toes) turn a quarter about y. */
  predicate TurnsAboutY(k: nat)
  {
    k == 22 || k == 23 || k == 26 || k == 27
  }

  /**
   * What a row assignment `rotations[k,:] = q` keeps of q: q itself in a
   * float array, each component truncated toward zero in an integer array.
   */
  function StoredRow(integral: bool, q: Quat): (r: Quat)
    ensures !integral ==> r == q
    ensures integral ==> IntegerQuat(r)
    ensures integral ==> -1.0 < q.w - r.w < 1.0 && -1.0 < q.x - r.x < 1.0 && -1.0 < q.y - r.y < 1.0 && -1.0 < q.z - r.z < 1.0
  {
    if integral then
      Quat(TruncatedTowardZero(q.w) as real, TruncatedTowardZero(q.x) as real,
           TruncatedTowardZero(q.y) as real, TruncatedTowardZero(q.z) as real)
    else q
  }

  predicate IsInteger(v: real)
  {
    v == v.Floor as real
  }

  predicate IntegerQuat(q: Quat)
  {
    IsInteger(q.w) && IsInteger(q.x) && IsInteger(q.y) && IsInteger(q.z)
  }

  /**
   * The fixed prerotations applied to the filtered rotations before
   * smoothing, written back into the filtered array; integral says the array
   * has numpy's integer dtype (every number of the message was an int).
   */
  function Prerotated(lib: Numerics, rows: seq<Quat>, integral: bool): (r: seq<Quat>)
    requires |rows| >= PREROTATED_ROWS
    ensures |r| == |rows|
  {
    seq(|rows|, k requires 0 <= k < |rows| =>
      if TurnsAboutZ(k) then StoredRow(integral, QMult(lib.zQuarterTurn, rows[k]))
      else if TurnsAboutY(k) then StoredRow(integral, QMult(lib.yQuarterTurn, rows[k]))
      else rows[k])
  }

  /** A joint outside the two prerotation lists keeps its filtered rotation. */
  lemma PrerotationElsewhereIsIdentity(lib: Numerics, rows: seq<Quat>, integral: bool, k: nat)
    requires |rows| >= PREROTATED_ROWS && k < |rows|
    requires !TurnsAboutZ(k) && !TurnsAboutY(k)
    ensures Prerotated(lib, rows, integral)[k] == rows[k]
    ensures k >= PREROTATED_ROWS || k in {1, 2, 3, 4, 5, 20, 21, 24, 25}
  {
  }

  /**
   * In an integer array every prerotated row holds whole numbers, and a
   * prerotated row is the exact product only in a float array.
   */
  lemma IntegerPrerotationTruncates(lib: Numerics, rows: seq<Quat>, k: nat)
    requires |rows| >= PREROTATED_ROWS && k < |rows|
    requires TurnsAboutZ(k) || TurnsAboutY(k)
    ensures IntegerQuat(Prerotated(lib, rows, true)[k])
    ensures Prerotated(lib, rows, false)[k] ==
      QMult(if TurnsAboutZ(k) then lib.zQuarterTurn else lib.yQuarterTurn, rows[k])
  {
  }

  /**
   * The quarter turn about z is (cos pi/4, 0, 0, sin pi/4), about 0.707 in
   * its w and z parts. Applied to an identity row of an integer array it is
   * truncated to the zero quaternion, where a float array keeps the turn.
   */
  lemma IntegerIdentityRowCollapses(lib: Numerics, rows: seq<Quat>, k: nat)
    requires |rows| >= PREROTATED_ROWS && k < |rows| && TurnsAboutZ(k)
    requires rows[k] == IDENTITY_QUAT
    requires 0.0 < lib.zQuarterTurn.w < 1.0 && lib.zQuarterTurn.x == 0.0
    requires lib.zQuarterTurn.y == 0.0 && 0.0 < lib.zQuarterTurn.z < 1.0
    ensures Prerotated(lib, rows, true)[k] == Quat(0.0, 0.0, 0.0, 0.0)
    ensures Prerotated(lib, rows, false)[k] == lib.zQuarterTurn
  {
    QMultIdentity(lib.zQuarterTurn);
  }

  const SLERP_EPS := 0.00000001

  function Clip(v: real, lo: real, hi: real): real
  {
    if v < lo then lo else if v > hi then hi else v
  }

  /**
   * skeleton.py's slerp for one joint, with unit inputs assumed: the angle
   * comes from the clipped dot product; when its sine is below 1e-8 the two
   * rotations are mixed linearly, otherwise by the spherical weights.
   */
  function Slerp(lib: Numerics, q0: Quat, q1: Quat, t: real): Quat
  {
    var omega := lib.arccos(Clip(Dot(q0, q1), -1.0, 1.0));
    var dom := lib.sin(omega);
    if dom < SLERP_EPS then
      QAdd(QScale(q0, 1.0 - t), QScale(q1, t))
    else
      QAdd(QScale(q0, lib.sin((1.0 - t) * omega) / dom), QScale(q1, lib.sin(t * omega) / dom))
  }

  /** At t = 0 slerp returns its first rotation and at t = 1 its second, on both branches. */
  lemma SlerpEndpoints(lib: Numerics, q0: Quat, q1: Quat)
    ensures Slerp(lib, q0, q1, 0.0) == q0
    ensures Slerp(lib, q0, q1, 1.0) == q1
  {
    var omega := lib.arccos(Clip(Dot(q0, q1), -1.0, 1.0));
    assert (1.0 - 0.0) * omega == omega && 0.0 * omega == 0.0;
    assert (1.0 - 1.0) * omega == 0.0 && 1.0 * omega == omega;
  }

  function SlerpAll(lib: Numerics, current: seq<Quat>, incoming: seq<Quat>, t: real): (r: seq<Quat>)
    requires |current| == |incoming|
    ensures |r| == |current|
  {
    seq(|current|, j requires 0 <= j < |current| => Slerp(lib, current[j], incoming[j], t))
  }

  /** The sum of the squared entries of an array of quaternions. */
  function SumSq(qs: seq<Quat>): (r: real)
    ensures r >= 0.0
  {
    if qs == [] then 0.0 else SumSq(qs[..|qs| - 1]) + QNormSq(qs[|qs| - 1])
  }

  /**
   * `qs / np.linalg.norm(qs)`: every quaternion divided by the one norm of
   * the whole array. numpy yields NaN when that norm is zero; the model then
   * keeps the (all-zero) array.
   */
  function NormalizeWholeArray(lib: Numerics, qs: seq<Quat>): (r: seq<Quat>)
    ensures |r| == |qs|
  {
    var n := lib.sqrt(SumSq(qs));
    if n == 0.0 then qs else seq(|qs|, j requires 0 <= j < |qs| => QScale(qs[j], 1.0 / n))
  }

  /** The rotations after one update: slerp toward the incoming ones by 1 - s, then one whole-array division. */
  function SmoothedRotations(lib: Numerics, current: seq<Quat>, incoming: seq<Quat>, s: real): (r: seq<Quat>)
    requires |current| == |incoming|
    ensures |r| == |current|
  {
    NormalizeWholeArray(lib, SlerpAll(lib, current, incoming, 1.0 - s))
  }

  /**
   * Smoothing 0 adopts the incoming rotations and smoothing 1 keeps the
   * current ones, in both cases only up to the whole-array division.
   */
  lemma SmoothedRotationsEndpoints(lib: Numerics, current: seq<Quat>, incoming: seq<Quat>)
    requires |current| == |incoming|
    ensures SmoothedRotations(lib, current, incoming, 0.0) == NormalizeWholeArray(lib, incoming)
    ensures SmoothedRotations(lib, current, incoming, 1.0) == NormalizeWholeArray(lib, current)
  {
    forall j | 0 <= j < |current|
      ensures Slerp(lib, current[j], incoming[j], 1.0) == incoming[j]
      ensures Slerp(lib, current[j], incoming[j], 0.0) == current[j]
    {
      SlerpEndpoints(lib, current[j], incoming[j]);
    }
    assert SlerpAll(lib, current, incoming, 1.0 - 0.0) == incoming;
    assert SlerpAll(lib, current, incoming, 1.0 - 1.0) == current;
  }

  lemma {:induction false} SumSqOfUnits(qs: seq<Quat>)
    requires forall j :: 0 <= j < |qs| ==> QNormSq(qs[j]) == 1.0
    ensures SumSq(qs) == |qs| as real
  {
    if qs != [] {
      SumSqOfUnits(qs[..|qs| - 1]);
    }
  }

  /**
   * Dividing the whole array by its one norm does not make each joint's
   * quaternion a unit: from N >= 2 unit quaternions it makes quaternions of
   * squared norm 1/N (given a square root that is exact at N).
   */
  lemma WholeArrayNormalizationNotPerJoint(lib: Numerics, qs: seq<Quat>)
    requires |qs| >= 2
    requires forall j :: 0 <= j < |qs| ==> QNormSq(qs[j]) == 1.0
    requires lib.sqrt(|qs| as real) * lib.sqrt(|qs| as real) == |qs| as real
    ensures forall j :: 0 <= j < |qs| ==> QNormSq(NormalizeWholeArray(lib, qs)[j]) == 1.0 / (|qs| as real)
    ensures forall j :: 0 <= j < |qs| ==> QNormSq(NormalizeWholeArray(lib, qs)[j]) != 1.0
  {
    SumSqOfUnits(qs);
    var n := lib.sqrt(|qs| as real);
    assert 0.0 < n;
    forall j | 0 <= j < |qs|
      ensures QNormSq(NormalizeWholeArray(lib, qs)[j]) == 1.0 / (|qs| as real)
    {
      QNormSqScale(qs[j], 1.0 / n);
      assert (1.0 / n) * (1.0 / n) == 1.0 / (n * n);
    }
  }

  // ===================== derived transforms =====================

  /**
   * The matrix both update methods store: rotate by `rotation`, after the
   * root transform, after translating to `position`, all transposed:
   * transpose(rotMat @ (root @ compose(position, quat2mat([1,0,0,0])))).
   */
  function Placed(lib: Numerics, root: Mat4, rotation: Quat, position: Vec3): Mat4
  {
    var rotMat := Compose(ORIGIN, lib.quatToMat(rotation));
    var transMat := Compose(position, lib.quatToMat(IDENTITY_QUAT));
    Transpose(Mul(rotMat, Mul(root, transMat)))
  }

  /**
   * With a root translation, the placed matrix translates by root + position
   * and then rotates: its transposed translation part is R (root + position).
   */
  lemma PlacedUnderRootTranslation(lib: Numerics, root: Vec3, rotation: Quat, position: Vec3)
    ensures Placed(lib, Translation(root), rotation, position)
         == Transpose(Compose(Apply3(lib.quatToMat(rotation), Add(root, position)), lib.quatToMat(rotation)))
  {
    TranslationsCompose(root, position);
    RotateAfterTranslate(lib.quatToMat(rotation), Add(root, position));
  }

  /** A joint's transform: its rotation turned a quarter about y, placed at its position. */
  function JointTransform(lib: Numerics, root: Mat4, position: Vec3, rotation: Quat): Mat4
  {
    Placed(lib, root, QMult(lib.yQuarterTurn, rotation), position)
  }

  /**
   * When the turned rotation maps to the identity matrix, a joint's transform
   * is the transposed translation by root + position: its last row carries
   * that translation.
   */
  lemma JointTransformUnrotated(lib: Numerics, root: Vec3, position: Vec3, rotation: Quat)
    requires lib.quatToMat(QMult(lib.yQuarterTurn, rotation)) == IDENTITY3
    ensures JointTransform(lib, Translation(root), position, rotation) == Transpose(Translation(Add(root, position)))
    ensures JointTransform(lib, Translation(root), position, rotation).r3
         == Row4(root.x + position.x, root.y + position.y, root.z + position.z, 1.0)
  {
    PlacedUnderRootTranslation(lib, root, QMult(lib.yQuarterTurn, rotation), position);
  }

  /** The edge's rotation: the parent's, with the extra -pi/2 about z on the hip-to-spine edge only, turned about y. */
  function EdgeRotation(lib: Numerics, e: Edge, parentRotation: Quat): Quat
  {
    var r := if e.parent == 0 && e.child == 1 then QMult(lib.zNegQuarterTurn, parentRotation) else parentRotation;
    QMult(lib.yQuarterTurn, r)
  }

  /** An edge's transform: placed at the midpoint of its two joints. */
  function EdgeTransform(lib: Numerics, root: Mat4, positions: seq<Vec3>, rotations: seq<Quat>, e: Edge): Mat4
    requires EdgeFits(e, |positions|) && |rotations| == |positions|
  {
    Placed(lib, root, EdgeRotation(lib, e, rotations[e.parent]),
           Midpoint(positions[e.parent], positions[Wrap(e.child, |positions|)]))
  }

  /** An edge's length: the norm of child - parent. */
  function EdgeLength(lib: Numerics, positions: seq<Vec3>, e: Edge): (r: real)
    requires EdgeFits(e, |positions|)
    ensures r >= 0.0
    ensures r == 0.0 <==> LengthSq(Sub(positions[Wrap(e.child, |positions|)], positions[e.parent])) == 0.0
  {
    lib.sqrt(LengthSq(Sub(positions[Wrap(e.child, |positions|)], positions[e.parent])))
  }

  /**
   * Every edge but hip -> spine is placed like a joint with the parent's
   * rotation, at the edge midpoint; the hip -> spine edge alone first turns
   * that rotation by the extra -pi/2 about z.
   */
  lemma OnlyHipSpineCorrected(lib: Numerics, root: Mat4, positions: seq<Vec3>, rotations: seq<Quat>, e: Edge)
    requires EdgeFits(e, |positions|) && |rotations| == |positions|
    ensures var mid := Midpoint(positions[e.parent], positions[Wrap(e.child, |positions|)]);
            EdgeTransform(lib, root, positions, rotations, e)
            == if e == Edge(0, 1) then JointTransform(lib, root, mid, QMult(lib.zNegQuarterTurn, rotations[0]))
               else JointTransform(lib, root, mid, rotations[e.parent])
  {
  }

  // ===================== the skeleton =====================

  /**
   * The pose state. jointPositions and jointRotations are rebound to new
   * arrays on every accepted update; jointTransforms, edgeTransforms and
   * edgeLengths are allocated once and written slot by slot.
   */
  /**
   * The fields class Skeleton reassigns, read together so that a call can
   * state which of them it leaves alone (the transform tables aside).
   */
  datatype Pose = Pose(skelTransform: Mat4, skelInvTransform: Mat4, rootPosition: Vec3,
                       jointPositions: seq<Vec3>, jointRotations: seq<Quat>, updateSmoothing: real)

  class Skeleton {
    const lib: Numerics
    const jointFilter: seq<int>
    const jointConnectivity: seq<seq<int>>
    const jointCount: nat
    const edgeCount: nat

    var skelTransform: Mat4
    var skelInvTransform: Mat4
    /** The translation skelTransform applies. */
    ghost var rootPosition: Vec3

    var jointPositions: seq<Vec3>
    var jointRotations: seq<Quat>
    const jointTransforms: array<Mat4>
    const edgeTransforms: array<Mat4>
    const edgeLengths: array<real>
    var updateSmoothing: real

    /** The edges updateEdgeTransforms visits, in slot order. */
    function Walk(): seq<Edge>
      requires jointCount <= |jointConnectivity|
    {
      WalkedEdges(jointConnectivity, jointCount)
    }

    ghost function PoseState(): Pose
      reads this
    {
      Pose(skelTransform, skelInvTransform, rootPosition, jointPositions, jointRotations, updateSmoothing)
    }

    ghost predicate Valid()
      reads this
    {
      && jointCount == |jointFilter|
      && RigFits(jointCount, jointConnectivity)
      && (forall e :: 0 <= e < |Walk()| ==> EdgeFits(Walk()[e], jointCount))
      && |Walk()| <= edgeCount
      && edgeCount == ChildCount(jointConnectivity, |jointConnectivity|)
      && |jointPositions| == jointCount && |jointRotations| == jointCount
      && jointTransforms.Length == jointCount
      && edgeTransforms.Length == edgeCount && edgeLengths.Length == edgeCount
      && jointTransforms != edgeTransforms
      && skelTransform == Translation(rootPosition)
      && skelInvTransform == Translation(Scale(rootPosition, -1.0))
    }

    /** Every joint slot holds the transform of the current pose. */
    ghost predicate JointsDerived()
      requires Valid()
      reads this, jointTransforms
    {
      forall j :: 0 <= j < jointCount ==>
        jointTransforms[j] == JointTransform(lib, skelTransform, jointPositions[j], jointRotations[j])
    }

    /**
     * Every walked edge slot holds its edge's transform and length for the
     * current pose; slots past the walk keep the given earlier contents.
     */
    ghost predicate EdgesDerived(earlierTransforms: seq<Mat4>, earlierLengths: seq<real>)
      requires Valid()
      requires |earlierTransforms| == edgeCount && |earlierLengths| == edgeCount
      reads this, edgeTransforms, edgeLengths
    {
      && (forall e :: 0 <= e < |Walk()| ==>
            && edgeTransforms[e] == EdgeTransform(lib, skelTransform, jointPositions, jointRotations, Walk()[e])
            && edgeLengths[e] == EdgeLength(lib, jointPositions, Walk()[e]))
      && (forall e :: |Walk()| <= e < edgeCount ==>
            edgeTransforms[e] == earlierTransforms[e] && edgeLengths[e] == earlierLengths[e])
    }

    /**
     * The random initial pose of the source is taken as the two initial
     * arrays; the rig must be one the edge walk can traverse.
     */
    constructor(lib: Numerics, jointFilter: seq<int>, jointConnectivity: seq<seq<int>>,
                initialPositions: seq<Vec3>, initialRotations: seq<Quat>)
      requires RigFits(|jointFilter|, jointConnectivity)
      requires |initialPositions| == |jointFilter| && |initialRotations| == |jointFilter|
      ensures Valid()
      ensures this.lib == lib && this.jointFilter == jointFilter && this.jointConnectivity == jointConnectivity
      ensures jointCount == |jointFilter|
      ensures edgeCount == ChildCount(jointConnectivity, |jointConnectivity|)
      ensures skelTransform == IDENTITY4 && skelInvTransform == IDENTITY4
      ensures jointPositions == initialPositions && jointRotations == initialRotations
      ensures fresh(jointTransforms) && fresh(edgeTransforms) && fresh(edgeLengths)
      ensures forall j :: 0 <= j < jointCount ==> jointTransforms[j] == ZERO4
      ensures forall e :: 0 <= e < edgeCount ==> edgeTransforms[e] == ZERO4 && edgeLengths[e] == 1.0
      ensures updateSmoothing == 0.0
    {
      WalkFits(jointConnectivity, |jointFilter|);
      this.lib := lib;
      this.jointFilter := jointFilter;
      this.jointConnectivity := jointConnectivity;
      assert Translation(ORIGIN) == IDENTITY4 && Scale(ORIGIN, -1.0) == ORIGIN;
      skelTransform := IDENTITY4;
      skelInvTransform := IDENTITY4;
      rootPosition := ORIGIN;
      jointCount := |jointFilter|;
      jointPositions := initialPositions;
      jointRotations := initialRotations;
      jointTransforms := new Mat4[|jointFilter|](_ => ZERO4);
      var count := CountEdges(jointConnectivity);
      edgeCount := count;
      edgeTransforms := new Mat4[count](_ => ZERO4);
      edgeLengths := new real[count](_ => 1.0);
      updateSmoothing := 0.0;
    }

    /** Stores the factor as given: no clamping to [0, 1]. */
    method SetUpdateSmoothing(updateSmoothing: real)
      requires Valid()
      modifies this`updateSmoothing
      ensures Valid()
      ensures this.updateSmoothing == updateSmoothing
    {
      this.updateSmoothing := updateSmoothing;
    }

    /**
     * Makes skelTransform the translation by the position and skelInvTransform
     * the translation by its negation (their product is the identity, see
     * RootTransformsInverse). A position that is not three numbers makes
     * compose raise ValueError before either field is written. The derived
     * transforms are not recomputed.
     */
    method SetPosition(position: seq<real>) returns (outcome: Outcome)
      requires Valid()
      modifies this`skelTransform, this`skelInvTransform, this`rootPosition
      ensures Valid()
      ensures outcome == if |position| == 3 then Done else Raised(ValueError)
      ensures outcome == Done ==>
        && skelTransform == Translation(Vec3(position[0], position[1], position[2]))
        && skelInvTransform == Translation(Vec3(-position[0], -position[1], -position[2]))
        && rootPosition == Vec3(position[0], position[1], position[2])
      ensures outcome != Done ==>
        skelTransform == old(skelTransform) && skelInvTransform == old(skelInvTransform)
        && rootPosition == old(rootPosition)
    {
      if |position| != 3 {
        return Raised(ValueError);
      }
      var p := Vec3(position[0], position[1], position[2]);
      skelTransform := Translation(p);
      skelInvTransform := Translation(Scale(p, -1.0));
      rootPosition := p;
      outcome := Done;
    }

    /**
     * Selects the rows jointFilter names, rejects (Ignored) a selection whose
     * shape differs from the stored positions', blends, and rederives the
     * joint and edge transforms. A filter index outside the array raises
     * IndexError first. Nothing is written unless the outcome is Done.
     */
    method SetJointPositions(positions: Array2) returns (outcome: Outcome)
      requires Valid()
      modifies this`jointPositions, jointTransforms, edgeTransforms, edgeLengths
      ensures Valid()
      ensures outcome == PositionUpdateOutcome(jointFilter, positions)
      ensures outcome != Done ==>
        jointPositions == old(jointPositions) && unchanged(jointTransforms, edgeTransforms, edgeLengths)
      ensures outcome == Done ==>
        && jointPositions == Blend(old(jointPositions), AsVec3s(Take(positions, jointFilter).value), updateSmoothing)
        && JointsDerived()
        && EdgesDerived(old(edgeTransforms[..]), old(edgeLengths[..]))
    {
      var filtered := Take(positions, jointFilter);
      if filtered.None? {
        return Raised(IndexError);
      }
      if filtered.value.width != 3 {
        return Ignored;
      }
      jointPositions := Blend(jointPositions, AsVec3s(filtered.value), updateSmoothing);
      UpdateJointTransforms();
      UpdateEdgeTransforms();
      outcome := Done;
    }

    /**
     * Selects the rows jointFilter names, applies the fixed prerotations,
     * slerps from the stored rotations toward them by 1 - updateSmoothing,
     * divides the whole array by its one norm, and rederives the joint and
     * edge transforms. The prerotations index rows 0..27 and unpack each row
     * into four numbers, so a selection of fewer than 28 rows or of rows that
     * are not four wide raises before anything is written. integral says the
     * message array has an integer dtype: the prerotated rows written back
     * into it are then truncated toward zero.
     */
    method SetJointRotations(rotations: Array2, integral: bool) returns (outcome: Outcome)
      requires Valid()
      modifies this`jointRotations, jointTransforms, edgeTransforms, edgeLengths
      ensures Valid()
      ensures outcome == RotationUpdateOutcome(jointFilter, rotations)
      ensures outcome != Done ==>
        jointRotations == old(jointRotations) && unchanged(jointTransforms, edgeTransforms, edgeLengths)
      ensures outcome == Done ==>
        && jointCount >= PREROTATED_ROWS
        && jointRotations == SmoothedRotations(lib, old(jointRotations),
                               Prerotated(lib, AsQuats(Take(rotations, jointFilter).value), integral), updateSmoothing)
        && JointsDerived()
        && EdgesDerived(old(edgeTransforms[..]), old(edgeLengths[..]))
    {
      var filtered := Take(rotations, jointFilter);
      if filtered.None? {
        return Raised(IndexError);
      }
      var rows := filtered.value;
      if |rows.rows| == 0 {
        return Raised(IndexError);
      }
      if rows.width != 4 {
        return Raised(ValueError);
      }
      if |rows.rows| < PREROTATED_ROWS {
        return Raised(IndexError);
      }
      var corrected := Prerotated(lib, AsQuats(rows), integral);
      jointRotations := SmoothedRotations(lib, jointRotations, corrected, updateSmoothing);
      UpdateJointTransforms();
      UpdateEdgeTransforms();
      outcome := Done;
    }

    /** Writes every joint slot from the current pose. */
    method UpdateJointTransforms()
      requires Valid()
      modifies jointTransforms
      ensures JointsDerived()
    {
      var defaultRotMat := lib.quatToMat(IDENTITY_QUAT);
      for jI := 0 to jointCount
        invariant forall j :: 0 <= j < jI ==>
          jointTransforms[j] == JointTransform(lib, skelTransform, jointPositions[j], jointRotations[j])
      {
        var jointRotation := QMult(lib.yQuarterTurn, jointRotations[jI]);
        var jointRotMat := Compose(ORIGIN, lib.quatToMat(jointRotation));
        var jointTransMat := Compose(jointPositions[jI], defaultRotMat);
        jointTransforms[jI] := Transpose(Mul(jointRotMat, Mul(skelTransform, jointTransMat)));
      }
    }

    /** The loop body of updateEdgeTransforms: one edge's length and transform, written to slot eI. */
    method UpdateEdge(eI: nat, pjI: nat, cjI: int)
      requires |jointPositions| == jointCount && |jointRotations| == jointCount && EdgeFits(Edge(pjI, cjI), jointCount)
      requires eI < edgeTransforms.Length && eI < edgeLengths.Length
      modifies edgeTransforms, edgeLengths
      ensures edgeLengths[eI] == EdgeLength(lib, jointPositions, Edge(pjI, cjI))
      ensures edgeTransforms[eI] == EdgeTransform(lib, skelTransform, jointPositions, jointRotations, Edge(pjI, cjI))
      ensures forall e :: 0 <= e < edgeTransforms.Length && e != eI ==> edgeTransforms[e] == old(edgeTransforms[e])
      ensures forall e :: 0 <= e < edgeLengths.Length && e != eI ==> edgeLengths[e] == old(edgeLengths[e])
    {
      var parentJointPos := jointPositions[pjI];
      var childJointPos := jointPositions[Wrap(cjI, jointCount)];
      var edgePos := Midpoint(parentJointPos, childJointPos);
      var edgeVec := Sub(childJointPos, parentJointPos);
      edgeLengths[eI] := lib.sqrt(LengthSq(edgeVec));
      var edgeRotation := jointRotations[pjI];
      if pjI == 0 && cjI == 1 {
        edgeRotation := QMult(lib.zNegQuarterTurn, edgeRotation);
      }
      edgeRotation := QMult(lib.yQuarterTurn, edgeRotation);
      var edgeRotMat := Compose(ORIGIN, lib.quatToMat(edgeRotation));
      var edgeTransMat := Compose(edgePos, lib.quatToMat(IDENTITY_QUAT));
      edgeTransforms[eI] := Transpose(Mul(edgeRotMat, Mul(skelTransform, edgeTransMat)));
    }

    /**
     * Walks parents 0 .. jointCount-1 and their children in list order with
     * one running slot counter, writing each edge's length and transform.
     */
    method UpdateEdgeTransforms()
      requires Valid()
      modifies edgeTransforms, edgeLengths
      ensures EdgesDerived(old(edgeTransforms[..]), old(edgeLengths[..]))
    {
      var eI := 0;
      for pjI := 0 to jointCount
        invariant eI == ChildCount(jointConnectivity, pjI) && eI <= |Walk()|
        invariant forall e :: 0 <= e < eI ==>
          && edgeTransforms[e] == EdgeTransform(lib, skelTransform, jointPositions, jointRotations, Walk()[e])
          && edgeLengths[e] == EdgeLength(lib, jointPositions, Walk()[e])
        invariant forall e :: eI <= e < edgeCount ==>
          edgeTransforms[e] == old(edgeTransforms[e]) && edgeLengths[e] == old(edgeLengths[e])
      {
        eI := UpdateChildEdges(pjI, eI);
      }
      WalkedEdgesCount(jointConnectivity, jointCount);
    }

    /** One pass of the inner loop: the edges to the children of joint pjI, from slot start on. */
    method UpdateChildEdges(pjI: nat, start: nat) returns (next: nat)
      requires Valid() && pjI < jointCount && start == ChildCount(jointConnectivity, pjI)
      modifies edgeTransforms, edgeLengths
      ensures next == ChildCount(jointConnectivity, pjI + 1) && next <= |Walk()|
      ensures forall e :: start <= e < next ==>
        && edgeTransforms[e] == EdgeTransform(lib, skelTransform, jointPositions, jointRotations, Walk()[e])
        && edgeLengths[e] == EdgeLength(lib, jointPositions, Walk()[e])
      ensures forall e :: 0 <= e < edgeCount && !(start <= e < next) ==>
        edgeTransforms[e] == old(edgeTransforms[e]) && edgeLengths[e] == old(edgeLengths[e])
    {
      WalkedEdgesCount(jointConnectivity, jointCount);
      ChildCountMonotone(jointConnectivity, pjI + 1, jointCount);
      ghost var walk := Walk();
      var children := jointConnectivity[pjI];
      next := start;
      for ci := 0 to |children|
        invariant next == start + ci
        invariant forall e :: start <= e < next ==>
          && edgeTransforms[e] == EdgeTransform(lib, skelTransform, jointPositions, jointRotations, walk[e])
          && edgeLengths[e] == EdgeLength(lib, jointPositions, walk[e])
        invariant forall e :: 0 <= e < edgeCount && !(start <= e < next) ==>
          edgeTransforms[e] == old(edgeTransforms[e]) && edgeLengths[e] == old(edgeLengths[e])
      {
        EdgeSlot(jointConnectivity, jointCount, pjI, ci);
        ghost var edge := walk[next];
        assert edge == Edge(pjI, children[ci]);
        UpdateEdge(next, pjI, children[ci]);
        next := next + 1;
      }
    }

    method GetJointCount() returns (n: nat)
      ensures n == jointCount
    {
      n := jointCount;
    }

    method GetEdgeCount() returns (n: nat)
      ensures n == edgeCount
    {
      n := edgeCount;
    }

    /** The live table itself, not a copy. */
    method GetEdgeLengths() returns (a: array<real>)
      ensures a == edgeLengths
    {
      a := edgeLengths;
    }

    method GetJointPositions() returns (p: seq<Vec3>)
      ensures p == jointPositions
    {
      p := jointPositions;
    }

    method GetJointRotations() returns (r: seq<Quat>)
      ensures r == jointRotations
    {
      r := jointRotations;
    }

    /** The live table itself, not a copy. */
    method GetJointTransforms() returns (a: array<Mat4>)
      ensures a == jointTransforms
    {
      a := jointTransforms;
    }

    /** The live table itself, not a copy. */
    method GetEdgeTransforms() returns (a: array<Mat4>)
      ensures a == edgeTransforms
    {
      a := edgeTransforms;
    }
  }

  /** What setJointPositions does with a raw array, before it writes anything. */
  function PositionUpdateOutcome(filter: seq<int>, raw: Array2): Outcome
  {
    match Take(raw, filter)
    case None => Raised(IndexError)
    case Some(g) => if g.width != 3 then Ignored else Done
  }

  /**
   * What setJointRotations does with a raw array: row 0 must exist, qmult
   * must unpack it into w, x, y, z, and rows up to 27 must exist.
   */
  function RotationUpdateOutcome(filter: seq<int>, raw: Array2): Outcome
  {
    match Take(raw, filter)
    case None => Raised(IndexError)
    case Some(g) =>
      if |g.rows| == 0 then Raised(IndexError)
      else if g.width != 4 then Raised(ValueError)
      else if |g.rows| < PREROTATED_ROWS then Raised(IndexError)
      else Done
  }

  /**
   * The position update is rejected as shape-mismatched exactly for a raw
   * array whose rows are not three wide, and goes through for every 3-wide
   * array whose rows the filter can all select.
   */
  lemma PositionUpdateCases(filter: seq<int>, raw: Array2)
    ensures PositionUpdateOutcome(filter, raw) == Done <==> AllInBounds(filter, |raw.rows|) && raw.width == 3
    ensures PositionUpdateOutcome(filter, raw) == Ignored <==> AllInBounds(filter, |raw.rows|) && raw.width != 3
  {
  }

  /**
   * The rotation update is never rejected by its shape check: with fewer than
   * 28 filtered joints every call raises, and otherwise a 4-wide array whose
   * rows the filter can select is always applied.
   */
  lemma RotationUpdateCases(filter: seq<int>, raw: Array2)
    ensures RotationUpdateOutcome(filter, raw) != Ignored
    ensures |filter| < PREROTATED_ROWS ==> RotationUpdateOutcome(filter, raw).Raised?
    ensures RotationUpdateOutcome(filter, raw) == Done <==>
              AllInBounds(filter, |raw.rows|) && raw.width == 4 && |filter| >= PREROTATED_ROWS
  {
  }

  /** setPosition's two matrices are inverse to each other. */
  lemma RootTransformsInverse(s: Skeleton)
    requires s.Valid()
    ensures Mul(s.skelTransform, s.skelInvTransform) == IDENTITY4
    ensures Mul(s.skelInvTransform, s.skelTransform) == IDENTITY4
  {
    TranslationInverse(s.rootPosition);
  }
}
