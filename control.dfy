/**
 * RayMarching/osc_control.py: the OSC address table and the handlers that
 * turn a message's flat argument tuple into one call on the skeleton or the
 * visualization. Arguments are Python numbers (ints or floats).
 */
module Control {
  import opened Geometry
  import opened PyValues
  import opened Rigging
  import opened Shading

  /** One handler method of OscControl. */
  datatype Handler =
    | MocapUpdateSmoothing | MocapSkeletonPosition | MocapJointPositions | MocapJointRotations
    | VisCamPosition | VisCamAngle | VisBGColor | VisObjectColor
    | VisLightPosition | VisLightAmbientScale | VisLightDiffuseScale | VisLightSpecularScale | VisLightSpecularPow
    | VisLightOcclusionScale | VisLightOcclusionRange | VisLightOcclusionResolution
    | VisJointPrimitive | VisJointSize | VisJointRounding | VisJointSmoothing
    | VisEdgePrimitive | VisEdgeSize | VisEdgeRounding | VisEdgeSmoothing
    | VisJointEdgeSmoothing
    | VisGroundPrimitive | VisGroundPosition | VisGroundRotation | VisGroundSize | VisGroundRounding | VisGroundSmoothing

  /** The one setter call a handler makes, with its decoded arguments. */
  datatype Call =
    | UpdateSmoothing(value: real)
    | SkeletonPosition(vector: seq<real>)
    | JointPositions(grid: Array2)
    | JointRotations(grid: Array2, integral: bool)
    | CamPosition(vector: seq<real>)
    | CamAngle(vector: seq<real>)
    | BGColor(vector: seq<real>)
    | ObjectColor(vector: seq<real>)
    | LightPosition(vector: seq<real>)
    | LightAmbientScale(value: real)
    | LightDiffuseScale(value: real)
    | LightSpecularScale(value: real)
    | LightSpecularPow(value: real)
    | LightOcclusionScale(value: real)
    | LightOcclusionRange(value: real)
    | LightOcclusionResolution(value: real)
    | JointPrimitives(number: Number)
    | JointPrimitive(index: Number, number: Number)
    | JointSizes(size: Vec3)
    | JointSize(index: Number, size: Vec3)
    | JointRoundings(number: Number)
    | JointRounding(index: Number, number: Number)
    | JointSmoothings(number: Number)
    | JointSmoothing(index: Number, number: Number)
    | EdgePrimitives(number: Number)
    | EdgePrimitive(index: Number, number: Number)
    | EdgeSizes(size: Vec3)
    | EdgeSize(index: Number, size: Vec3)
    | EdgeRoundings(number: Number)
    | EdgeRounding(index: Number, number: Number)
    | EdgeSmoothings(number: Number)
    | EdgeSmoothing(index: Number, number: Number)
    | JointEdgeSmoothing(value: real)
    | GroundPrimitive(number: Number)
    | GroundPosition(vector: seq<real>)
    | GroundRotation(vector: seq<real>)
    | GroundSize(vector: seq<real>)
    | GroundRounding(value: real)
    | GroundSmoothing(value: real)

  /** What a handler does with a message: one call, no call, or an exception before any call. */
  datatype Reaction = Calls(call: Call) | NoCall | Fails(error: PyError)

  /** A table call that sets every entry (as opposed to the one at an index). */
  predicate Broadcasts(c: Call)
  {
    c.JointPrimitives? || c.JointSizes? || c.JointRoundings? || c.JointSmoothings?
    || c.EdgePrimitives? || c.EdgeSizes? || c.EdgeRoundings? || c.EdgeSmoothings?
  }

  predicate TargetsSkeleton(c: Call)
  {
    c.UpdateSmoothing? || c.SkeletonPosition? || c.JointPositions? || c.JointRotations?
  }

  predicate TargetsTables(c: Call)
  {
    Broadcasts(c) || c.JointPrimitive? || c.JointSize? || c.JointRounding? || c.JointSmoothing?
    || c.EdgePrimitive? || c.EdgeSize? || c.EdgeRounding? || c.EdgeSmoothing?
  }

  /** The calls that recompute the ground transform. */
  predicate MovesGround(c: Call)
  {
    c.GroundPosition? || c.GroundRotation?
  }

  // ===================== argument decoding =====================

  /** `np.array(args)` as a float vector. */
  function Reals(args: seq<Number>): (r: seq<real>)
    ensures |r| == |args| && forall k :: 0 <= k < |args| ==> r[k] == ToReal(args[k])
  {
    seq(|args|, k requires 0 <= k < |args| => ToReal(args[k]))
  }

  /**
   * Whether `np.array(args)` has an integer dtype: every number is an int
   * (an empty tuple gives a float array).
   */
  predicate IntegerDtype(args: seq<Number>)
  {
    |args| > 0 && forall k :: 0 <= k < |args| ==> args[k].Int?
  }

  /** A handler that forwards `args[0]`; an empty tuple raises IndexError. */
  function FirstArgument(args: seq<Number>, make: real -> Call): Reaction
  {
    if |args| == 0 then Fails(IndexError) else Calls(make(ToReal(args[0])))
  }

  /** One argument sets every entry, two set the entry at args[0]; any other count is dropped. */
  function ByCount(args: seq<Number>, all: Number -> Call, one: (Number, Number) -> Call): Reaction
  {
    if |args| == 1 then Calls(all(args[0]))
    else if |args| == 2 then Calls(one(args[0], args[1]))
    else NoCall
  }

  /** Three arguments set every size row, four set the row at args[0]; any other count is dropped. */
  function SizeByCount(args: seq<Number>, all: Vec3 -> Call, one: (Number, Vec3) -> Call): Reaction
  {
    if |args| == 3 then Calls(all(Vec3(ToReal(args[0]), ToReal(args[1]), ToReal(args[2]))))
    else if |args| == 4 then Calls(one(args[0], Vec3(ToReal(args[1]), ToReal(args[2]), ToReal(args[3]))))
    else NoCall
  }

  lemma MulBounds(w: int, d: int)
    requires 0 <= w
    ensures 1 <= d ==> w <= w * d
    ensures d <= -1 ==> w * d <= -w
  {
    if 1 <= d {
      assert w * d == w * (d - 1) + w;
    } else if d <= -1 {
      assert w * d == -(w * (-d - 1)) - w;
    }
  }

  /** Entry c of row i of a reshaped tuple is argument width * i + c. */
  lemma SlotInArgs(count: nat, width: nat, i: nat, c: nat)
    requires 0 < width && count % width == 0 && i < count / width && c < width
    ensures width * i + c < count
  {
    var n := count / width;
    assert count == width * n;
    MulBounds(width, n - i);
    assert width * n - width * i == width * (n - i);
  }

  /** Argument width * i + p sits in row i, column p. */
  lemma DivModSlot(w: nat, i: nat, p: nat)
    requires p < w
    ensures (w * i + p) / w == i && (w * i + p) % w == p
  {
    var n := w * i + p;
    var q, r := n / w, n % w;
    assert w * (q - i) == p - r;
    MulBounds(w, q - i);
  }

  /** Entry c of row i once the tuple is reshaped into rows of `width`. */
  function Cell(args: seq<Number>, width: nat, i: nat, c: nat): real
    requires 0 < width && |args| % width == 0 && i < |args| / width && c < width
  {
    SlotInArgs(|args|, width, i, c);
    ToReal(args[width * i + c])
  }

  /** A column order: output column c is read from input column perm[c]. */
  predicate IsColumnOrder(perm: seq<nat>, width: nat)
  {
    |perm| == width && forall c :: 0 <= c < width ==> perm[c] < width
  }

  /** Right-handed to left-handed positions: x and y trade places. */
  const XY_SWAP: seq<nat> := [1, 0, 2]
  /** The rotation components 1 and 2 trade places. */
  const XY_QUAT_SWAP: seq<nat> := [0, 2, 1, 3]

  /**
   * `np.reshape(np.array(args), (-1, width))` followed by the column
   * overwrite from a copy: row i, column c is argument width * i + perm[c].
   * reshape raises ValueError (None) unless the count divides evenly.
   */
  function Regrouped(args: seq<Number>, width: nat, perm: seq<nat>): (r: Option<Array2>)
    requires 0 < width && IsColumnOrder(perm, width)
    ensures r.Some? <==> |args| % width == 0
    ensures r.Some? ==> r.value.width == width && |r.value.rows| == |args| / width
  {
    if |args| % width != 0 then None
    else
      var n := |args| / width;
      var g: Array2 := Grid(width, seq(n, i requires 0 <= i < n =>
        seq(width, c requires 0 <= c < width => Cell(args, width, i, perm[c]))));
      Some(g)
  }

  /** Row i, column c of the regrouped tuple is argument width * i + perm[c]. */
  lemma RegroupedCell(args: seq<Number>, width: nat, perm: seq<nat>, i: nat, c: nat)
    requires 0 < width && IsColumnOrder(perm, width) && |args| % width == 0
    requires i < |args| / width && c < width
    ensures width * i + perm[c] < |args|
    ensures Regrouped(args, width, perm).value.rows[i][c] == Cell(args, width, i, perm[c]) == ToReal(args[width * i + perm[c]])
  {
    SlotInArgs(|args|, width, i, perm[c]);
  }

  /** setMocapJointPositions' decoding. */
  function PositionRows(args: seq<Number>): Option<Array2>
  {
    Regrouped(args, 3, XY_SWAP)
  }

  /** setMocapJointRotations' decoding. */
  function RotationRows(args: seq<Number>): Option<Array2>
  {
    Regrouped(args, 4, XY_QUAT_SWAP)
  }

  /**
   * Positions decode exactly when the count is a multiple of three, into
   * count / 3 rows whose row i is (a[3i+1], a[3i], a[3i+2]).
   */
  lemma PositionRowsShape(args: seq<Number>, i: nat)
    ensures PositionRows(args).Some? <==> |args| % 3 == 0
    ensures PositionRows(args).Some? ==> PositionRows(args).value.width == 3 && |PositionRows(args).value.rows| == |args| / 3
    ensures PositionRows(args).Some? && i < |args| / 3 ==>
      PositionRows(args).value.rows[i] == [ToReal(args[3 * i + 1]), ToReal(args[3 * i]), ToReal(args[3 * i + 2])]
  {
    if |args| % 3 == 0 && i < |args| / 3 {
      RegroupedCell(args, 3, XY_SWAP, i, 0);
      RegroupedCell(args, 3, XY_SWAP, i, 1);
      RegroupedCell(args, 3, XY_SWAP, i, 2);
    }
  }

  /**
   * Rotations decode exactly when the count is a multiple of four, into
   * count / 4 rows whose row i is (a[4i], a[4i+2], a[4i+1], a[4i+3]).
   */
  lemma RotationRowsShape(args: seq<Number>, i: nat)
    ensures RotationRows(args).Some? <==> |args| % 4 == 0
    ensures RotationRows(args).Some? ==> RotationRows(args).value.width == 4 && |RotationRows(args).value.rows| == |args| / 4
    ensures RotationRows(args).Some? && i < |args| / 4 ==>
      RotationRows(args).value.rows[i]
        == [ToReal(args[4 * i]), ToReal(args[4 * i + 2]), ToReal(args[4 * i + 1]), ToReal(args[4 * i + 3])]
  {
    if |args| % 4 == 0 && i < |args| / 4 {
      RegroupedCell(args, 4, XY_QUAT_SWAP, i, 0);
      RegroupedCell(args, 4, XY_QUAT_SWAP, i, 1);
      RegroupedCell(args, 4, XY_QUAT_SWAP, i, 2);
      RegroupedCell(args, 4, XY_QUAT_SWAP, i, 3);
    }
  }

  /** The flat tuple a sender transmits for a grid: row by row, each row in column order perm. */
  function Flattened(g: Array2, perm: seq<nat>): (r: seq<Number>)
    requires 0 < g.width && IsColumnOrder(perm, g.width)
    ensures |r| == g.width * |g.rows|
    decreases |g.rows|
  {
    if g.rows == [] then []
    else
      var front: Array2 := Grid(g.width, g.rows[..|g.rows| - 1]);
      var last := g.rows[|g.rows| - 1];
      Flattened(front, perm) + seq(g.width, c requires 0 <= c < g.width => Float(last[perm[c]]))
  }

  lemma {:induction false} FlattenedSlot(g: Array2, perm: seq<nat>, i: nat, c: nat)
    requires 0 < g.width && IsColumnOrder(perm, g.width) && i < |g.rows| && c < g.width
    ensures g.width * i + c < |Flattened(g, perm)|
    ensures Flattened(g, perm)[g.width * i + c] == Float(g.rows[i][perm[c]])
    decreases |g.rows|
  {
    var w := g.width;
    var front: Array2 := Grid(w, g.rows[..|g.rows| - 1]);
    MulBounds(w, |g.rows| - 1 - i);
    assert w * (|g.rows| - 1) - w * i == w * (|g.rows| - 1 - i);
    if i < |g.rows| - 1 {
      FlattenedSlot(front, perm, i, c);
    }
  }

  /** A column order applied twice is the identity. */
  predicate IsInvolution(perm: seq<nat>, width: nat)
    requires IsColumnOrder(perm, width)
  {
    forall c :: 0 <= c < width ==> perm[perm[c]] == c
  }

  /**
   * The column swap undoes itself: decoding the tuple a sender flattens with
   * the same swap gives the sender's grid back.
   */
  lemma RegroupedRoundTrip(g: Array2, perm: seq<nat>)
    requires 0 < g.width && IsColumnOrder(perm, g.width) && IsInvolution(perm, g.width)
    ensures Regrouped(Flattened(g, perm), g.width, perm) == Some(g)
  {
    var w, n := g.width, |g.rows|;
    var args := Flattened(g, perm);
    DivModSlot(w, n, 0);
    assert |args| % w == 0 && |args| / w == n;
    var r := Regrouped(args, w, perm).value;
    forall i | 0 <= i < n
      ensures r.rows[i] == g.rows[i]
    {
      forall c | 0 <= c < w
        ensures r.rows[i][c] == g.rows[i][c]
      {
        RegroupedCell(args, w, perm, i, c);
        FlattenedSlot(g, perm, i, perm[c]);
      }
    }
    assert r.rows == g.rows;
  }

  lemma SwapsAreInvolutions()
    ensures IsColumnOrder(XY_SWAP, 3) && IsInvolution(XY_SWAP, 3)
    ensures IsColumnOrder(XY_QUAT_SWAP, 4) && IsInvolution(XY_QUAT_SWAP, 4)
  {
  }

  /** A position grid sent with x and y swapped decodes to itself. */
  lemma PositionRoundTrip(g: Array2)
    requires g.width == 3
    ensures PositionRows(Flattened(g, XY_SWAP)) == Some(g)
  {
    SwapsAreInvolutions();
    RegroupedRoundTrip(g, XY_SWAP);
  }

  /** A rotation grid sent with components 1 and 2 swapped decodes to itself. */
  lemma RotationRoundTrip(g: Array2)
    requires g.width == 4
    ensures RotationRows(Flattened(g, XY_QUAT_SWAP)) == Some(g)
  {
    SwapsAreInvolutions();
    RegroupedRoundTrip(g, XY_QUAT_SWAP);
  }

  /** `np.reshape(np.array(args), (-1, width))`: a fresh array filled row by row. */
  method Reshaped(args: seq<Number>, width: nat) returns (a: array2<real>)
    requires 0 < width && |args| % width == 0
    ensures fresh(a) && a.Length0 == |args| / width && a.Length1 == width
    ensures forall i, c :: 0 <= i < a.Length0 && 0 <= c < width ==> a[i, c] == Cell(args, width, i, c)
  {
    var n := |args| / width;
    a := new real[n, width]((i, c) requires 0 <= i < n && 0 <= c < width => Cell(args, width, i, c));
  }

  /** The rows of a numpy matrix, as a value. */
  function Rows(a: array2<real>): (r: Array2)
    reads a
    ensures r.width == a.Length1 && |r.rows| == a.Length0
    ensures forall i, c :: 0 <= i < a.Length0 && 0 <= c < a.Length1 ==> r.rows[i][c] == a[i, c]
  {
    Grid(a.Length1, seq(a.Length0, i reads a requires 0 <= i < a.Length0 =>
      seq(a.Length1, c reads a requires 0 <= c < a.Length1 => a[i, c])))
  }

  /** Right-handed to left-handed: copy the matrix, then write column 0 from 1, 1 from 0, 2 from 2. */
  method SwapPositionAxes(positions: array2<real>)
    requires positions.Length1 == 3
    modifies positions
    ensures forall i :: 0 <= i < positions.Length0 ==>
      && positions[i, 0] == old(positions[i, 1])
      && positions[i, 1] == old(positions[i, 0])
      && positions[i, 2] == old(positions[i, 2])
  {
    var n := positions.Length0;
    var tmp := new real[n, 3]((i, c) reads positions requires 0 <= i < n && 0 <= c < 3 => positions[i, c]);
    forall i | 0 <= i < n {
      positions[i, 0] := tmp[i, 1];
    }
    forall i | 0 <= i < n {
      positions[i, 1] := tmp[i, 0];
    }
    forall i | 0 <= i < n {
      positions[i, 2] := tmp[i, 2];
    }
  }

  /** Copy the matrix, then write column 0 from 0, 1 from 2, 2 from 1, 3 from 3. */
  method SwapRotationAxes(rotations: array2<real>)
    requires rotations.Length1 == 4
    modifies rotations
    ensures forall i :: 0 <= i < rotations.Length0 ==>
      && rotations[i, 0] == old(rotations[i, 0])
      && rotations[i, 1] == old(rotations[i, 2])
      && rotations[i, 2] == old(rotations[i, 1])
      && rotations[i, 3] == old(rotations[i, 3])
  {
    var n := rotations.Length0;
    var tmp := new real[n, 4]((i, c) reads rotations requires 0 <= i < n && 0 <= c < 4 => rotations[i, c]);
    forall i | 0 <= i < n {
      rotations[i, 0] := tmp[i, 0];
    }
    forall i | 0 <= i < n {
      rotations[i, 1] := tmp[i, 2];
    }
    forall i | 0 <= i < n {
      rotations[i, 2] := tmp[i, 1];
    }
    forall i | 0 <= i < n {
      rotations[i, 3] := tmp[i, 3];
    }
  }

  /** setMocapJointPositions' decoding as written: reshape, then swap x and y in place. */
  method DecodeJointPositions(args: seq<Number>) returns (r: Option<Array2>)
    ensures r == PositionRows(args)
  {
    if |args| % 3 != 0 {
      return None;
    }
    var positions := Reshaped(args, 3);
    SwapPositionAxes(positions);
    var g := Rows(positions);
    ghost var expected := PositionRows(args).value;
    forall i | 0 <= i < |g.rows|
      ensures g.rows[i] == expected.rows[i]
    {
      PositionRowsShape(args, i);
    }
    assert g.rows == expected.rows;
    r := Some(g);
  }

  /** setMocapJointRotations' decoding as written: reshape, then swap components 1 and 2 in place. */
  method DecodeJointRotations(args: seq<Number>) returns (r: Option<Array2>, integral: bool)
    ensures r == RotationRows(args)
    ensures integral <==> |args| > 0 && forall k :: 0 <= k < |args| ==> args[k].Int?
  {
    integral := IntegerDtype(args);
    if |args| % 4 != 0 {
      return None, integral;
    }
    var rotations := Reshaped(args, 4);
    SwapRotationAxes(rotations);
    var g := Rows(rotations);
    ghost var expected := RotationRows(args).value;
    forall i | 0 <= i < |g.rows|
      ensures g.rows[i] == expected.rows[i]
    {
      RotationRowsShape(args, i);
    }
    assert g.rows == expected.rows;
    r := Some(g);
  }

  /** What each handler does with an argument tuple. */
  function Decode(h: Handler, args: seq<Number>): Reaction
  {
    match h
    case MocapUpdateSmoothing => FirstArgument(args, v => UpdateSmoothing(v))
    case MocapSkeletonPosition => Calls(SkeletonPosition(Reals(args)))
    case MocapJointPositions =>
      (match PositionRows(args) case None => Fails(ValueError) case Some(g) => Calls(JointPositions(g)))
    case MocapJointRotations =>
      (match RotationRows(args)
       case None => Fails(ValueError)
       case Some(g) => Calls(JointRotations(g, IntegerDtype(args))))
    case VisCamPosition => Calls(CamPosition(Reals(args)))
    case VisCamAngle => Calls(CamAngle(Reals(args)))
    case VisBGColor => Calls(BGColor(Reals(args)))
    case VisObjectColor => Calls(ObjectColor(Reals(args)))
    case VisLightPosition => Calls(LightPosition(Reals(args)))
    case VisLightAmbientScale => FirstArgument(args, v => LightAmbientScale(v))
    case VisLightDiffuseScale => FirstArgument(args, v => LightDiffuseScale(v))
    case VisLightSpecularScale => FirstArgument(args, v => LightSpecularScale(v))
    case VisLightSpecularPow => FirstArgument(args, v => LightSpecularPow(v))
    case VisLightOcclusionScale => FirstArgument(args, v => LightOcclusionScale(v))
    case VisLightOcclusionRange => FirstArgument(args, v => LightOcclusionRange(v))
    case VisLightOcclusionResolution => FirstArgument(args, v => LightOcclusionResolution(v))
    case VisJointPrimitive => ByCount(args, n => JointPrimitives(n), (i, n) => JointPrimitive(i, n))
    case VisJointSize => SizeByCount(args, s => JointSizes(s), (i, s) => JointSize(i, s))
    case VisJointRounding => ByCount(args, n => JointRoundings(n), (i, n) => JointRounding(i, n))
    case VisJointSmoothing => ByCount(args, n => JointSmoothings(n), (i, n) => JointSmoothing(i, n))
    case VisEdgePrimitive => ByCount(args, n => EdgePrimitives(n), (i, n) => EdgePrimitive(i, n))
    case VisEdgeSize => SizeByCount(args, s => EdgeSizes(s), (i, s) => EdgeSize(i, s))
    case VisEdgeRounding => ByCount(args, n => EdgeRoundings(n), (i, n) => EdgeRounding(i, n))
    case VisEdgeSmoothing => ByCount(args, n => EdgeSmoothings(n), (i, n) => EdgeSmoothing(i, n))
    case VisJointEdgeSmoothing => FirstArgument(args, v => JointEdgeSmoothing(v))
    case VisGroundPrimitive => if |args| == 0 then Fails(IndexError) else Calls(GroundPrimitive(args[0]))
    case VisGroundPosition => Calls(GroundPosition(Reals(args)))
    case VisGroundRotation => Calls(GroundRotation(Reals(args)))
    case VisGroundSize => Calls(GroundSize(Reals(args)))
    case VisGroundRounding => FirstArgument(args, v => GroundRounding(v))
    case VisGroundSmoothing => FirstArgument(args, v => GroundSmoothing(v))
  }

  /** The handlers that forward their first argument as one scalar. */
  predicate ForwardsFirst(h: Handler)
  {
    h in {MocapUpdateSmoothing, VisLightAmbientScale, VisLightDiffuseScale, VisLightSpecularScale,
          VisLightSpecularPow, VisLightOcclusionScale, VisLightOcclusionRange, VisLightOcclusionResolution,
          VisJointEdgeSmoothing, VisGroundRounding, VisGroundSmoothing}
  }

  /** The primitive, rounding and smoothing handlers of both tables. */
  predicate DispatchesByCount(h: Handler)
  {
    h in {VisJointPrimitive, VisJointRounding, VisJointSmoothing,
          VisEdgePrimitive, VisEdgeRounding, VisEdgeSmoothing}
  }

  /**
   * A scalar handler calls its setter with args[0] unchanged, and raises
   * IndexError before any call when the tuple is empty.
   */
  lemma ScalarHandlersForwardFirst(h: Handler, args: seq<Number>)
    requires ForwardsFirst(h)
    ensures Decode(h, args).Calls? <==> |args| > 0
    ensures |args| == 0 ==> Decode(h, args) == Fails(IndexError)
    ensures |args| > 0 ==> Decode(h, args).call.value == ToReal(args[0])
  {
  }

  /**
   * The table handlers dispatch on the argument count: one argument sets the
   * whole table to it, two set entry args[0] to args[1], anything else
   * makes no call.
   */
  lemma TableHandlersDispatchByCount(h: Handler, args: seq<Number>)
    requires DispatchesByCount(h)
    ensures |args| == 1 <==> Decode(h, args).Calls? && Broadcasts(Decode(h, args).call)
    ensures |args| == 2 <==> Decode(h, args).Calls? && !Broadcasts(Decode(h, args).call)
    ensures |args| == 1 ==> Decode(h, args).call.number == args[0]
    ensures |args| == 2 ==> Decode(h, args).call.index == args[0] && Decode(h, args).call.number == args[1]
    ensures |args| != 1 && |args| != 2 <==> Decode(h, args) == NoCall
  {
  }

  /**
   * The size handlers: three arguments set every row to them, four set row
   * args[0] to the last three, anything else makes no call.
   */
  lemma SizeHandlersDispatchByCount(h: Handler, args: seq<Number>)
    requires h == VisJointSize || h == VisEdgeSize
    ensures |args| == 3 <==> Decode(h, args).Calls? && Broadcasts(Decode(h, args).call)
    ensures |args| == 4 <==> Decode(h, args).Calls? && !Broadcasts(Decode(h, args).call)
    ensures |args| == 3 ==> Decode(h, args).call.size == Vec3(ToReal(args[0]), ToReal(args[1]), ToReal(args[2]))
    ensures |args| == 4 ==>
      Decode(h, args).call.index == args[0] && Decode(h, args).call.size == Vec3(ToReal(args[1]), ToReal(args[2]), ToReal(args[3]))
    ensures |args| != 3 && |args| != 4 <==> Decode(h, args) == NoCall
  {
  }

  /**
   * Positions that arrive over OSC are always three wide, so the
   * skeleton's shape check never drops them: the update either applies or
   * raises IndexError for a filter index past the rows sent.
   */
  lemma OscPositionsNeverShapeRejected(filter: seq<int>, args: seq<Number>)
    requires |args| % 3 == 0
    ensures PositionUpdateOutcome(filter, PositionRows(args).value) != Ignored
    ensures PositionUpdateOutcome(filter, PositionRows(args).value) == Done <==> AllInBounds(filter, |args| / 3)
  {
  }

  /**
   * Rotations that arrive over OSC are always four wide: qmult's ValueError
   * cannot happen, only IndexError for too few rows.
   */
  lemma OscRotationsOnlyIndexErrors(filter: seq<int>, args: seq<Number>)
    requires |args| % 4 == 0
    ensures RotationUpdateOutcome(filter, RotationRows(args).value) != Raised(ValueError)
    ensures RotationUpdateOutcome(filter, RotationRows(args).value) == Done
        <==> AllInBounds(filter, |args| / 4) && |filter| >= PREROTATED_ROWS
  {
  }

  // ===================== routing =====================

  /** The dispatcher's address table. */
  const ADDRESSES: map<string, Handler> := map[
    "/mocap/updatesmoothing" := MocapUpdateSmoothing,
    "/mocap/skelposworld" := MocapSkeletonPosition,
    "/mocap/joint/pos_world" := MocapJointPositions,
    "/mocap/0/joint/pos_world" := MocapJointPositions,
    "/mocap/joint/rot_world" := MocapJointRotations,
    "/mocap/0/joint/rot_world" := MocapJointRotations,
    "/vis/camposition" := VisCamPosition,
    "/vis/camangle" := VisCamAngle,
    "/vis/bgcolor" := VisBGColor,
    "/vis/objectcolor" := VisObjectColor,
    "/vis/lightposition" := VisLightPosition,
    "/vis/lightambientscale" := VisLightAmbientScale,
    "/vis/lightdiffusescale" := VisLightDiffuseScale,
    "/vis/lightspecularscale" := VisLightSpecularScale,
    "/vis/lightspecularpow" := VisLightSpecularPow,
    "/vis/lightocclusionscale" := VisLightOcclusionScale,
    "/vis/lightocclusionrange" := VisLightOcclusionRange,
    "/vis/lightocclusionresolution" := VisLightOcclusionResolution,
    "/vis/jointprimitive" := VisJointPrimitive,
    "/vis/jointsize" := VisJointSize,
    "/vis/jointround" := VisJointRounding,
    "/vis/jointsmooth" := VisJointSmoothing,
    "/vis/edgeprimitive" := VisEdgePrimitive,
    "/vis/edgesize" := VisEdgeSize,
    "/vis/edgeround" := VisEdgeRounding,
    "/vis/edgesmooth" := VisEdgeSmoothing,
    "/vis/jointedgesmooth" := VisJointEdgeSmoothing,
    "/vis/groundprimitive" := VisGroundPrimitive,
    "/vis/groundposition" := VisGroundPosition,
    "/vis/groundrotation" := VisGroundRotation,
    "/vis/groundsize" := VisGroundSize,
    "/vis/groundround" := VisGroundRounding,
    "/vis/groundsmooth" := VisGroundSmoothing
  ]

  /** The address each handler is known by; the two mocap streams also have a "/mocap/0/..." alias. */
  function PrimaryAddress(h: Handler): string
  {
    match h
    case MocapUpdateSmoothing => "/mocap/updatesmoothing"
    case MocapSkeletonPosition => "/mocap/skelposworld"
    case MocapJointPositions => "/mocap/joint/pos_world"
    case MocapJointRotations => "/mocap/joint/rot_world"
    case VisCamPosition => "/vis/camposition"
    case VisCamAngle => "/vis/camangle"
    case VisBGColor => "/vis/bgcolor"
    case VisObjectColor => "/vis/objectcolor"
    case VisLightPosition => "/vis/lightposition"
    case VisLightAmbientScale => "/vis/lightambientscale"
    case VisLightDiffuseScale => "/vis/lightdiffusescale"
    case VisLightSpecularScale => "/vis/lightspecularscale"
    case VisLightSpecularPow => "/vis/lightspecularpow"
    case VisLightOcclusionScale => "/vis/lightocclusionscale"
    case VisLightOcclusionRange => "/vis/lightocclusionrange"
    case VisLightOcclusionResolution => "/vis/lightocclusionresolution"
    case VisJointPrimitive => "/vis/jointprimitive"
    case VisJointSize => "/vis/jointsize"
    case VisJointRounding => "/vis/jointround"
    case VisJointSmoothing => "/vis/jointsmooth"
    case VisEdgePrimitive => "/vis/edgeprimitive"
    case VisEdgeSize => "/vis/edgesize"
    case VisEdgeRounding => "/vis/edgeround"
    case VisEdgeSmoothing => "/vis/edgesmooth"
    case VisJointEdgeSmoothing => "/vis/jointedgesmooth"
    case VisGroundPrimitive => "/vis/groundprimitive"
    case VisGroundPosition => "/vis/groundposition"
    case VisGroundRotation => "/vis/groundrotation"
    case VisGroundSize => "/vis/groundsize"
    case VisGroundRounding => "/vis/groundround"
    case VisGroundSmoothing => "/vis/groundsmooth"
  }

  /** The motion-capture addresses, aliases included. */
  lemma MocapAddresses()
    ensures "/mocap/updatesmoothing" in ADDRESSES && ADDRESSES["/mocap/updatesmoothing"] == MocapUpdateSmoothing
    ensures "/mocap/skelposworld" in ADDRESSES && ADDRESSES["/mocap/skelposworld"] == MocapSkeletonPosition
    ensures "/mocap/joint/pos_world" in ADDRESSES && ADDRESSES["/mocap/joint/pos_world"] == MocapJointPositions
    ensures "/mocap/0/joint/pos_world" in ADDRESSES && ADDRESSES["/mocap/0/joint/pos_world"] == MocapJointPositions
    ensures "/mocap/joint/rot_world" in ADDRESSES && ADDRESSES["/mocap/joint/rot_world"] == MocapJointRotations
    ensures "/mocap/0/joint/rot_world" in ADDRESSES && ADDRESSES["/mocap/0/joint/rot_world"] == MocapJointRotations
  {
    MocapSettingAddresses();
    MocapStreamAddresses();
  }

  lemma MocapSettingAddresses()
    ensures "/mocap/updatesmoothing" in ADDRESSES && ADDRESSES["/mocap/updatesmoothing"] == MocapUpdateSmoothing
    ensures "/mocap/skelposworld" in ADDRESSES && ADDRESSES["/mocap/skelposworld"] == MocapSkeletonPosition
  {
  }

  lemma MocapStreamAddresses()
    ensures "/mocap/joint/pos_world" in ADDRESSES && ADDRESSES["/mocap/joint/pos_world"] == MocapJointPositions
    ensures "/mocap/0/joint/pos_world" in ADDRESSES && ADDRESSES["/mocap/0/joint/pos_world"] == MocapJointPositions
    ensures "/mocap/joint/rot_world" in ADDRESSES && ADDRESSES["/mocap/joint/rot_world"] == MocapJointRotations
    ensures "/mocap/0/joint/rot_world" in ADDRESSES && ADDRESSES["/mocap/0/joint/rot_world"] == MocapJointRotations
  {
  }

  /** The camera, colour and light addresses. */
  lemma SceneAddresses()
    ensures "/vis/camposition" in ADDRESSES && ADDRESSES["/vis/camposition"] == VisCamPosition
    ensures "/vis/camangle" in ADDRESSES && ADDRESSES["/vis/camangle"] == VisCamAngle
    ensures "/vis/bgcolor" in ADDRESSES && ADDRESSES["/vis/bgcolor"] == VisBGColor
    ensures "/vis/objectcolor" in ADDRESSES && ADDRESSES["/vis/objectcolor"] == VisObjectColor
    ensures "/vis/lightposition" in ADDRESSES && ADDRESSES["/vis/lightposition"] == VisLightPosition
    ensures "/vis/lightambientscale" in ADDRESSES && ADDRESSES["/vis/lightambientscale"] == VisLightAmbientScale
    ensures "/vis/lightdiffusescale" in ADDRESSES && ADDRESSES["/vis/lightdiffusescale"] == VisLightDiffuseScale
    ensures "/vis/lightspecularscale" in ADDRESSES && ADDRESSES["/vis/lightspecularscale"] == VisLightSpecularScale
    ensures "/vis/lightspecularpow" in ADDRESSES && ADDRESSES["/vis/lightspecularpow"] == VisLightSpecularPow
    ensures "/vis/lightocclusionscale" in ADDRESSES && ADDRESSES["/vis/lightocclusionscale"] == VisLightOcclusionScale
    ensures "/vis/lightocclusionrange" in ADDRESSES && ADDRESSES["/vis/lightocclusionrange"] == VisLightOcclusionRange
    ensures "/vis/lightocclusionresolution" in ADDRESSES && ADDRESSES["/vis/lightocclusionresolution"] == VisLightOcclusionResolution
  {
    ViewAddresses();
    LightAddresses();
  }

  lemma ViewAddresses()
    ensures "/vis/camposition" in ADDRESSES && ADDRESSES["/vis/camposition"] == VisCamPosition
    ensures "/vis/camangle" in ADDRESSES && ADDRESSES["/vis/camangle"] == VisCamAngle
    ensures "/vis/bgcolor" in ADDRESSES && ADDRESSES["/vis/bgcolor"] == VisBGColor
    ensures "/vis/objectcolor" in ADDRESSES && ADDRESSES["/vis/objectcolor"] == VisObjectColor
    ensures "/vis/lightposition" in ADDRESSES && ADDRESSES["/vis/lightposition"] == VisLightPosition
  {
  }

  lemma LightAddresses()
    ensures "/vis/lightambientscale" in ADDRESSES && ADDRESSES["/vis/lightambientscale"] == VisLightAmbientScale
    ensures "/vis/lightdiffusescale" in ADDRESSES && ADDRESSES["/vis/lightdiffusescale"] == VisLightDiffuseScale
    ensures "/vis/lightspecularscale" in ADDRESSES && ADDRESSES["/vis/lightspecularscale"] == VisLightSpecularScale
    ensures "/vis/lightspecularpow" in ADDRESSES && ADDRESSES["/vis/lightspecularpow"] == VisLightSpecularPow
    ensures "/vis/lightocclusionscale" in ADDRESSES && ADDRESSES["/vis/lightocclusionscale"] == VisLightOcclusionScale
    ensures "/vis/lightocclusionrange" in ADDRESSES && ADDRESSES["/vis/lightocclusionrange"] == VisLightOcclusionRange
    ensures "/vis/lightocclusionresolution" in ADDRESSES && ADDRESSES["/vis/lightocclusionresolution"] == VisLightOcclusionResolution
  {
  }

  /** The joint and edge table addresses and the joint-edge blend. */
  lemma TableAddresses()
    ensures "/vis/jointprimitive" in ADDRESSES && ADDRESSES["/vis/jointprimitive"] == VisJointPrimitive
    ensures "/vis/jointsize" in ADDRESSES && ADDRESSES["/vis/jointsize"] == VisJointSize
    ensures "/vis/jointround" in ADDRESSES && ADDRESSES["/vis/jointround"] == VisJointRounding
    ensures "/vis/jointsmooth" in ADDRESSES && ADDRESSES["/vis/jointsmooth"] == VisJointSmoothing
    ensures "/vis/edgeprimitive" in ADDRESSES && ADDRESSES["/vis/edgeprimitive"] == VisEdgePrimitive
    ensures "/vis/edgesize" in ADDRESSES && ADDRESSES["/vis/edgesize"] == VisEdgeSize
    ensures "/vis/edgeround" in ADDRESSES && ADDRESSES["/vis/edgeround"] == VisEdgeRounding
    ensures "/vis/edgesmooth" in ADDRESSES && ADDRESSES["/vis/edgesmooth"] == VisEdgeSmoothing
    ensures "/vis/jointedgesmooth" in ADDRESSES && ADDRESSES["/vis/jointedgesmooth"] == VisJointEdgeSmoothing
  {
  }

  /** The ground plane addresses. */
  lemma GroundAddresses()
    ensures "/vis/groundprimitive" in ADDRESSES && ADDRESSES["/vis/groundprimitive"] == VisGroundPrimitive
    ensures "/vis/groundposition" in ADDRESSES && ADDRESSES["/vis/groundposition"] == VisGroundPosition
    ensures "/vis/groundrotation" in ADDRESSES && ADDRESSES["/vis/groundrotation"] == VisGroundRotation
    ensures "/vis/groundsize" in ADDRESSES && ADDRESSES["/vis/groundsize"] == VisGroundSize
    ensures "/vis/groundround" in ADDRESSES && ADDRESSES["/vis/groundround"] == VisGroundRounding
    ensures "/vis/groundsmooth" in ADDRESSES && ADDRESSES["/vis/groundsmooth"] == VisGroundSmoothing
  {
  }

  /** Every handler is reachable, through its primary address. */
  lemma EveryHandlerRouted(h: Handler)
    ensures PrimaryAddress(h) in ADDRESSES && ADDRESSES[PrimaryAddress(h)] == h
  {
    match h
    case MocapUpdateSmoothing | MocapSkeletonPosition | MocapJointPositions | MocapJointRotations =>
      MocapAddresses();
    case VisCamPosition | VisCamAngle | VisBGColor | VisObjectColor | VisLightPosition
       | VisLightAmbientScale | VisLightDiffuseScale | VisLightSpecularScale | VisLightSpecularPow
       | VisLightOcclusionScale | VisLightOcclusionRange | VisLightOcclusionResolution =>
      SceneAddresses();
    case VisJointPrimitive | VisJointSize | VisJointRounding | VisJointSmoothing
       | VisEdgePrimitive | VisEdgeSize | VisEdgeRounding | VisEdgeSmoothing | VisJointEdgeSmoothing =>
      TableAddresses();
    case VisGroundPrimitive | VisGroundPosition | VisGroundRotation | VisGroundSize
       | VisGroundRounding | VisGroundSmoothing =>
      GroundAddresses();
  }

  /**
   * The table holds nothing but the primary addresses and the two mocap
   * aliases, which lead to the position and the rotation handler.
   */
  lemma OnlyMocapStreamsAliased(address: string)
    requires address in ADDRESSES
    ensures address == PrimaryAddress(ADDRESSES[address])
         || (address == "/mocap/0/joint/pos_world" && ADDRESSES[address] == MocapJointPositions)
         || (address == "/mocap/0/joint/rot_world" && ADDRESSES[address] == MocapJointRotations)
  {
    if address in {"/mocap/updatesmoothing", "/mocap/skelposworld", "/mocap/joint/pos_world", "/mocap/0/joint/pos_world", "/mocap/joint/rot_world", "/mocap/0/joint/rot_world"} {
      AliasesInMocap(address);
    } else if address in {"/vis/camposition", "/vis/camangle", "/vis/bgcolor", "/vis/objectcolor", "/vis/lightposition", "/vis/lightambientscale", "/vis/lightdiffusescale", "/vis/lightspecularscale", "/vis/lightspecularpow", "/vis/lightocclusionscale", "/vis/lightocclusionrange", "/vis/lightocclusionresolution"} {
      AliasesInScene(address);
    } else if address in {"/vis/jointprimitive", "/vis/jointsize", "/vis/jointround", "/vis/jointsmooth", "/vis/edgeprimitive", "/vis/edgesize", "/vis/edgeround", "/vis/edgesmooth", "/vis/jointedgesmooth"} {
      AliasesInTable(address);
    } else {
      assert address in {"/vis/groundprimitive", "/vis/groundposition", "/vis/groundrotation", "/vis/groundsize", "/vis/groundround", "/vis/groundsmooth"};
      AliasesInGround(address);
    }
  }

  lemma AliasesInMocap(address: string)
    requires address in {"/mocap/updatesmoothing", "/mocap/skelposworld", "/mocap/joint/pos_world", "/mocap/0/joint/pos_world", "/mocap/joint/rot_world", "/mocap/0/joint/rot_world"}
    ensures address in ADDRESSES
    ensures address == PrimaryAddress(ADDRESSES[address])
         || (address == "/mocap/0/joint/pos_world" && ADDRESSES[address] == MocapJointPositions)
         || (address == "/mocap/0/joint/rot_world" && ADDRESSES[address] == MocapJointRotations)
  {
    MocapAddresses();
  }

  lemma AliasesInScene(address: string)
    requires address in {"/vis/camposition", "/vis/camangle", "/vis/bgcolor", "/vis/objectcolor", "/vis/lightposition", "/vis/lightambientscale", "/vis/lightdiffusescale", "/vis/lightspecularscale", "/vis/lightspecularpow", "/vis/lightocclusionscale", "/vis/lightocclusionrange", "/vis/lightocclusionresolution"}
    ensures address in ADDRESSES
    ensures address == PrimaryAddress(ADDRESSES[address])
         || (address == "/mocap/0/joint/pos_world" && ADDRESSES[address] == MocapJointPositions)
         || (address == "/mocap/0/joint/rot_world" && ADDRESSES[address] == MocapJointRotations)
  {
    SceneAddresses();
  }

  lemma AliasesInTable(address: string)
    requires address in {"/vis/jointprimitive", "/vis/jointsize", "/vis/jointround", "/vis/jointsmooth", "/vis/edgeprimitive", "/vis/edgesize", "/vis/edgeround", "/vis/edgesmooth", "/vis/jointedgesmooth"}
    ensures address in ADDRESSES
    ensures address == PrimaryAddress(ADDRESSES[address])
         || (address == "/mocap/0/joint/pos_world" && ADDRESSES[address] == MocapJointPositions)
         || (address == "/mocap/0/joint/rot_world" && ADDRESSES[address] == MocapJointRotations)
  {
    TableAddresses();
  }

  lemma AliasesInGround(address: string)
    requires address in {"/vis/groundprimitive", "/vis/groundposition", "/vis/groundrotation", "/vis/groundsize", "/vis/groundround", "/vis/groundsmooth"}
    ensures address in ADDRESSES
    ensures address == PrimaryAddress(ADDRESSES[address])
         || (address == "/mocap/0/joint/pos_world" && ADDRESSES[address] == MocapJointPositions)
         || (address == "/mocap/0/joint/rot_world" && ADDRESSES[address] == MocapJointRotations)
  {
    GroundAddresses();
  }

  /** What a message to `address` makes the dispatcher do: nothing if unmapped, else its handler's reaction. */
  function Route(address: string, args: seq<Number>): Option<Reaction>
  {
    if address in ADDRESSES then Some(Decode(ADDRESSES[address], args)) else None
  }

  /** Both position addresses, and both rotation addresses, react identically to every tuple. */
  lemma AliasesAgree(args: seq<Number>)
    ensures Route("/mocap/joint/pos_world", args) == Route("/mocap/0/joint/pos_world", args)
                                                  == Some(Decode(MocapJointPositions, args))
    ensures Route("/mocap/joint/rot_world", args) == Route("/mocap/0/joint/rot_world", args)
                                                  == Some(Decode(MocapJointRotations, args))
  {
    MocapAddresses();
  }

  // ===================== the controller =====================

  /**
   * The scene fields after a visualization call, given those before it: the
   * one field the setter assigns, and for the ground position and rotation
   * also the ground transform recomputed from the new pair (kept when the
   * pair is malformed and the recomputation raises). Other calls leave the
   * scene as it was.
   */
  function SceneAfter(lib: Numerics, s: Scene, c: Call): Scene
  {
    match c
    case CamPosition(v) => s.(camPosition := v)
    case CamAngle(v) => s.(camAngle := v)
    case BGColor(v) => s.(bgColor := v)
    case ObjectColor(v) => s.(objectColor := v)
    case LightPosition(v) => s.(lightPosition := v)
    case LightAmbientScale(v) => s.(lightAmbientScale := v)
    case LightDiffuseScale(v) => s.(lightDiffuseScale := v)
    case LightSpecularScale(v) => s.(lightSpecularScale := v)
    case LightSpecularPow(v) => s.(lightSpecularPow := v)
    case LightOcclusionScale(v) => s.(lightOcclusionScale := v)
    case LightOcclusionRange(v) => s.(lightOcclusionRange := v)
    case LightOcclusionResolution(v) => s.(lightOcclusionResolution := v)
    case JointEdgeSmoothing(v) => s.(jointEdgeSmoothing := v)
    case GroundPrimitive(n) => s.(groundPrimitive := n)
    case GroundPosition(v) =>
      s.(groundPosition := v,
         groundTransform := match GroundTransform(lib, v, s.groundRotation)
                            case Some(m) => m
                            case None => s.groundTransform)
    case GroundRotation(v) =>
      s.(groundRotation := v,
         groundTransform := match GroundTransform(lib, s.groundPosition, v)
                            case Some(m) => m
                            case None => s.groundTransform)
    case GroundSize(v) => s.(groundSize := v)
    case GroundRounding(v) => s.(groundRounding := v)
    case GroundSmoothing(v) => s.(groundSmoothing := v)
    case _ => s
  }

  class OscControl {
    const skeleton: Skeleton
    const visualization: Visualization
    var routes: map<string, Handler>

    ghost predicate Valid()
      reads this, skeleton, visualization
    {
      skeleton.Valid() && visualization.Valid() && visualization.skeleton == skeleton && routes == ADDRESSES
    }

    /**
     * What a skeleton call leaves behind: the smoothing factor, the root
     * translation pair, or the blended pose with every joint and edge slot
     * rederived from it. Every other pose field keeps its value, and a call
     * that raises or is ignored changes nothing.
     */
    twostate predicate SkeletonApplied(c: Call)
      requires old(skeleton.Valid()) && skeleton.Valid() && TargetsSkeleton(c)
      reads skeleton, skeleton.jointTransforms, skeleton.edgeTransforms, skeleton.edgeLengths
    {
      var skel := skeleton;
      var before := old(skel.PoseState());
      var tablesKept := unchanged(skel.jointTransforms, skel.edgeTransforms, skel.edgeLengths);
      match c
      case UpdateSmoothing(v) => skel.PoseState() == before.(updateSmoothing := v) && tablesKept
      case SkeletonPosition(v) =>
        && tablesKept
        && skel.PoseState() ==
             if |v| == 3 then
               before.(skelTransform := Translation(Vec3(v[0], v[1], v[2])),
                       skelInvTransform := Translation(Vec3(-v[0], -v[1], -v[2])),
                       rootPosition := Vec3(v[0], v[1], v[2]))
             else before
      case JointPositions(g) =>
        if PositionUpdateOutcome(skel.jointFilter, g) == Done then
          && skel.PoseState() ==
               before.(jointPositions := Blend(before.jointPositions, AsVec3s(Take(g, skel.jointFilter).value), before.updateSmoothing))
          && skel.JointsDerived()
          && skel.EdgesDerived(old(skel.edgeTransforms[..]), old(skel.edgeLengths[..]))
        else skel.PoseState() == before && tablesKept
      case JointRotations(g, integral) =>
        if RotationUpdateOutcome(skel.jointFilter, g) == Done then
          && skel.PoseState() ==
               before.(jointRotations := SmoothedRotations(skel.lib, before.jointRotations,
                         Prerotated(skel.lib, AsQuats(Take(g, skel.jointFilter).value), integral), before.updateSmoothing))
          && skel.JointsDerived()
          && skel.EdgesDerived(old(skel.edgeTransforms[..]), old(skel.edgeLengths[..]))
        else skel.PoseState() == before && tablesKept
    }

    /** The table a table call writes into. */
    ghost function TableObject(c: Call): object
      requires TargetsTables(c)
      reads visualization
    {
      var vis := visualization;
      match c
      case JointPrimitives(_) => vis.jointPrimitives
      case JointPrimitive(_, _) => vis.jointPrimitives
      case JointSizes(_) => vis.jointSizes
      case JointSize(_, _) => vis.jointSizes
      case JointRoundings(_) => vis.jointRoundings
      case JointRounding(_, _) => vis.jointRoundings
      case JointSmoothings(_) => vis.jointSmoothings
      case JointSmoothing(_, _) => vis.jointSmoothings
      case EdgePrimitives(_) => vis.edgePrimitives
      case EdgePrimitive(_, _) => vis.edgePrimitives
      case EdgeSizes(_) => vis.edgeSizes
      case EdgeSize(_, _) => vis.edgeSizes
      case EdgeRoundings(_) => vis.edgeRoundings
      case EdgeRounding(_, _) => vis.edgeRoundings
      case EdgeSmoothings(_) => vis.edgeSmoothings
      case EdgeSmoothing(_, _) => vis.edgeSmoothings
      case _ => vis.jointPrimitives
    }

    /**
     * The table a table call leaves behind: the whole table a broadcast
     * assigns, or the table after an indexed call's guarded write.
     */
    twostate predicate TableApplied(c: Call)
      requires visualization.Valid() && TargetsTables(c)
      reads visualization, visualization.jointPrimitives, visualization.jointSizes,
            visualization.jointRoundings, visualization.jointSmoothings,
            visualization.edgePrimitives, visualization.edgeSizes,
            visualization.edgeRoundings, visualization.edgeSmoothings
    {
      var vis := visualization;
      var joints, edges := vis.skeleton.jointCount, vis.skeleton.edgeCount;
      match c
      case JointPrimitives(n) => forall j :: 0 <= j < vis.jointPrimitives.Length ==> vis.jointPrimitives[j] == ToInt32(n)
      case JointPrimitive(i, n) =>
        vis.jointPrimitives[..] == Written(old(vis.jointPrimitives[..]), GuardedSlot(i, joints), ToInt32(n))
      case JointSizes(s) => forall j :: 0 <= j < vis.jointSizes.Length ==> vis.jointSizes[j] == s
      case JointSize(i, s) => vis.jointSizes[..] == Written(old(vis.jointSizes[..]), GuardedSlot(i, joints), s)
      case JointRoundings(n) => forall j :: 0 <= j < vis.jointRoundings.Length ==> vis.jointRoundings[j] == ToReal(n)
      case JointRounding(i, n) =>
        vis.jointRoundings[..] == Written(old(vis.jointRoundings[..]), GuardedSlot(i, joints), ToReal(n))
      case JointSmoothings(n) => forall j :: 0 <= j < vis.jointSmoothings.Length ==> vis.jointSmoothings[j] == ToReal(n)
      case JointSmoothing(i, n) =>
        vis.jointSmoothings[..] == Written(old(vis.jointSmoothings[..]), GuardedSlot(i, joints), ToReal(n))
      case EdgePrimitives(n) => forall e :: 0 <= e < vis.edgePrimitives.Length ==> vis.edgePrimitives[e] == ToInt32(n)
      case EdgePrimitive(i, n) =>
        vis.edgePrimitives[..] == Written(old(vis.edgePrimitives[..]), GuardedSlot(i, edges), ToInt32(n))
      case EdgeSizes(s) => forall e :: 0 <= e < vis.edgeSizes.Length ==> vis.edgeSizes[e] == s
      case EdgeSize(i, s) => vis.edgeSizes[..] == Written(old(vis.edgeSizes[..]), GuardedSlot(i, edges), s)
      case EdgeRoundings(n) => forall e :: 0 <= e < vis.edgeRoundings.Length ==> vis.edgeRoundings[e] == ToReal(n)
      case EdgeRounding(i, n) =>
        vis.edgeRoundings[..] == Written(old(vis.edgeRoundings[..]), GuardedSlot(i, joints), ToReal(n))
      case EdgeSmoothings(n) => forall e :: 0 <= e < vis.edgeSmoothings.Length ==> vis.edgeSmoothings[e] == ToReal(n)
      case EdgeSmoothing(i, n) =>
        vis.edgeSmoothings[..] == Written(old(vis.edgeSmoothings[..]), GuardedSlot(i, edges), ToReal(n))
    }

    /**
     * What a visualization call leaves behind. A table call changes its one
     * table as TableApplied says and nothing else of the visualization; any
     * other call changes the scene fields as SceneAfter says and no table.
     */
    twostate predicate VisualizationApplied(c: Call)
      requires visualization.Valid() && !TargetsSkeleton(c)
      reads visualization, visualization.jointPrimitives, visualization.jointSizes,
            visualization.jointRoundings, visualization.jointSmoothings,
            visualization.edgePrimitives, visualization.edgeSizes,
            visualization.edgeRoundings, visualization.edgeSmoothings
    {
      var vis := visualization;
      if TargetsTables(c) then
        && TableApplied(c)
        && unchanged(vis)
        && vis.TablesKeptBut(TableObject(c))
      else
        && vis.SceneState() == SceneAfter(vis.skeleton.lib, old(vis.SceneState()), c)
        && vis.TablesKept()
    }

    /** What the setter `c` names leaves behind. */
    twostate predicate Applied(c: Call)
      requires old(skeleton.Valid()) && skeleton.Valid() && visualization.Valid()
      reads this, skeleton, skeleton.jointTransforms, skeleton.edgeTransforms, skeleton.edgeLengths
      reads visualization, visualization.jointPrimitives, visualization.jointSizes,
            visualization.jointRoundings, visualization.jointSmoothings,
            visualization.edgePrimitives, visualization.edgeSizes,
            visualization.edgeRoundings, visualization.edgeSmoothings
    {
      if TargetsSkeleton(c) then
        SkeletonApplied(c) && unchanged(visualization) && visualization.TablesKept()
      else
        && VisualizationApplied(c)
        && unchanged(skeleton)
        && unchanged(skeleton.jointTransforms, skeleton.edgeTransforms, skeleton.edgeLengths)
    }

    /** The outcome a call has in the current state. */
    ghost function Expected(c: Call): Outcome
      reads this, visualization
    {
      match c
      case SkeletonPosition(v) => if |v| == 3 then Done else Raised(ValueError)
      case JointPositions(g) => PositionUpdateOutcome(skeleton.jointFilter, g)
      case JointRotations(g, _) => RotationUpdateOutcome(skeleton.jointFilter, g)
      case JointPrimitive(i, _) => SlotOutcome(GuardedSlot(i, skeleton.jointCount))
      case JointSize(i, _) => SlotOutcome(GuardedSlot(i, skeleton.jointCount))
      case JointRounding(i, _) => SlotOutcome(GuardedSlot(i, skeleton.jointCount))
      case JointSmoothing(i, _) => SlotOutcome(GuardedSlot(i, skeleton.jointCount))
      case EdgePrimitive(i, _) => SlotOutcome(GuardedSlot(i, skeleton.edgeCount))
      case EdgeSize(i, _) => SlotOutcome(GuardedSlot(i, skeleton.edgeCount))
      case EdgeRounding(i, _) => SlotOutcome(GuardedSlot(i, skeleton.jointCount))
      case EdgeSmoothing(i, _) => SlotOutcome(GuardedSlot(i, skeleton.edgeCount))
      case GroundPosition(v) =>
        if GroundTransform(skeleton.lib, v, visualization.groundRotation).Some? then Done else Raised(ValueError)
      case GroundRotation(v) =>
        if GroundTransform(skeleton.lib, visualization.groundPosition, v).Some? then Done else Raised(ValueError)
      case _ => Done
    }

    /** Maps every address in the order the source registers them. */
    constructor(skeleton: Skeleton, visualization: Visualization)
      requires skeleton.Valid() && visualization.Valid() && visualization.skeleton == skeleton
      ensures Valid()
      ensures this.skeleton == skeleton && this.visualization == visualization
    {
      this.skeleton := skeleton;
      this.visualization := visualization;
      var table: map<string, Handler> := map[];
      table := table["/mocap/updatesmoothing" := MocapUpdateSmoothing];
      table := table["/mocap/skelposworld" := MocapSkeletonPosition];
      table := table["/mocap/joint/pos_world" := MocapJointPositions];
      table := table["/mocap/0/joint/pos_world" := MocapJointPositions];
      table := table["/mocap/joint/rot_world" := MocapJointRotations];
      table := table["/mocap/0/joint/rot_world" := MocapJointRotations];
      table := table["/vis/camposition" := VisCamPosition];
      table := table["/vis/camangle" := VisCamAngle];
      table := table["/vis/bgcolor" := VisBGColor];
      table := table["/vis/objectcolor" := VisObjectColor];
      table := table["/vis/lightposition" := VisLightPosition];
      table := table["/vis/lightambientscale" := VisLightAmbientScale];
      table := table["/vis/lightdiffusescale" := VisLightDiffuseScale];
      table := table["/vis/lightspecularscale" := VisLightSpecularScale];
      table := table["/vis/lightspecularpow" := VisLightSpecularPow];
      table := table["/vis/lightocclusionscale" := VisLightOcclusionScale];
      table := table["/vis/lightocclusionrange" := VisLightOcclusionRange];
      table := table["/vis/lightocclusionresolution" := VisLightOcclusionResolution];
      table := table["/vis/jointprimitive" := VisJointPrimitive];
      table := table["/vis/jointsize" := VisJointSize];
      table := table["/vis/jointround" := VisJointRounding];
      table := table["/vis/jointsmooth" := VisJointSmoothing];
      table := table["/vis/edgeprimitive" := VisEdgePrimitive];
      table := table["/vis/edgesize" := VisEdgeSize];
      table := table["/vis/edgeround" := VisEdgeRounding];
      table := table["/vis/edgesmooth" := VisEdgeSmoothing];
      table := table["/vis/jointedgesmooth" := VisJointEdgeSmoothing];
      table := table["/vis/groundprimitive" := VisGroundPrimitive];
      table := table["/vis/groundposition" := VisGroundPosition];
      table := table["/vis/groundrotation" := VisGroundRotation];
      table := table["/vis/groundsize" := VisGroundSize];
      table := table["/vis/groundround" := VisGroundRounding];
      table := table["/vis/groundsmooth" := VisGroundSmoothing];
      routes := table;
    }

    /** Makes the one setter call `c` names. */
    method Apply(c: Call) returns (outcome: Outcome)
      requires Valid()
      modifies skeleton, skeleton.jointTransforms, skeleton.edgeTransforms, skeleton.edgeLengths
      modifies visualization, visualization.jointPrimitives, visualization.jointSizes,
               visualization.jointRoundings, visualization.jointSmoothings,
               visualization.edgePrimitives, visualization.edgeSizes,
               visualization.edgeRoundings, visualization.edgeSmoothings
      ensures Valid()
      ensures outcome == old(Expected(c))
      ensures Applied(c)
    {
      if TargetsSkeleton(c) {
        outcome := ApplyToSkeleton(c);
      } else if TargetsTables(c) {
        outcome := ApplyToTables(c);
      } else if MovesGround(c) {
        outcome := ApplyToGround(c);
      } else {
        ApplyToScene(c);
        outcome := Done;
      }
    }

    method ApplyToSkeleton(c: Call) returns (outcome: Outcome)
      requires Valid() && TargetsSkeleton(c)
      modifies skeleton, skeleton.jointTransforms, skeleton.edgeTransforms, skeleton.edgeLengths
      ensures Valid()
      ensures outcome == old(Expected(c))
      ensures Applied(c)
    {
      outcome := UpdatePose(c);
    }

    /** The skeleton setter a skeleton call names, with its outcome and the pose it leaves. */
    method UpdatePose(c: Call) returns (outcome: Outcome)
      requires skeleton.Valid() && TargetsSkeleton(c)
      modifies skeleton, skeleton.jointTransforms, skeleton.edgeTransforms, skeleton.edgeLengths
      ensures skeleton.Valid()
      ensures outcome == old(Expected(c))
      ensures SkeletonApplied(c)
    {
      var skel := skeleton;
      match c {
        case UpdateSmoothing(v) => skel.SetUpdateSmoothing(v); outcome := Done;
        case SkeletonPosition(v) => outcome := skel.SetPosition(v);
        case JointPositions(g) => outcome := skel.SetJointPositions(g);
        case JointRotations(g, integral) => outcome := skel.SetJointRotations(g, integral);
      }
    }

    method ApplyToTables(c: Call) returns (outcome: Outcome)
      requires Valid() && TargetsTables(c)
      modifies visualization.jointPrimitives, visualization.jointSizes,
               visualization.jointRoundings, visualization.jointSmoothings,
               visualization.edgePrimitives, visualization.edgeSizes,
               visualization.edgeRoundings, visualization.edgeSmoothings
      ensures Valid()
      ensures outcome == old(Expected(c))
      ensures Applied(c)
    {
      if Broadcasts(c) {
        Broadcast(c);
        outcome := Done;
      } else {
        outcome := WriteEntry(c);
      }
    }

    /** A broadcast setter assigns its whole table and cannot fail. */
    method Broadcast(c: Call)
      requires visualization.Valid() && visualization.skeleton == skeleton && Broadcasts(c)
      modifies visualization.jointPrimitives, visualization.jointSizes,
               visualization.jointRoundings, visualization.jointSmoothings,
               visualization.edgePrimitives, visualization.edgeSizes,
               visualization.edgeRoundings, visualization.edgeSmoothings
      ensures VisualizationApplied(c)
    {
      if c.JointPrimitives? || c.JointSizes? || c.JointRoundings? || c.JointSmoothings? {
        BroadcastToJoints(c);
      } else {
        BroadcastToEdges(c);
      }
    }

    /** The four per-joint broadcast setters. */
    method BroadcastToJoints(c: Call)
      requires visualization.Valid() && (c.JointPrimitives? || c.JointSizes? || c.JointRoundings? || c.JointSmoothings?)
      modifies visualization.jointPrimitives, visualization.jointSizes,
               visualization.jointRoundings, visualization.jointSmoothings
      ensures VisualizationApplied(c)
    {
      var vis := visualization;
      match c {
        case JointPrimitives(n) => vis.SetJointPrimitives(n); assert vis.TablesKeptBut(TableObject(c));
        case JointSizes(s) => vis.SetJointSizes(s); assert vis.TablesKeptBut(TableObject(c));
        case JointRoundings(n) => vis.SetJointRoundings(n); assert vis.TablesKeptBut(TableObject(c));
        case JointSmoothings(n) => vis.SetJointSmoothings(n); assert vis.TablesKeptBut(TableObject(c));
      }
    }

    /** The four per-edge broadcast setters. */
    method BroadcastToEdges(c: Call)
      requires visualization.Valid() && (c.EdgePrimitives? || c.EdgeSizes? || c.EdgeRoundings? || c.EdgeSmoothings?)
      modifies visualization.edgePrimitives, visualization.edgeSizes,
               visualization.edgeRoundings, visualization.edgeSmoothings
      ensures VisualizationApplied(c)
    {
      var vis := visualization;
      match c {
        case EdgePrimitives(n) => vis.SetEdgePrimitives(n); assert vis.TablesKeptBut(TableObject(c));
        case EdgeSizes(s) => vis.SetEdgeSizes(s); assert vis.TablesKeptBut(TableObject(c));
        case EdgeRoundings(n) => vis.SetEdgeRoundings(n); assert vis.TablesKeptBut(TableObject(c));
        case EdgeSmoothings(n) => vis.SetEdgeSmoothings(n); assert vis.TablesKeptBut(TableObject(c));
      }
    }

    /** An indexed setter writes one entry, or does nothing past the end, or raises for a float index. */
    method WriteEntry(c: Call) returns (outcome: Outcome)
      requires visualization.Valid() && visualization.skeleton == skeleton && TargetsTables(c) && !Broadcasts(c)
      modifies visualization.jointPrimitives, visualization.jointSizes,
               visualization.jointRoundings, visualization.jointSmoothings,
               visualization.edgePrimitives, visualization.edgeSizes,
               visualization.edgeRoundings, visualization.edgeSmoothings
      ensures outcome == old(Expected(c))
      ensures VisualizationApplied(c)
    {
      if c.JointPrimitive? || c.JointSize? || c.JointRounding? || c.JointSmoothing? {
        outcome := WriteJointEntry(c);
      } else {
        outcome := WriteEdgeEntry(c);
      }
    }

    method WriteJointEntry(c: Call) returns (outcome: Outcome)
      requires visualization.Valid() && visualization.skeleton == skeleton && (c.JointPrimitive? || c.JointSize? || c.JointRounding? || c.JointSmoothing?)
      modifies visualization.jointPrimitives, visualization.jointSizes,
               visualization.jointRoundings, visualization.jointSmoothings
      ensures outcome == old(Expected(c))
      ensures VisualizationApplied(c)
    {
      var vis := visualization;
      assert vis.jointPrimitives.Length == vis.jointRoundings.Length == skeleton.jointCount;
      match c {
        case JointPrimitive(i, n) => outcome := vis.SetJointPrimitive(i, n);
        case JointSize(i, s) => outcome := vis.SetJointSize(i, s);
        case JointRounding(i, n) => outcome := vis.SetJointRounding(i, n);
        case JointSmoothing(i, n) => outcome := vis.SetJointSmoothing(i, n);
      }
    }

    method WriteEdgeEntry(c: Call) returns (outcome: Outcome)
      requires visualization.Valid() && visualization.skeleton == skeleton && (c.EdgePrimitive? || c.EdgeSize? || c.EdgeRounding? || c.EdgeSmoothing?)
      modifies visualization.edgePrimitives, visualization.edgeSizes,
               visualization.edgeRoundings, visualization.edgeSmoothings
      ensures outcome == old(Expected(c))
      ensures VisualizationApplied(c)
    {
      var vis := visualization;
      assert vis.edgePrimitives.Length == vis.edgeSizes.Length == vis.edgeSmoothings.Length == skeleton.edgeCount;
      assert vis.skeleton.jointCount == skeleton.jointCount;
      match c {
        case EdgePrimitive(i, n) => outcome := vis.SetEdgePrimitive(i, n);
        case EdgeSize(i, s) => outcome := vis.SetEdgeSize(i, s);
        case EdgeRounding(i, n) => outcome := vis.SetEdgeRounding(i, n);
        case EdgeSmoothing(i, n) => outcome := vis.SetEdgeSmoothing(i, n);
      }
    }

    method ApplyToGround(c: Call) returns (outcome: Outcome)
      requires Valid() && MovesGround(c)
      modifies visualization
      ensures Valid()
      ensures outcome == old(Expected(c))
      ensures Applied(c)
    {
      var vis := visualization;
      outcome := Done;
      match c {
        case GroundPosition(v) => outcome := vis.SetGroundPosition(v);
        case GroundRotation(v) => outcome := vis.SetGroundRotation(v);
      }
    }

    /** Camera, colour, light and ground-shape parameters and the joint-edge blend: each call replaces one scene field and cannot fail. */
    method ApplyToScene(c: Call)
      requires Valid() && !TargetsSkeleton(c) && !TargetsTables(c) && !MovesGround(c)
      modifies visualization
      ensures Valid()
      ensures Applied(c)
    {
      if c.CamPosition? || c.CamAngle? || c.BGColor? || c.ObjectColor? || c.LightPosition? || c.JointEdgeSmoothing? {
        ApplyToView(c);
      } else if c.GroundPrimitive? || c.GroundSize? || c.GroundRounding? || c.GroundSmoothing? {
        ApplyToShape(c);
      } else {
        ApplyToLight(c);
      }
    }

    /** Camera, colour and light-position setters, and the joint-edge blend. */
    method ApplyToView(c: Call)
      requires visualization.Valid()
      requires c.CamPosition? || c.CamAngle? || c.BGColor? || c.ObjectColor? || c.LightPosition? || c.JointEdgeSmoothing?
      modifies visualization
      ensures visualization.Valid()
      ensures visualization.SceneState() == SceneAfter(visualization.skeleton.lib, old(visualization.SceneState()), c)
    {
      var vis := visualization;
      match c {
        case CamPosition(v) => vis.SetCamPosition(v);
        case CamAngle(v) => vis.SetCamAngle(v);
        case BGColor(v) => vis.SetBGColor(v);
        case ObjectColor(v) => vis.SetObjectColor(v);
        case LightPosition(v) => vis.SetLightPosition(v);
        case JointEdgeSmoothing(v) => vis.SetJointEdgeSmoothing(v);
      }
    }

    /** The light scale, power and occlusion setters. */
    method ApplyToLight(c: Call)
      requires visualization.Valid()
      requires c.LightAmbientScale? || c.LightDiffuseScale? || c.LightSpecularScale? || c.LightSpecularPow?
               || c.LightOcclusionScale? || c.LightOcclusionRange? || c.LightOcclusionResolution?
      modifies visualization
      ensures visualization.Valid()
      ensures visualization.SceneState() == SceneAfter(visualization.skeleton.lib, old(visualization.SceneState()), c)
    {
      var vis := visualization;
      ghost var before := vis.SceneState();
      match c {
        case LightAmbientScale(v) =>
          assert SceneAfter(vis.skeleton.lib, before, c) == before.(lightAmbientScale := v);
          vis.SetLightAmbientScale(v);
        case LightDiffuseScale(v) =>
          assert SceneAfter(vis.skeleton.lib, before, c) == before.(lightDiffuseScale := v);
          vis.SetLightDiffuseScale(v);
        case LightSpecularScale(v) =>
          assert SceneAfter(vis.skeleton.lib, before, c) == before.(lightSpecularScale := v);
          vis.SetLightSpecularScale(v);
        case LightSpecularPow(v) =>
          assert SceneAfter(vis.skeleton.lib, before, c) == before.(lightSpecularPow := v);
          vis.SetLightSpecularPow(v);
        case LightOcclusionScale(v) =>
          assert SceneAfter(vis.skeleton.lib, before, c) == before.(lightOcclusionScale := v);
          vis.SetLightOcclusionScale(v);
        case LightOcclusionRange(v) =>
          assert SceneAfter(vis.skeleton.lib, before, c) == before.(lightOcclusionRange := v);
          vis.SetLightOcclusionRange(v);
        case LightOcclusionResolution(v) =>
          assert SceneAfter(vis.skeleton.lib, before, c) == before.(lightOcclusionResolution := v);
          vis.SetLightOcclusionResolution(v);
      }
    }

    /** The ground primitive, size, rounding and smoothing setters. */
    method ApplyToShape(c: Call)
      requires visualization.Valid()
      requires c.GroundPrimitive? || c.GroundSize? || c.GroundRounding? || c.GroundSmoothing?
      modifies visualization
      ensures visualization.Valid()
      ensures visualization.SceneState() == SceneAfter(visualization.skeleton.lib, old(visualization.SceneState()), c)
    {
      var vis := visualization;
      ghost var before := vis.SceneState();
      match c {
        case GroundPrimitive(n) =>
          assert SceneAfter(vis.skeleton.lib, before, c) == before.(groundPrimitive := n);
          vis.SetGroundPrimitive(n);
        case GroundSize(v) =>
          assert SceneAfter(vis.skeleton.lib, before, c) == before.(groundSize := v);
          vis.SetGroundSize(v);
        case GroundRounding(v) =>
          assert SceneAfter(vis.skeleton.lib, before, c) == before.(groundRounding := v);
          vis.SetGroundRounding(v);
        case GroundSmoothing(v) =>
          assert SceneAfter(vis.skeleton.lib, before, c) == before.(groundSmoothing := v);
          vis.SetGroundSmoothing(v);
      }
    }

    /**
     * One incoming message: an unmapped address is dropped; otherwise its
     * handler decodes the tuple and makes its call, or declines (Ignored),
     * or raises before calling. Only a call changes any state.
     */
    method Handle(address: string, args: seq<Number>) returns (reaction: Option<Reaction>, outcome: Outcome)
      requires Valid()
      modifies skeleton, skeleton.jointTransforms, skeleton.edgeTransforms, skeleton.edgeLengths
      modifies visualization, visualization.jointPrimitives, visualization.jointSizes,
               visualization.jointRoundings, visualization.jointSmoothings,
               visualization.edgePrimitives, visualization.edgeSizes,
               visualization.edgeRoundings, visualization.edgeSmoothings
      ensures Valid()
      ensures reaction == Route(address, args)
      ensures reaction.None? || reaction.value == NoCall ==> outcome == Ignored
      ensures reaction.Some? && reaction.value.Fails? ==> outcome == Raised(reaction.value.error)
      ensures reaction.Some? && reaction.value.Calls? ==> outcome == old(Expected(reaction.value.call))
      ensures reaction.Some? && reaction.value.Calls? ==> Applied(reaction.value.call)
      ensures !(reaction.Some? && reaction.value.Calls?) ==>
        && unchanged(skeleton, skeleton.jointTransforms, skeleton.edgeTransforms, skeleton.edgeLengths)
        && unchanged(visualization, visualization.jointPrimitives, visualization.jointSizes,
                     visualization.jointRoundings, visualization.jointSmoothings,
                     visualization.edgePrimitives, visualization.edgeSizes,
                     visualization.edgeRoundings, visualization.edgeSmoothings)
    {
      if address !in routes {
        return None, Ignored;
      }
      var r := Decode(routes[address], args);
      reaction := Some(r);
      match r {
        case NoCall => outcome := Ignored;
        case Fails(e) => outcome := Raised(e);
        case Calls(c) => outcome := Apply(c);
      }
    }
  }
}
