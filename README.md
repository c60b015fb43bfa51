# RayMarching skeleton pipeline, modelled in Dafny

This project models the part of the RayMarching motion visualiser that turns
incoming motion-capture and control messages into the state the renderer
draws:

- **`Skeleton`** (`RayMarching/skeleton.py`). It holds a rig: a joint filter and a
  parent → children adjacency list. It also holds the smoothed pose (joint positions
  and rotations), a root translation with its inverse, and the derived per-joint and
  per-edge transforms and edge lengths. The module `Rigging` covers the rig walk, the
  position blend, the fixed prerotations, the slerp-based rotation smoothing and the
  transform formulas. The pose state is `class Rigging.Skeleton`, whose
  transform tables are arrays written slot by slot, as in the source.
- **`Visualization`'s parameter tables** (`RayMarching/visualization.py`). Per-joint and
  per-edge primitive, size, rounding and smoothing tables are allocated from the
  skeleton's counts and written by guarded indexed setters and by broadcast setters.
  There are also the scalar scene parameters, and the ground transform recomputed from
  the ground position and rotation. This is `class Shading.Visualization`.
- **`OscControl`** (`RayMarching/osc_control.py`). It has an address → handler
  table, and handlers that decode a flat tuple of numbers into one setter call. The
  decoding reshapes positions into rows of 3 and swaps x and y, reshapes rotations into
  rows of 4 and swaps components 1 and 2, and dispatches table messages on argument
  count. This is module `Control` and `class Control.OscControl`, whose `Handle`
  receives one message.

The Python and numpy value semantics these files rely on live in module `PyValues`:
- int/float arguments, and the integer dtype `np.array` gives a tuple made only of ints
  (`Control.IntegerDtype`);
- truncation toward zero when a float is stored into an integer array: the int32
  primitive tables, and the prerotated rows of an all-int rotation message;
- negative-index wrap-around;
- the guarded write `if index >= len: return; table[index] = value`;
- row selection `a[rows, :]`;
- the errors numpy raises (`IndexError`, `ValueError`).

Vectors, quaternions and 4×4 matrices live in module `Geometry`. Library calls whose
internals are not part of this model are parameters of type `Geometry.Numerics`: a record of
functions with the few facts the proofs need. They are:
- the square root behind `np.linalg.norm`;
- `quat2mat`;
- `arccos` and `sin`;
- the constant quarter-turn quaternions `euler2quat(...)`.

An operation's outcome is `Done`, `Ignored` (the source returns early on purpose) or
`Raised(error)`. The error paths of the operations are modelled rather than excluded by
preconditions. The one exception is `Skeleton`'s constructor, which requires a
well-formed rig (see "Left out").

Where the code does something a reader might not expect, the model follows the code:
- `setUpdateSmoothing` does not clamp its factor to [0, 1], so a factor outside that
  range extrapolates (`BlendOvershoots`).
- `setJointRotations` divides the whole rotation array by one norm rather than each
  quaternion by its own (`WholeArrayNormalizationNotPerJoint`).
- `edgeRoundings` has `jointCount` entries, not `edgeCount` (`EdgeRoundingsSizedByJoints`).
- `setJointRotations` writes prerotated rows 0..27 before its shape check. A wrong
  shape therefore raises instead of being ignored, and fewer than 28 joints always
  raise (`RotationUpdateCases`).
- A rotation message made only of ints gives numpy an integer array, and
  `setJointRotations` writes its prerotated rows back into that array, so every component
  is truncated toward zero. An identity row at joint 0 becomes the zero quaternion
  instead of the quarter turn (`IntegerIdentityRowCollapses`).

## Model

| member | source | states |
|---|---|---|
| Geometry.MidpointHalvesEdge | RayMarching/skeleton.py:187-189 | the edge position (parent+child)/2 lies half the edge vector from both ends |
| Geometry.TranslationsCompose | RayMarching/skeleton.py:163 | composing translations adds their offsets, so the root translation and a joint translation combine into one |
| Geometry.TranslationInverse | RayMarching/skeleton.py:69-70 | translation by p and by -p multiply to the identity, in both orders |
| Geometry.RotateAfterTranslate | RayMarching/skeleton.py:159-163 | a rotation applied after a translation by v equals a placement at the rotated offset |
| Geometry.QMultIdentity | RayMarching/skeleton.py:148-150 | the default rotation (1,0,0,0) is the unit of qmult on both sides |
| Geometry.QNormSqScale | RayMarching/skeleton.py:138 | scaling a quaternion by s scales its squared norm by s² |
| PyValues.TruncatedTowardZero | RayMarching/skeleton.py:91 | the integer stored for a float lies within 1 of it, on the same side of zero and no farther from zero |
| PyValues.ToInt32 | RayMarching/visualization.py:39 | storing into an int32 table keeps an int and truncates a float toward zero (within 1, sign preserved) |
| PyValues.Wrap | RayMarching/visualization.py:325 | a negative index in -n..-1 lands at slot i+n; every accepted index lands inside the table |
| PyValues.GuardedSlotCases | RayMarching/visualization.py:320-325 | the guarded write lands exactly for integer indices -n <= i < n, is a silent no-op exactly when index >= n, and i-n hits the same slot as i |
| PyValues.WrittenChangesOneSlot | RayMarching/visualization.py:320-325 | the guarded write keeps the table length and changes only the landed slot |
| PyValues.Take | RayMarching/skeleton.py:74 | row selection succeeds exactly when every filter index is a valid (possibly negative) row; the result has one row per filter entry and the same width |
| PyValues.TakeRow | RayMarching/skeleton.py:74 | row j of the selection is raw row filter[j], counted from the end when negative |
| PyValues.TakeAllRows | RayMarching/skeleton.py:74 | the identity filter 0..n-1 selects the array unchanged |
| Rigging.WalkedEdgesCount | RayMarching/skeleton.py:53-55 | the edge walk over the first n parents visits exactly as many edges as their children lists hold |
| Rigging.ChildCountMonotone | RayMarching/skeleton.py:176-183 | the running slot counter never decreases from one parent to the next |
| Rigging.EdgeSlot | RayMarching/skeleton.py:174-211 | child k of parent p is written at slot (children of parents before p) + k |
| Rigging.SlotEdge | RayMarching/skeleton.py:174-211 | every written slot belongs to exactly one (parent, child-position) pair inside that parent's slot range |
| Rigging.WalkOrdered | RayMarching/skeleton.py:176-183 | slots are filled in ascending parent order |
| Rigging.CountEdges | RayMarching/skeleton.py:53-55 | edgeCount is the sum of the lengths of all children lists |
| Rigging.WalkFits | RayMarching/skeleton.py:176-185 | for a well-formed rig every walked edge names a parent and a child that index the pose arrays, and the walk fits into edgeCount slots |
| Rigging.BlendEndpoints | RayMarching/skeleton.py:79 | smoothing 0 stores the filtered input, smoothing 1 keeps the old positions |
| Rigging.MixBetween | RayMarching/skeleton.py:79 | for 0 <= s <= 1, old*s + new*(1-s) lies between old and new |
| Rigging.BlendBetween | RayMarching/skeleton.py:79 | with a smoothing factor in [0, 1] every blended coordinate lies between the old and the incoming one |
| Rigging.BlendOvershoots | RayMarching/skeleton.py:64-79 | the factor is not clamped: a factor above 1 moves a coordinate beyond the old value, away from the input |
| Rigging.StoredRow | RayMarching/skeleton.py:91 | a quaternion written into a row is kept exactly in a float array; in an integer array every component becomes a whole number within 1 of the written one |
| Rigging.PrerotationElsewhereIsIdentity | RayMarching/skeleton.py:91-131 | the prerotations change only rows 0, 6-19, 22, 23, 26, 27; every other row passes through unchanged, whatever the dtype |
| Rigging.IntegerPrerotationTruncates | RayMarching/skeleton.py:91-131 | a prerotated row is the exact product with its quarter turn in a float array, and a row of whole numbers in an integer array |
| Rigging.IntegerIdentityRowCollapses | RayMarching/skeleton.py:91 | in an integer array an identity row at a z-turned joint becomes (0, 0, 0, 0), while a float array stores the quarter turn itself |
| Rigging.SlerpEndpoints | RayMarching/skeleton.py:4-36 | slerp at t=0 returns q0 and at t=1 returns q1, on both the near-parallel and the sine branch |
| Rigging.SmoothedRotationsEndpoints | RayMarching/skeleton.py:137-138 | smoothing 0 stores the normalised input, smoothing 1 the normalised old rotations |
| Rigging.SumSqOfUnits | RayMarching/skeleton.py:138 | n unit quaternions have whole-array squared norm n |
| Rigging.WholeArrayNormalizationNotPerJoint | RayMarching/skeleton.py:138 | dividing n >= 2 unit quaternions by the one whole-array norm gives each squared norm 1/n, never 1 |
| Rigging.PlacedUnderRootTranslation | RayMarching/skeleton.py:159-163 | under a root translation, a placed joint is translated by root + position before the rotation |
| Rigging.JointTransformUnrotated | RayMarching/skeleton.py:152-163 | with quat2mat giving the identity, a joint transform is the transpose of the translation by root + joint position |
| Rigging.EdgeLength | RayMarching/skeleton.py:189-190 | an edge length is non-negative and zero exactly when parent and child coincide |
| Rigging.OnlyHipSpineCorrected | RayMarching/skeleton.py:194-209 | an edge is placed at its midpoint like a joint carrying the parent's rotation; only the edge (parent 0, child 1) has that rotation turned by the extra -pi/2 about z first |
| Rigging.PositionUpdateCases | RayMarching/skeleton.py:74-77 | a position update raises IndexError when a filter row is missing, is ignored exactly when rows are not 3 wide, and is applied otherwise |
| Rigging.RotationUpdateCases | RayMarching/skeleton.py:86-134 | a rotation update is never ignored; with fewer than 28 filtered joints it always raises; it is applied exactly for 4-wide arrays whose filter rows exist |
| Rigging.RootTransformsInverse | RayMarching/skeleton.py:67-70 | for every valid skeleton skelTransform and skelInvTransform multiply to the identity |
| Rigging.Skeleton.constructor | RayMarching/skeleton.py:40-60 | jointCount = len(jointFilter), edgeCount = total children, identity root, zero joint/edge transforms, unit edge lengths, smoothing 0 |
| Rigging.Skeleton.SetUpdateSmoothing | RayMarching/skeleton.py:64-65 | stores the factor verbatim |
| Rigging.Skeleton.SetPosition | RayMarching/skeleton.py:67-70 | a 3-vector makes skelTransform the translation by it and skelInvTransform the translation by its negation; another length raises and writes nothing |
| Rigging.Skeleton.SetJointPositions | RayMarching/skeleton.py:72-82 | outcome per PositionUpdateOutcome; on Done the positions are the blend of old and filtered rows and every joint and edge slot is rederived; otherwise nothing changes |
| Rigging.Skeleton.SetJointRotations | RayMarching/skeleton.py:84-143 | outcome per RotationUpdateOutcome; on Done the rotations are the slerp-smoothed, whole-array-normalised prerotated rows, with the prerotated rows truncated when the array has an integer dtype, and every slot is rederived; otherwise nothing changes |
| Rigging.Skeleton.UpdateJointTransforms | RayMarching/skeleton.py:145-163 | every joint slot holds the transform of its joint's current position and rotation |
| Rigging.Skeleton.UpdateEdge | RayMarching/skeleton.py:183-211 | slot eI receives its edge's length and transform (hip→spine correction included); every other slot is unchanged |
| Rigging.Skeleton.UpdateEdgeTransforms | RayMarching/skeleton.py:166-211 | every slot of the walk holds its edge's transform and length; the slots past the walk keep their contents |
| Rigging.Skeleton.UpdateChildEdges | RayMarching/skeleton.py:181-211 | the children of one parent fill the consecutive slots starting at the number of children of all earlier parents, each with its edge's transform and length; every other slot is unchanged |
| Rigging.Skeleton.GetJointCount | RayMarching/skeleton.py:213-214 | returns jointCount |
| Rigging.Skeleton.GetEdgeCount | RayMarching/skeleton.py:216-217 | returns edgeCount |
| Rigging.Skeleton.GetEdgeLengths | RayMarching/skeleton.py:219-220 | returns the edge length table itself (not a copy) |
| Rigging.Skeleton.GetJointPositions | RayMarching/skeleton.py:222-223 | returns the joint positions |
| Rigging.Skeleton.GetJointRotations | RayMarching/skeleton.py:225-226 | returns the joint rotations |
| Rigging.Skeleton.GetJointTransforms | RayMarching/skeleton.py:228-229 | returns the joint transform table itself |
| Rigging.Skeleton.GetEdgeTransforms | RayMarching/skeleton.py:231-232 | returns the edge transform table itself |
| Shading.GroundTransform | RayMarching/visualization.py:425-436 | the ground transform exists exactly for a 3-vector position and a 4-vector rotation |
| Shading.GroundTransformPlaces | RayMarching/visualization.py:425-436 | the product the source computes (the rotation affine times the translation affine, transposed) equals the ground transform, a placement at the rotated position |
| Shading.GroundTransformUnrotated | RayMarching/visualization.py:415-436 | with the identity rotation the ground transform is the transpose of the translation by the ground position |
| Shading.InitialGroundTransformConsistent | RayMarching/visualization.py:53-56 | the initial identity ground transform agrees with the initial position and rotation |
| Shading.EdgeRoundingsSizedByJoints | RayMarching/visualization.py:387-392 | edgeRoundings has jointCount entries: with more joints than edges, an index in edgeCount..jointCount-1 is written into edgeRoundings but ignored by edgeSmoothings |
| Shading.Store | RayMarching/visualization.py:320-325 | the guarded write into an array: contents become Written(old, slot, v), outcome per slot |
| Shading.Fill | RayMarching/visualization.py:327-329 | every entry of the array is set to the value |
| Shading.Visualization.constructor | RayMarching/visualization.py:11-59 | tables sized by jointCount/edgeCount (edgeRoundings by jointCount), joint sizes 0.1, edge sizes (0.01, 0.01, 1.0), scene defaults, identity ground transform |
| Shading.Visualization.SetBGColor | RayMarching/visualization.py:284-285 | replaces bgColor; every other scene field keeps its value |
| Shading.Visualization.SetObjectColor | RayMarching/visualization.py:287-288 | replaces objectColor |
| Shading.Visualization.SetCamPosition | RayMarching/visualization.py:290-291 | replaces camPosition |
| Shading.Visualization.SetCamAngle | RayMarching/visualization.py:293-294 | replaces camAngle |
| Shading.Visualization.SetLightPosition | RayMarching/visualization.py:296-297 | replaces lightPosition |
| Shading.Visualization.SetLightAmbientScale | RayMarching/visualization.py:299-300 | replaces lightAmbientScale |
| Shading.Visualization.SetLightDiffuseScale | RayMarching/visualization.py:302-303 | replaces lightDiffuseScale |
| Shading.Visualization.SetLightSpecularScale | RayMarching/visualization.py:305-306 | replaces lightSpecularScale |
| Shading.Visualization.SetLightSpecularPow | RayMarching/visualization.py:308-309 | replaces lightSpecularPow |
| Shading.Visualization.SetLightOcclusionScale | RayMarching/visualization.py:311-312 | replaces lightOcclusionScale |
| Shading.Visualization.SetLightOcclusionRange | RayMarching/visualization.py:314-315 | replaces lightOcclusionRange |
| Shading.Visualization.SetLightOcclusionResolution | RayMarching/visualization.py:317-318 | replaces lightOcclusionResolution |
| Shading.Visualization.SetJointEdgeSmoothing | RayMarching/visualization.py:409-410 | replaces jointEdgeSmoothing |
| Shading.Visualization.SetGroundPrimitive | RayMarching/visualization.py:412-413 | replaces groundPrimitive |
| Shading.Visualization.SetGroundSize | RayMarching/visualization.py:438-440 | replaces groundSize |
| Shading.Visualization.SetGroundRounding | RayMarching/visualization.py:442-444 | replaces groundRounding |
| Shading.Visualization.SetGroundSmoothing | RayMarching/visualization.py:446-448 | replaces groundSmoothing |
| Shading.Visualization.SetJointPrimitive | RayMarching/visualization.py:320-325 | guarded write of the int32-truncated primitive against the joint count; no other table changes (as for every table setter) |
| Shading.Visualization.SetJointPrimitives | RayMarching/visualization.py:327-329 | every joint primitive becomes the truncated value |
| Shading.Visualization.SetJointSize | RayMarching/visualization.py:331-336 | guarded write of the size row against the joint count |
| Shading.Visualization.SetJointSizes | RayMarching/visualization.py:338-340 | every joint size row becomes the value |
| Shading.Visualization.SetJointRounding | RayMarching/visualization.py:342-347 | guarded write of the rounding against the joint count |
| Shading.Visualization.SetJointRoundings | RayMarching/visualization.py:349-351 | every joint rounding becomes the value |
| Shading.Visualization.SetJointSmoothing | RayMarching/visualization.py:353-358 | guarded write of the smoothing against the joint count |
| Shading.Visualization.SetJointSmoothings | RayMarching/visualization.py:360-362 | every joint smoothing becomes the value |
| Shading.Visualization.SetEdgePrimitive | RayMarching/visualization.py:365-370 | guarded write of the truncated primitive against the edge count |
| Shading.Visualization.SetEdgePrimitives | RayMarching/visualization.py:372-374 | every edge primitive becomes the truncated value |
| Shading.Visualization.SetEdgeSize | RayMarching/visualization.py:376-381 | guarded write of the size row against the edge count |
| Shading.Visualization.SetEdgeSizes | RayMarching/visualization.py:383-385 | every edge size row becomes the value |
| Shading.Visualization.SetEdgeRounding | RayMarching/visualization.py:387-392 | guarded write against the joint count, the length edgeRoundings was allocated with |
| Shading.Visualization.SetEdgeRoundings | RayMarching/visualization.py:394-396 | every edge rounding becomes the value |
| Shading.Visualization.SetEdgeSmoothing | RayMarching/visualization.py:398-403 | guarded write of the smoothing against the edge count |
| Shading.Visualization.SetEdgeSmoothings | RayMarching/visualization.py:405-407 | every edge smoothing becomes the value |
| Shading.Visualization.UpdateGroundTransform | RayMarching/visualization.py:425-436 | the ground transform becomes GroundTransform of the stored position and rotation, or the call raises ValueError and keeps it |
| Shading.Visualization.SetGroundPosition | RayMarching/visualization.py:415-418 | stores the position, then recomputes the ground transform as above; no other scene field changes |
| Shading.Visualization.SetGroundRotation | RayMarching/visualization.py:420-423 | stores the rotation, then recomputes the ground transform as above; no other scene field changes |
| Control.Reals | RayMarching/osc_control.py:115-143 | the vector handlers pass all arguments on, element by element, as numbers |
| Control.Regrouped | RayMarching/osc_control.py:88-95 | reshaping into rows of w succeeds exactly when w divides the argument count, giving count/w rows of width w |
| Control.RegroupedCell | RayMarching/osc_control.py:88-95 | cell (i, c) of the regrouped array is argument w*i + perm[c] |
| Control.PositionRowsShape | RayMarching/osc_control.py:83-97 | positions decode exactly for a count divisible by 3, into count/3 rows with row i = (a[3i+1], a[3i], a[3i+2]) |
| Control.RotationRowsShape | RayMarching/osc_control.py:99-113 | rotations decode exactly for a count divisible by 4, into count/4 rows with row i = (a[4i], a[4i+2], a[4i+1], a[4i+3]) |
| Control.Flattened | RayMarching/osc_control.py:88-95 | the message that encodes an array has width × rows arguments |
| Control.FlattenedSlot | RayMarching/osc_control.py:88-95 | argument w*i+c of the encoding carries row i's column perm[c] |
| Control.RegroupedRoundTrip | RayMarching/osc_control.py:88-95 | decoding the encoding of an array with an involutive column order gives the array back |
| Control.SwapsAreInvolutions | RayMarching/osc_control.py:91-111 | the x/y swap and the component 1/2 swap are column orders that undo themselves |
| Control.PositionRoundTrip | RayMarching/osc_control.py:83-97 | decoding a swapped, flattened position array restores it |
| Control.RotationRoundTrip | RayMarching/osc_control.py:99-113 | decoding a swapped, flattened rotation array restores it |
| Control.Reshaped | RayMarching/osc_control.py:88-89 | np.reshape into a fresh count/w × w array whose cell (i, c) is argument w*i+c |
| Control.Rows | RayMarching/osc_control.py:88-89 | the array's value: same shape, same cells |
| Control.SwapPositionAxes | RayMarching/osc_control.py:91-95 | columns 0 and 1 of every row are exchanged through a copy, column 2 kept |
| Control.SwapRotationAxes | RayMarching/osc_control.py:106-111 | columns 1 and 2 of every row are exchanged through a copy, columns 0 and 3 kept |
| Control.DecodeJointPositions | RayMarching/osc_control.py:83-97 | the imperative reshape-copy-swap equals PositionRows, None when reshape raises |
| Control.DecodeJointRotations | RayMarching/osc_control.py:99-113 | the imperative reshape-copy-swap equals RotationRows, and the array has an integer dtype exactly when the tuple is non-empty and made only of ints |
| Control.ScalarHandlersForwardFirst | RayMarching/osc_control.py:145-185 | scalar handlers call their setter exactly when an argument exists, with args[0] unchanged; an empty tuple raises IndexError |
| Control.TableHandlersDispatchByCount | RayMarching/osc_control.py:187-306 | one argument calls the broadcast setter with it, two call the indexed setter with (args[0], args[1]), any other count makes no call |
| Control.SizeHandlersDispatchByCount | RayMarching/osc_control.py:202-276 | three arguments call the broadcast size setter with the 3-vector, four call the indexed setter with args[0] and args[1:4], any other count makes no call |
| Control.OscPositionsNeverShapeRejected | RayMarching/osc_control.py:83-97 | a decoded position message always has 3-wide rows, so the skeleton's shape check never rejects it; it is applied exactly when the filter rows exist |
| Control.OscRotationsOnlyIndexErrors | RayMarching/osc_control.py:99-113 | a decoded rotation message never raises ValueError in the skeleton; it is applied exactly when the filter rows exist and there are at least 28 filtered joints |
| Control.MocapAddresses | RayMarching/osc_control.py:17-22 | the six mocap addresses map to their handlers |
| Control.SceneAddresses | RayMarching/osc_control.py:24-38 | the camera, colour and light addresses map to their handlers |
| Control.TableAddresses | RayMarching/osc_control.py:40-50 | the joint and edge table addresses and jointedgesmooth map to their handlers |
| Control.GroundAddresses | RayMarching/osc_control.py:52-57 | the six ground addresses map to their handlers |
| Control.EveryHandlerRouted | RayMarching/osc_control.py:16-57 | every handler is reachable: its primary address maps to it |
| Control.OnlyMocapStreamsAliased | RayMarching/osc_control.py:16-57 | every mapped address is its handler's primary address, except the two /mocap/0/ aliases |
| Control.AliasesAgree | RayMarching/osc_control.py:19-22 | both position addresses, and both rotation addresses, react identically to every argument tuple |
| Control.OscControl.constructor | RayMarching/osc_control.py:9-57 | builds the address table entry by entry; the result equals ADDRESSES |
| Control.OscControl.Apply | RayMarching/osc_control.py:73-348 | a decoded call has the outcome Expected predicts. A skeleton call leaves the pose SkeletonApplied describes and the visualization untouched. A table call changes its one table and nothing else. Any other call changes the scene fields as SceneAfter says, and no table and no skeleton state |
| Control.OscControl.ApplyToSkeleton | RayMarching/osc_control.py:73-113 | a skeleton call has its expected outcome and pose effect, keeps the skeleton valid and changes no visualization state |
| Control.OscControl.UpdatePose | RayMarching/osc_control.py:73-113 | the setter's outcome; the new pose is the old one with only the named fields replaced, and the joint and edge tables are rederived on an applied update and kept otherwise |
| Control.OscControl.ApplyToTables | RayMarching/osc_control.py:187-306 | a table call has its expected outcome, changes its one table as TableApplied says and keeps every other table, the scene and the skeleton |
| Control.OscControl.Broadcast | RayMarching/osc_control.py:187-306 | a broadcast call fills its one table and keeps the other seven |
| Control.OscControl.BroadcastToJoints | RayMarching/osc_control.py:187-245 | a per-joint broadcast fills its one table and keeps the other seven |
| Control.OscControl.BroadcastToEdges | RayMarching/osc_control.py:248-306 | a per-edge broadcast fills its one table and keeps the other seven |
| Control.OscControl.WriteEntry | RayMarching/osc_control.py:187-306 | an indexed call performs the guarded write on its one table |
| Control.OscControl.WriteJointEntry | RayMarching/osc_control.py:187-245 | an indexed joint call writes against jointCount |
| Control.OscControl.WriteEdgeEntry | RayMarching/osc_control.py:248-306 | an indexed edge call writes against edgeCount (jointCount for roundings) |
| Control.OscControl.ApplyToGround | RayMarching/osc_control.py:320-330 | a ground position/rotation call stores the value and recomputes the ground transform, or raises and keeps it; no other scene field, table or skeleton state changes |
| Control.OscControl.ApplyToScene | RayMarching/osc_control.py:115-348 | a camera, colour, light, ground-shape or joint-edge call changes the scene as SceneAfter says (its one field replaced, every other field kept), and no table and no skeleton state |
| Control.OscControl.ApplyToView | RayMarching/osc_control.py:115-143 | a camera, colour or light-position call (and jointedgesmooth) replaces its one scene field |
| Control.OscControl.ApplyToLight | RayMarching/osc_control.py:145-185 | a light scale, power or occlusion call replaces its one scene field |
| Control.OscControl.ApplyToShape | RayMarching/osc_control.py:314-348 | a ground primitive, size, rounding or smoothing call replaces its one scene field |
| Control.OscControl.Handle | RayMarching/osc_control.py:16-348 | an unmapped address or a declined tuple is ignored and changes nothing; a handler that raises before calling changes nothing; otherwise the routed call has its expected outcome and effect |

## Left out

- The UDP server, the dispatcher's threading and `start_server`/`start`/`stop` (`RayMarching/osc_control.py:60-71`): these are network and thread plumbing. `Handle` models one delivered message.
- OSC address pattern matching (wildcards): the model routes exact addresses only.
- The concurrency between the OSC thread and the render timer: the source has no locking, so each handler is modelled as running alone.
- `Visualization.setupShader` and `render`: OpenGL calls with no checkable logic of their own.
- `RayMarching/raymarching.py` and the ImageDeepdream directory: startup glue and an unrelated image script. They are not part of this model.
- Non-numeric OSC arguments (strings, blobs): every argument is modelled as a Python int or float. Python bools and ints too large for int64 (which change numpy's dtype) are not modelled.
- Control.Reals: the position and vector handlers read every argument as a real. An all-int position or vector tuple also gives an integer array, but no float is ever written back into it in place, so its dtype does not change what is stored. Only the rotation message carries its dtype (`JointRotations`' `integral` flag).
- The numeric internals of `np.linalg.norm`, `quat2mat`, `arccos`, `sin` and `euler2quat`: they are parameters (`Geometry.Numerics`) with only the facts the proofs use, such as `sqrt` being non-negative and zero exactly at 0, and `quat2mat` mapping the identity to the identity.
- The random initial pose of `Skeleton.__init__`: the constructor takes it as two parameters.
- Floating point: coordinates are exact reals, so rounding, NaN from a zero norm and int32 overflow of huge primitive values are not modelled.
- Rigging.Skeleton.constructor: requires a well-formed rig (`RigFits`): `|jointFilter| <= |jointConnectivity|`, and every child index a valid joint. The source accepts any adjacency list. It then fails later with IndexError inside `updateEdgeTransforms` (reading `jointConnectivity[pjI]` at `RayMarching/skeleton.py:181`, or a child's position), which the model does not capture.
- Shading.Visualization.SetJointSize: sizes are typed as 3-vectors. numpy's broadcasting of other lengths (or the ValueError it raises) is not modelled, and the same holds for SetJointSizes, SetEdgeSize and SetEdgeSizes.
- Shading.Visualization.SetCamAngle: the camera angle is kept as the sequence the handler passes. The renderer's use of it as a scalar is not modelled.
- Control.OscControl.ApplyToScene: its contract states the effect through `Applied` and does not restate the outcome, which is always Done. The same holds for ApplyToView, ApplyToLight and ApplyToShape.
- Control.OscControl.Broadcast: the same applies; its outcome is always Done and is stated by its caller.
