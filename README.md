# Hooah chain and rope components, modelled in Dafny

This project models the runtime core of the Hooah Unity components:

- **`FalseChainCreator`** hangs a chain or rope between two anchor transforms. Every frame,
  `LateUpdate` does the following:
  - It checks three guards: enough links, both anchors, and a link prefab unless it is a rope.
  - It nudges the end anchor off the start anchor's x and z.
  - It measures the offset in the object's lossy scale and turns it into a 2D rope target in units of the chain's length.
  - Only when that target (by Unity's approximate `Vector2 ==`), the rope mode or a width changed, and the chain is visible or updates off screen, does it re-solve the rope and re-place the link joints.
  - Finally it re-aims the object at the horizontal offset whenever that moved.

  The nested `QuadRope` is a parabola from the origin to the target that sags `distanceYAxis` below the chord:
  - The sag depth comes from a shared square look-up table (LUT) of bisected depths, sampled bilinearly.
  - A target longer than the rope is kept taut and, unless stretching is allowed, rescaled to unit length.

  `SetLocalLinkPositions` walks the curve in equal x steps and drops a joint every `1/numberOfLinks` of the rope's arc length. `CheckFrustumVisibility` is the frustum culling test of the component's camera helper, with its `PlaneSWR.Set`.
- **`DickController`** lays a chain of transforms along a two-leg path: start anchor → middle anchor → end anchor.
  - `Update` pulls the middle and end anchors towards a navigator and measures a clamped pull factor from a pull proxy.
  - `LateUpdate` turns that factor into three blend-shape weights, then places every link on the path and turns the previous link towards it.
  - `Start` builds the table from blend-shape slot to mesh index.
- **`ResolverCharacterIK`** is a saved reference to one IK target of a Studio character:
  - It saves as `"<scene id>,<IK index>"`.
  - It loads by splitting on commas, parsing both numbers with `int.TryParse` and looking the id up in the Studio's object table.
  - The .NET formatting, parsing and splitting it depends on are modelled in `NetText`.
- **`Utility.Vector`** has two helpers:
  - `SqrDistance` is the squared distance between two points.
  - `IsInRange` compares that squared distance with the threshold itself, not its square, and the model keeps that.

Design of the model:

- **Numbers and host math.**
  - C# `float` is an exact `real`.
  - `Mathf.Sqrt`, `Mathf.Log` and `Mathf.Approximately` are values of a `MathLib` datatype that the objects hold.
  - Where a proof needs the square root to behave, it requires `SqrtSound`: the root of a non-negative number is non-negative and squares back to it.
- **Quaternions.** Quaternion values come from host functions passed in (`fromToRotation`, `lookRotation`).
- **Scene reads become parameters.** This covers anchor positions, null transforms as `Option`, the camera's visibility verdict, the Studio's object table and the IK helper results.
- **Structure.** Objects whose fields the C# updates in place are classes with `modifies` frames, and the loops are `while` loops with invariants. The table shared by all `QuadRope`s is a `LookUpTable` object holding an `array`.

Files:

| file | module | models |
|---|---|---|
| `unity_math.dfy` | `Wrappers`, `UnityMath` | nullable values; the slice of Unity's vector math the components use |
| `quad_rope.dfy` | `QuadRopeSolver` | `FalseChainCreator.QuadRope` and its shared LUT |
| `chain_creator.dfy` | `ChainCreator` | `FalseChainCreator`, `SetLocalLinkPositions`, the frustum test |
| `chain_follower.dfy` | `ChainFollower` | `DickController` |
| `net_text.dfy` | `NetText` | `int.ToString`, `int.TryParse`, `String.Split` |
| `resolver_character_ik.dfy` | `CharacterIK` | `ResolverCharacterIK` |
| `vector.dfy` | `Vector` | `HooahComponents.Utility.Vector` |

## Model

| member | source | states |
|---|---|---|
| QuadRopeSolver.CurvePoint | IL_Hooah/FalseChainCreator.cs:474-484 | the curve point's x is `i01 * target.x`; the curve starts at the origin (i01 = 0) and ends on the target (i01 = 1) |
| QuadRopeSolver.Bisect | IL_Hooah/FalseChainCreator.cs:350-367 | whatever the host length and `Approximately` answer, n bisection steps from 0.5 leave the sag depth at least 0.5^(n+1) away from 0 and from 1 |
| QuadRopeSolver.HalfMonotone | IL_Hooah/FalseChainCreator.cs:353-363 | the bisection step (a power of one half) never grows with more steps |
| QuadRopeSolver.LutTarget | IL_Hooah/FalseChainCreator.cs:325-331 | every target the table is built for has a positive x, so the curve is defined for it (column 0 reuses column 1's x) |
| QuadRopeSolver.LutCell | IL_Hooah/FalseChainCreator.cs:327-331 | every stored sag depth lies strictly inside (0, 1) |
| QuadRopeSolver.FirstColumnRepeatsSecond | IL_Hooah/FalseChainCreator.cs:326-327 | column 0 of the table holds the same depths as column 1 |
| QuadRopeSolver.CellIndex | IL_Hooah/FalseChainCreator.cs:327-331 | cell (col, row) at `col + row * side` lies inside the side x side table, and the index decodes back to col (mod side) and row (div side) |
| QuadRopeSolver.CellOf | IL_Hooah/FalseChainCreator.cs:327-331 | conversely, every table index is `col + row * side` for a column and a row below side |
| QuadRopeSolver.LutTapsAt | IL_Hooah/FalseChainCreator.cs:337-343 | the four clamped floor and ceiling taps of a lookup are all inside the table, for any (x, y); wherever two taps differ, the `% 1` fraction between them is strictly inside (0, 1) |
| QuadRopeSolver.TapFraction | IL_Hooah/FalseChainCreator.cs:339-343 | a clamped floor and ceiling differ only when the C# `% 1` remainder is strictly between 0 and 1 |
| QuadRopeSolver.LerpInside | IL_Hooah/FalseChainCreator.cs:344-347 | `LerpUnclamped` between two depths in (0, 1) stays in (0, 1) when they agree or the fraction is inside (0, 1) |
| QuadRopeSolver.LookUpTable.constructor | IL_Hooah/FalseChainCreator.cs:297-298 | before any rope is solved the shared table is absent (null, side 0) and valid |
| QuadRopeSolver.QuadRope.constructor | IL_Hooah/FalseChainCreator.cs:299-300 | a new rope has a zero target and zero sag depth and shares the given table |
| QuadRopeSolver.QuadRope.CalculateDistanceYAxis | IL_Hooah/FalseChainCreator.cs:350-367 | the loop with its early return computes exactly the bisection `Bisect` from 0.5 over `precision` steps (none when negative) |
| QuadRopeSolver.QuadRope.GenerateLUT | IL_Hooah/FalseChainCreator.cs:321-333 | a fresh side x side table whose every cell (col, row) holds the bisected depth `LutCell` of its target, all strictly inside (0, 1) |
| QuadRopeSolver.NothingFilled | IL_Hooah/FalseChainCreator.cs:321-324 | before the fill loops start, no cell is claimed filled, whatever the new array holds |
| QuadRopeSolver.StoreCell | IL_Hooah/FalseChainCreator.cs:327-331 | storing cell (x, y)'s depth extends the filled region by exactly that cell, in the loops' column-major order |
| QuadRopeSolver.NextColumn | IL_Hooah/FalseChainCreator.cs:328-332 | a finished column moves the fill to the top of the next |
| QuadRopeSolver.WholeTable | IL_Hooah/FalseChainCreator.cs:321-333 | once every column is filled, each cell holds its own depth and every stored value is in (0, 1) |
| QuadRopeSolver.QuadRope.FilteredLUT | IL_Hooah/FalseChainCreator.cs:335-348 | bilinear sampling reads only cells inside the table and returns a depth strictly inside (0, 1) for any (x, y) |
| QuadRopeSolver.QuadRope.At | IL_Hooah/FalseChainCreator.cs:469-484 | the point's x is `i01 * target.x`; the stored curve starts at the origin and ends on the stored target |
| QuadRopeSolver.QuadRope.GetTarget | IL_Hooah/FalseChainCreator.cs:494-497 | the stored target is the curve's end point `At(1)` |
| QuadRopeSolver.QuadRope.RefreshLUT | IL_Hooah/FalseChainCreator.cs:389 | the table is rebuilt at the requested resolution exactly when it is missing or coarser, and otherwise kept as it is, whatever the requested resolution (0 or less included); so the shared side never shrinks, and a table exists afterwards |
| QuadRopeSolver.QuadRope.SetTarget | IL_Hooah/FalseChainCreator.cs:387-415 | table refresh as above; a target longer than 1 gets sag 0.00001 and is kept (stretching) or divided by its magnitude; any other target is kept with the table's depth at (x, \|y\|); afterwards the rope is ready (x ≠ 0, depth in (0, 1)) |
| QuadRopeSolver.RescaledTargetIsUnit | IL_Hooah/FalseChainCreator.cs:396-399 | with a sound square root, a target divided by its magnitude has squared length exactly 1 |
| ChainCreator.NudgedEnd | IL_Hooah/FalseChainCreator.cs:91-94 | the nudged end never shares the start's x or z, keeps its height, and is moved only along an axis it shared |
| ChainCreator.RopeTargetAhead | IL_Hooah/FalseChainCreator.cs:96-105 | for any two anchors and lossy scale, the rope target's x is positive (in exact arithmetic, see "## Left out"), so the rope is always solvable |
| ChainCreator.StepsDecrease | IL_Hooah/FalseChainCreator.cs:268-273 | a chord at least one step long, that does not reach the link distance, uses up at least one whole step of the remaining distance |
| ChainCreator.SegmentAtLeast | IL_Hooah/FalseChainCreator.cs:265-267 | moving `xOffset` along the curve moves the point at least `xOffset * \|target.x\|`, so the walk always advances |
| ChainCreator.Cut | IL_Hooah/FalseChainCreator.cs:276-282 | the joint interpolated inside the last chord keeps the point on the line x · target.x and restarts the walked distance |
| ChainCreator.WalkStep | IL_Hooah/FalseChainCreator.cs:265-283 | one loop pass keeps the point on the line x · target.x; a pass that places a joint restarts the count, and one that places nothing strictly reduces the whole steps left before the next joint |
| ChainCreator.WalkCurve | IL_Hooah/FalseChainCreator.cs:257-284 | the joint-placing loop always terminates, fills only the interior joints, and leaves the first and last entries alone |
| ChainCreator.CheckFrustumVisibility | IL_Hooah/FalseChainCreator.cs:583-607 | the box is reported visible exactly when it lies behind none of the planes |
| ChainCreator.FrontBoxNotCulled | IL_Hooah/FalseChainCreator.cs:615-630 | for a plane built by `Set`, a box with non-negative extents whose centre is on or in front of the plane is never culled by it |
| ChainCreator.PlaneSet | IL_Hooah/FalseChainCreator.cs:615-630 | the stored normal and distance times the normal's original magnitude give back the arguments, and the absolute normal is the component-wise absolute value |
| ChainCreator.PlaneSetUnit | IL_Hooah/FalseChainCreator.cs:615-630 | with a sound square root and a non-zero normal, the plane's normal has unit length |
| ChainCreator.FalseChainCreator.constructor | IL_Hooah/FalseChainCreator.cs:15-73 | the inspector defaults (15 links, quality 30, LUT resolution 128, precision 16, link size 1, widths 0.1, no stretching, chain mode) and the rope length `Start` sets to 1 |
| ChainCreator.FalseChainCreator.SetLocalLinkPositions | IL_Hooah/FalseChainCreator.cs:247-287 | the joint buffer has `linkJoints` entries, reused when it already had that length; the first joint is the curve's origin, the last is the rope's target, and the rope length is the curve's arc length |
| ChainCreator.FalseChainCreator.Remember | IL_Hooah/FalseChainCreator.cs:111-135 | caching the target, widths and mode makes the next comparison with the same target find nothing changed |
| ChainCreator.FalseChainCreator.Retarget | IL_Hooah/FalseChainCreator.cs:114 | the rope is solved with the component's LUT resolution, precision and stretching, with exactly `SetTarget`'s outcome: the target kept, or rescaled to unit length when too long and stretching is off, and its sag depth; the shared table never shrinks |
| ChainCreator.FalseChainCreator.Rebuild | IL_Hooah/FalseChainCreator.cs:111-138 | after a rebuild the cache matches the target and widths, the mode switch is recorded, the rope is solved for the target as `SetTarget` promises, the joints run from the origin to the rope's target, and the rope length is the curve's arc length |
| ChainCreator.FalseChainCreator.Resolve | IL_Hooah/FalseChainCreator.cs:106-139 | nothing happens exactly when target, mode and widths match the cache; an invisible chain that does not update off screen is skipped; otherwise it is rebuilt. Unless it is rebuilt, the cached target, widths and mode, the rope's target and sag, the table, the joint buffer and its contents and the rope length are all as before |
| ChainCreator.FalseChainCreator.Place | IL_Hooah/FalseChainCreator.cs:87-105 | the scale is links × link size and positive, the object sits on the start anchor, and the rope target is the scaled horizontal distance and height of the nudged offset, with positive x |
| ChainCreator.FalseChainCreator.Reaim | IL_Hooah/FalseChainCreator.cs:141-146 | the object is turned to the horizontal offset exactly when it moved away (by Unity's approximate `!=`) from the cached aim; the change detection's outcome is unaffected |
| ChainCreator.FalseChainCreator.FollowAnchors | IL_Hooah/FalseChainCreator.cs:87-146 | against the state at the start of the frame: the scale and position are set, the change detection decides between nothing, an off-screen skip (which also skips the re-aim) and a rebuild for the anchors' rope target, the rope side stays exactly as it was unless rebuilt, and the aim follows the offset |
| ChainCreator.FalseChainCreator.ResolveAndAim | IL_Hooah/FalseChainCreator.cs:106-146 | the change detection as in `Resolve`, then, unless the chain was skipped off screen, the re-aim as in `Reaim`, both against the state at the start of the call |
| ChainCreator.FalseChainCreator.LateUpdate | IL_Hooah/FalseChainCreator.cs:75-147 | the guards in order: too few links, a missing anchor, a missing prefab in chain mode, each exactly when it applies; a frame stopped by a guard changes nothing but `linkJoints` and the link size clamp; a frame past them has passed every guard and behaves as `FollowAnchors` |
| ChainCreator.FalseChainCreator.CheckGuards | IL_Hooah/FalseChainCreator.cs:77-85 | the joint count is always set; it stops with too few links, a missing anchor or a missing prefab exactly when each applies, clamps a non-positive link size to 0.001 once past the first guard, and lets the frame through exactly when all three guards pass |
| ChainFollower.NavigatorLerpFactor | IL_Hooah/DickController.cs:81-82 | the navigator weight is in [0, 1]: 1 while docked (distance factor ≤ 1), 0 from twice that distance, strictly between in between |
| ChainFollower.DistFactor | IL_Hooah/DickController.cs:80-81 | the factor times the scaled docking distance is the navigator's distance; with a positive unit it is at most 1 exactly within one unit and at least 2 exactly from two units on |
| ChainFollower.Blended | IL_Hooah/DickController.cs:82-85 | a docked navigator (factor at most 1) carries the anchor onto its point; one at least twice the docking distance away leaves the anchor at its rest point |
| ChainFollower.PullFactor | IL_Hooah/DickController.cs:93-95 | the pull factor is clamped to [-1, 1] |
| ChainFollower.PullFactorSign | IL_Hooah/DickController.cs:93-95 | with positive distance, pull length and scale, the pull factor is positive (pull) exactly when the cosine between `root - proxy` and the root's up axis is, that is when the proxy lies below the root, and negative (push) exactly when the proxy lies above it |
| ChainFollower.BlendWeights | IL_Hooah/DickController.cs:106-118 | pulling and pushing never both carry weight, each is active exactly on its side of 0; the pull weight is min(50, 100 · \|factor\|) and in [0, 50], the two push weights are equal, 100 · \|factor\| for a negative factor, and at most 100 for a clamped one |
| ChainFollower.SlotsOfNames | IL_Hooah/DickController.cs:17-22 | the dictionary maps "pull", "push", "pushfskin" to slots 0, 1, 2 and every other name to nothing |
| ChainFollower.InsertAt | IL_Hooah/DickController.cs:63 | `List.Insert` at a position up to the length puts the value there and shifts the tail up by one |
| ChainFollower.NoneStaysNone | IL_Hooah/DickController.cs:59-64 | once an insert has thrown, no later blend shape changes the outcome |
| ChainFollower.ShapeTableLength | IL_Hooah/DickController.cs:59-65 | a table built without a throw gains one entry per recognised blend shape name |
| ChainFollower.ShapeTableIndices | IL_Hooah/DickController.cs:59-64 | every entry of the table is the mesh index of a blend shape looked at |
| ChainFollower.Linear | IL_Hooah/DickController.cs:206-209 | for a bend in (0, 1], the two-leg path gives the start anchor for every parameter at or below 0, passes through the middle anchor at the bend parameter and gives the end anchor for every parameter at or above 1 past the bend; with the bend at 1 the C# second leg's `(t - 1) / 0` is +Infinity, clamped to the end anchor |
| ChainFollower.InOrderFillsTable | IL_Hooah/DickController.cs:59-65 | shapes named in the enum's order give the table [0, 1, 2], so the mesh can morph |
| ChainFollower.OutOfOrderFails | IL_Hooah/DickController.cs:59-64 | "push" before "pull" inserts at 1 into an empty list, which throws |
| ChainFollower.SkipsOtherShapes | IL_Hooah/DickController.cs:59-64 | an unrecognised shape is skipped but shifts the mesh indices stored for the others |
| ChainFollower.LinkParameter | IL_Hooah/DickController.cs:126-127 | every link, including the first at 0, sits at parameter `index * chainLength * scale`, so the links are evenly spaced |
| ChainFollower.LastLinkAtEnd | IL_Hooah/DickController.cs:100-128 | for any scale s, the last link's parameter is s · s · (path length at `Start`) / (current path length), and it lies on the end anchor whenever that reaches 1, in particular for an unchanged path at unit scale, also with a collapsed second leg |
| ChainFollower.TurnedRotation | IL_Hooah/DickController.cs:129-139 | a link keeps its rotation when it is the last one or the direction to the next link is (approximately) zero, and otherwise gets the look rotation towards the next link |
| ChainFollower.DickController.constructor | IL_Hooah/DickController.cs:29-43 | defaults: docking distance 2.1, pull length 1, empty shape table, no morphing, zero pull factor |
| ChainFollower.DickController.BenisLengthZero | IL_Hooah/DickController.cs:53-54 | with a sound square root the path length is non-negative and zero exactly when the three anchors coincide |
| ChainFollower.DickController.BendParameter | IL_Hooah/DickController.cs:102 | with a sound square root and a first leg of positive length, `benisMiddlePoint` lies in (0, 1], and is 1 exactly when the end anchor sits on the middle one |
| ChainFollower.DickController.ChainLength | IL_Hooah/DickController.cs:100-101 | with at least two links and a non-zero path length, the per-link length times the number of gaps times the path length is the scaled length recorded at `Start` |
| ChainFollower.DickController.Start | IL_Hooah/DickController.cs:56-68 | it throws exactly when the table model fails; otherwise the table is the one `ShapeTable` describes, the mesh can morph exactly when all three slots are filled, and the first distance is the path length |
| ChainFollower.DickController.FollowNavigator | IL_Hooah/DickController.cs:78-86 | the middle and end anchors move from their rest points one and two scaled units up towards the navigator's points, by the navigator weight |
| ChainFollower.DickController.Update | IL_Hooah/DickController.cs:76-96 | without a navigator the anchors stay; without a pull transform the factor stays; otherwise the anchors blend as `Blended` says for `DistFactor` of the navigator's distance, and the factor is `PullFactor` of the root-to-proxy distance and cosine with the root's up axis |
| ChainFollower.DickController.ApplyBlendWeights | IL_Hooah/DickController.cs:104-119 | a mesh that can morph gets `BlendWeights` written at its shapes' indices in the source's order, and a negative pull factor is stored negated; otherwise nothing changes |
| ChainFollower.DickController.PlaceLink | IL_Hooah/DickController.cs:124-143 | one pass writes link `index` to its path point and, from the second link on, only the previous link's rotation |
| ChainFollower.DickController.PlaceLinks | IL_Hooah/DickController.cs:121-144 | every link sits on the path at its link parameter, and every rotation is the turn towards the next link, or the old rotation when that direction is zero or there is no next link |
| ChainFollower.DickController.LateUpdate | IL_Hooah/DickController.cs:98-145 | blend weights as in `ApplyBlendWeights`, then links as in `PlaceLinks`, for any anchors but a start and middle anchor in one place; a collapsed second leg is handled |
| NetText.DigitChar | IL_Hooah/Serialization/Target/ResolverCharacterIK.cs:31 | a digit below 10 is written as the decimal digit character of that value |
| NetText.NatToString | IL_Hooah/Serialization/Target/ResolverCharacterIK.cs:31 | a natural number formats as a non-empty string of decimal digits |
| NetText.Int32ToString | IL_Hooah/Serialization/Target/ResolverCharacterIK.cs:31 | an `int` formats as an optional minus sign then digits, never containing a comma |
| NetText.DigitsOfNat | IL_Hooah/Serialization/Target/ResolverCharacterIK.cs:31-38 | reading back the digits of n gives n |
| NetText.TrimLeadingWhite | IL_Hooah/Serialization/Target/ResolverCharacterIK.cs:38 | trimming never lengthens the text and leaves no white space at its start |
| NetText.TrimTrailingWhite | IL_Hooah/Serialization/Target/ResolverCharacterIK.cs:38 | trimming never lengthens the text and leaves no white space at its end |
| NetText.TryParseInt32 | IL_Hooah/Serialization/Target/ResolverCharacterIK.cs:38 | `int.TryParse` succeeds only on text containing a digit |
| NetText.ParseFormatted | IL_Hooah/Serialization/Target/ResolverCharacterIK.cs:31-38 | every `int`, formatted, parses back to itself, including `int.MinValue` |
| NetText.ParseNatural | IL_Hooah/Serialization/Target/ResolverCharacterIK.cs:38 | the digits of any n below 2^31 parse to n |
| NetText.ParseNegative | IL_Hooah/Serialization/Target/ResolverCharacterIK.cs:38 | a minus sign before the digits of any n from 1 to 2^31 parses to -n |
| NetText.OverflowRejected | IL_Hooah/Serialization/Target/ResolverCharacterIK.cs:38 | the digits of any n of 2^31 or more do not parse |
| NetText.UnderflowRejected | IL_Hooah/Serialization/Target/ResolverCharacterIK.cs:38 | a negative number below -2^31 does not parse |
| NetText.NoDigitNoInt | IL_Hooah/Serialization/Target/ResolverCharacterIK.cs:38 | text without a digit does not parse |
| NetText.Split | IL_Hooah/Serialization/Target/ResolverCharacterIK.cs:37 | `String.Split` always yields at least one piece |
| NetText.SplitCount | IL_Hooah/Serialization/Target/ResolverCharacterIK.cs:37-38 | the number of pieces is the number of separators plus one |
| NetText.SplitPiecesClean | IL_Hooah/Serialization/Target/ResolverCharacterIK.cs:37 | no piece contains the separator |
| NetText.SplitJoin | IL_Hooah/Serialization/Target/ResolverCharacterIK.cs:37 | joining the pieces with the separator restores the text |
| NetText.SplitNoSeparator | IL_Hooah/Serialization/Target/ResolverCharacterIK.cs:37 | text without the separator splits into itself alone |
| NetText.SplitPair | IL_Hooah/Serialization/Target/ResolverCharacterIK.cs:31-37 | two separator-free strings joined by the separator split back into exactly those two |
| CharacterIK.SaveText | IL_Hooah/Serialization/Target/ResolverCharacterIK.cs:28-32 | the save text splits on commas into exactly two pieces that parse back to the scene id and the IK index |
| CharacterIK.ParseSaveText | IL_Hooah/Serialization/Target/ResolverCharacterIK.cs:36-38 | only a non-empty string with exactly one comma can be accepted |
| CharacterIK.Resolve | IL_Hooah/Serialization/Target/ResolverCharacterIK.cs:36-46 | a load succeeds only for accepted text with a running Studio, and yields the character stored under the parsed id with its IK target at the parsed index |
| CharacterIK.SaveThenResolve | IL_Hooah/Serialization/Target/ResolverCharacterIK.cs:28-46 | saving and loading into a scene that holds the character under its id finds that character and the IK target at the saved index |
| CharacterIK.WrongPieceCountRejected | IL_Hooah/Serialization/Target/ResolverCharacterIK.cs:37-38 | text with any number of commas other than one is rejected |
| CharacterIK.MissingCharacterRejected | IL_Hooah/Serialization/Target/ResolverCharacterIK.cs:40-42 | no Studio, an id not in the table, or an id of a non-character object loads nothing |
| CharacterIK.ResolverCharacterIK.constructor | IL_Hooah/Serialization/Target/ResolverCharacterIK.cs:9-10 | a new resolver refers to no character and no IK target |
| CharacterIK.ResolverCharacterIK.GetTarget | IL_Hooah/Serialization/Target/ResolverCharacterIK.cs:12-15 | returns the stored IK target |
| CharacterIK.ResolverCharacterIK.SetTarget | IL_Hooah/Serialization/Target/ResolverCharacterIK.cs:22-26 | stores the character and the IK target |
| CharacterIK.ResolverCharacterIK.GetSaveInfo | IL_Hooah/Serialization/Target/ResolverCharacterIK.cs:28-32 | the save text parses back, piece by piece, to the current character's scene id and IK index |
| CharacterIK.ResolverCharacterIK.AssignSaveInfo | IL_Hooah/Serialization/Target/ResolverCharacterIK.cs:34-48 | on text that resolves, both fields point at the resolved character and IK target; on anything else (null, non-string, empty, malformed, no Studio, no such character) both stay as they were |
| CharacterIK.RoundTrip | IL_Hooah/Serialization/Target/ResolverCharacterIK.cs:22-48 | a resolver set, saved and loaded into a fresh resolver in a scene holding the character ends up at that character and the IK target at the saved index |
| Vector.SqrDistance | IL_Hooah/Utility/Vector.cs:7-10 | the squared distance is non-negative and zero exactly for equal points |
| Vector.SqrDistanceSymmetric | IL_Hooah/Utility/Vector.cs:7-10 | the squared distance does not depend on the order of the points |
| Vector.SqrDistanceToSelf | IL_Hooah/Utility/Vector.cs:7-10 | a point's squared distance to itself is 0 |
| Vector.IsInRange | IL_Hooah/Utility/Vector.cs:12-15 | a point within range makes the threshold non-negative, and a point is within every non-negative range of itself |
| Vector.InRangeByDistance | IL_Hooah/Utility/Vector.cs:12-15 | with a sound square root and a non-negative threshold, a point is in range exactly when its distance is at most the threshold's square root, so the threshold acts as a squared distance |
| Vector.InRangeMonotone | IL_Hooah/Utility/Vector.cs:12-15 | a larger threshold keeps a point in range |
| Vector.InRangeSymmetric | IL_Hooah/Utility/Vector.cs:12-15 | the range test does not depend on the order of the points |

## Left out

- **Host math.** The accuracy of `Mathf.Sqrt`, `Mathf.Log` and `Mathf.Approximately` is not modelled; they are parameters. Only `SqrtSound` is assumed, and only where termination or positivity needs it.
- **Float rounding, NaN and infinities.** `real` is exact, so the places where the C# divides by zero and carries on with an infinity or NaN are preconditions instead, each conditional on the path that reaches the division:
  - a zero lossy scale component (the offset is divided by it) on a frame that gets past the guards;
  - in `DickController.LateUpdate`, a start and middle anchor in one place (see the `ChainFollower.DickController.LateUpdate` line below);
  - `quality == 1` (the walk's step is `1 / (quality - 1)`) or, with no table built yet, a table resolution of 0 or less (the C# then builds an empty or invalid table and reads outside it), but only on a frame that rebuilds the rope; any other frame accepts these settings;
  - a zero docking distance or scale (`Update` divides the navigator distance by it), only when a navigator is present, and a zero `pullLength`, only when a pull transform is present.
- **Quaternion values.** `Quaternion.FromToRotation`, `Quaternion.LookRotation`, the two `Euler` turns and `AngleAxis` come from host functions passed in. Their values are not modelled; only which rotation is written, and when, is.
- **Rendering and scene side effects.** `LineRenderer` creation and removal, `Instantiate`, `SetLinkPositions`, `SetRopePositions`, `SetBlendShapeWeight` on the mesh, gizmos and `LUT_2_Texture` are out of scope. Blend weights are kept as a map from mesh index to weight.
- **Camera visibility.** Enumerating the cameras and building their frustum planes is host code. `LateUpdate` takes the visibility verdict as a parameter, and `CheckFrustumVisibility` and `PlaneSWR.Set` are modelled on their own.
- **The transform hierarchy.** Positions are world values passed in and stored. Parenting, `lossyScale` and `localScale` are read-only inputs.
- **Null anchors in `DickController`.** The `?? Vector3.zero` fallback of the anchor properties is not modelled; the anchors are always present.
- **Coroutine and navigator lookup.** `DickController.UpdateProxyInformation`, which picks the nearest navigator and proxy every half second, is left out. `Update` takes the navigator and pull transform as optional parameters.
- **Editor-only code and `QuadFloat`.** `DickController.OnDrawGizmos` and the unused `QuadFloat` are not modelled.
- **The Studio IK helpers.** `GetCharacterSceneID`, `GetCharacterIKIndex` and `GetCharacterIKByIndex` are defined outside this model, so their results are opaque functions. The `Studio` object table is a map passed in, or None when the Studio singleton does not exist. `GetTransform` reads a Unity transform and is left out.
- **Culture-specific number formats.** Formatting and parsing use the invariant decimal form. Leading and trailing white space and an optional sign are accepted; other `NumberStyles` features are not.
- **QuadRopeSolver.QuadRope.SetTarget:** the one-argument `CalculateDistanceYAxis(target)` (lines 411-415) is not a member of its own. It is inlined as the `FilteredLUT(x, |y|)` call, as the C# does.
- **QuadRopeSolver.Integrate:** the arc-length formula is written out, but its agreement with the curve's true arc length is not stated, because that rests on the host logarithm and square root.
- **ChainCreator.WalkCurve:** the interior joints' equal arc-length spacing is not stated. The contract covers termination and which entries are written, and `WalkStep` keeps each point on the line x · target.x. The spacing depends on the host square root's accuracy.
- **ChainCreator.FalseChainCreator.SetLocalLinkPositions:** states the first and last joints, the buffer reuse and the rope length, but not the interior joints, for the same reason as `WalkCurve`.
- **ChainCreator.FalseChainCreator.Rebuild:** the order of writes differs from the C#, which caches the target before solving. The end state is the same, and only the rope-mode switch (`wasRope`) of the renderer block is modelled.
- **ChainCreator.FalseChainCreator.Reaim:** its ghost parameters exist only to carry the change detection's outcome past the re-aim. They have no counterpart in the C#.
- **Method boundaries.** `Place`, `Resolve`, `ResolveAndAim`, `CheckGuards`, `Rebuild`, `Retarget`, `Remember`, `FollowAnchors`, `WalkStep`, `WalkCurve`, `RefreshLUT`, `FollowNavigator`, `ApplyBlendWeights`, `PlaceLinks` and `PlaceLink` divide the C# methods for the proofs. They add no behaviour. What each method may change is stated by its field-by-field `modifies` clause, so a field it does not list (the settings, for instance) is unchanged by it.
- **ChainFollower.DickController.Start:** requires that the mesh has not been marked morphable yet, which is how `Start` is first called. The `Select` over the chain objects and the coroutine start are not modelled.
- **ChainFollower.DickController.ChainLength:** with a single link, or a path of length zero (all three anchors in one place, see `BenisLengthZero`), the C# divides by zero. The model returns 0 there. The placement loop never uses it with one link, and `LateUpdate` requires a first leg of positive length, so the path is never of length zero there.
- **ChainFollower.DickController.LateUpdate:** requires the start and middle anchors to be apart. When they coincide and the end anchor does not, `benisMiddlePoint` is 0 and the C# places link 0 at `Lerp(p0, p1, 0 * (1 / 0))`, a NaN position; the other links take the second leg normally. When all three coincide, the bend parameter itself is 0 / 0. `real` has no NaN, so neither case is modelled. A second leg of length zero (the end anchor on the middle one) is modelled: the bend sits at 1 and every link past it lands on the end anchor.
- **ChainCreator.RopeTargetAhead:** holds in exact arithmetic only. In `float`, the `+= 0.00001f` nudge of the end anchor is lost to rounding once a coordinate reaches 256 in magnitude, so vertically aligned anchors far from the origin give a rope target with x == 0, which the C# itself calls invalid.
- **`Serialization/Utility.cs`.** The helper implementations behind the IK lookups are not part of this model.
- **QuadRopeSolver.Integrate, QuadRopeSolver.CurveRectified, QuadRopeSolver.QuadRope.CurveLength:** no contract of their own. The closed form is evaluated over the host logarithm and square root, and nothing about it holds without their accuracy.
- **ChainFollower.ShapeTable:** its contract is carried by the lemmas `ShapeTableLength`, `ShapeTableIndices`, `NoneStaysNone`, `InOrderFillsTable`, `OutOfOrderFails` and `SkipsOtherShapes`.
- **ChainFollower.DickController.BenisLength:** its contract is carried by `BenisLengthZero`.
- **`int.TryParse` and a trailing NUL.** .NET's parser also accepts trailing `'\0'` characters after the digits. The model rejects them, so text ending in NUL is loaded by the C# but not by the model.
- **32-bit overflow.** `numberOfLinks + 1` in `LateUpdate` and `side * side` in `GenerateLUT` are unbounded integers here; the C# wraps around for `numberOfLinks = int.MaxValue` or a table side above 46340.
- **A missing `pullProxyRoot`.** `Update` reads `pullProxyRoot.position` whenever a pull transform exists (DickController.cs:91), which throws when the root is null; the model takes the root's position and up axis as part of the pull parameter, so that exception is not modelled.
