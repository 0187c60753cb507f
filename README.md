# Crane animation core, modelled and verified in Dafny

This project models the animation core of the tower-crane scene in
`crane/js/main-script.js`: the degree-of-freedom table and the
per-millisecond rates, the movement flags each part holds, `deltaSupplier`,
the three transform appliers (`rotateGroup`, `translateDynamicPart`,
`resizeCable`), the `update` frame step, the sphere-overlap collision tests,
the grab choreography (`handleCollisions` with `setAnimation`), the key
handlers, and the rejection sampler and placement loop that put the cargo in
the scene.

Modules, in dependency order:

- `Geometry` (geometry.dfy): vectors, the scene library's clamp, and the scene dimensions the core reads.
- `Flags` (flags.dfy): the six movement directions, a part's bag of held flags, their vector sum, and setting a flag on a list of parts.
- `MotionProfiles` (motion_profiles.dfy): `DEGREES_OF_FREEDOM`, `DELTAS`, `CRANE_DYNAMIC_PARTS`, and `deltaSupplier` as `Delta`. It also holds the well-formedness of the flags as the crane keeps them: every bag holds flags of its own part's axis only, and the cable and the claw share one bag's contents.
- `Appliers` (appliers.dfy): the appliers as functions from the old transform and a displacement to the new transform. It also has lemmas about repeated frames.
- `Collisions` (collisions.dfy): `colliding`, `checkCollisionsObjects`, the footprint test of `generateRandomPosition`, and the sampler itself, which is a method.
- `Choreography` (choreography.dfy): the stage `handleCollisions` is in, the flags each stage forces, what a grab does to the cargo, and the key bindings.
- `CraneScene` (crane.dfy) holds class `Crane`. Its fields are the transforms the appliers write in place (the `fingers` array holds four rotations) and the per-part flag map. It also holds the two latches `clawDecrease` and `clawAnimating`, and the cargo.
  - Its methods are the appliers, `setAnimation`, `checkCollisions`, `handleCollisions`, `update`, the key callbacks and `createCargo`. Each states its result, or its new state, as a function or predicate of its inputs and the old state.
  - The scene invariant is `Valid()`:
    - every clamped bound holds: trolley x, cable length (and with it claw y) and the finger closing angle; the top's yaw is unbounded;
    - the claw hangs at the end of the cable;
    - the cable is centred on its length;
    - every part has only moved along its own axis;
    - the flags are well formed.
  - `Update` keeps `Valid()`.

All arithmetic is on `real`. Things the scene library computes are inputs:

- the world positions of the claw and of the cargo (`getWorldPosition`);
- the angle to the container (`angleTo`);
- the bounding-sphere radii;
- the random numbers (`Math.random`).

The flag map's keys are the parts whose `movementFlags` object exists. A part absent from the map was never given flags, and `update` skips it, as the optional chaining in the source does.

Behaviours of the code kept as written:

- The release step waits for a cable length of exactly 15, but the cable is clamped to [0, 10]. `Choreography.ReleaseUnreachable` proves that this branch is never taken while the cable stays within its bounds. So once a grab starts, `clawAnimating` is never cleared, and key-down events are ignored from then on.
- `resizeCable` scales the cable by `h / 15` although the cylinder is built 10 long. The model keeps 15 (`Appliers.ReferenceCableLength`).

## Model

| member | source | states |
|---|---|---|
| Geometry.Clamp | crane/js/main-script.js:690-694 | the clamped value lies in [lo, hi]; it is the value itself inside the bounds and the crossed bound outside |
| MotionProfiles.DofOf | crane/js/main-script.js:82-115 | every profile's range is non-empty (min < max) |
| MotionProfiles.Rate | crane/js/main-script.js:134-144 | DELTAS: a profile's range divided by 4000 ms (its properties are RateSweepsRange and CableAndClawShareRate) |
| MotionProfiles.RateSweepsRange | crane/js/main-script.js:134-144 | each rate is positive, and the rate times 4000 ms is exactly the profile's range |
| MotionProfiles.CableAndClawShareRate | crane/js/main-script.js:96-107 | the cable and the claw both move at 10/4000 per millisecond |
| MotionProfiles.Delta | crane/js/main-script.js:710-718 | deltaSupplier: the normalized flag sum scaled by the profile's rate and the elapsed time (what it computes is stated by DeltaIsNetDistance and the lemmas below) |
| MotionProfiles.AxisLengthIsLength | crane/js/main-script.js:710-718 | for a vector along one axis, the sum of the absolute components is its Euclidean length |
| MotionProfiles.NormalizeDividesByLength | crane/js/main-script.js:710-718 | normalization divides every component by the length, gives a unit vector, and leaves the zero vector zero |
| MotionProfiles.DeltaIsNetDistance | crane/js/main-script.js:710-718 | on every axis, the displacement is the net count of held flags times the rate times the elapsed time |
| MotionProfiles.DeltaNoFlags | crane/js/main-script.js:710-718 | with no flag held the displacement is zero |
| MotionProfiles.DeltaOpposing | crane/js/main-script.js:125-132 | two opposing flags of one axis cancel to a zero displacement |
| MotionProfiles.DeltaSingle | crane/js/main-script.js:125-144 | one held flag displaces by its unit direction times the rate times the elapsed time |
| MotionProfiles.DeltaScalesSum | crane/js/main-script.js:710-718 | for flags along one axis, the displacement is the flag sum scaled by rate times time |
| MotionProfiles.SameRateSameDelta | crane/js/main-script.js:134-144 | profiles with equal rates give equal displacements for the same flags |
| MotionProfiles.ZeroNetIsRest | crane/js/main-script.js:710-718 | flags that cancel on every axis give a zero displacement |
| MotionProfiles.DeltaStaysOnAxis | crane/js/main-script.js:82-132 | under well-formed flags a part's displacement is zero off its profile's axis |
| MotionProfiles.WellFormedFlags | crane/js/main-script.js:795-805 | the invariant the key bindings and handleCollisions keep: every bag holds flags of its own part's axis only, and the cable and the claw hold the same flags |
| MotionProfiles.AxisBagOnOneAxis | crane/js/main-script.js:125-132 | flags of a single axis sum to a vector along that axis, zero on the other two |
| Flags.Unit | crane/js/main-script.js:125-132 | a flag's vector is plus or minus 1 on its axis and 0 on the others |
| Flags.ReduceIsFlagSum | crane/js/main-script.js:710-716 | the left fold over the held flags, listed in any order, equals the per-axis net count |
| Flags.Toggle | crane/js/main-script.js:629-636 | after setting, the flag is held iff `on`, and no other flag of the bag changes |
| Flags.SetFlags | crane/js/main-script.js:629-636 | setAnimation over a list of parts (its per-part effect is SetFlagsAt) |
| Flags.SetFlagsAt | crane/js/main-script.js:629-636 | a listed part gains a bag (created if missing) with the flag set and the rest unchanged; an unlisted part is untouched |
| Flags.PressThenRelease | crane/js/main-script.js:831-845 | a press followed by its release leaves the flag cleared and every other flag as before |
| Appliers.Translate | crane/js/main-script.js:684-698 | the profile axis is clamped into [min, max]; every other axis is old value plus displacement |
| Appliers.Rotate | crane/js/main-script.js:672-682 | with `clamp` set, the profile axis is the old angle plus displacement clamped into [min, max]; without clamp the result is the plain sum; other axes are always the plain sum |
| Appliers.ResizedLength | crane/js/main-script.js:700-705 | the new cable length lies within the cable's bounds |
| Appliers.TranslateAtRest | crane/js/main-script.js:684-698 | from an in-bounds position, a zero displacement changes nothing |
| Appliers.TopYawUnbounded | crane/js/main-script.js:82-89 | the top's yaw is old yaw plus displacement, never clamped or wrapped |
| Appliers.FingerAngleBounded | crane/js/main-script.js:108-114 | after any frame every finger's z angle lies in [-pi/4, 0] |
| Appliers.LiftShortensCable | crane/js/main-script.js:700-705 | a positive vertical displacement strictly shortens a cable of positive length |
| Appliers.ClampMirror | crane/js/main-script.js:96-107 | clamping the claw's height into its bounds is the claw height of the clamped cable length |
| Appliers.CableAndClawStayCoupled | crane/js/main-script.js:700-708 | with shared flags, one frame keeps claw.y == -(trolley.h / 2 + cable.h + wrist radius) |
| Appliers.WalkIsClampedSum | crane/js/main-script.js:684-708 | n frames of one displacement, clamped every frame, end where the sum clamped once ends |
| Appliers.WalkIsClampedTimes | crane/js/main-script.js:684-708 | the same with the repeated sum, whose sign is the displacement's sign |
| Appliers.TimesIsProduct | crane/js/main-script.js:684-708 | arithmetic helper for the repeated-frame lemmas: n displacements added up are n times the displacement |
| Appliers.TranslationsWalk | crane/js/main-script.js:684-698 | along the profile's axis, n frames of translateDynamicPart with one displacement are the clamped walk |
| Appliers.ResizesWalk | crane/js/main-script.js:700-705 | n frames of resizeCable's length update are the clamped walk by the negated vertical displacement |
| Appliers.TrolleyReachesJibEnd | crane/js/main-script.js:90-95 | held xPositive, repeated translations stop the trolley exactly at x == 18, the value the traversing stage compares with |
| Appliers.CableReachesZero | crane/js/main-script.js:603-604 | held yPositive, repeated resizes wind the cable up to length 0 exactly, which ends the raising stage |
| Collisions.Colliding | crane/js/main-script.js:552-558 | spheres collide iff the squared distance of the centres is at most the squared sum of the radii (its properties are the two lemmas below) |
| Collisions.CollidingSymmetric | crane/js/main-script.js:552-558 | swapping the two spheres does not change the result |
| Collisions.SameCentreCollides | crane/js/main-script.js:552-558 | coinciding centres always collide, whatever the radii |
| Collisions.CollidesWithAny | crane/js/main-script.js:560-571 | true iff some object's sphere collides with the given sphere |
| Collisions.HeldObjectCollides | crane/js/main-script.js:596-597 | assuming the held object's world centre is as far from the claw's as the local offset (0, -2.5, 0) is long, the object is within the claw's reach |
| Collisions.ReachCoversOffset | crane/js/main-script.js:55 | arithmetic helper for HeldObjectCollides: the claw's reach plus a non-negative radius, squared, covers the hold offset's 2.5 squared |
| Collisions.BoxesAreTheFloorAndTheBase | crane/js/main-script.js:1025-1039 | the container floor box is x in [7, 17], z in [12, 18]; the crane base box is [-3, 3] squared |
| Collisions.FootprintOverlaps | crane/js/main-script.js:1057-1068 | one box's half of the do-while test: the closed intervals of the footprint and of the box meet on both axes |
| Collisions.Rejected | crane/js/main-script.js:1057-1068 | the do-while condition: the footprint meets the container floor box or the crane base box |
| Collisions.ClearFootprintIsDisjoint | crane/js/main-script.js:1055-1066 | an accepted footprint shares no point with the box |
| Collisions.OverlapSharesPoint | crane/js/main-script.js:1055-1066 | a rejected footprint does share a point with the box |
| Collisions.SampleInSquare | crane/js/main-script.js:1041-1047 | a sample in [0, 1) maps into [-max, max] |
| Collisions.CandidateInSquare | crane/js/main-script.js:1041-1052 | a candidate drawn from unit samples lies in the sampling square |
| Collisions.CandidateRejection | crane/js/main-script.js:1049-1069 | the rejection test ignores the height, and the candidate keeps the given height |
| Collisions.RejectedStep | crane/js/main-script.js:1049-1067 | a further rejected attempt extends the run of rejected attempts |
| Collisions.GenerateRandomPosition | crane/js/main-script.js:1024-1070 | the result is the first candidate that is not rejected, keeps y and lies in the square; None when the samples run out, every attempt having been rejected |
| Collisions.PlacementValid | crane/js/main-script.js:521-545 | the placement guarantee: every placed object stands in the scene with a footprint the sampler accepted, and none collides with an object placed before it |
| Collisions.FirstClear | crane/js/main-script.js:540-543 | one object's draws: the first candidate that is neither rejected nor colliding with a placed object, at its height, with the index after it; None only when fewer than two samples are left |
| Collisions.FirstClearInSquare | crane/js/main-script.js:1041-1052 | from samples in [0, 1), an accepted draw lies in the sampling square |
| Collisions.SkipRejected | crane/js/main-script.js:1049-1069 | draws that the footprint test rejects are skipped |
| Collisions.DrawIsFirstClearStep | crane/js/main-script.js:540-543 | one generateRandomPosition followed by checkCollisionsObjects is one step of the search: a clear draw is its result, a colliding one leaves the rest to the later samples |
| Collisions.PlacementExtends | crane/js/main-script.js:540-544 | appending an accepted object that collides with no earlier object keeps the placement guarantee |
| Choreography.StageOf | crane/js/main-script.js:603-624 | each stage holds iff its nested conditions of handleCollisions hold, in source order |
| Choreography.ReleaseUnreachable | crane/js/main-script.js:96-101 | with the cable in [0, 10], the release stage (cable.h == 15) is never reached |
| Choreography.ForcedFlags | crane/js/main-script.js:603-624 | the setAnimation calls of the branch a stage takes, in source order (their per-part effect is ForcedFlagsAt) |
| Choreography.ForcedFlagsAt | crane/js/main-script.js:603-624 | per part, the flags each stage forces: yPositive while raising, xPositive while traversing, top yPositive while rotating, yNegative while lowering; every flag a stage does not name keeps its value and the fingers are never touched |
| Choreography.SetFlagsWellFormed | crane/js/main-script.js:629-636 | setting a flag along the parts' own axis, on the cable and the claw together, keeps the flags well formed |
| Choreography.ForcedFlagsWellFormed | crane/js/main-script.js:591-627 | every stage keeps the flags well formed |
| Choreography.RaisingShortensCable | crane/js/main-script.js:603-604 | the raising stage shortens a cable that is not wound up, unless yNegative was already held |
| Choreography.TraversingAdvancesTrolley | crane/js/main-script.js:608-609 | the traversing stage moves a trolley short of the jib end outwards, unless xNegative was already held |
| Choreography.Grab | crane/js/main-script.js:596-597 | the grabbed object moves under the claw at (0, -2.5, 0); every other object is unchanged |
| Choreography.GrabKeepsColliding | crane/js/main-script.js:573-597 | after a grab, with the world distance equal to the hold offset's length, the next frame's claw collision test finds the held object |
| Choreography.Release | crane/js/main-script.js:620 | the released object is detached where it was; every other object is unchanged |
| Choreography.KeyHandlerOf | crane/js/main-script.js:779-806 | keyHandlers: the camera keys, the wireframe key and the eight transform bindings with their parts and flags; any other key has no handler |
| Choreography.KeyBindingsStayOnAxis | crane/js/main-script.js:795-805 | every transform binding moves its parts along their own axis and names the cable and the claw together or neither |
| Choreography.KeyFlags | crane/js/main-script.js:831-845 | a transform handler writes `!isKeyUp` on its parts unless the event repeats (its effects are KeyDownHoldsKeyUpClears and RepeatIgnored) |
| Choreography.KeyDownFlags | crane/js/main-script.js:851-864 | while the grab animation runs a key-down changes no flag |
| Choreography.KeyUpFlags | crane/js/main-script.js:870-883 | onKeyUp: a bound key's handler runs with isKeyUp set, whether or not the grab runs |
| Choreography.KeyFlagsWellFormed | crane/js/main-script.js:831-845 | key events keep the flags well formed |
| Choreography.KeyDownHoldsKeyUpClears | crane/js/main-script.js:831-883 | a fresh key-down with no grab running sets the key's flag on its parts only; the key-up clears it even during a grab |
| Choreography.RepeatIgnored | crane/js/main-script.js:833-836 | repeated events change no flag |
| CraneScene.ValidPose | crane/js/main-script.js:82-115 | the scene invariant on the transforms: every clamped bound of the profile table holds (trolley x, cable length and with it claw y, finger closing angle; the top's yaw is unbounded), the claw hangs at the cable's end, the cable is centred on its length, and each part has moved along its own axis only |
| CraneScene.Advance | crane/js/main-script.js:648-708 | one frame with given displacements: each part whose flags exist is moved by its profile's applier, and every other part is unchanged (stated part by part by AdvancePart and SequentialIsAdvance) |
| CraneScene.ApplyFrame | crane/js/main-script.js:642-654 | update's frame: Advance with the displacements deltaSupplier gives each part (its properties are FrameKeepsValid and FrameAtRest) |
| CraneScene.Placement | crane/js/main-script.js:506-546 | createCargo as a function: all objects are placed iff the result holds five, placement stops unfinished only when fewer than two samples are left, earlier objects are kept, and each new object stands in the scene at its height and radius |
| CraneScene.PlacementSound | crane/js/main-script.js:506-546 | the objects Placement gives satisfy the placement guarantee and, from samples in [0, 1), lie in their sampling squares |
| CraneScene.RotateAll | crane/js/main-script.js:656-663 | every finger is turned by the same displacement, clamped |
| CraneScene.SequentialIsAdvance | crane/js/main-script.js:642-654 | visiting the parts one after another in table order equals moving each part by its own applier |
| CraneScene.FrameKeepsValid | crane/js/main-script.js:642-708 | a frame keeps every clamped bound (the top's yaw is unbounded), keeps the claw at the cable's end and keeps each part on its axis, for any elapsed time |
| CraneScene.DisplacementsStayOnAxis | crane/js/main-script.js:710-718 | each part's displacement lies along its axis (the cable's too), and the cable's vertical displacement equals the claw's |
| CraneScene.AdvanceKeepsValid | crane/js/main-script.js:656-708 | the appliers keep the pose valid for displacements that stay on each part's axis |
| CraneScene.FrameAtRest | crane/js/main-script.js:648-651 | with no part's flags created, a frame moves nothing |
| CraneScene.Crane.constructor | crane/js/main-script.js:356-377 | the initial pose: trolley at (18, 2, 0), claw at y -11.5, cable 10 long, fingers at yaw 0, pi, pi/2, -pi/2 and closing angle -pi/4; no flags; the pose is valid |
| CraneScene.Crane.RotateDynamicPart | crane/js/main-script.js:665-670 | the top's rotation becomes Rotate of the old rotation by the top's displacement |
| CraneScene.Crane.TranslateDynamicPart | crane/js/main-script.js:684-698 | the trolley's or the claw's position becomes Translate of the old one; the other part's position is unchanged |
| CraneScene.Crane.ResizeCable | crane/js/main-script.js:700-708 | the cable length is resized and clamped, then the position's y and the scale are derived from it |
| CraneScene.Crane.RotateDynamicParts | crane/js/main-script.js:656-663 | the fingers array becomes RotateAll of its old contents with one displacement |
| CraneScene.Crane.RotateFingers | crane/js/main-script.js:660-662 | the loop over the fingers writes RotateAll of the old contents |
| CraneScene.Crane.SetAnimation | crane/js/main-script.js:629-636 | the flag map becomes SetFlags of the old map |
| CraneScene.Crane.CheckCollisions | crane/js/main-script.js:573-585 | true iff the claw's reach sphere touches some object at its world position |
| CraneScene.Crane.HandleCollisions | crane/js/main-script.js:591-627 | the flags become ForcedFlags of the stage; clawDecrease is latched except while raising and on release; only the release clears clawAnimating and detaches the object |
| CraneScene.Crane.GrabStep | crane/js/main-script.js:644-647 | a collision latches clawAnimating, forces the stage's flags, keeps clawDecrease set past raising, and keeps the state valid |
| CraneScene.Crane.Update | crane/js/main-script.js:642-654 | the state stays valid; the latches, flags and cargo follow the collision; the new pose is ApplyFrame of the old pose under the new flags |
| CraneScene.Crane.AnimateParts | crane/js/main-script.js:648-653 | the loop over CRANE_DYNAMIC_PARTS yields ApplyFrame of the old pose |
| CraneScene.Crane.ApplyApplier | crane/js/main-script.js:650-651 | a part with flags is moved by the applier its profile names, as AdvancePart states |
| CraneScene.Crane.RunHandler | crane/js/main-script.js:831-845 | a transform handler sets its flag to !isKeyUp on its parts unless the event repeats; other handlers leave the flags alone |
| CraneScene.Crane.OnKeyDown | crane/js/main-script.js:851-864 | the flags become KeyDownFlags of the old ones, and stay well formed |
| CraneScene.Crane.OnKeyUp | crane/js/main-script.js:870-883 | the flags become KeyUpFlags of the old ones, and stay well formed |
| CraneScene.Crane.DrawClear | crane/js/main-script.js:540-543 | generateRandomPosition repeated while checkCollisionsObjects holds yields FirstClear against the objects already placed |
| CraneScene.Crane.CreateCargo | crane/js/main-script.js:506-546 | the objects and the first unused sample are those of Placement; they satisfy the placement guarantee, lie in their sampling squares from unit samples, stand at their heights and radii; all five are placed unless fewer than two samples are left |

## Left out

- MotionProfiles.Delta: defined only for flags along one axis (`OnOneAxis`). Normalizing flags on several axes needs a square root. The crane's flags are always along one axis, as `WellFormedFlags` and the lemmas about it show.
- Collisions.GenerateRandomPosition: `Math.random` is replaced by a finite sequence of samples. The loop stops with `None` when the samples run out, so the model makes no claim that the source's do-while terminates.
- CraneScene.Crane.CreateCargo: fails with `placed == false` when the samples run out. The source would keep sampling.
- CraneScene.Crane.HandleCollisions: the grabbed object's index is a parameter. In the source, `collidingObject` is never assigned, so `handleCollisions` would dereference `undefined`.
- CraneScene.Crane.HandleCollisions: the angle to the container is an input, because `angleTo` uses acos.
- CraneScene.Crane.CheckCollisions: the world positions are inputs. `getWorldPosition` is a scene-graph computation.
- Choreography.GrabKeepsColliding: takes as a premise that a held object's world centre is 2.5 from the claw's. The model does not derive world positions from the scene graph, so it cannot derive this distance either.
- CraneScene.Crane.CreateCargo: the bounding-sphere radii are inputs, because `computeBoundingSphere` depends on mesh geometry.
- Reparenting is modelled as a parent tag on the cargo. A held object sits at its local offset (0, -2.5, 0).
- Floating point: every quantity is a `real`. Math.PI is the exact real 3.141592653589793.
- The exact equalities `cable.h !== 0`, `trolley.x != 18` and `cable.h !== 15` are compared exactly, as written.
- The camera and wireframe handlers, rendering, the HUD, `pressedKeys`, resizing and the numpad-to-digit rewriting are left out. Keys reach the model as already-normalized codes, and the camera and wireframe handlers change no modelled state.
- The frame timing in `animate` is left out, including the undefined `prevTimeStamp` on the first frame. `timeDelta` is an input and may be any real.
- Scene and mesh construction is left out. The constructor fixes only the values the core reads: the trolley at x 18, the claw at y -11.5, the cable length 10 and the finger yaws. The container's position (12, 15) is the constant pair `Geometry.ContainerX`, `Geometry.ContainerZ`; the crane holds no container state.
- carousel/js/main-script.js is not part of this model.
