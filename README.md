# Panic Blob: the frame step in Dafny

A model of the simulation core of the p5.js sketch "Panic Blob" (`sketch.js`).
It covers:
- the platform table and start state built by `setup`;
- the physics part of `draw`:
  - panic and camera-shake smoothing;
  - the run velocity with its panic twitch, friction and clamp;
  - gravity;
  - the two axis-separated collision passes over the platforms;
  - the recomputed centre with its clamp on x;
  - the visual rhythm fields;
- the jump handler `keyPressed`;
- the AABB test `overlap`.

All quantities are exact `real`s.

Modules, one file each:

- `P5Math` (`p5math.dfy`): p5's `abs` and `constrain`.
- `Blob` (`blob.dfy`): the state record `Frame` and the tuning constants.
  - `Frame` holds the mutable fields of `blob3` and the globals `panic` and `shakeAmt`.
  - The constants are r = 26, maxRun = 4.8, gravity = 0.7 and jumpV = −11.5.
- `Panic` (`panic.dfy`): speed, the panic target and its lerp, the shake lerp and the twitch.
- `Motion` (`motion.dfy`): the run intent from the held key codes, and the run velocity.
  - The accel 0.75 and the frictions 0.84 and 0.992 are written inline.
- `Geometry` (`geometry.dfy`): rectangles and `overlap`.
- `Collision` (`collision.dfy`): the horizontal and the vertical pass.
  - A pass is the left fold of one loop iteration over the platform list.
  - The lemmas say which platform decides the outcome.
- `Sketch` (`sketch.dfy`) holds the frame on values and the in-place version:
  - `Accelerate`, `MoveAndCollide` and `StepWorld` compute one frame on values, and `Jump` is `keyPressed` on values.
  - The lemmas are about these values.
  - The class `World` holds the same state as fields that its methods update in place, as `draw` and `keyPressed` do.
  - `World.Step` runs the two collision loops over the `platforms` sequence.
  - Each method is proved to produce exactly the frame the functions compute.

Which platform decides a collision:
- Every overlapping platform is tested in array order.
- The first contact zeroes the velocity component (sketch.js:110, 124, 128), so neither snap branch fires again.
- So the first overlapping platform in array order decides where the box ends up: `Collision.HorizontalFirstContact` and `Collision.VerticalFirstContact`.
- Later overlaps still add the horizontal shake impulse.

The first frames from the start state:
- The start box's bottom is 1 above the floor (sketch.js:57).
- Gravity moves it by 0.7, so frame one leaves the blob airborne 0.3 above the floor (`Sketch.FirstFrameFalls`).
- It lands in frame two (`Sketch.SecondFrameLands`).

Resting on the floor:
- A grounded blob on the floor with vy = 0 stays grounded at the same height whatever the keys, the noise and the panic (`Sketch.RestOnFloorAnyPanic`).
- With panic > 0 the twitch still pushes it sideways.
- Once the blob has moved, panic never returns to exactly 0: each frame keeps at least 92% of it (`Sketch.PanicStaysPositive`), and a jump leaves it alone (`Sketch.JumpKeepsPanic`).
- So the fixed point `Sketch.RestOnFloorIsFixed`, with x unchanged as well, is the panic = 0 special case.

## Model

| member | source | states |
|---|---|---|
| P5Math.Abs | sketch.js:62 | the result is non-negative and is either v or −v |
| P5Math.Constrain | sketch.js:91 | for low ≤ high the result lies in [low, high]; it is n inside the range, low below it and high above it |
| Geometry.Overlap | sketch.js:168-172 | the strict AABB test; characterised by `OverlapIffOpenIntervalsMeet` and `OverlapSymmetricAndStrict` |
| Geometry.OpenIntervalsMeetIff | sketch.js:168-172 | two non-empty open intervals share a point exactly when each starts before the other ends |
| Geometry.OverlapIffOpenIntervalsMeet | sketch.js:168-172 | for well-formed rectangles `overlap` holds exactly when the open x-intervals meet and the open y-intervals meet |
| Geometry.OverlapSymmetricAndStrict | sketch.js:168-172 | `overlap` is symmetric, and rectangles that only share an edge do not overlap |
| Panic.Speed | sketch.js:62 | `speed` of the blob; characterised by `SpeedZeroIffStill` |
| Panic.PanicTarget | sketch.js:63 | constrain(speed / 6, 0, 1); characterised by `PanicTargetFollowsSpeed` |
| Panic.NextPanic | sketch.js:63 | the 0.08 lerp of panic toward the target; characterised by `NextPanicApproachesTarget`, `NextPanicInUnitRange`, `StillBlobStaysCalm` and `PanicPositiveOnceMoved` |
| Panic.NextShake | sketch.js:70 | the 0.1 lerp of the shake toward 6·panic; characterised by `NextShakeApproachesTarget` and `NextShakeNonNegative` |
| Panic.Twitch | sketch.js:86 | the panic-scaled noise offset; characterised by `TwitchBound` |
| Panic.SpeedZeroIffStill | sketch.js:62 | speed is never negative and is 0 exactly when vx = vy = 0 |
| Panic.PanicTargetFollowsSpeed | sketch.js:62-63 | the target lies in [0, 1], equals speed / 6 up to speed 6 and is 1 from there on |
| Panic.NextPanicApproachesTarget | sketch.js:63 | the new panic lies between the old one and the target, strictly when they differ, and stays put when they agree |
| Panic.NextPanicInUnitRange | sketch.js:62-63 | a panic in [0, 1] stays in [0, 1] |
| Panic.StillBlobStaysCalm | sketch.js:62-63 | with no panic and no velocity the panic stays 0 |
| Panic.PanicPositiveOnceMoved | sketch.js:62-63 | the new panic keeps at least 92% of a non-negative old panic, and is positive when the old panic was or the blob moves |
| Panic.NextShakeApproachesTarget | sketch.js:70 | the new shake lies between the old one and 6·panic, strictly when they differ |
| Panic.NextShakeNonNegative | sketch.js:70 | a non-negative shake with a non-negative panic stays non-negative |
| Panic.TwitchBound | sketch.js:86 | for panic in [0, 1] the twitch lies in [−0.3, 0.3], and it is 0 when panic is 0 |
| Motion.MoveIntent | sketch.js:81-83 | move is 1 exactly when only a right key (D, →) is held, −1 when only a left key (A, ←) is, and 0 when both sides or neither are |
| Motion.RunVelocity | sketch.js:87-91 | acceleration by move + twitch, friction and clamp of vx; characterised by `RunVelocityBounded`, `RunVelocityAtRest`, `RunVelocityFriction` and `RunVelocitySmallPush` |
| Motion.RunVelocityBounded | sketch.js:87-91 | the new vx lies in [−maxRun, maxRun] |
| Motion.RunVelocityAtRest | sketch.js:87-91 | vx = 0 with no key and no twitch stays 0 |
| Motion.RunVelocityFriction | sketch.js:87-91 | without push, a vx within the clamp is scaled by 0.84 on the ground and by 0.992 in the air |
| Motion.RunVelocitySmallPush | sketch.js:86-91 | from vx = 0 with no key, a twitch of at most 0.3 gives a vx of at most 0.25 in size |
| Collision.FirstContactExists | sketch.js:106-107 | if some platform overlaps the box there is a first one in array order |
| Collision.HorizontalContact | sketch.js:107-112 | one iteration of the horizontal loop; its effect over the whole list is stated by `HorizontalFirstContact` and `HorizontalNoContact` |
| Collision.HorizontalSweep | sketch.js:104-113 | the horizontal loop moves only the box's x, leaves vx or zeroes it, and never lowers the shake |
| Collision.HorizontalAtRest | sketch.js:106-112 | with vx = 0 the loop no longer moves the box |
| Collision.HorizontalNoContact | sketch.js:106-113 | with no overlapping platform the loop changes nothing |
| Collision.HorizontalFirstContact | sketch.js:104-113 | with a first overlapping platform k:<br>• vx ends 0;<br>• moving right puts the box's right edge on k's left edge;<br>• moving left puts its left edge on k's right edge;<br>• a moving box is then clear of k;<br>• the shake grows by at least 1.5·panic |
| Collision.HorizontalStopsIffContact | sketch.js:104-113 | a moving blob ends with vx = 0 exactly when some platform overlaps the moved box |
| Collision.VerticalContact | sketch.js:120-131 | one iteration of the vertical loop; its effect over the whole list is stated by `VerticalFirstContact` and `VerticalNoContact` |
| Collision.VerticalSweep | sketch.js:115-132 | the vertical loop moves only the box's y, leaves vy or zeroes it, sets the grounded flag only on a downward contact that zeroes vy, and never lowers the shake |
| Collision.VerticalAtRest | sketch.js:118-131 | with vy = 0 the loop changes nothing |
| Collision.VerticalNoContact | sketch.js:118-132 | with no overlapping platform the loop changes nothing |
| Collision.VerticalFirstContact | sketch.js:115-132 | with a first overlapping platform k:<br>• falling puts the box's bottom on k's top, zeroes vy, sets the flag and adds 3 exactly when vy > 5;<br>• rising puts the box's top on k's bottom, zeroes vy, keeps the flag and adds 1.2·panic;<br>• vy = 0 changes nothing |
| Collision.VerticalGroundedIff | sketch.js:115-132 | after clearing onGround, the pass leaves the blob grounded exactly when it was falling and some platform overlaps the moved box |
| Sketch.SetupPlatforms | sketch.js:48-54 | five well-formed platforms, the first being the full-width floor from y = 324 to the canvas bottom |
| Sketch.StartFrame | sketch.js:12-37 | the blob starts at rest, airborne, calm, with its box bottom one unit above the floor |
| Sketch.BlobBox | sketch.js:97-102 | the collision box is well formed and centred on the blob |
| Sketch.Accelerate | sketch.js:62-94 | the first part of a frame; characterised by `AccelerateKeepsBounds` and `CalmPush`, and implemented in place by `World.ApplyForces` |
| Sketch.AccelerateKeepsBounds | sketch.js:62-94 | the first part of a frame keeps panic in [0, 1] and the shake ≥ 0, bounds vx by maxRun, adds gravity to vy and moves nothing |
| Sketch.Settle | sketch.js:134-144 | the centre is read back from the resolved box with x constrained into [r, width − r] and y unclamped; tSpeed, wobble and wobbleFreq follow the panic and t advances by tSpeed (strictly when panic ≥ 0); velocities, flag, panic and shake are untouched |
| Sketch.FrameHorizontal | sketch.js:97-113 | the horizontal pass of a frame on the blob box moved by vx; characterised by `MoveInTheClear`, `MoveAndLand` and `MoveAndCollideOutcome` |
| Sketch.FrameVertical | sketch.js:115-132 | the vertical pass of a frame after the horizontal one, with the grounded flag cleared; characterised by `StepGroundedRestsOnPlatform` and `MoveAndCollideOutcome` |
| Sketch.MoveAndCollide | sketch.js:96-144 | collision keeps vx or zeroes it, x ends in [r, width − r], and a grounded blob has vy = 0 |
| Sketch.MoveAndCollideOutcome | sketch.js:104-132 | a moving blob loses vx exactly when the box moved by vx overlaps some platform; the blob ends grounded exactly when it was falling and the box moved on by vy overlaps some platform |
| Sketch.StepWorld | sketch.js:60-144 | after a frame x lies in [r, width − r] and a grounded blob has vy = 0 |
| Sketch.IsJumpKey | sketch.js:158 | the jump keys: space, `W`, `w` or the up arrow (key code 38) |
| Sketch.Jump | sketch.js:155-165 | a jump key on a grounded blob sets vy = jumpV, clears the flag and adds 2 to the shake; otherwise nothing changes |
| Sketch.StepKeepsInvariant | sketch.js:60-144 | a frame keeps panic in [0, 1], shake ≥ 0, vx in [−maxRun, maxRun] and x in [r, width − r] |
| Sketch.StepAdvancesPhase | sketch.js:140-144 | with panic in [0, 1] the animation phase t strictly increases every frame |
| Sketch.StepGroundedRestsOnPlatform | sketch.js:115-136 | a grounded blob's box bottom lies on the top of some platform |
| Sketch.StepCentreIsBoxCentre | sketch.js:134-137 | the centre is the resolved box's centre, y unclamped, and x clamped into [r, width − r] |
| Sketch.StartBoxIsClear | sketch.js:48-57 | the start box touches no platform |
| Sketch.CalmPush | sketch.js:62-94 | a calm blob at rest with no key keeps vx = 0 and panic = 0 and only gains gravity, whatever the noise |
| Sketch.MoveInTheClear | sketch.js:96-137 | if neither moved box touches a platform, both velocities survive, the blob is airborne and its centre moves by (vx, vy) with x clamped |
| Sketch.MoveAndLand | sketch.js:96-137 | a falling blob clear horizontally whose box first overlaps platform k lands on k's top, grounded, with vy = 0 |
| Sketch.CalmFrameInTheClear | sketch.js:60-144 | a calm blob at rest with room below falls for one frame: airborne, vy = gravity, x unchanged |
| Sketch.CalmFrameLands | sketch.js:60-144 | a calm blob at rest that would sink into platform k first lands on k, grounded and still, x unchanged |
| Sketch.FirstFrameFalls | sketch.js:57-137 | from the start state, the first frame leaves the blob airborne 0.3 above the floor, at x = 80 and vy = gravity |
| Sketch.FallingFrameLands | sketch.js:86-137 | a blob falling near the floor's left end lands on the floor whatever the noise, moving at most 0.25 sideways |
| Sketch.SecondFrameLands | sketch.js:57-137 | with no key held, the second frame from the start lands the blob on the floor whatever the noise |
| Sketch.RestOnFloorIsFixed | sketch.js:60-144 | the panic = 0 special case of `RestOnFloorAnyPanic`: a calm, still blob resting on the floor with no key held keeps x and y, grounded and still |
| Sketch.RestOnFloorAnyPanic | sketch.js:60-144 | a grounded blob on the floor with vy = 0 stays grounded, still vertically and at the same height, for every key, noise and panic |
| Sketch.PanicStaysPositive | sketch.js:62-63 | each frame keeps at least 92% of the panic, and after any motion the panic stays positive |
| Sketch.JumpTwiceIsJumpOnce | sketch.js:155-165 | a second jump press before the next frame has no effect |
| Sketch.JumpKeepsInvariant | sketch.js:155-165 | a jump keeps the frame invariant |
| Sketch.JumpKeepsPanic | sketch.js:155-165 | a jump does not change the panic |
| Sketch.World.constructor | sketch.js:39-57 | setup builds the platform table and the start state, which satisfies the invariant |
| Sketch.World.Step | sketch.js:60-144 | one in-place frame produces exactly `StepWorld` of the old state with the intent of the held keys, and keeps the invariant |
| Sketch.World.ApplyForces | sketch.js:62-94 | panic, shake, vx and vy are updated in place exactly as `Accelerate` computes |
| Sketch.World.ResolveHorizontal | sketch.js:104-113 | the in-place loop over the platforms ends in the state `HorizontalSweep` computes |
| Sketch.World.ResolveVertical | sketch.js:115-132 | the in-place loop over the platforms ends in the state `VerticalSweep` computes |
| Sketch.World.SettleBox | sketch.js:134-144 | the centre and the visual fields are updated in place exactly as `Settle` computes |
| Sketch.World.KeyPressed | sketch.js:155-165 | an in-place jump is exactly `Jump` with the jump-key test on `key` and `keyCode`, and it keeps the invariant |

## Left out

- Rendering is not modelled because it is output only:
  - `background` and the alarm pulse (sketch.js:65-67);
  - `push`/`translate`/`pop`;
  - `drawPlatforms` and `drawBlobCircle`;
  - the HUD text (sketch.js:149-152).
- The camera offset `random(-shakeAmt, shakeAmt)` (sketch.js:71-72) is a foreign pseudo-random call that only feeds drawing. Only the shake strength `shakeAmt` is modelled.
- p5's `noise(frameCount * 0.05)` (sketch.js:86) is a foreign call. The model takes its value as a parameter in [0, 1], and `frameCount` is not modelled.
- Key polling and event delivery are host I/O:
  - `keyIsDown` becomes the set of key codes held this frame;
  - the event's `key` and `keyCode` become parameters of `KeyPressed`;
  - event timing and edge detection are left to the host.
- Frame cadence is not modelled.
- IEEE double rounding is not modelled: all arithmetic is exact on reals.
- `blob3.points` only serves drawing and is not modelled.
- Collision.HorizontalSweep: the shake added by the horizontal pass is stated only as a lower bound (at least 1.5·panic once a platform is hit), not as 1.5·panic for every overlapping platform.
- Sketch.StepWorld: its own contract gives only the x clamp and the grounded-implies-still fact. The full frame is characterised by the lemmas listed above rather than in one ensures.
- Sketch.MoveAndCollide: its own contract gives only the shape of the result: vx kept or zeroed, x clamped, grounded implies vy = 0. When vx is zeroed and when the blob is grounded is stated by `MoveAndCollideOutcome`, and where the centre ends up by `StepCentreIsBoxCentre`.
