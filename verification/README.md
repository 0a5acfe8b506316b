# Backroom walkthrough: frame step model

A Dafny model of the state logic of a small first-person walkthrough demo
(`Proyecto_Backroom.cpp`). The user walks through a fixed room that holds five
static obstacles. Each frame the demo does the following:

- reads the clock and computes the frame's delta time;
- lets the held movement keys move the camera;
- forces the camera to eye height (1.8) and clamps x and z into the room
  `[-12, 12] x [-12, 12]`;
- reverts that correction if the corrected position lies strictly inside the
  horizontal footprint of any obstacle box;
- turns the cursor samples delivered during event polling into look offsets.
  The first sample only sets the reference point.

Modules:

- `Geometry` (`geometry.dfy`): `Vec2`, `Vec3`, `AABB` and the collision test `CheckCollision`.
- `World` (`world.dfy`): the room and obstacle constants, the vector library's `Clamp`, and the position correction `Settle`. It also holds the any-match over the obstacles `AnyCollision` and the frame's position update `UpdatePosition`.
- `FrameClock` (`clock.dfy`): the `lastFrame`/`deltaTime` pair and its `Tick`.
- `MouseTracker` (`mouse.dfy`): the `lastX`/`lastY`/`firstMouse` tracker and its per-sample step `OnCursor`.
- `Session` (`session.dfy`): one whole frame (`Frame`) and the render loop over a run of frames (`RunFrames`).

Coordinates are `real` and rounding is not modelled. The single-precision
constants (`1.8f`, `0.04f`, …) are taken at their decimal values, and the box
bounds are exact sums. In the program, the first cursor sample is narrowed to
single precision before `xpos - lastX` is taken, so its offset is zero only when
the reading is representable; the model's zero first offset holds over reals.

The snapshot the frame reverts to is taken after the keyboard input has been
applied (line 124 follows line 121). A reverted frame therefore ends at the
moved position, not at the position the frame started from. The revert only
undoes the height fix and the clamp. All five obstacles lie well inside the
room, which gives two consequences:

- the x and z of a frame's result are always the clamped post-input x and z (`World.HorizontalAlwaysClamped`);
- a frame reverts exactly when its final position is inside an obstacle (`World.RevertIffFinalInsideObstacle`).

So an obstacle never holds the camera back horizontally. It only leaves the
height unfixed for that frame. The source's comments call the snapshot the
camera's previous position (line 123) and the revert a return to it (line 137),
which suggests the position before the movement was meant. The model follows
the code.

## Model

| member | source | states |
|---|---|---|
| Geometry.CheckCollision | Proyecto_Backroom.cpp:52-59 | A collision holds iff `center.x - half.x < p.x < center.x + half.x` and the same holds strictly for z. |
| Geometry.CollisionIgnoresHeight | Proyecto_Backroom.cpp:52-58 | Changing the height of the position never changes the result. |
| Geometry.FaceIsNotCollision | Proyecto_Backroom.cpp:57-58 | A position on any vertical face of the box (x or z equal to a min or max) is never a collision. |
| Geometry.CollisionByDistance | Proyecto_Backroom.cpp:52-58 | A collision holds iff the horizontal distance from the centre is below the half size on both x and z. |
| Geometry.FlatBoxNeverCollides | Proyecto_Backroom.cpp:52-58 | A box with a non-positive half size along x or z never reports a collision. |
| World.Clamp | Proyecto_Backroom.cpp:128-129 | For `lo <= hi` the result lies in `[lo, hi]`. An in-range value is unchanged. Below the range the result is `lo`; above it, `hi`. |
| World.ClampIdempotent | Proyecto_Backroom.cpp:128-129 | Clamping an already clamped value changes nothing. |
| World.ClampIsNearest | Proyecto_Backroom.cpp:128-129 | The clamped value is no farther from the input than any point of the range. |
| World.Settle | Proyecto_Backroom.cpp:127-129 | The corrected position is at eye height 1.8 and inside the room bounds. Each of x and z is kept when it is in range on its own axis; an out-of-range coordinate lands on the wall it crossed. |
| World.SettleIdempotent | Proyecto_Backroom.cpp:127-129 | Correcting a corrected position changes nothing. |
| World.AnyCollision | Proyecto_Backroom.cpp:132-136 | The left-to-right test holds iff some box of the list reports a collision. |
| World.ObstacleTestUnrolled | Proyecto_Backroom.cpp:132-136 | The any-match over the obstacle list equals the five-way disjunction over the five fixed boxes. |
| World.AnyCollisionPermutation | Proyecto_Backroom.cpp:132-136 | Two box lists with the same boxes (any order) give the same decision. |
| World.AnyCollisionIgnoresHeight | Proyecto_Backroom.cpp:132-136 | The decision over a list does not depend on the height of the position. |
| World.ObstaclesInsideRoom | Proyecto_Backroom.cpp:36-49 | Any position that collides with one of the five obstacles lies strictly inside the room bounds. |
| World.UpdatePosition | Proyecto_Backroom.cpp:121-138 | If the corrected position collides, the result is exactly the post-input position. Otherwise the result is at eye height, in the room, outside every obstacle, and keeps each of x and z that was in range on its own axis. |
| World.RevertIffFinalInsideObstacle | Proyecto_Backroom.cpp:124-137 | The final position lies inside an obstacle iff the frame reverted. In that case it equals the post-input position. |
| World.HorizontalAlwaysClamped | Proyecto_Backroom.cpp:124-137 | The final x and z always equal the clamped post-input x and z, reverted or not. The final position is always in the room. |
| World.UpdateIdempotent | Proyecto_Backroom.cpp:124-137 | Updating the result of an update changes nothing, so a frame without movement keeps the camera in place. |
| World.WallScenario | Proyecto_Backroom.cpp:127-137 | Moving to (12.4, 1.8, 0) ends at (12, 1.8, 0). |
| World.ObstacleScenario | Proyecto_Backroom.cpp:124-137 | Moving to (1.5, 1.7, 1.5) inside obstacle 4 reverts to exactly that position, which stays inside the obstacle. |
| FrameClock.Tick | Proyecto_Backroom.cpp:116-118 | After a tick at `now`, `lastFrame == now` and the old `lastFrame` plus the new delta equals `now`. |
| FrameClock.Run | Proyecto_Backroom.cpp:113-118 | After a run of ticks, `lastFrame` is the last reading and the delta is the gap between the last two readings (or from the old reference for one reading). No readings leave the clock unchanged. |
| FrameClock.Deltas | Proyecto_Backroom.cpp:116-118 | The deltas seen by a run of frames are: first reading minus the old reference, then each reading minus the one before. |
| FrameClock.FirstDeltaIsFirstReading | Proyecto_Backroom.cpp:31-32 | Starting from the zero clock, the first delta equals the first time reading. |
| FrameClock.DeltasTelescope | Proyecto_Backroom.cpp:116-118 | The deltas of a run add up to the last reading minus the initial reference. |
| FrameClock.DeltasNonNegative | Proyecto_Backroom.cpp:116-118 | Readings that never go backwards produce only non-negative deltas. |
| FrameClock.RunAppend | Proyecto_Backroom.cpp:113-118 | Running through some readings and then ticking once more is running through the extended list. |
| MouseTracker.OnCursor | Proyecto_Backroom.cpp:217-233 | After any sample, `lastX, lastY` are the sample and `firstMouse` is false. On a first sample both offsets are 0. Otherwise `dx = xpos - lastX` and `dy = lastY - ypos`. |
| MouseTracker.Replay | Proyecto_Backroom.cpp:217-233 | A batch yields one offset per sample. The tracker ends at the last sample with `firstMouse` false. The first offset is that of a single sample step. |
| MouseTracker.ReplayOffsets | Proyecto_Backroom.cpp:226-230 | Every later offset of a batch is the sample minus the previous sample, with y reversed. |
| MouseTracker.FirstSampleSuppressed | Proyecto_Backroom.cpp:219-227 | From the start-up tracker, the first sample gives a zero offset whatever the cursor reads, and clears `firstMouse`. |
| MouseTracker.OffsetsTelescope | Proyecto_Backroom.cpp:226-230 | From a tracker that has seen a sample, the offsets of a batch add up to the last sample minus the stored reference, with y reversed. |
| MouseTracker.FreshOffsetsTelescope | Proyecto_Backroom.cpp:219-230 | From the start-up tracker, the offsets add up to the last sample minus the first sample. The start-up screen centre never leaks in. |
| MouseTracker.ReplayAppend | Proyecto_Backroom.cpp:217-233 | Feeding two batches in turn gives the same tracker and offsets as feeding their concatenation. |
| Session.Frame | Proyecto_Backroom.cpp:113-138 | A frame advances the clock to the reading. The camera ends at the position update of wherever the input moved it, and the tracker and look offsets are the replay of the frame's cursor samples. The camera stays in the room. The camera is either settled (eye height, in room, clear of obstacles) or inside an obstacle at exactly the post-input position. It yields one look offset per cursor sample. |
| Session.RunFrames | Proyecto_Backroom.cpp:113-186 | The final state is exactly the frames played one after another; the last frame's camera is the position update of where that frame's input moved the previous camera, so a reverted run ends at the last post-input position. From an in-room start the camera stays in the room and ends settled or reverted. The clock is the run of the time readings. The tracker and offsets are the replay of all cursor samples in order. |
| Session.InitialIsSettled | Proyecto_Backroom.cpp:25 | The start-up camera position is accepted by the correction and is a fixed point of the update. |

## Left out

- Window, context and function-loader setup and their failure exits (lines 63-94) are foreign I/O.
- Shader and model loading, matrix construction and draw calls (lines 97-110, 140-185) are rendering through libraries outside this model.
- The time source (`glfwGetTime`) and the cursor callbacks are parameters. Time readings and cursor samples are inputs to `Frame`.
- The camera class lives in `learnopengl/camera.h`, which is not part of this model. This covers keyboard movement, mouse look, scroll zoom and the view matrix. Keyboard movement is an opaque function `(position, deltaTime) -> position` inside each frame's input. Look offsets are produced but not applied to an orientation.
- The ESC key, the framebuffer-size and scroll callbacks, and the unused `cameraSpeed` (lines 196-199, 211-214, 236-239) carry no state logic.
- The animated translation of model 2 (line 160) is float trigonometry. It does not move its collision box, which stays static.
- Single-precision float rounding, including the double-to-float conversion in the mouse callback, is not modelled.
