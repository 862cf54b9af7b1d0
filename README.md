# Voxel engine demo — a Dafny model

This project models the core of a small Java/LWJGL voxel demo (`Project-3`).
A single 16×16×16 chunk holds `Block` values (`AIR` or `GRASS`). It is filled
with a flat terrain: one GRASS layer at y = 0 and AIR above. A first-person
camera moves with W/A/S/D and turns with the mouse. Each frame the engine
reads the keys, then breaks a block on the left button and places one on the
right button, using its own ray march from the camera. A second, stand-alone
ray caster (`Raycast.castRay`) reports a hit cell and a back-step normal.
Rendering issues one 36-vertex draw per non-AIR cell.

The model is split by source file:

- `block.dfy` (module `Blocks`): the block enum and its texture path.
- `chunk.dfy` (module `Chunks`):
  - the chunk as a class over a three-dimensional array, with a map-valued view `Cells()`;
  - `SetBlock`, the single-cell array write that the engine performs on the
    chunk's `blocks` field when it breaks or places a block;
  - flat terrain generation, proved equal to the specification function `FlatTerrain()`;
  - the render loop, as the sequence of draw calls it issues;
  - the 180-float cube vertex table.
- `march.dfy` (module `Marching`): what both ray marchers share. Sample `i` is
  `origin + i·step`, accumulated one step at a time. It also defines the first
  solid sample in a range and the last sample inside the grid.
- `raycast.dfy` (module `Raycasting`): `castRay` as a method, proved against
  `CastRaySpec`, with lemmas about its hit and normal.
- `camera.dfy` (module `Cameras`): the camera's mouse and keyboard handling,
  and its initial state.
- `engine.dfy` (module `Engine`):
  - the engine's `raycast`, proved against `RaycastSpec`;
  - block breaking and placing, the cursor callback and `processInput`, on the
    engine class;
  - lemmas about what one frame of clicks does to the chunk.
- `vectors.dfy`, `wrappers.dfy`: vectors over reals, integer cells, flooring
  and signs, and `Option` (Java's `null`).

A cell of the chunk is an `Option<Block>`. `None` is the Java `null` that
an array element holds before generation. The code's `!= Block.AIR` tests
treat `null` as solid, and so does the model's `Solid`.

`castRay`'s back-step normal is the hit cell minus the previous cell. So a
ray coming down onto the floor gets (0, −1, 0): the normal points along the
ray, not out of the top face (`Raycasting.CastRayDownOntoFloor`).

## Model

| member | source | states |
|---|---|---|
| Blocks.TexturePath | Project-3/src/main/java/org/example/Block.java:3-15 | AIR has no texture (null) and GRASS has "grass_block.png": a path exists exactly for GRASS |
| Chunks.FlatTerrain | Project-3/src/main/java/org/example/Chunk.java:20-29 | the generated terrain covers exactly the 16×16×16 cells |
| Chunks.FlatTerrainLayers | Project-3/src/main/java/org/example/Chunk.java:20-29 | after generation no cell is null, a cell is GRASS exactly when y = 0, and every cell above is AIR |
| Chunks.FlatColumnAbove | Project-3/src/main/java/org/example/Chunk.java:24-26 | in the flat terrain no cell with 1 ≤ y < 16 is solid |
| Chunks.FlatFloor | Project-3/src/main/java/org/example/Chunk.java:23 | in the flat terrain every cell at y = 0 is solid |
| Chunks.Chunk.constructor | Project-3/src/main/java/org/example/Chunk.java:15-16 | a fresh 16×16×16 array whose every cell is null |
| Chunks.Chunk.GenerateFlatTerrain | Project-3/src/main/java/org/example/Chunk.java:20-29 | the nested x/z/y loops leave the array's cells equal to `FlatTerrain()`, cell for cell |
| Chunks.Chunk.SetBlock | Project-3/src/main/java/org/example/VoxelEngine.java:113 | a write into the chunk's array sets that one cell of the grid and leaves every other cell as it was |
| Chunks.Chunk.Render | Project-3/src/main/java/org/example/Chunk.java:102-120 | one draw of 36 vertices per non-AIR cell, translated to that cell. Every draw is at a non-AIR cell, every non-AIR cell is drawn, and draws come in strictly increasing x-then-y-then-z loop order, so there are no duplicates |
| Chunks.LoopRankInjective | Project-3/src/main/java/org/example/Chunk.java:108-110 | the x-then-y-then-z loop order gives distinct cells distinct positions |
| Chunks.CubeVertices | Project-3/src/main/java/org/example/Chunk.java:18 | the vertex table has 36 vertices of 5 floats (position and texture coordinate), 180 floats in all, in six 6-vertex faces |
| Marching.SampleAt | Project-3/src/main/java/org/example/Raycast.java:24-25 | a position advanced by `step` i times, one addition at a time, is origin + i·step |
| Marching.SampleBack | Project-3/src/main/java/org/example/Raycast.java:35 | stepping back from sample i + 1 gives sample i |
| Marching.FirstSolid | Project-3/src/main/java/org/example/VoxelEngine.java:174-201 | the result is the first sample in [lo, hi) whose cell is solid; none means no sample in the range is solid (both directions) |
| Marching.FirstSolidIs | Project-3/src/main/java/org/example/VoxelEngine.java:174-201 | a solid sample with no solid sample before it is the first solid one |
| Marching.LastInGrid | Project-3/src/main/java/org/example/VoxelEngine.java:181-202 | the result is the last sample below hi whose cell is in the chunk; none means no sample is in the chunk (both directions) |
| Marching.LastInGridIs | Project-3/src/main/java/org/example/VoxelEngine.java:202 | a sample in the chunk with no later sample in the chunk is the last one |
| Raycasting.InChunkBounds | Project-3/src/main/java/org/example/Raycast.java:53-57 | true exactly for the cells of the chunk |
| Raycasting.StepCountBound | Project-3/src/main/java/org/example/Raycast.java:24 | the loop guard t < maxDistance with t = k·0.1 holds exactly for k below the step count |
| Raycasting.CastRaySpec | Project-3/src/main/java/org/example/Raycast.java:17-51 | a hit is always a solid cell. There is no hit exactly when none of samples 1 to the step count is solid, since the position advances before the first test |
| Raycasting.CastRay | Project-3/src/main/java/org/example/Raycast.java:17-51 | the loop advances, floors, tests bounds and then non-AIR, backs up one step on a hit, and returns exactly `CastRaySpec` of the chunk's cells |
| Raycasting.CastRayHitAt | Project-3/src/main/java/org/example/Raycast.java:35-45 | when sample k is the first solid one, the result is its cell with normal = that cell − the cell of sample k − 1 |
| Raycasting.CastRayNoDistance | Project-3/src/main/java/org/example/Raycast.java:24 | with maxDistance ≤ 0 the loop never runs and the result is null |
| Raycasting.CastRayHitIsFirst | Project-3/src/main/java/org/example/Raycast.java:32-45 | a hit is in bounds, not AIR, and the first solid sample among those tested |
| Raycasting.CastRayNormalComponents | Project-3/src/main/java/org/example/Raycast.java:35-43 | for a unit direction each normal component is −1, 0 or 1 |
| Raycasting.CastRayBackStepCell | Project-3/src/main/java/org/example/Raycast.java:34-43 | with k the first solid sample, the cell behind the hit (hit − normal) is the origin's own cell when k = 1, and a non-solid cell the ray passed through when k > 1 |
| Raycasting.CastRayHitAfter | Project-3/src/main/java/org/example/Raycast.java:24-45 | when samples 1 to k are clear and sample k + 1, still within the distance, is solid, the result is that sample's cell with normal = that cell − the cell of the position one step back |
| Raycasting.DownColumnFirstSolid | Project-3/src/main/java/org/example/Raycast.java:22-33 | marching down from height 3 at 0.1 per step, samples 1 to 20 stay above the floor and sample 21 is the first solid one |
| Raycasting.CastRayDownOntoFloor | Project-3/src/main/java/org/example/Raycast.java:17-51 | a ray straight down onto a floor hits cell (x, 0, z) with normal (0, −1, 0), which points along the ray, not out of the top face |
| Raycasting.CastRayDownOntoFlatTerrain | Project-3/src/main/java/org/example/Raycast.java:17-51 | the same holds for every column of the generated flat terrain |
| Cameras.Clamp | Project-3/src/main/java/org/example/Camera.java:49 | the intended pitch clamp: the result is in [lo, hi], equals the value when it is in range, and otherwise saturates at the nearer bound |
| Cameras.PitchAsWrittenBoundsOnlyBelow | Project-3/src/main/java/org/example/Camera.java:49 | as written, with JOML's `clamp(a, b, val)`, the call computes max(pitch, −89), so a pitch above 89 is kept |
| Cameras.PitchAsWrittenOvershoots | Project-3/src/main/java/org/example/Camera.java:47-49 | from pitch 0, one event with dy = 1000 leaves pitch 100 as written; the intended clamp gives 89 |
| Cameras.MovementCancels | Project-3/src/main/java/org/example/Camera.java:31-40 | W with S, and A with D, cancel: with both or neither of each pair pressed the movement is zero |
| Cameras.MovementNonzeroIff | Project-3/src/main/java/org/example/Camera.java:31-42 | for an orthonormal front/right pair the movement is non-zero exactly when a pair of opposite keys is unbalanced |
| Cameras.BalancedKeysStay | Project-3/src/main/java/org/example/Camera.java:42-43 | with balanced keys the position does not change |
| Cameras.Camera.constructor | Project-3/src/main/java/org/example/Camera.java:9-22 | position (0, 10, 0), yaw = pitch = 0, speed and sensitivity 0.1, up (0, 1, 0); the basis update at yaw 0 gives front (1, 0, 0) and right (0, 0, 1) |
| Cameras.Camera.ProcessKeyboard | Project-3/src/main/java/org/example/Camera.java:30-44 | W adds front, S subtracts it, A subtracts right and D adds it. The position moves by speed along the normalised sum only when the sum is non-zero; nothing else changes |
| Cameras.Camera.ProcessMouse | Project-3/src/main/java/org/example/Camera.java:46-50 | with the intended clamp in place of line 49 as written: pitch becomes pitch + dy·sensitivity clamped to ±89, and yaw becomes yaw + dx·sensitivity, unclamped. The pitch invariant is kept |
| Engine.IsValidBlockPosition | Project-3/src/main/java/org/example/VoxelEngine.java:131-135 | true exactly for the cells of the chunk |
| Engine.RaycastSpec | Project-3/src/main/java/org/example/VoxelEngine.java:168-209 | any result has a zero normal and lies in the chunk. There is no result exactly when none of the 100 samples lies in the chunk |
| Engine.RaycastHitIff | Project-3/src/main/java/org/example/VoxelEngine.java:174-208 | the result is solid exactly when some sample is solid (both directions) |
| Engine.RaycastSpecMeaning | Project-3/src/main/java/org/example/VoxelEngine.java:174-208 | when some sample is solid, the result is the first solid sample. Otherwise it is the last sample inside the chunk |
| Engine.VoxelEngine.Raycast | Project-3/src/main/java/org/example/VoxelEngine.java:168-209 | the 100-sample loop from the camera position, with the face-normal computation that is then zeroed, returns exactly `RaycastSpec` |
| Engine.RaycastHitsAt | Project-3/src/main/java/org/example/VoxelEngine.java:181-200 | a solid sample with none solid before it is the result, with a zero normal |
| Engine.RaycastFallsBackTo | Project-3/src/main/java/org/example/VoxelEngine.java:202-208 | with no solid sample, the result is the last sample inside the chunk, with a zero normal |
| Engine.MaxComponent | Project-3/src/main/java/org/example/VoxelEngine.java:190-191 | the chosen axis holds a largest component, with ties going to x, then y |
| Engine.PlacePosition | Project-3/src/main/java/org/example/VoxelEngine.java:120-123 | with the zero normal that the raycast always returns, the placement cell is the result's own cell |
| Engine.BreakEffect | Project-3/src/main/java/org/example/VoxelEngine.java:110-115 | on a generated chunk, breaking keeps every cell non-null. It changes the chunk exactly when the ray hits a solid cell, and then only that GRASS cell, to AIR |
| Engine.PlaceEffect | Project-3/src/main/java/org/example/VoxelEngine.java:117-129 | on a generated chunk, placing on a hit changes nothing. Otherwise it turns the fallback AIR cell into GRASS. It changes the chunk exactly when there is no hit and some sample lies in the chunk |
| Engine.BreakOnResult | Project-3/src/main/java/org/example/VoxelEngine.java:110-115 | for any result on a cell of a generated chunk, breaking keeps every cell non-null. It turns a solid result cell (necessarily GRASS) into AIR, and it changes the chunk exactly when the result cell is solid |
| Engine.PlaceOnResult | Project-3/src/main/java/org/example/VoxelEngine.java:117-129 | for any zero-normal result on a cell of a generated chunk, placing keeps every cell non-null. A solid result cell is left as it is, and an AIR result cell becomes GRASS, so the chunk changes exactly when the result cell is AIR |
| Engine.ClicksKeepChunk | Project-3/src/main/java/org/example/VoxelEngine.java:103-107 | a frame's break-then-place keeps the chunk's cells and keeps every cell non-null; with no button down nothing changes |
| Engine.CursorDelta | Project-3/src/main/java/org/example/VoxelEngine.java:59-67 | the first cursor event yields no movement |
| Engine.TotalDeltaTelescopes | Project-3/src/main/java/org/example/VoxelEngine.java:59-72 | over any run of cursor events the deltas add up to the move from the starting position to the last event's position (dy measured upward) |
| Engine.DefaultCameraLooksDown | Project-3/src/main/java/org/example/VoxelEngine.java:168-208 | from (0, 10, 0) straight down, the samples reach only y = 5.05. Over AIR there is no hit, and the result is the fallback cell (0, 5, 0) |
| Engine.DefaultCameraClicksOnFlatTerrain | Project-3/src/main/java/org/example/VoxelEngine.java:110-129 | on the flat terrain from the starting camera looking down, a left click changes nothing and a right click places GRASS in mid-air at (0, 5, 0) |
| Engine.RaycastDownOntoFloor | Project-3/src/main/java/org/example/VoxelEngine.java:174-200 | from height 3 straight down onto a floor, sample 41 (y = 0.95) is the first solid one and the result is the floor cell |
| Engine.RaycastDownOntoHole | Project-3/src/main/java/org/example/VoxelEngine.java:174-208 | over an empty column the ray leaves the chunk after sample 60 (y = 0), so the fallback is the floor cell |
| Engine.BreakThenPlaceRestores | Project-3/src/main/java/org/example/VoxelEngine.java:97-129 | both buttons in one frame, looking down at a floor cell: the break empties it and the placement's new raycast falls back to the same cell, so the chunk ends as it started |
| Engine.VoxelEngine.constructor | Project-3/src/main/java/org/example/VoxelEngine.java:30-31 | the cursor starts at (400, 300) awaiting its first event, the camera in its initial state (position (0, 10, 0), yaw = pitch = 0, speed and sensitivity 0.1, up (0, 1, 0), front (1, 0, 0), right (0, 0, 1)), and the chunk holds the flat terrain (init, lines 51-53) |
| Engine.VoxelEngine.HandleBlockBreaking | Project-3/src/main/java/org/example/VoxelEngine.java:110-115 | the array afterwards is `AfterBreak` of the cells before, with the raycast from the camera; the chunk stays fully generated |
| Engine.VoxelEngine.HandleBlockPlacement | Project-3/src/main/java/org/example/VoxelEngine.java:117-129 | the array afterwards is `AfterPlace` of the cells before, at the result's cell moved by the sign of its normal; the chunk stays fully generated |
| Engine.VoxelEngine.OnCursorPos | Project-3/src/main/java/org/example/VoxelEngine.java:59-72 | the callback remembers the event's position and clears firstMouse; the camera receives that event's delta |
| Engine.VoxelEngine.ProcessInput | Project-3/src/main/java/org/example/VoxelEngine.java:97-108 | keyboard movement first, then the close flag on escape, then break on the left button and place on the right, both raycasting from the moved camera |

## Left out

- OpenGL and GLFW: the window, context, shaders, textures, vertex buffers,
  the uploading in `Chunk.init`, and `glfwPollEvents`. Key and button states,
  cursor positions and the ray direction are inputs to the model.
- The unprojection of the cursor through the inverse projection and view
  matrices (`VoxelEngine.raycast`, lines 146-166). `Engine.VoxelEngine.Raycast`
  takes the resulting unit direction as a parameter.
- `Camera.update`, `updateVectors` after construction, and the view and
  projection matrices: they need cosine, sine and the cross product of
  normalised vectors. The model fixes front and right at the values the
  constructor computes; turning the camera does not rotate them.
- Cameras.Camera.ProcessKeyboard: JOML's `normalize()` (a square root) is a
  function parameter. The model says the position moves by `speed` times
  that function's value, not that the step has length `speed`.
- Raycasting.CastRay: the direction is taken already normalised, since the
  square root in `normalize()` (line 21) is not modelled.
- Floating point: positions, steps and angles are reals. Accumulated float
  rounding is not modelled, nor the saturation of `(int)` casts of huge
  values. `castRay`'s float counter `t` is modelled as exactly k·0.1.
- Engine.MaxComponent: JOML's `Vector3f.maxComponent` is a library call
  outside this program. Its tie-breaking (x, then y) is modelled as recalled
  from JOML's `Vector3f.maxComponent` source. Its value is discarded by the source anyway.
- Cameras.Camera.ProcessMouse: uses the intended clamp (`Cameras.Clamp`)
  instead of line 49 as written, which computes max(pitch, −89) and so leaves
  the pitch unbounded above (see Findings). The `(float)` narrowing of the
  double deltas at lines 47-48 is not modelled either.
- `loop()` and `run()`: each frame is `ProcessInput` followed by a render;
  the model has no loop over frames and no window-close check.
- Other projects in the repository (`Project-1`, `Project-2`, `Practice-1`,
  `circle.py`) and the `Shader` and `Texture` classes are not part of this
  model.

## Findings

| source | as written | input that shows it | evidently intended | confidence | as-written member | corrected member |
|---|---|---|---|---|---|---|
| Project-3/src/main/java/org/example/Camera.java:49 | `Math.clamp(rotation.x, -89, 89)` with `org.joml.Math`, whose `clamp(a, b, val)` returns max(a, min(b, val)); this gives max(pitch, −89), so the pitch is never bounded above | pitch 0, sensitivity 0.1, one mouse event with dy = 1000: the pitch becomes 100 | pitch clamped to [−89, 89] | medium (JOML's signature recalled from JOML's source; not executed) | Cameras.PitchAsWrittenOvershoots | Cameras.Clamp |
