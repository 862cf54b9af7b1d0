/** The engine (VoxelEngine.java): its own ray march from the camera, block
 *  breaking and placing on the chunk's array, the cursor callback that turns
 *  cursor positions into mouse deltas, and the per-frame input handling.
 *  Window, GL context, shaders and textures are not part of this model; the
 *  ray direction that the engine unprojects from the cursor is an input. */
module Engine {
  import opened Wrappers
  import opened Vectors
  import opened Blocks
  import opened Chunks
  import opened Marching
  import opened Cameras

  /** The engine's ray advances 0.05 per sample and takes at most 100 samples. */
  const EngineStep: real := 0.05
  const MaxSamples: nat := 100

  /** `isValidBlockPosition`: all three coordinates within [0, ChunkSize). */
  function IsValidBlockPosition(pos: Cell3): (r: bool)
    ensures r <==> pos in AllCells()
  {
    AllCellsMembership(pos);
    0 <= pos.x < ChunkSize && 0 <= pos.y < ChunkSize && 0 <= pos.z < ChunkSize
  }

  /** The engine's private `RaycastResult`: a cell and a face normal. */
  datatype RaycastResult = RaycastResult(blockPos: Cell3, faceNormal: Vec3)

  function EngineRayStep(rayDir: Vec3): Vec3 { Scale(EngineStep, rayDir) }

  /** The cell of the last sample below i that lies inside the grid, if any. */
  function LastCellInGrid(g: Grid, origin: Vec3, step: Vec3, i: nat): Option<Cell3>
  {
    match LastInGrid(g, origin, step, i)
    case Some(k) => Some(SampleCell(origin, step, k))
    case None => None
  }

  /** Some sample of the engine's ray lies in a solid cell. */
  ghost predicate RayHits(g: Grid, origin: Vec3, rayDir: Vec3)
  {
    exists j :: 0 <= j < MaxSamples && Solid(g, SampleCell(origin, EngineRayStep(rayDir), j))
  }

  /** The engine's `raycast` on the grid's value. Samples 0 to 99 are tested,
   *  the first starting at the camera itself. The first solid sample is the
   *  result; failing that, the last sample inside the chunk; failing that,
   *  nothing. The normal is always zero: the code overwrites the computed
   *  normal with (0, 0, 0) and then takes the sign of that zero. */
  function RaycastSpec(g: Grid, origin: Vec3, rayDir: Vec3): (r: Option<RaycastResult>)
    ensures r.Some? ==> r.value.faceNormal == Zero && r.value.blockPos in g
    ensures r.None? <==> forall j :: 0 <= j < MaxSamples ==> SampleCell(origin, EngineRayStep(rayDir), j) !in g
  {
    var step := EngineRayStep(rayDir);
    match FirstSolid(g, origin, step, 0, MaxSamples)
    case Some(i) => Some(RaycastResult(SampleCell(origin, step, i), Zero))
    case None =>
      match LastInGrid(g, origin, step, MaxSamples)
      case Some(i) => Some(RaycastResult(SampleCell(origin, step, i), Zero))
      case None => None
  }

  /** The ray hits a solid cell exactly when the result is solid. */
  lemma RaycastHitIff(g: Grid, origin: Vec3, rayDir: Vec3)
    ensures var r := RaycastSpec(g, origin, rayDir);
      RayHits(g, origin, rayDir) <==> r.Some? && Solid(g, r.value.blockPos)
  {
    var step := EngineRayStep(rayDir);
    var first := FirstSolid(g, origin, step, 0, MaxSamples);
    if first.Some? {
      assert Solid(g, SampleCell(origin, step, first.value));
    } else {
      var last := LastInGrid(g, origin, step, MaxSamples);
      if last.Some? {
        assert !Solid(g, SampleCell(origin, step, last.value));
      }
    }
  }

  /** What the result means: when the ray hits a solid cell the result is
   *  the first solid sample; otherwise it is the last sample inside the chunk. */
  lemma RaycastSpecMeaning(g: Grid, origin: Vec3, rayDir: Vec3)
    ensures var r := RaycastSpec(g, origin, rayDir); var step := EngineRayStep(rayDir);
      RayHits(g, origin, rayDir) ==>
        exists k :: 0 <= k < MaxSamples && r.value.blockPos == SampleCell(origin, step, k)
          && forall j :: 0 <= j < k ==> !Solid(g, SampleCell(origin, step, j))
    ensures var r := RaycastSpec(g, origin, rayDir); var step := EngineRayStep(rayDir);
      !RayHits(g, origin, rayDir) && r.Some? ==>
        exists k :: 0 <= k < MaxSamples && r.value.blockPos == SampleCell(origin, step, k)
          && forall j :: k < j < MaxSamples ==> SampleCell(origin, step, j) !in g
  {
    RaycastHitIff(g, origin, rayDir);
  }

  /** `handleBlockBreaking` on the grid's value: a result inside the chunk becomes AIR. */
  function AfterBreak(g: Grid, result: Option<RaycastResult>): Grid
  {
    if result.Some? && IsValidBlockPosition(result.value.blockPos) then g[result.value.blockPos := Some(AIR)]
    else g
  }

  /** The cell `handleBlockPlacement` writes: the result's cell moved by the
   *  sign of each normal component. */
  function PlacePosition(result: RaycastResult): (c: Cell3)
    ensures result.faceNormal == Zero ==> c == result.blockPos
  {
    CellAdd(result.blockPos, SignumCell(result.faceNormal))
  }

  /** `handleBlockPlacement` on the grid's value: the placement cell, if inside the chunk, becomes GRASS. */
  function AfterPlace(g: Grid, result: Option<RaycastResult>): Grid
  {
    if result.Some? && IsValidBlockPosition(PlacePosition(result.value)) then g[PlacePosition(result.value) := Some(GRASS)]
    else g
  }

  /** Breaking on a fully generated chunk changes at most one cell, from GRASS
   *  to AIR, and changes something exactly when the ray hits a solid cell. */
  lemma BreakEffect(g: Grid, origin: Vec3, rayDir: Vec3)
    requires g.Keys == AllCells() && Filled(g)
    ensures var h := AfterBreak(g, RaycastSpec(g, origin, rayDir)); h.Keys == g.Keys && Filled(h)
    ensures var r := RaycastSpec(g, origin, rayDir); var h := AfterBreak(g, r);
      RayHits(g, origin, rayDir) ==> g[r.value.blockPos] == Some(GRASS) && h == g[r.value.blockPos := Some(AIR)]
    ensures var h := AfterBreak(g, RaycastSpec(g, origin, rayDir)); h == g <==> !RayHits(g, origin, rayDir)
  {
    RaycastHitIff(g, origin, rayDir);
    BreakOnResult(g, RaycastSpec(g, origin, rayDir));
  }

  /** Breaking with any result on a cell of a filled grid. */
  lemma BreakOnResult(g: Grid, r: Option<RaycastResult>)
    requires g.Keys == AllCells() && Filled(g)
    requires r.Some? ==> r.value.blockPos in g
    ensures var h := AfterBreak(g, r); h.Keys == g.Keys && Filled(h)
    ensures r.Some? && Solid(g, r.value.blockPos) ==>
      g[r.value.blockPos] == Some(GRASS) && AfterBreak(g, r) == g[r.value.blockPos := Some(AIR)]
    ensures AfterBreak(g, r) == g <==> r.None? || !Solid(g, r.value.blockPos)
  {
    if r.Some? {
      var c := r.value.blockPos;
      assert IsValidBlockPosition(c);
      assert AfterBreak(g, r) == g[c := Some(AIR)];
      WriteCell(g, c, AIR);
      assert g[c] == Some(g[c].value);
      assert g[c].value == AIR || g[c].value == GRASS;
    }
  }

  /** Writing a block into a cell of a filled grid keeps it filled over the
   *  same cells, and changes it exactly when the cell held another block. */
  lemma WriteCell(g: Grid, c: Cell3, b: Block)
    requires Filled(g) && c in g
    ensures g[c := Some(b)].Keys == g.Keys && Filled(g[c := Some(b)])
    ensures g[c := Some(b)] == g <==> g[c] == Some(b)
  {
    if g[c] != Some(b) {
      assert g[c := Some(b)][c] != g[c];
    }
  }

  /** Placing on a fully generated chunk changes nothing when the ray hits a
   *  solid cell (it rewrites GRASS onto that GRASS cell, since the normal is
   *  zero); otherwise it turns the last AIR cell the ray crossed into GRASS. */
  lemma PlaceEffect(g: Grid, origin: Vec3, rayDir: Vec3)
    requires g.Keys == AllCells() && Filled(g)
    ensures var h := AfterPlace(g, RaycastSpec(g, origin, rayDir)); h.Keys == g.Keys && Filled(h)
    ensures RayHits(g, origin, rayDir) ==> AfterPlace(g, RaycastSpec(g, origin, rayDir)) == g
    ensures var r := RaycastSpec(g, origin, rayDir); var h := AfterPlace(g, r);
      !RayHits(g, origin, rayDir) && r.Some? ==> g[r.value.blockPos] == Some(AIR) && h == g[r.value.blockPos := Some(GRASS)]
    ensures var r := RaycastSpec(g, origin, rayDir); var h := AfterPlace(g, r);
      h == g <==> RayHits(g, origin, rayDir) || r.None?
  {
    RaycastHitIff(g, origin, rayDir);
    PlaceOnResult(g, RaycastSpec(g, origin, rayDir));
  }

  /** Placing with any zero-normal result on a cell of a filled grid. */
  lemma PlaceOnResult(g: Grid, r: Option<RaycastResult>)
    requires g.Keys == AllCells() && Filled(g)
    requires r.Some? ==> r.value.faceNormal == Zero && r.value.blockPos in g
    ensures var h := AfterPlace(g, r); h.Keys == g.Keys && Filled(h)
    ensures r.Some? && Solid(g, r.value.blockPos) ==> AfterPlace(g, r) == g
    ensures r.Some? && !Solid(g, r.value.blockPos) ==>
      g[r.value.blockPos] == Some(AIR) && AfterPlace(g, r) == g[r.value.blockPos := Some(GRASS)]
    ensures AfterPlace(g, r) == g <==> r.None? || Solid(g, r.value.blockPos)
  {
    if r.Some? {
      var c := r.value.blockPos;
      assert PlacePosition(r.value) == c;
      assert IsValidBlockPosition(c);
      assert AfterPlace(g, r) == g[c := Some(GRASS)];
      WriteCell(g, c, GRASS);
      assert g[c] == Some(g[c].value);
      assert g[c].value == AIR || g[c].value == GRASS;
    }
  }

  /** The grid after one frame's mouse buttons, in `processInput`'s order:
   *  break first, then place with a fresh raycast over the result. */
  function Clicks(g: Grid, origin: Vec3, rayDir: Vec3, breaking: bool, placing: bool): Grid
  {
    var afterBreak := if breaking then AfterBreak(g, RaycastSpec(g, origin, rayDir)) else g;
    if placing then AfterPlace(afterBreak, RaycastSpec(afterBreak, origin, rayDir)) else afterBreak
  }

  /** A frame's clicks keep the chunk fully generated and change it only when a button is down. */
  lemma ClicksKeepChunk(g: Grid, origin: Vec3, rayDir: Vec3, breaking: bool, placing: bool)
    requires g.Keys == AllCells() && Filled(g)
    ensures var h := Clicks(g, origin, rayDir, breaking, placing); h.Keys == AllCells() && Filled(h)
    ensures !breaking && !placing ==> Clicks(g, origin, rayDir, breaking, placing) == g
  {
    BreakEffect(g, origin, rayDir);
    var afterBreak := if breaking then AfterBreak(g, RaycastSpec(g, origin, rayDir)) else g;
    PlaceEffect(afterBreak, origin, rayDir);
  }

  /** The cursor callback's state: the previous cursor position and whether no event has arrived yet. */
  datatype Cursor = Cursor(lastX: real, lastY: real, firstMouse: bool)

  datatype CursorEvent = CursorEvent(xpos: real, ypos: real)

  /** The mouse delta of one cursor event (x is dx, y is dy): the first event
   *  only records the position and yields no movement; later ones yield the
   *  horizontal move and the upward move (screen y grows downwards). */
  function CursorDelta(c: Cursor, e: CursorEvent): (d: Vec2)
    ensures c.firstMouse ==> d == Vec2(0.0, 0.0)
  {
    var lastX := if c.firstMouse then e.xpos else c.lastX;
    var lastY := if c.firstMouse then e.ypos else c.lastY;
    Vec2(e.xpos - lastX, lastY - e.ypos)
  }

  /** After any event the callback remembers that event's position. */
  function CursorAfter(c: Cursor, e: CursorEvent): Cursor
  {
    Cursor(e.xpos, e.ypos, false)
  }

  /** The sum of the deltas a sequence of cursor events produces. */
  function TotalDelta(c: Cursor, events: seq<CursorEvent>): Vec2
    decreases |events|
  {
    if |events| == 0 then Vec2(0.0, 0.0)
    else
      var d := CursorDelta(c, events[0]);
      var rest := TotalDelta(CursorAfter(c, events[0]), events[1..]);
      Vec2(d.x + rest.x, d.y + rest.y)
  }

  /** The deltas telescope: over any run of events they add up to the move
   *  from the starting position (the first event's own position when no
   *  event came before) to the last event's position. No motion is lost or counted twice. */
  lemma {:induction false} TotalDeltaTelescopes(c: Cursor, events: seq<CursorEvent>)
    requires |events| > 0
    decreases |events|
    ensures var startX := if c.firstMouse then events[0].xpos else c.lastX;
      TotalDelta(c, events).x == events[|events| - 1].xpos - startX
    ensures var startY := if c.firstMouse then events[0].ypos else c.lastY;
      TotalDelta(c, events).y == startY - events[|events| - 1].ypos
  {
    if |events| > 1 {
      TotalDeltaTelescopes(CursorAfter(c, events[0]), events[1..]);
      assert events[1..][|events[1..]| - 1] == events[|events| - 1];
    }
  }

  /** `Vector3f.maxComponent` on a vector of absolute values: the index of a
   *  largest component, preferring x, then y. */
  function MaxComponent(v: Vec3): (axis: int)
    ensures 0 <= axis <= 2
    ensures axis == 0 ==> v.x >= v.y && v.x >= v.z
    ensures axis == 1 ==> v.y > v.x && v.y >= v.z
    ensures axis == 2 ==> v.z > v.x && v.z > v.y
  {
    if v.x >= v.y && v.x >= v.z then 0 else if v.y >= v.z then 1 else 2
  }

  function Abs(r: real): real { if r < 0.0 then -r else r }

  /** When sample k is solid and none before it is, the raycast reports sample k's cell. */
  lemma RaycastHitsAt(g: Grid, origin: Vec3, rayDir: Vec3, k: nat)
    requires k < MaxSamples && Solid(g, SampleCell(origin, EngineRayStep(rayDir), k))
    requires forall j :: 0 <= j < k ==> !Solid(g, SampleCell(origin, EngineRayStep(rayDir), j))
    ensures RaycastSpec(g, origin, rayDir) == Some(RaycastResult(SampleCell(origin, EngineRayStep(rayDir), k), Zero))
  {
    FirstSolidIs(g, origin, EngineRayStep(rayDir), 0, MaxSamples, k);
  }

  /** When no sample is solid and sample k is the last one inside the grid,
   *  the raycast falls back to sample k's cell. */
  lemma RaycastFallsBackTo(g: Grid, origin: Vec3, rayDir: Vec3, k: nat)
    requires forall j :: 0 <= j < MaxSamples ==> !Solid(g, SampleCell(origin, EngineRayStep(rayDir), j))
    requires k < MaxSamples && SampleCell(origin, EngineRayStep(rayDir), k) in g
    requires forall j :: k < j < MaxSamples ==> SampleCell(origin, EngineRayStep(rayDir), j) !in g
    ensures RaycastSpec(g, origin, rayDir) == Some(RaycastResult(SampleCell(origin, EngineRayStep(rayDir), k), Zero))
    ensures !RayHits(g, origin, rayDir)
  {
    LastInGridIs(g, origin, EngineRayStep(rayDir), MaxSamples, k);
  }

  /** The default camera at (0, 10, 0) looking straight down over a column
   *  that is AIR from y = 5 to 10: the 100 samples reach down to y = 5.05, so
   *  nothing is hit and the result is the fallback cell (0, 5, 0). */
  lemma DefaultCameraLooksDown(g: Grid, origin: Vec3, rayDir: Vec3)
    requires g.Keys == AllCells()
    requires forall y :: 5 <= y <= 10 ==> !Solid(g, Cell3(0, y, 0))
    requires origin == Vec3(0.0, 10.0, 0.0) && rayDir == Vec3(0.0, -1.0, 0.0)
    ensures RaycastSpec(g, origin, rayDir) == Some(RaycastResult(Cell3(0, 5, 0), Zero))
    ensures !RayHits(g, origin, rayDir)
  {
    var step := EngineRayStep(rayDir);
    assert step == Vec3(0.0, -0.05, 0.0);
    DefaultColumnClear(g, origin, step);
    AllCellsMembership(Cell3(0, 5, 0));
    RaycastFallsBackTo(g, origin, rayDir, MaxSamples - 1);
  }

  /** Samples 0 to 99 from (0, 10, 0) straight down lie at heights 10 down to
   *  5.05, in cells (0, 10, 0) down to (0, 5, 0). */
  lemma DefaultColumnClear(g: Grid, origin: Vec3, step: Vec3)
    requires forall y :: 5 <= y <= 10 ==> !Solid(g, Cell3(0, y, 0))
    requires origin == Vec3(0.0, 10.0, 0.0) && step == Vec3(0.0, -0.05, 0.0)
    ensures forall j :: 0 <= j < MaxSamples ==> !Solid(g, SampleCell(origin, step, j))
    ensures SampleCell(origin, step, MaxSamples - 1) == Cell3(0, 5, 0)
  {
    forall j: nat | j < MaxSamples
      ensures !Solid(g, SampleCell(origin, step, j))
    {
      VerticalSampleCell(origin, step, j);
      assert 5 <= (10.0 + (j as real) * -0.05).Floor <= 10;
    }
    VerticalSampleCell(origin, step, MaxSamples - 1);
  }

  /** Clicking on an AIR cell with a zero normal: breaking leaves the grid as
   *  it is and placing fills that cell with GRASS. */
  lemma ClicksOnAirCell(g: Grid, c: Cell3)
    requires g.Keys == AllCells() && c in g && g[c] == Some(AIR)
    ensures AfterBreak(g, Some(RaycastResult(c, Zero))) == g
    ensures AfterPlace(g, Some(RaycastResult(c, Zero))) == g[c := Some(GRASS)]
  {
    assert g[c := Some(AIR)] == g;
  }

  /** On the flat terrain, from the starting camera looking down, a left click
   *  changes nothing and a right click puts GRASS in mid-air at (0, 5, 0). */
  lemma DefaultCameraClicksOnFlatTerrain(origin: Vec3, rayDir: Vec3)
    requires origin == Vec3(0.0, 10.0, 0.0) && rayDir == Vec3(0.0, -1.0, 0.0)
    ensures var r := RaycastSpec(FlatTerrain(), origin, rayDir);
      AfterBreak(FlatTerrain(), r) == FlatTerrain()
      && AfterPlace(FlatTerrain(), r) == FlatTerrain()[Cell3(0, 5, 0) := Some(GRASS)]
  {
    var g := FlatTerrain();
    forall y | 5 <= y <= 10
      ensures !Solid(g, Cell3(0, y, 0))
    {
      FlatColumnAbove(0, y, 0);
    }
    DefaultCameraLooksDown(g, origin, rayDir);
    AllCellsMembership(Cell3(0, 5, 0));
    FlatTerrainLayers(Cell3(0, 5, 0));
    ClicksOnAirCell(g, Cell3(0, 5, 0));
  }

  /** Looking straight down from height 3 above column (x, z) whose floor is
   *  solid and whose cells at y = 1 to 3 are not: sample 41, at y = 0.95, is
   *  the first solid one. */
  lemma RaycastDownOntoFloor(g: Grid, x: int, z: int, origin: Vec3, rayDir: Vec3)
    requires Solid(g, Cell3(x, 0, z))
    requires forall y :: 1 <= y <= 3 ==> !Solid(g, Cell3(x, y, z))
    requires origin == Vec3(x as real + 0.5, 3.0, z as real + 0.5) && rayDir == Vec3(0.0, -1.0, 0.0)
    ensures RaycastSpec(g, origin, rayDir) == Some(RaycastResult(Cell3(x, 0, z), Zero))
  {
    FloorBetween(origin.x, x, x);
    FloorBetween(origin.z, z, z);
    var step := EngineRayStep(rayDir);
    assert step == Vec3(0.0, -0.05, 0.0);
    forall j: nat | j < 41
      ensures !Solid(g, SampleCell(origin, step, j))
    {
      VerticalSampleCell(origin, step, j);
      FloorBetween(3.0 + (j as real) * -0.05, 1, 3);
    }
    VerticalSampleCell(origin, step, 41);
    FloorBetween(3.0 + 41.0 * -0.05, 0, 0);
    RaycastHitsAt(g, origin, rayDir, 41);
  }

  /** The same ray over a column that is AIR from y = 0 to 3 hits nothing;
   *  samples past the 60th lie below the chunk, so the fallback is the floor cell (x, 0, z). */
  lemma RaycastDownOntoHole(g: Grid, x: int, z: int, origin: Vec3, rayDir: Vec3)
    requires g.Keys == AllCells() && 0 <= x < ChunkSize && 0 <= z < ChunkSize
    requires forall y :: 0 <= y <= 3 ==> !Solid(g, Cell3(x, y, z))
    requires origin == Vec3(x as real + 0.5, 3.0, z as real + 0.5) && rayDir == Vec3(0.0, -1.0, 0.0)
    ensures RaycastSpec(g, origin, rayDir) == Some(RaycastResult(Cell3(x, 0, z), Zero))
  {
    var step := EngineRayStep(rayDir);
    assert step == Vec3(0.0, -0.05, 0.0);
    HoleColumnClear(g, x, z, origin, step);
    HoleBelowChunk(g, x, z, origin, step);
    RaycastFallsBackTo(g, origin, rayDir, 60);
  }

  /** No sample of that ray is solid: each lies at some y from -2 to 3 in the
   *  column, either below the chunk or in one of the non-solid cells. */
  lemma HoleColumnClear(g: Grid, x: int, z: int, origin: Vec3, step: Vec3)
    requires g.Keys == AllCells()
    requires forall y :: 0 <= y <= 3 ==> !Solid(g, Cell3(x, y, z))
    requires origin == Vec3(x as real + 0.5, 3.0, z as real + 0.5) && step == Vec3(0.0, -0.05, 0.0)
    ensures forall j :: 0 <= j < MaxSamples ==> !Solid(g, SampleCell(origin, step, j))
  {
    FloorBetween(origin.x, x, x);
    FloorBetween(origin.z, z, z);
    forall j: nat | j < MaxSamples
      ensures !Solid(g, SampleCell(origin, step, j))
    {
      VerticalSampleCell(origin, step, j);
      FloorBetween(3.0 + (j as real) * -0.05, -2, 3);
      AllCellsMembership(SampleCell(origin, step, j));
    }
  }

  /** Sample 60 of that ray, at y = 0, is the floor cell; every later sample is below the chunk. */
  lemma HoleBelowChunk(g: Grid, x: int, z: int, origin: Vec3, step: Vec3)
    requires g.Keys == AllCells() && 0 <= x < ChunkSize && 0 <= z < ChunkSize
    requires origin == Vec3(x as real + 0.5, 3.0, z as real + 0.5) && step == Vec3(0.0, -0.05, 0.0)
    ensures SampleCell(origin, step, 60) == Cell3(x, 0, z) && Cell3(x, 0, z) in g
    ensures forall j :: 60 < j < MaxSamples ==> SampleCell(origin, step, j) !in g
  {
    FloorBetween(origin.x, x, x);
    FloorBetween(origin.z, z, z);
    forall j: nat | 60 < j < MaxSamples
      ensures SampleCell(origin, step, j) !in g
    {
      VerticalSampleCell(origin, step, j);
      FloorBetween(3.0 + (j as real) * -0.05, -2, -1);
      AllCellsMembership(SampleCell(origin, step, j));
    }
    VerticalSampleCell(origin, step, 60);
    FloorBetween(3.0 + 60.0 * -0.05, 0, 0);
    AllCellsMembership(Cell3(x, 0, z));
  }

  /** Clearing a GRASS floor cell below a non-solid column leaves the column
   *  non-solid from y = 0 to 3, and writing GRASS back restores the grid. */
  lemma FloorCleared(g: Grid, x: int, z: int)
    requires Filled(g) && Solid(g, Cell3(x, 0, z))
    requires forall y :: 1 <= y <= 3 ==> !Solid(g, Cell3(x, y, z))
    ensures var h := g[Cell3(x, 0, z) := Some(AIR)]; forall y :: 0 <= y <= 3 ==> !Solid(h, Cell3(x, y, z))
    ensures g[Cell3(x, 0, z) := Some(AIR)][Cell3(x, 0, z) := Some(GRASS)] == g
  {
    var floor := Cell3(x, 0, z);
    assert g[floor].Some? && g[floor].value != AIR;
    assert g[floor := Some(AIR)][floor := Some(GRASS)] == g[floor := Some(GRASS)];
  }

  /** Left and right button in the same frame, looking straight down at a
   *  floor cell with AIR above it: the break turns the floor cell to AIR,
   *  the placement's fresh raycast then falls through to that same cell and
   *  refills it, so the chunk ends as it started. */
  lemma BreakThenPlaceRestores(g: Grid, x: int, z: int, origin: Vec3, rayDir: Vec3)
    requires g.Keys == AllCells() && Filled(g) && 0 <= x < ChunkSize && 0 <= z < ChunkSize
    requires Solid(g, Cell3(x, 0, z))
    requires forall y :: 1 <= y <= 3 ==> !Solid(g, Cell3(x, y, z))
    requires origin == Vec3(x as real + 0.5, 3.0, z as real + 0.5) && rayDir == Vec3(0.0, -1.0, 0.0)
    ensures Clicks(g, origin, rayDir, true, true) == g
  {
    var floor := Cell3(x, 0, z);
    RaycastDownOntoFloor(g, x, z, origin, rayDir);
    AllCellsMembership(floor);
    var h := g[floor := Some(AIR)];
    assert AfterBreak(g, RaycastSpec(g, origin, rayDir)) == h;
    FloorCleared(g, x, z);
    RaycastDownOntoHole(h, x, z, origin, rayDir);
  }

  class VoxelEngine {
    const camera: Camera
    const chunk: Chunk
    var lastX: real
    var lastY: real
    var firstMouse: bool
    /** GLFW's should-close flag of the window. */
    var windowShouldClose: bool

    /** A well-formed camera and chunk, and every cell of the chunk generated. */
    ghost predicate Valid()
      reads this, camera, chunk, chunk.blocks
    {
      chunk.Valid() && camera.Valid() && Filled(chunk.Cells())
    }

    ghost function CursorState(): Cursor
      reads this
    {
      Cursor(lastX, lastY, firstMouse)
    }

    /** The field initialisers and the modelled part of `init`: a new camera,
     *  a chunk filled with the flat terrain, and the cursor at (400, 300)
     *  awaiting its first event. */
    constructor ()
      ensures Valid() && fresh(camera) && fresh(chunk) && fresh(chunk.blocks)
      ensures chunk.Cells() == FlatTerrain()
      ensures CursorState() == Cursor(400.0, 300.0, true) && !windowShouldClose
      ensures camera.position == Vec3(0.0, 10.0, 0.0) && camera.rotation == Vec2(0.0, 0.0)
      ensures camera.speed == 0.1 && camera.sensitivity == 0.1 && camera.up == Vec3(0.0, 1.0, 0.0)
      ensures camera.front == Vec3(1.0, 0.0, 0.0) && camera.right == Vec3(0.0, 0.0, 1.0)
    {
      lastX := 400.0;
      lastY := 300.0;
      firstMouse := true;
      windowShouldClose := false;
      camera := new Camera();
      chunk := new Chunk();
      new;
      chunk.GenerateFlatTerrain();
      FlatTerrainLayers(Cell3(0, 0, 0));
    }

    /** The engine's ray march from the camera position along `rayDir`
     *  (already normalised), with the face-normal steps of the source. */
    method Raycast(rayDir: Vec3) returns (r: Option<RaycastResult>)
      requires Valid()
      ensures r == RaycastSpec(chunk.Cells(), camera.position, rayDir)
    {
      ghost var g := chunk.Cells();
      var origin := camera.position;
      var currentPos := origin;
      var step := EngineRayStep(rayDir);
      var lastValid: Option<Cell3> := None;
      for i := 0 to MaxSamples
        invariant currentPos == Sample(origin, step, i)
        invariant forall j :: 0 <= j < i ==> !Solid(g, SampleCell(origin, step, j))
        invariant lastValid == LastCellInGrid(g, origin, step, i)
      {
        var blockPos := Floor(currentPos);
        if IsValidBlockPosition(blockPos) {
          chunk.CellsAt(blockPos.x, blockPos.y, blockPos.z);
          if chunk.blocks[blockPos.x, blockPos.y, blockPos.z] != Some(AIR) {
            var faceNormal := Vec3(currentPos.x - blockPos.x as real - 0.5,
                                   currentPos.y - blockPos.y as real - 0.5,
                                   currentPos.z - blockPos.z as real - 0.5);
            var absNormal := Vec3(Abs(faceNormal.x), Abs(faceNormal.y), Abs(faceNormal.z));
            var dominantAxis := MaxComponent(absNormal);
            faceNormal := Zero;
            if dominantAxis == 0 {
              faceNormal := faceNormal.(x := Signum(faceNormal.x) as real);
            } else if dominantAxis == 1 {
              faceNormal := faceNormal.(y := Signum(faceNormal.y) as real);
            } else {
              faceNormal := faceNormal.(z := Signum(faceNormal.z) as real);
            }
            assert faceNormal == Zero;
            RaycastHitsAt(g, origin, rayDir, i);
            return Some(RaycastResult(blockPos, faceNormal));
          }
          lastValid := Some(blockPos);
        }
        currentPos := Add(currentPos, step);
      }
      assert FirstSolid(g, origin, step, 0, MaxSamples).None?;
      if lastValid.Some? {
        r := Some(RaycastResult(lastValid.value, Zero));
      } else {
        r := None;
      }
    }

    /** `handleBlockBreaking`: a raycast result inside the chunk becomes AIR. */
    method HandleBlockBreaking(rayDir: Vec3)
      requires Valid()
      modifies chunk.blocks
      ensures Valid()
      ensures chunk.Cells() == AfterBreak(old(chunk.Cells()), RaycastSpec(old(chunk.Cells()), camera.position, rayDir))
    {
      ghost var before := chunk.Cells();
      var result := Raycast(rayDir);
      if result.Some? && IsValidBlockPosition(result.value.blockPos) {
        var pos := result.value.blockPos;
        chunk.SetBlock(pos, Some(AIR));
      }
      BreakOnResult(before, result);
    }

    /** `handleBlockPlacement`: the placement cell of a raycast result, if inside the chunk, becomes GRASS. */
    method HandleBlockPlacement(rayDir: Vec3)
      requires Valid()
      modifies chunk.blocks
      ensures Valid()
      ensures chunk.Cells() == AfterPlace(old(chunk.Cells()), RaycastSpec(old(chunk.Cells()), camera.position, rayDir))
    {
      ghost var before := chunk.Cells();
      var result := Raycast(rayDir);
      if result.Some? {
        var placePos := CellAdd(result.value.blockPos, SignumCell(result.value.faceNormal));
        assert placePos == PlacePosition(result.value);
        if IsValidBlockPosition(placePos) {
            chunk.SetBlock(placePos, Some(GRASS));
        }
      }
      PlaceOnResult(before, result);
    }

    /** The cursor-position callback: turn the event into a mouse delta,
     *  remember the position, and pass the delta to the camera. */
    method OnCursorPos(xpos: real, ypos: real)
      requires Valid()
      modifies this`lastX, this`lastY, this`firstMouse, camera`rotation
      ensures Valid()
      ensures CursorState() == CursorAfter(old(CursorState()), CursorEvent(xpos, ypos))
      ensures var d := CursorDelta(old(CursorState()), CursorEvent(xpos, ypos));
        camera.rotation == Vec2(Clamp(old(camera.rotation.x) + d.y * camera.sensitivity, -PitchLimit, PitchLimit),
                                old(camera.rotation.y) + d.x * camera.sensitivity)
    {
      ghost var cells := chunk.Cells();
      ghost var delta := CursorDelta(CursorState(), CursorEvent(xpos, ypos));
      if firstMouse {
        lastX := xpos;
        lastY := ypos;
        firstMouse := false;
      }
      var dx := xpos - lastX;
      var dy := lastY - ypos;
      lastX := xpos;
      lastY := ypos;
      assert Vec2(dx, dy) == delta;
      camera.ProcessMouse(dx, dy);
      assert chunk.Cells() == cells;
    }

    /** `processInput` with the frame's key and button states: move the
     *  camera, flag the window on escape, then break on the left button and
     *  place on the right, each with its own raycast from the moved camera. */
    method ProcessInput(w: bool, s: bool, a: bool, d: bool, escape: bool, leftButton: bool, rightButton: bool,
                        rayDir: Vec3, normalize: Vec3 -> Vec3)
      requires Valid()
      modifies camera`position, this`windowShouldClose, chunk.blocks
      ensures Valid()
      ensures camera.position == MovedPosition(old(camera.position), w, s, a, d, camera.front, camera.right, camera.speed, normalize)
      ensures windowShouldClose == (old(windowShouldClose) || escape)
      ensures chunk.Cells() == Clicks(old(chunk.Cells()), camera.position, rayDir, leftButton, rightButton)
    {
      camera.ProcessKeyboard(w, s, a, d, normalize);
      if escape {
        windowShouldClose := true;
      }
      if leftButton {
        HandleBlockBreaking(rayDir);
      }
      if rightButton {
        HandleBlockPlacement(rayDir);
      }
    }
  }
}
