/** `Raycast.castRay` (Raycast.java): march in steps of 0.1 along a unit
 *  direction, advancing before each test, and report the first solid cell
 *  with a "back-step" normal. */
module Raycasting {
  import opened Wrappers
  import opened Vectors
  import opened Blocks
  import opened Chunks
  import opened Marching

  /** Length of one march step. */
  const StepLength: real := 0.1

  /** HitResult: the solid cell hit and the cell offset back to the previous sample. */
  datatype HitResult = HitResult(blockPos: Cell3, hitNormal: Cell3)

  /** `inChunkBounds`: the cell lies in the chunk's array. */
  function InChunkBounds(pos: Cell3): (r: bool)
    ensures r <==> pos in AllCells()
  {
    AllCellsMembership(pos);
    pos.x >= 0 && pos.x < ChunkSize && pos.y >= 0 && pos.y < ChunkSize && pos.z >= 0 && pos.z < ChunkSize
  }

  /** Number of passes of `for (t = 0; t < maxDistance; t += 0.1)`, with t = k·0.1 exactly. */
  function StepCount(maxDistance: real): nat
  {
    if maxDistance <= 0.0 then 0 else -((-(maxDistance * 10.0)).Floor)
  }

  /** Pass k (counting from 0) runs exactly when k < StepCount(maxDistance). */
  lemma StepCountBound(k: nat, maxDistance: real)
    ensures (k as real) * StepLength < maxDistance <==> k < StepCount(maxDistance)
  {
  }

  /** What `castRay` returns, given the grid, the unit direction and the distance
   *  bound: pass k tests sample k + 1, so samples 1 .. StepCount(maxDistance) are
   *  tested and the origin itself never is. */
  function CastRaySpec(g: Grid, origin: Vec3, direction: Vec3, maxDistance: real): (r: Option<HitResult>)
    ensures r.Some? ==> Solid(g, r.value.blockPos)
    ensures r.None? <==> forall j :: 1 <= j <= StepCount(maxDistance) ==> !Solid(g, SampleCell(origin, Scale(StepLength, direction), j))
  {
    var step := Scale(StepLength, direction);
    match FirstSolid(g, origin, step, 1, StepCount(maxDistance) + 1)
    case None => None
    case Some(k) =>
      var hit := SampleCell(origin, step, k);
      Some(HitResult(hit, CellSub(hit, SampleCell(origin, step, k - 1))))
  }

  /** `castRay` itself, with `direction` already normalised: pos advances before
   *  each test; on the first in-bounds non-AIR cell the normal is that cell minus
   *  the cell of pos − step. The chunk is only read. */
  method CastRay(origin: Vec3, direction: Vec3, chunk: Chunk, maxDistance: real) returns (r: Option<HitResult>)
    requires chunk.Valid()
    ensures r == CastRaySpec(chunk.Cells(), origin, direction, maxDistance)
  {
    ghost var g := chunk.Cells();
    var pos := origin;
    var step := Scale(StepLength, direction);
    var k: nat := 0;
    while (k as real) * StepLength < maxDistance
      invariant k <= StepCount(maxDistance)
      invariant pos == Sample(origin, step, k)
      invariant forall j :: 1 <= j <= k ==> !Solid(g, SampleCell(origin, step, j))
      decreases StepCount(maxDistance) - k
    {
      StepCountBound(k, maxDistance);
      pos := Add(pos, step);
      var currentBlock := Floor(pos);
      if InChunkBounds(currentBlock) {
        chunk.CellsAt(currentBlock.x, currentBlock.y, currentBlock.z);
        if chunk.blocks[currentBlock.x, currentBlock.y, currentBlock.z] != Some(AIR) {
          var backStep := Sub(pos, step);
          var previousBlock := Floor(backStep);
          var normal := CellSub(currentBlock, previousBlock);
          CastRayHitAfter(g, origin, direction, maxDistance, k);
          return Some(HitResult(currentBlock, normal));
        }
      }
      k := k + 1;
    }
    StepCountBound(k, maxDistance);
    return None;
  }

  /** When samples 1 .. k are clear and sample k + 1 (still within the
   *  distance) is solid, castRay reports the cell of sample k + 1 and the
   *  back-step from it to the cell of that sample minus one step. */
  lemma CastRayHitAfter(g: Grid, origin: Vec3, direction: Vec3, maxDistance: real, k: nat)
    requires k < StepCount(maxDistance)
    requires forall j :: 1 <= j <= k ==> !Solid(g, SampleCell(origin, Scale(StepLength, direction), j))
    requires Solid(g, SampleCell(origin, Scale(StepLength, direction), k + 1))
    ensures var step := Scale(StepLength, direction);
      var hit := Floor(Sample(origin, step, k + 1));
      CastRaySpec(g, origin, direction, maxDistance)
        == Some(HitResult(hit, CellSub(hit, Floor(Sub(Sample(origin, step, k + 1), step)))))
  {
    var step := Scale(StepLength, direction);
    FirstSolidIs(g, origin, step, 1, StepCount(maxDistance) + 1, k + 1);
    SampleBack(origin, step, k);
  }

  /** When sample k is the first solid one tested, castRay reports its cell and the back-step from sample k − 1. */
  lemma CastRayHitAt(g: Grid, origin: Vec3, direction: Vec3, maxDistance: real, k: nat)
    requires 1 <= k && FirstSolid(g, origin, Scale(StepLength, direction), 1, StepCount(maxDistance) + 1) == Some(k)
    ensures var step := Scale(StepLength, direction);
      CastRaySpec(g, origin, direction, maxDistance)
        == Some(HitResult(SampleCell(origin, step, k), CellSub(SampleCell(origin, step, k), SampleCell(origin, step, k - 1))))
  {
  }

  /** With no distance to travel no sample is taken, and nothing is hit. */
  lemma CastRayNoDistance(g: Grid, origin: Vec3, direction: Vec3, maxDistance: real)
    requires maxDistance <= 0.0
    ensures CastRaySpec(g, origin, direction, maxDistance) == None
  {
  }

  /** A hit is an in-bounds, non-AIR cell, the first one among the tested samples. */
  lemma CastRayHitIsFirst(g: Grid, origin: Vec3, direction: Vec3, maxDistance: real)
    requires g.Keys == AllCells()
    requires CastRaySpec(g, origin, direction, maxDistance).Some?
    ensures var h := CastRaySpec(g, origin, direction, maxDistance).value;
      InChunkBounds(h.blockPos) && g[h.blockPos] != Some(AIR) &&
      exists k :: 1 <= k <= StepCount(maxDistance) && h.blockPos == SampleCell(origin, Scale(StepLength, direction), k) &&
        forall j :: 1 <= j < k ==> !Solid(g, SampleCell(origin, Scale(StepLength, direction), j))
  {
  }

  /** A unit vector has no component larger than 1 in magnitude. */
  lemma UnitComponents(d: Vec3)
    requires LengthSquared(d) == 1.0
    ensures -1.0 <= d.x <= 1.0 && -1.0 <= d.y <= 1.0 && -1.0 <= d.z <= 1.0
  {
    SquareAtMostOne(d.x, d.y * d.y + d.z * d.z);
    SquareAtMostOne(d.y, d.x * d.x + d.z * d.z);
    SquareAtMostOne(d.z, d.x * d.x + d.y * d.y);
  }

  lemma SquareAtMostOne(a: real, rest: real)
    requires a * a + rest == 1.0 && rest >= 0.0
    ensures -1.0 <= a <= 1.0
  {
  }

  /** Points at most 1 apart on an axis lie in cells at most 1 apart. */
  lemma FloorGap(a: real, b: real)
    requires -1.0 <= a - b <= 1.0
    ensures -1 <= a.Floor - b.Floor <= 1
  {
  }

  /** Every component of the back-step normal is -1, 0 or 1, because along a
   *  unit direction consecutive samples are at most 0.1 apart on each axis. */
  lemma CastRayNormalComponents(g: Grid, origin: Vec3, direction: Vec3, maxDistance: real)
    requires LengthSquared(direction) == 1.0
    requires CastRaySpec(g, origin, direction, maxDistance).Some?
    ensures var n := CastRaySpec(g, origin, direction, maxDistance).value.hitNormal;
      -1 <= n.x <= 1 && -1 <= n.y <= 1 && -1 <= n.z <= 1
  {
    var step := Scale(StepLength, direction);
    var k := FirstSolid(g, origin, step, 1, StepCount(maxDistance) + 1).value;
    UnitComponents(direction);
    var p, q := Sample(origin, step, k), Sample(origin, step, k - 1);
    assert p == Add(q, step);
    FloorGap(p.x, q.x);
    FloorGap(p.y, q.y);
    FloorGap(p.z, q.z);
  }

  /** The cell the normal points back to (hit − normal) is the cell of the
   *  previous sample k − 1, where k is the first solid sample: the origin's
   *  own cell when the first tested sample hits (k = 1), and otherwise a cell
   *  that is out of bounds or AIR. */
  lemma CastRayBackStepCell(g: Grid, origin: Vec3, direction: Vec3, maxDistance: real)
    requires CastRaySpec(g, origin, direction, maxDistance).Some?
    ensures var k := FirstSolid(g, origin, Scale(StepLength, direction), 1, StepCount(maxDistance) + 1).value;
      var h := CastRaySpec(g, origin, direction, maxDistance).value;
      var previous := CellSub(h.blockPos, h.hitNormal);
      (k == 1 ==> previous == Floor(origin)) && (k > 1 ==> !Solid(g, previous))
  {
    var step := Scale(StepLength, direction);
    var k := FirstSolid(g, origin, step, 1, StepCount(maxDistance) + 1).value;
    var h := CastRaySpec(g, origin, direction, maxDistance).value;
    assert CellSub(h.blockPos, h.hitNormal) == SampleCell(origin, step, k - 1);
  }

  /** Marching down column (x, z) from height 3 in steps of 0.1 over a grid
   *  whose cells at y = 1 and 2 are not solid and whose cell at y = 0 is:
   *  samples 1 to 20 lie at y = 2 or 1 and sample 21 is the first solid one. */
  lemma DownColumnFirstSolid(g: Grid, x: int, z: int, origin: Vec3, step: Vec3)
    requires Solid(g, Cell3(x, 0, z)) && !Solid(g, Cell3(x, 1, z)) && !Solid(g, Cell3(x, 2, z))
    requires origin == Vec3(x as real + 0.5, 3.0, z as real + 0.5) && step == Vec3(0.0, -0.1, 0.0)
    ensures FirstSolid(g, origin, step, 1, 101) == Some(21)
    ensures SampleCell(origin, step, 20) == Cell3(x, 1, z)
    ensures SampleCell(origin, step, 21) == Cell3(x, 0, z)
    ensures CellSub(SampleCell(origin, step, 21), SampleCell(origin, step, 20)) == Cell3(0, -1, 0)
  {
    FloorBetween(origin.x, x, x);
    FloorBetween(origin.z, z, z);
    forall j: nat | 1 <= j < 21
      ensures !Solid(g, SampleCell(origin, step, j))
    {
      VerticalSampleCell(origin, step, j);
      FloorBetween(3.0 + (j as real) * -0.1, 1, 2);
    }
    VerticalSampleCell(origin, step, 20);
    FloorBetween(3.0 + 20.0 * -0.1, 1, 1);
    VerticalSampleCell(origin, step, 21);
    FloorBetween(3.0 + 21.0 * -0.1, 0, 0);
    FirstSolidIs(g, origin, step, 1, 101, 21);
  }

  /** Casting straight down from height 3 onto a solid cell at y = 0 with two
   *  non-solid cells above it hits that cell on the 21st sample; the normal is
   *  hit minus previous cell, (0, -1, 0), pointing along the ray rather than
   *  out of the top face. */
  lemma CastRayDownOntoFloor(g: Grid, x: int, z: int, origin: Vec3, direction: Vec3)
    requires Solid(g, Cell3(x, 0, z)) && !Solid(g, Cell3(x, 1, z)) && !Solid(g, Cell3(x, 2, z))
    requires origin == Vec3(x as real + 0.5, 3.0, z as real + 0.5) && direction == Vec3(0.0, -1.0, 0.0)
    ensures CastRaySpec(g, origin, direction, 10.0) == Some(HitResult(Cell3(x, 0, z), Cell3(0, -1, 0)))
  {
    var step := Scale(StepLength, direction);
    assert step == Vec3(0.0, -0.1, 0.0);
    assert StepCount(10.0) == 100;
    DownColumnFirstSolid(g, x, z, origin, step);
    CastRayHitAt(g, origin, direction, 10.0, 21);
  }

  /** Every column of the flat terrain is such a floor. */
  lemma CastRayDownOntoFlatTerrain(x: int, z: int, origin: Vec3, direction: Vec3)
    requires 0 <= x < ChunkSize && 0 <= z < ChunkSize
    requires origin == Vec3(x as real + 0.5, 3.0, z as real + 0.5) && direction == Vec3(0.0, -1.0, 0.0)
    ensures CastRaySpec(FlatTerrain(), origin, direction, 10.0)
         == Some(HitResult(Cell3(x, 0, z), Cell3(0, -1, 0)))
  {
    FlatFloor(x, z);
    FlatColumnAbove(x, 1, z);
    FlatColumnAbove(x, 2, z);
    CastRayDownOntoFloor(FlatTerrain(), x, z, origin, direction);
  }
}
