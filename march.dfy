/** Ray marching as both raycasters do it: a sample point advances from the
 *  origin by a fixed step, and each sample is floored to the cell it lies in. */
module Marching {
  import opened Wrappers
  import opened Vectors
  import opened Blocks
  import opened Chunks

  /** Sample i of a march: the origin advanced i times by the step, as the
   *  loops do it with `add(step)`. */
  function Sample(origin: Vec3, step: Vec3, i: nat): Vec3
  {
    if i == 0 then origin else Add(Sample(origin, step, i - 1), step)
  }

  /** The cell containing sample i. */
  function SampleCell(origin: Vec3, step: Vec3, i: nat): Cell3
  {
    Floor(Sample(origin, step, i))
  }

  /** Stepping back from sample i + 1 returns to sample i. */
  lemma SampleBack(origin: Vec3, step: Vec3, i: nat)
    ensures Sub(Sample(origin, step, i + 1), step) == Sample(origin, step, i)
  {
  }

  /** Sample i lies at origin + i·step. */
  lemma {:induction false} SampleAt(origin: Vec3, step: Vec3, i: nat)
    ensures Sample(origin, step, i)
         == Vec3(origin.x + (i as real) * step.x, origin.y + (i as real) * step.y, origin.z + (i as real) * step.z)
  {
    if i > 0 {
      SampleAt(origin, step, i - 1);
    }
  }

  /** The cell of sample j of a vertical march (a step with no x or z
   *  part): the column of the origin, at the floor of the sample's height. */
  lemma VerticalSampleCell(origin: Vec3, step: Vec3, j: nat)
    requires step.x == 0.0 && step.z == 0.0
    ensures SampleCell(origin, step, j) == Cell3(origin.x.Floor, (origin.y + (j as real) * step.y).Floor, origin.z.Floor)
  {
    SampleAt(origin, step, j);
  }

  /** The first index in [lo, hi) whose sample lies in a solid cell. */
  function FirstSolid(g: Grid, origin: Vec3, step: Vec3, lo: nat, hi: nat): (r: Option<nat>)
    decreases hi - lo
    ensures r.Some? ==> lo <= r.value < hi && Solid(g, SampleCell(origin, step, r.value))
    ensures r.Some? ==> forall j :: lo <= j < r.value ==> !Solid(g, SampleCell(origin, step, j))
    ensures r.None? <==> forall j :: lo <= j < hi ==> !Solid(g, SampleCell(origin, step, j))
  {
    if lo >= hi then None
    else if Solid(g, SampleCell(origin, step, lo)) then Some(lo)
    else FirstSolid(g, origin, step, lo + 1, hi)
  }

  /** An index is the first solid one exactly when it is solid and none before it in range is. */
  lemma FirstSolidIs(g: Grid, origin: Vec3, step: Vec3, lo: nat, hi: nat, k: nat)
    requires lo <= k < hi && Solid(g, SampleCell(origin, step, k))
    requires forall j :: lo <= j < k ==> !Solid(g, SampleCell(origin, step, j))
    ensures FirstSolid(g, origin, step, lo, hi) == Some(k)
  {
  }

  /** The last index below hi whose sample lies in a cell of the grid. */
  function LastInGrid(g: Grid, origin: Vec3, step: Vec3, hi: nat): (r: Option<nat>)
    ensures r.Some? ==> r.value < hi && SampleCell(origin, step, r.value) in g
    ensures r.Some? ==> forall j :: r.value < j < hi ==> SampleCell(origin, step, j) !in g
    ensures r.None? <==> forall j :: 0 <= j < hi ==> SampleCell(origin, step, j) !in g
  {
    if hi == 0 then None
    else if SampleCell(origin, step, hi - 1) in g then Some(hi - 1)
    else LastInGrid(g, origin, step, hi - 1)
  }

  /** The sample at k is the last one inside the grid before hi. */
  lemma LastInGridIs(g: Grid, origin: Vec3, step: Vec3, hi: nat, k: nat)
    requires k < hi && SampleCell(origin, step, k) in g
    requires forall j :: k < j < hi ==> SampleCell(origin, step, j) !in g
    ensures LastInGrid(g, origin, step, hi) == Some(k)
  {
  }
}
