/** The single 16×16×16 chunk (Chunk.java): the block array, the flat
 *  terrain generator, the per-block draw loop and the cube vertex table. */
module Chunks {
  import opened Wrappers
  import opened Vectors
  import opened Blocks

  /** CHUNK_SIZE: cells along each axis. */
  const ChunkSize: nat := 16

  /** VERTEX_COUNT: vertices drawn per cube (6 faces × 2 triangles × 3). */
  const VertexCount: nat := 36

  /** Floats per vertex in the cube table: position (3) then texture coordinate (2). */
  const FloatsPerVertex: nat := 5

  /** One cell of the block array; None is Java's null, the content of every
   *  cell between allocation and terrain generation. */
  type Cell = Option<Block>

  /** The value of the block array: each cell coordinate to its content. */
  type Grid = map<Cell3, Cell>

  /** The coordinates of the array's cells. */
  function AllCells(): set<Cell3>
  {
    set x: int, y: int, z: int | 0 <= x < ChunkSize && 0 <= y < ChunkSize && 0 <= z < ChunkSize :: Cell3(x, y, z)
  }

  /** A cell of the grid is exactly a coordinate triple inside [0, CHUNK_SIZE)³. */
  lemma AllCellsMembership(c: Cell3)
    ensures c in AllCells() <==> 0 <= c.x < ChunkSize && 0 <= c.y < ChunkSize && 0 <= c.z < ChunkSize
  {
    if 0 <= c.x < ChunkSize && 0 <= c.y < ChunkSize && 0 <= c.z < ChunkSize {
      assert c == Cell3(c.x, c.y, c.z);
    }
  }

  /** The test both raycasters and the draw loop apply: the cell exists and is
   *  not AIR (a null cell counts, as `!= Block.AIR` does in Java). */
  predicate Solid(g: Grid, c: Cell3)
  {
    c in g && g[c] != Some(AIR)
  }

  /** Every cell holds a block (no null left), as after terrain generation. */
  predicate Filled(g: Grid)
  {
    forall c :: c in g ==> g[c].Some?
  }

  /** The block `generateFlatTerrain` puts in layer y. */
  function FlatBlock(y: int): Block
  {
    if y == 0 then GRASS else AIR
  }

  /** The grid `generateFlatTerrain` produces, whatever the array held before. */
  function FlatTerrain(): (g: Grid)
    ensures g.Keys == AllCells()
  {
    map c | c in AllCells() :: Some(FlatBlock(c.y))
  }

  /** The flat terrain: the bottom layer is GRASS, the fifteen above it AIR, no cell is null. */
  lemma FlatTerrainLayers(c: Cell3)
    requires c in AllCells()
    ensures Filled(FlatTerrain())
    ensures FlatTerrain()[c] == Some(GRASS) <==> c.y == 0
    ensures 1 <= c.y < ChunkSize ==> FlatTerrain()[c] == Some(AIR)
  {
  }

  /** Above the floor of the flat terrain, every cell of a column is AIR. */
  lemma FlatColumnAbove(x: int, y: int, z: int)
    requires 0 <= x < ChunkSize && 1 <= y < ChunkSize && 0 <= z < ChunkSize
    ensures !Solid(FlatTerrain(), Cell3(x, y, z))
  {
    AllCellsMembership(Cell3(x, y, z));
    FlatTerrainLayers(Cell3(x, y, z));
  }

  /** The floor of the flat terrain is solid. */
  lemma FlatFloor(x: int, z: int)
    requires 0 <= x < ChunkSize && 0 <= z < ChunkSize
    ensures Solid(FlatTerrain(), Cell3(x, 0, z))
  {
    AllCellsMembership(Cell3(x, 0, z));
    FlatTerrainLayers(Cell3(x, 0, z));
  }

  /** The position in the draw loop's x-then-y-then-z order. */
  function LoopRank(c: Cell3): int
  {
    (c.x * ChunkSize + c.y) * ChunkSize + c.z
  }

  /** Two different cells of the grid never share a rank, so the loop order is a total order on cells. */
  lemma LoopRankInjective(a: Cell3, b: Cell3)
    requires a in AllCells() && b in AllCells()
    requires LoopRank(a) == LoopRank(b)
    ensures a == b
  {
    AllCellsMembership(a);
    AllCellsMembership(b);
  }

  /** One draw issued by `render`: the cube translated to a cell, and its vertex count. */
  datatype DrawCall = DrawCall(translation: Cell3, vertexCount: nat)

  /** The cube vertex table uploaded by `init`, six faces of six vertices;
   *  each vertex is a position on the unit cube centred at the origin
   *  followed by a texture coordinate. */
  function CubeVertices(): (v: seq<real>)
    ensures |v| == VertexCount * FloatsPerVertex
  {
    FrontFace() + BackFace() + RightFace() + LeftFace() + TopFace() + BottomFace()
  }

  function FrontFace(): (v: seq<real>) ensures |v| == 6 * FloatsPerVertex
  {
    [-0.5, -0.5,  0.5, 0.0, 0.0,   0.5, -0.5,  0.5, 1.0, 0.0,   0.5,  0.5,  0.5, 1.0, 1.0,
      0.5,  0.5,  0.5, 1.0, 1.0,  -0.5,  0.5,  0.5, 0.0, 1.0,  -0.5, -0.5,  0.5, 0.0, 0.0]
  }

  function BackFace(): (v: seq<real>) ensures |v| == 6 * FloatsPerVertex
  {
    [-0.5, -0.5, -0.5, 0.0, 0.0,   0.5, -0.5, -0.5, 1.0, 0.0,   0.5,  0.5, -0.5, 1.0, 1.0,
      0.5,  0.5, -0.5, 1.0, 1.0,  -0.5,  0.5, -0.5, 0.0, 1.0,  -0.5, -0.5, -0.5, 0.0, 0.0]
  }

  function RightFace(): (v: seq<real>) ensures |v| == 6 * FloatsPerVertex
  {
    [ 0.5, -0.5, -0.5, 0.0, 0.0,   0.5, -0.5,  0.5, 1.0, 0.0,   0.5,  0.5,  0.5, 1.0, 1.0,
      0.5,  0.5,  0.5, 1.0, 1.0,   0.5,  0.5, -0.5, 0.0, 1.0,   0.5, -0.5, -0.5, 0.0, 0.0]
  }

  function LeftFace(): (v: seq<real>) ensures |v| == 6 * FloatsPerVertex
  {
    [-0.5, -0.5, -0.5, 0.0, 0.0,  -0.5, -0.5,  0.5, 1.0, 0.0,  -0.5,  0.5,  0.5, 1.0, 1.0,
     -0.5,  0.5,  0.5, 1.0, 1.0,  -0.5,  0.5, -0.5, 0.0, 1.0,  -0.5, -0.5, -0.5, 0.0, 0.0]
  }

  function TopFace(): (v: seq<real>) ensures |v| == 6 * FloatsPerVertex
  {
    [-0.5,  0.5,  0.5, 0.0, 0.0,   0.5,  0.5,  0.5, 1.0, 0.0,   0.5,  0.5, -0.5, 1.0, 1.0,
      0.5,  0.5, -0.5, 1.0, 1.0,  -0.5,  0.5, -0.5, 0.0, 1.0,  -0.5,  0.5,  0.5, 0.0, 0.0]
  }

  function BottomFace(): (v: seq<real>) ensures |v| == 6 * FloatsPerVertex
  {
    [-0.5, -0.5,  0.5, 0.0, 0.0,   0.5, -0.5,  0.5, 1.0, 0.0,   0.5, -0.5, -0.5, 1.0, 1.0,
      0.5, -0.5, -0.5, 1.0, 1.0,  -0.5, -0.5, -0.5, 0.0, 1.0,  -0.5, -0.5,  0.5, 0.0, 0.0]
  }

  class Chunk {
    /** `blocks`, indexed [x, y, z]; allocated once and never replaced. */
    const blocks: array3<Cell>

    ghost predicate Valid()
    {
      blocks.Length0 == ChunkSize && blocks.Length1 == ChunkSize && blocks.Length2 == ChunkSize
    }

    /** The array's contents as a grid value. */
    ghost function Cells(): (g: Grid)
      requires Valid()
      reads blocks
      ensures g.Keys == AllCells()
    {
      map c | c in AllCells() :: blocks[c.x, c.y, c.z]
    }

    /** Reading cell (x, y, z) of the array is reading the grid value there. */
    lemma CellsAt(x: int, y: int, z: int)
      requires Valid()
      requires 0 <= x < ChunkSize && 0 <= y < ChunkSize && 0 <= z < ChunkSize
      ensures Cell3(x, y, z) in Cells() && Cells()[Cell3(x, y, z)] == blocks[x, y, z]
    {
      AllCellsMembership(Cell3(x, y, z));
    }

    /** `new Chunk()`: the array is allocated and every cell is null. */
    constructor ()
      ensures Valid() && fresh(blocks)
      ensures forall c :: c in Cells() ==> Cells()[c] == None
    {
      blocks := new Cell[ChunkSize, ChunkSize, ChunkSize]((x, y, z) => None);
    }

    /** `generateFlatTerrain`: every column gets GRASS at y = 0 and AIR above.
     *  The result does not depend on the old contents, so running it twice
     *  leaves the same grid as running it once. */
    method GenerateFlatTerrain()
      requires Valid()
      modifies blocks
      ensures Valid()
      ensures Cells() == FlatTerrain()
    {
      for x := 0 to ChunkSize
        invariant forall i, j, k :: 0 <= i < x && 0 <= j < ChunkSize && 0 <= k < ChunkSize ==> blocks[i, j, k] == Some(FlatBlock(j))
      {
        for z := 0 to ChunkSize
          invariant forall i, j, k :: 0 <= i < x && 0 <= j < ChunkSize && 0 <= k < ChunkSize ==> blocks[i, j, k] == Some(FlatBlock(j))
          invariant forall j, k :: 0 <= j < ChunkSize && 0 <= k < z ==> blocks[x, j, k] == Some(FlatBlock(j))
        {
          blocks[x, 0, z] := Some(GRASS);
          for y := 1 to ChunkSize
            invariant forall i, j, k :: 0 <= i < x && 0 <= j < ChunkSize && 0 <= k < ChunkSize ==> blocks[i, j, k] == Some(FlatBlock(j))
            invariant forall j, k :: 0 <= j < ChunkSize && 0 <= k < z ==> blocks[x, j, k] == Some(FlatBlock(j))
            invariant forall j :: 0 <= j < y ==> blocks[x, j, z] == Some(FlatBlock(j))
          {
            blocks[x, y, z] := Some(AIR);
          }
        }
      }
      forall c | c in AllCells()
        ensures Cells()[c] == FlatTerrain()[c]
      {
        AllCellsMembership(c);
      }
    }

    /** The engine's direct write `chunk.blocks[x][y][z] = b`: cell c of the array becomes b, the rest stays. */
    method SetBlock(c: Cell3, b: Cell)
      requires Valid() && c in AllCells()
      modifies blocks
      ensures Valid()
      ensures Cells() == old(Cells())[c := b]
    {
      AllCellsMembership(c);
      blocks[c.x, c.y, c.z] := b;
      forall d | d in AllCells()
        ensures Cells()[d] == old(Cells())[c := b][d]
      {
        AllCellsMembership(d);
      }
    }

    /** The draw loop of `render`: one draw of VERTEX_COUNT vertices per cell
     *  that is not AIR, translated to that cell, in x-then-y-then-z order. The
     *  GL calls are reduced to the returned trace; the array is only read. */
    method Render() returns (draws: seq<DrawCall>)
      requires Valid()
      ensures forall i :: 0 <= i < |draws| ==> draws[i].vertexCount == VertexCount && Solid(Cells(), draws[i].translation)
      ensures forall c :: Solid(Cells(), c) ==> exists i :: 0 <= i < |draws| && draws[i].translation == c
      ensures forall i, j :: 0 <= i < j < |draws| ==> LoopRank(draws[i].translation) < LoopRank(draws[j].translation)
    {
      ghost var g := Cells();
      draws := [];
      for x := 0 to ChunkSize
        invariant DrawnBelow(g, draws, LoopRank(Cell3(x, 0, 0)))
      {
        for y := 0 to ChunkSize
          invariant DrawnBelow(g, draws, LoopRank(Cell3(x, y, 0)))
        {
          for z := 0 to ChunkSize
            invariant DrawnBelow(g, draws, LoopRank(Cell3(x, y, z)))
          {
            CellsAt(x, y, z);
            ghost var before := draws;
            if blocks[x, y, z] != Some(AIR) {
              draws := draws + [DrawCall(Cell3(x, y, z), VertexCount)];
            }
            DrawStep(g, before, Cell3(x, y, z));
            assert LoopRank(Cell3(x, y, z)) + 1 == LoopRank(Cell3(x, y, z + 1));
          }
          assert LoopRank(Cell3(x, y, ChunkSize)) == LoopRank(Cell3(x, y + 1, 0));
        }
        assert LoopRank(Cell3(x, ChunkSize, 0)) == LoopRank(Cell3(x + 1, 0, 0));
      }
      DrawnAll(g, draws);
    }
  }

  /** The draws issued so far cover exactly the solid cells ranked below n, in rank order. */
  ghost predicate DrawnBelow(g: Grid, draws: seq<DrawCall>, n: int)
  {
    (forall i :: 0 <= i < |draws| ==>
       draws[i].vertexCount == VertexCount && Solid(g, draws[i].translation) && LoopRank(draws[i].translation) < n)
    && (forall i, j :: 0 <= i < j < |draws| ==> LoopRank(draws[i].translation) < LoopRank(draws[j].translation))
    && (forall c :: Solid(g, c) && LoopRank(c) < n ==> exists i :: 0 <= i < |draws| && draws[i].translation == c)
  }

  /** Visiting cell c (the next in loop order) draws it exactly when it is solid. */
  lemma DrawStep(g: Grid, draws: seq<DrawCall>, c: Cell3)
    requires g.Keys == AllCells() && c in AllCells()
    requires DrawnBelow(g, draws, LoopRank(c))
    ensures DrawnBelow(g, if Solid(g, c) then draws + [DrawCall(c, VertexCount)] else draws, LoopRank(c) + 1)
  {
    var draws' := if Solid(g, c) then draws + [DrawCall(c, VertexCount)] else draws;
    forall d | Solid(g, d) && LoopRank(d) < LoopRank(c) + 1
      ensures exists i :: 0 <= i < |draws'| && draws'[i].translation == d
    {
      if LoopRank(d) == LoopRank(c) {
        LoopRankInjective(c, d);
        assert draws'[|draws'| - 1].translation == d;
      } else {
        var i :| 0 <= i < |draws| && draws[i].translation == d;
        assert draws'[i].translation == d;
      }
    }
  }

  /** Once every cell has been visited, every solid cell has been drawn,
   *  each draw is of a solid cell, and the draws are in loop order. */
  lemma DrawnAll(g: Grid, draws: seq<DrawCall>)
    requires g.Keys == AllCells()
    requires DrawnBelow(g, draws, LoopRank(Cell3(ChunkSize, 0, 0)))
    ensures forall i :: 0 <= i < |draws| ==> draws[i].vertexCount == VertexCount && Solid(g, draws[i].translation)
    ensures forall c :: Solid(g, c) ==> exists i :: 0 <= i < |draws| && draws[i].translation == c
    ensures forall i, j :: 0 <= i < j < |draws| ==> LoopRank(draws[i].translation) < LoopRank(draws[j].translation)
  {
    forall c | Solid(g, c)
      ensures LoopRank(c) < LoopRank(Cell3(ChunkSize, 0, 0))
    {
      AllCellsMembership(c);
    }
  }
}
