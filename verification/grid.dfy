/** The lattice and line-index loops of `Engine::generateGrid`.

    The mesh is a (GridSize+1) x (GridSize+1) lattice of vertices in
    row-major order (row = z, column = x) and a list of line indices, two
    segments per cell: one to the right neighbour, one to the neighbour in
    the next row. A vertex is given by its integer lattice coordinates; its
    world position is that coordinate times the spacing `1e10f`. Its height
    is the sum over all objects of a per-object term `warp`, which the model
    leaves uninterpreted. */
module GridMesh {
  import opened ObjectPacking

  /** `gridSize`: cells per side. */
  const GridSize: nat := 25
  /** Vertices per row and per column. */
  const Side: nat := GridSize + 1
  /** Offset between a loop counter and its lattice coordinate: `gridSize / 2`,
      an integer division. */
  const Half: int := GridSize / 2
  const VertexCount: nat := Side * Side
  const IndexCount: nat := 4 * GridSize * GridSize

  /** A grid vertex: lattice coordinates along x and z, and the height. */
  datatype Vertex = Vertex(lx: int, height: real, lz: int)

  /** The height of the vertex at lattice coordinates (lx, lz): the terms of
      the objects added up in list order. */
  function WarpSum(objs: seq<ObjectData>, lx: int, lz: int, warp: (int, int, ObjectData) -> real): real
  {
    if objs == [] then 0.0
    else WarpSum(objs[..|objs| - 1], lx, lz, warp) + warp(lx, lz, objs[|objs| - 1])
  }

  /** The vertex at list position k: row k / Side, column k % Side. */
  function LatticeVertex(objs: seq<ObjectData>, warp: (int, int, ObjectData) -> real, k: nat): Vertex
  {
    var lx := k % Side - Half;
    var lz := k / Side - Half;
    Vertex(lx, WarpSum(objs, lx, lz, warp), lz)
  }

  /** The whole vertex list. */
  function GridVertices(objs: seq<ObjectData>, warp: (int, int, ObjectData) -> real): seq<Vertex>
  {
    seq(VertexCount, k requires 0 <= k < VertexCount => LatticeVertex(objs, warp, k))
  }

  /** The j-th line index: cell c = j / 4, whose top-left vertex is
      i = (c / GridSize) * Side + c % GridSize, contributes i, i+1, i, i+Side. */
  function IndexAt(j: nat): nat
  {
    var c := j / 4;
    var i := (c / GridSize) * Side + c % GridSize;
    match j % 4
    case 0 => i
    case 1 => i + 1
    case 2 => i
    case _ => i + Side
  }

  /** The whole index list. */
  function GridIndices(): seq<nat>
  {
    seq(IndexCount, j requires 0 <= j < IndexCount => IndexAt(j))
  }

  /** Position z * Side + x holds row z, column x. */
  lemma RowMajor(z: nat, x: nat)
    requires x < Side
    ensures (z * Side + x) / Side == z && (z * Side + x) % Side == x
  {
  }

  /** The first index of cell (z, x) sits at position 4 * (z * GridSize + x),
      and the cell's four indices are i, i+1, i, i+Side for
      i = z * Side + x. */
  lemma CellIndices(z: nat, x: nat, t: nat)
    requires x < GridSize && t < 4
    ensures IndexAt(4 * (z * GridSize + x) + t) ==
            [z * Side + x, z * Side + x + 1, z * Side + x, z * Side + x + Side][t]
  {
    var j := 4 * (z * GridSize + x) + t;
    assert j / 4 == z * GridSize + x && j % 4 == t;
    assert (z * GridSize + x) / GridSize == z && (z * GridSize + x) % GridSize == x;
  }

  /** The height loop of `generateGrid`: the object terms added in order. */
  method VertexHeight(objs: seq<ObjectData>, lx: int, lz: int, warp: (int, int, ObjectData) -> real) returns (y: real)
    ensures y == WarpSum(objs, lx, lz, warp)
  {
    y := 0.0;
    for i := 0 to |objs|
      invariant y == WarpSum(objs[..i], lx, lz, warp)
    {
      assert objs[..i + 1][..i] == objs[..i];
      y := y + warp(lx, lz, objs[i]);
    }
    assert objs[..|objs|] == objs;
  }

  /** Both loop nests of `generateGrid`, building the two lists by appending. */
  method BuildMesh(objs: seq<ObjectData>, warp: (int, int, ObjectData) -> real)
    returns (vertices: seq<Vertex>, indices: seq<nat>)
    ensures vertices == GridVertices(objs, warp)
    ensures indices == GridIndices()
  {
    vertices := [];
    for z := 0 to Side
      invariant |vertices| == z * Side
      invariant forall k :: 0 <= k < |vertices| ==> vertices[k] == LatticeVertex(objs, warp, k)
    {
      for x := 0 to Side
        invariant |vertices| == z * Side + x
        invariant forall k :: 0 <= k < |vertices| ==> vertices[k] == LatticeVertex(objs, warp, k)
      {
        var y := VertexHeight(objs, x - Half, z - Half, warp);
        RowMajor(z, x);
        vertices := vertices + [Vertex(x - Half, y, z - Half)];
      }
    }

    indices := [];
    for z := 0 to GridSize
      invariant |indices| == 4 * (z * GridSize)
      invariant forall j :: 0 <= j < |indices| ==> indices[j] == IndexAt(j)
    {
      for x := 0 to GridSize
        invariant |indices| == 4 * (z * GridSize + x)
        invariant forall j :: 0 <= j < |indices| ==> indices[j] == IndexAt(j)
      {
        var i := z * Side + x;
        CellIndices(z, x, 0);
        CellIndices(z, x, 1);
        CellIndices(z, x, 2);
        CellIndices(z, x, 3);
        indices := indices + [i, i + 1, i, i + Side];
      }
    }
  }

  /** The mesh has (GridSize+1)^2 = 676 vertices and 4 * GridSize^2 = 2500
      indices. */
  lemma MeshSizes(objs: seq<ObjectData>, warp: (int, int, ObjectData) -> real)
    ensures |GridVertices(objs, warp)| == 676
    ensures |GridIndices()| == 2500
  {
  }

  /** The vertex at position z * Side + x has lattice coordinates
      (x - 12, z - 12) and the summed height there. */
  lemma VertexAtLatticePoint(objs: seq<ObjectData>, warp: (int, int, ObjectData) -> real, z: nat, x: nat)
    requires z < Side && x < Side
    ensures z * Side + x < |GridVertices(objs, warp)|
    ensures GridVertices(objs, warp)[z * Side + x] ==
            Vertex(x - 12, WarpSum(objs, x - 12, z - 12, warp), z - 12)
  {
    RowMajor(z, x);
  }

  /** Lattice coordinates run from -12 to 13 on both axes: the grid is one
      column and one row wider on the positive side than on the negative one. */
  lemma LatticeIsOffCentre(objs: seq<ObjectData>, warp: (int, int, ObjectData) -> real)
    ensures forall k :: 0 <= k < |GridVertices(objs, warp)| ==>
              -12 <= GridVertices(objs, warp)[k].lx <= 13 &&
              -12 <= GridVertices(objs, warp)[k].lz <= 13
    ensures GridVertices(objs, warp)[0].lx == -12 && GridVertices(objs, warp)[0].lz == -12
    ensures GridVertices(objs, warp)[VertexCount - 1].lx == 13
    ensures GridVertices(objs, warp)[VertexCount - 1].lz == 13
  {
  }

  /** Every index names an existing vertex. */
  lemma IndicesInRange()
    ensures forall j :: 0 <= j < |GridIndices()| ==> GridIndices()[j] < VertexCount
  {
    forall j | 0 <= j < IndexCount
      ensures IndexAt(j) < VertexCount
    {
      var c := j / 4;
      assert c < GridSize * GridSize;
      assert c / GridSize < GridSize && c % GridSize < GridSize;
    }
  }

  /** Cell (z, x) contributes the segments (i, i+1), two neighbours in the
      same row, and (i, i+Side), the same column in the next row. */
  lemma CellSegments(z: nat, x: nat)
    requires z < GridSize && x < GridSize
    ensures var p := 4 * (z * GridSize + x);
            var ix := GridIndices();
            p + 3 < |ix| &&
            ix[p] == ix[p + 2] == z * Side + x &&
            ix[p + 1] / Side == z && ix[p + 1] % Side == x + 1 &&
            ix[p + 3] / Side == z + 1 && ix[p + 3] % Side == x
  {
    CellIndices(z, x, 0);
    CellIndices(z, x, 1);
    CellIndices(z, x, 2);
    CellIndices(z, x, 3);
    RowMajor(z, x + 1);
    assert z * Side + x + Side == (z + 1) * Side + x;
    RowMajor(z + 1, x);
  }
}
