/** The parts of `Engine` that are sequential logic rather than GPU calls:
    what `generateGrid` leaves behind, and how `dispatchCompute` sizes the
    output image and the compute grid and fills the object block.

    GPU buffers are represented by what they end up holding: the grid vertex
    and element buffers by the lists uploaded into them, the output image by
    its size, the object uniform buffer by an `ObjectBlock`. */
module Renderer {
  import opened ObjectPacking
  import opened GridMesh
  import OrbitCamera

  /** `COMPUTE_WIDTH`, `COMPUTE_HEIGHT`: the compute resolution. */
  const ComputeWidth: nat := 200
  const ComputeHeight: nat := 150
  /** The kernel's work-group edge, `workGroupSize`. */
  const WorkGroupSize: nat := 16

  /** The image width `dispatchCompute` asks for: the static branch's
      literal 200 equals `COMPUTE_WIDTH`, so motion makes no difference. */
  function TargetWidth(moving: bool): (w: nat)
    ensures w == ComputeWidth
  {
    if moving then ComputeWidth else 200
  }

  /** The image height `dispatchCompute` asks for: the static branch's
      literal 150 equals `COMPUTE_HEIGHT`, so motion makes no difference. */
  function TargetHeight(moving: bool): (h: nat)
    ensures h == ComputeHeight
  {
    if moving then ComputeHeight else 150
  }

  /** `ceil(dim / 16.0f)`: the fewest work groups of 16 that cover `dim`
      pixels. For the dimensions used the single-precision quotient is
      exact, so this is the ceiling of the exact quotient. */
  function GroupCount(dim: nat): (g: nat)
    ensures (g as real) >= (dim as real) / (WorkGroupSize as real)
    ensures (g as real) - 1.0 < (dim as real) / (WorkGroupSize as real)
  {
    (dim + WorkGroupSize - 1) / WorkGroupSize
  }

  /** Fewer groups than `GroupCount` leave pixels uncovered. */
  lemma GroupCountIsLeast(dim: nat, h: nat)
    requires h * WorkGroupSize >= dim
    ensures h >= GroupCount(dim)
  {
  }

  /** The moving and the static branch ask for the same 200 x 150 image:
      the reduced resolution while the camera moves never happens. */
  lemma ResolutionIgnoresMotion()
    ensures TargetWidth(true) == TargetWidth(false) == 200
    ensures TargetHeight(true) == TargetHeight(false) == 150
  {
  }

  /** Every dispatch is 13 x 10 work groups. */
  lemma DispatchIs13By10(moving: bool)
    ensures GroupCount(TargetWidth(moving)) == 13
    ensures GroupCount(TargetHeight(moving)) == 10
  {
  }

  class Engine {
    /** Contents of the grid vertex buffer. */
    var gridVertices: seq<Vertex>
    /** Contents of the grid element buffer. */
    var gridIndices: seq<nat>
    var gridIndexCount: int
    /** Size of the image the kernel writes. */
    var textureWidth: nat
    var textureHeight: nat
    /** Contents of the object uniform buffer. */
    const objectsUBO: ObjectBlock

    ghost predicate Valid()
      reads this, objectsUBO
    {
      objectsUBO.Valid()
    }

    /** The state after start-up: no grid yet, an image at the compute
        resolution, an object buffer allocated with unspecified contents. */
    constructor ()
      ensures Valid() && fresh(objectsUBO)
      ensures fresh(objectsUBO.posRadius) && fresh(objectsUBO.color) && fresh(objectsUBO.mass)
      ensures gridVertices == [] && gridIndices == [] && gridIndexCount == 0
      ensures textureWidth == ComputeWidth && textureHeight == ComputeHeight
    {
      gridVertices, gridIndices, gridIndexCount := [], [], 0;
      textureWidth, textureHeight := ComputeWidth, ComputeHeight;
      objectsUBO := new ObjectBlock();
    }

    /** `generateGrid`: rebuild the mesh for the current bodies and record
        its index count. */
    method GenerateGrid(objs: seq<ObjectData>, warp: (int, int, ObjectData) -> real)
      modifies this
      ensures gridVertices == GridVertices(objs, warp)
      ensures gridIndices == GridIndices()
      ensures gridIndexCount == |gridIndices| == 4 * GridSize * GridSize
      ensures textureWidth == old(textureWidth) && textureHeight == old(textureHeight)
    {
      var vertices, indices := BuildMesh(objs, warp);
      gridVertices := vertices;
      gridIndices := indices;
      gridIndexCount := |indices|;
    }

    /** `dispatchCompute`: size the image from the camera's motion flag,
        upload the bodies, and return the work-group counts dispatched.
        The image is reallocated on every call. */
    method DispatchCompute(cam: OrbitCamera.Camera, objs: seq<ObjectData>) returns (groupsX: nat, groupsY: nat)
      modifies this, objectsUBO
      ensures Valid()
      ensures textureWidth == TargetWidth(cam.moving) && textureHeight == TargetHeight(cam.moving)
      ensures groupsX == GroupCount(textureWidth) && groupsY == GroupCount(textureHeight)
      ensures objectsUBO.numObjects == PackedCount(|objs|)
      ensures forall i :: 0 <= i < objectsUBO.numObjects ==>
                objectsUBO.posRadius[i] == Packed(objs)[i].posRadius &&
                objectsUBO.color[i] == Packed(objs)[i].color &&
                objectsUBO.mass[i] == Packed(objs)[i].mass
      ensures gridVertices == old(gridVertices) && gridIndices == old(gridIndices)
      ensures gridIndexCount == old(gridIndexCount)
    {
      var cw := TargetWidth(cam.moving);
      var ch := TargetHeight(cam.moving);
      textureWidth, textureHeight := cw, ch;
      objectsUBO.Pack(objs);
      groupsX := GroupCount(cw);
      groupsY := GroupCount(ch);
    }
  }
}
