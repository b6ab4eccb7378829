# Black-hole viewer: camera, grid mesh and kernel marshalling in Dafny

The program renders gravitational lensing around a black hole with an OpenGL
compute kernel. Beneath its GPU, window and shader plumbing sit four pieces of
sequential logic, and this project models them and proves their properties:

- **The orbit camera** (`OrbitCamera`, camera.dfy). The `Camera` struct's
  input handlers (mouse move, mouse button, scroll, key) update azimuth,
  elevation, radius, the `dragging`/`panning`/`moving` flags and the drag
  anchor. The global `g_gravity` switch is flipped by the G key and held by
  the right mouse button. The class `Camera` updates its fields in place.
  Each handler promises that the new state is a pure transition function
  (`MouseMoved`, `ButtonPressed`, `Scrolled`, ...) of the old state. The
  properties are proved about those transitions: the clamps, the frozen
  angles while idle, the dead pan branch, and the stale `moving` flag after
  a button event. They are also proved over whole event sequences from the
  initial camera.
- **The curvature-grid mesh** (`GridMesh`, grid.dfy). These are the loop
  nests of `Engine::generateGrid`. A 26 x 26 lattice is built in row-major
  order, with lattice coordinates -12..13. Each vertex's height is the
  in-order sum of one term per body. The index list has four indices per
  cell: the segment to the right neighbour and the segment to the neighbour
  in the next row.
- **Object-block packing** (`ObjectPacking`, objects.dfy). This is
  `Engine::uploadObjectsUBO`. At most 16 bodies go into three fixed 16-slot
  arrays, in order. The count is `min(n, 16)`. Each upload sends a freshly
  declared, uninitialised block, so the slots from the count on are
  unspecified.
- **Dispatch sizing** (`Renderer`, engine.dfy). This is
  `Engine::dispatchCompute`. It picks the image resolution from the
  camera's motion flag and computes work-group counts as a ceiling division
  by 16. The `Engine` class records what the grid and dispatch steps leave
  behind.

Floating-point literals of the source are used at the exact values that
single precision gives them. For example, `0.01f` is 5368709/2^29,
`1e12f` is 999999995904, and `PI - 0.01f` is 3283713/2^20. The arithmetic on
them is exact real arithmetic.

### Behaviour worth knowing (the model follows the code)

- Elevation is clamped into the closed interval [0.01f, PI - 0.01f], not an
  open one.
- `moving`, commented "For compute shader optimization" (main.cpp:51), is
  not always equal to `dragging`. `processMouseButton` does not call
  `update`, so after a button event `moving` keeps its old value until the
  next move or scroll (`StaleMovingAfterPress`, `MovingAfterUpdate`).
- The resolution choice in `dispatchCompute` (main.cpp:533-534) does not
  lower the resolution while the camera moves. Both branches give 200 x 150,
  because `COMPUTE_WIDTH`/`COMPUTE_HEIGHT` are 200/150 (main.cpp:208-209;
  `TargetWidth`, `TargetHeight`, `ResolutionIgnoresMotion`).
- The output image is reallocated on every dispatch, although the comment
  at main.cpp:536 says "reallocate the texture if needed": the
  `glTexImage2D` call at main.cpp:538 is unconditional.
- The lattice is not centred on the origin. Columns and rows run from -12
  to +13, because `gridSize / 2` is an integer division
  (`LatticeIsOffCentre`).
- The right mouse button also drives the gravity switch: press turns it on
  and release turns it off.

## Model

| member | source | states |
|---|---|---|
| Clamping.Clamp | main.cpp:84 | result lies in [lo, hi]; equals the input inside the interval, lo below it, hi above it (std::clamp / glm::clamp) |
| OrbitCamera.Initial | main.cpp:39-52 | the constructed camera satisfies the reachable-state invariant and has all flags off |
| OrbitCamera.Updated | main.cpp:64-67 | `moving` becomes `dragging || panning` and no other field changes |
| OrbitCamera.MouseMoved | main.cpp:69-90 | anchor set to (x, y); `moving` refreshed; when dragging without panning, azimuth += dx*orbitSpeed and elevation is the clamp of elevation - dy*orbitSpeed, so it lies in [0.01f, PI-0.01f]; otherwise azimuth, elevation and radius are unchanged |
| OrbitCamera.ButtonPressed | main.cpp:92-108 | left/middle press sets dragging, clears panning and captures the cursor; release clears both flags; any other input changes nothing; `moving` is never touched |
| OrbitCamera.GravityAfterButton | main.cpp:109-119 | right press turns gravity on and right release turns it off, whatever it was; every other button/action leaves it |
| OrbitCamera.Scrolled | main.cpp:122-127 | radius becomes the clamp of radius - yoffset*zoomSpeed into [minRadius, maxRadius]; `moving` refreshed; azimuth, elevation, flags and anchor unchanged |
| OrbitCamera.GravityAfterKey | main.cpp:129-136 | gravity flips exactly when the key is G and the action is a press |
| OrbitCamera.GravityTogglesTwice | main.cpp:131-135 | two G presses restore the gravity switch |
| OrbitCamera.ApplyKeepsInv | main.cpp:69-136 | every handler keeps the invariant: panning off, elevation and radius inside their clamps |
| OrbitCamera.RunKeepsInv | main.cpp:74-107 | from an invariant camera, any event sequence keeps the invariant, so `dragging && panning` never holds and the pan branch is dead |
| OrbitCamera.MovingAfterUpdate | main.cpp:64-127 | after any event sequence ending in a move or a scroll, `moving == dragging` |
| OrbitCamera.StaleMovingAfterPress | main.cpp:92-102 | a left press from the initial camera leaves it dragging with `moving` still false |
| OrbitCamera.KeysToggleGravity | main.cpp:129-136 | key events never change the camera; gravity ends up flipped iff G was pressed an odd number of times |
| OrbitCamera.Globals.constructor | main.cpp:33 | gravity starts off |
| OrbitCamera.Camera.constructor | main.cpp:35-52 | the new camera's state is `Initial()` |
| OrbitCamera.Camera.Update | main.cpp:64-67 | new state is `Updated` of the old one |
| OrbitCamera.Camera.ProcessMouseMove | main.cpp:69-90 | new state is `MouseMoved` of the old one |
| OrbitCamera.Camera.ProcessMouseButton | main.cpp:92-120 | new camera state is `ButtonPressed` of the old one and the gravity switch is `GravityAfterButton` of the old one |
| OrbitCamera.Camera.ProcessScroll | main.cpp:122-127 | new state is `Scrolled` of the old one |
| OrbitCamera.Camera.ProcessKey | main.cpp:129-136 | gravity becomes `GravityAfterKey` of the old value; the camera is not modified |
| OrbitCamera.Camera.PositionElevation | main.cpp:55-57 | the elevation used for the position lies in [0.01f, PI-0.01f] and equals the stored elevation on every invariant camera |
| GridMesh.VertexHeight | main.cpp:282-302 | the accumulated height is the in-order sum of the per-body terms |
| GridMesh.BuildMesh | main.cpp:267-319 | the vertex list is exactly the row-major lattice `GridVertices` and the index list exactly `GridIndices` |
| GridMesh.MeshSizes | main.cpp:275-319 | 676 vertices and 2500 indices |
| GridMesh.VertexAtLatticePoint | main.cpp:275-306 | list position z*26+x holds lattice coordinates (x-12, z-12) and the summed height at that point |
| GridMesh.LatticeIsOffCentre | main.cpp:279-280 | all lattice coordinates lie in [-12, 13]; the first vertex is at (-12, -12) and the last at (13, 13) |
| GridMesh.IndicesInRange | main.cpp:309-319 | every index is below 676 |
| GridMesh.CellSegments | main.cpp:313-317 | cell (z, x) emits i, i+1, i, i+26 with i = z*26+x; i+1 is in the same row, next column; i+26 is in the next row, same column |
| ObjectPacking.PackedCount | main.cpp:605-606 | count is at most 16 and at most n, and is n or 16 |
| ObjectPacking.Packed | main.cpp:605-613 | the packed bodies are the first `PackedCount` bodies, in order |
| ObjectPacking.PackedExamples | main.cpp:605-613 | 20 bodies pack as the first 16; 3 bodies pack as all 3 |
| ObjectPacking.ObjectBlock.constructor | main.cpp:254-259 | a valid block of three fresh, distinct 16-slot arrays, contents unspecified |
| ObjectPacking.ObjectBlock.Pack | main.cpp:594-617 | `numObjects == min(n, 16)`; each upload replaces the whole block; slot i < count holds body i's posRadius, colour and mass; slots from count on are unspecified |
| Renderer.TargetWidth | main.cpp:533 | the width asked for is `COMPUTE_WIDTH` (200) whatever the motion flag |
| Renderer.TargetHeight | main.cpp:534 | the height asked for is `COMPUTE_HEIGHT` (150) whatever the motion flag |
| Renderer.GroupCount | main.cpp:550-552 | the group count is the ceiling of dim / 16 |
| Renderer.GroupCountIsLeast | main.cpp:550-552 | any count of 16-wide groups covering dim is at least `GroupCount(dim)` |
| Renderer.ResolutionIgnoresMotion | main.cpp:533-534 | the moving and static branches both give 200 x 150 |
| Renderer.DispatchIs13By10 | main.cpp:550-553 | every dispatch is 13 x 10 groups |
| Renderer.Engine.constructor | main.cpp:204-664 | no grid yet and index count 0 (main.cpp:204); object block allocated with unspecified contents (main.cpp:254-259); image at the compute resolution, allocated by `QuadVAO` (main.cpp:262, main.cpp:664) |
| Renderer.Engine.GenerateGrid | main.cpp:267-343 | the grid buffers hold `GridVertices` and `GridIndices`, and `gridIndexCount` is 2500 |
| Renderer.Engine.DispatchCompute | main.cpp:530-557 | the image size follows the motion flag; the returned group counts are `GroupCount` of it; the object block is packed as by `Pack`; the grid is untouched |

## Left out

- All OpenGL/GLFW calls: context and window creation, buffer and texture allocation and binding, draw calls, the memory barrier. These are library side effects. GPU buffers are represented only by what they hold.
- Shader loading, compiling and linking, and file reads (main.cpp:375-528). These are I/O with fatal exits.
- The main loop, frame timing, FPS printing, callback registration, and the console message `processKey` prints. Callbacks are represented by the `Event` sequence that `Run` folds.
- The gravity integrator (main.cpp:734-758). It is vector floating-point arithmetic.
- The Schwarzschild height term of `generateGrid` (main.cpp:287-301). It uses square roots of doubles, so each body's term is the uninterpreted `warp` parameter, and only its in-order summation is modelled. Its two branches do not agree at `dist == r_s`, and no continuity is claimed.
- World coordinates of grid vertices. The model keeps integer lattice coordinates, and the single-precision product by the spacing `1e10f` is not modelled.
- `Camera::position`'s trigonometry (main.cpp:59-61). Only the elevation it clamps is modelled. The camera basis and `uploadCameraUBO` (main.cpp:559-592) are left out too, including the `moving` field it sends, which is `dragging || panning`.
- `uploadDiskUBO` (main.cpp:619-631), `BlackHole` and its `Intercept` (main.cpp:141-165). These are double-precision geometry.
- The byte layout and padding of the uniform-buffer structs. They depend on the C++ ABI and the GPU layout rules.
- Floating-point rounding of the grid heights. `generateGrid` accumulates each vertex height in `float` (main.cpp:296, main.cpp:300), but `WarpSum` adds the per-body terms in exact real arithmetic. The order of the terms is kept, but the rounding it would affect is not modelled.
- Floating-point rounding of the camera updates. `azimuth`, `elevation` and `radius` are updated in exact real arithmetic, so overflow, infinities and NaN are not modelled, and neither is the conversion of the double cursor delta to float.
- Renderer.GroupCount: states the ceiling of the exact quotient for every dimension, not of the single-precision quotient. The two agree for the 200 and 150 actually dispatched.
- The unused `mods` and `scancode` arguments, and `panSpeed`, which nothing reads. They are accepted or omitted and have no effect.
