# rust-raytrace geometry core in Dafny

This project models the geometry and data-layout core of a small OpenGL/SDL
demo written in Rust. It covers:

- the quad, cube and axes mesh builders;
- the interleaved vertex buffer a renderer fills for the GPU, and the
  attribute layout that reads it back;
- the scale, translation, rotation and model matrices;
- the physics state with its `move_` step;
- the bounce-and-clamp update of the 2D rectangles scene.

Floats are modelled as exact `real`s. Rust's `nalgebra` types become the
module `Algebra`: `Vec3`/`Vec4`, 3×3 and 4×4 matrices stored by columns,
and homogeneous coordinates. The only rotations with a concrete value are
the identity and the four quarter turns about x and y that the shapes use.
Every other rotation is an abstract matrix.

Modules follow the source files:

| module | file | form |
|---|---|---|
| `Algebra` | the `nalgebra` operations the core uses | pure |
| `Gfx` | `src/gfx/mod.rs` types | pure |
| `Render` | `src/gfx/render.rs` | `Vertices` is a method with nested loops; the matrices are functions |
| `Phys` | `src/physics.rs`, `src/physics/mod.rs` | `class Physics`; `Move` updates `pos` and `rot` in place |
| `RectangleShape` | `src/shapes/rectangle.rs` | `TranslateMesh` is a loop; `Vertices` is a function |
| `CubeShape` | `src/shapes/cube.rs` | methods that set `phys.rot` on fresh rectangles and concatenate meshes |
| `AxesShape` | `src/shapes/axes.rs` | the same, plus the colour function |
| `QuadObject` | `src/gfx/rectangle.rs` | pure |
| `BounceScene` | `src/main.rs` `render_scene` | an in-place loop over an `array<Rect>`; `Rect`'s colour is an RGBA `PixelColor` as SDL's is |

The source files come from different snapshots and do not compile together.
Each file is modelled as written:

- `render.rs`'s `mat_model` takes an `Object` with its own translation and
  rotation matrices, while the shapes pass a `Physics`. `Render.ModelMatrix`
  therefore takes the two matrices as parameters.
- The per-vertex colour functions are typed `fn(i32) -> [u8; 3]`, but the
  closures return float triples. They are modelled as `int -> Rgb` with real
  components.
- `axes.rs:35` assigns a vector to the rotation field. It is modelled as
  the rotation that vector stands for, a quarter turn about x with angle
  −π/2, as `cube.rs` writes it with `Rotation3::new`.
- `rectangle.rs:46` applies `to_homogeneous()` to the 4×4 model matrix.
  It is modelled as the 4×4 model matrix itself.

## Model

| member | source | states |
|---|---|---|
| Render.Vertices | src/gfx/render.rs:106-138 | the nested loop's buffer equals `Interleaved(mesh, color)`; the loop invariants tie `counter` to the points already written (3i + j) |
| Render.InterleavedLength | src/gfx/render.rs:115-134 | the buffer holds exactly 18 floats per triangle (6 per point, 3 points each), and it is empty iff the mesh is empty |
| Render.InterleavedLayout | src/gfx/render.rs:118-131 | for vertex k = 3i + j, floats 6k..6k+6 are point j of triangle i followed by `color(k)` |
| Render.PointRecordsLayout | src/gfx/render.rs:118-131 | within one triangle, the record of point k starts at 6k and carries the colour of the running index first + k |
| Render.InterleavedUsesIndicesBelow | src/gfx/render.rs:114-135 | the colour function is consulted only at indices 0 .. 3·len − 1: two colour functions that agree there give the same buffer |
| Render.AttributesReadVertices | src/gfx/render.rs:64-80 | the position attribute (offset 0, stride 6) reads each vertex's x, y, z and the colour attribute (offset 3, stride 6) reads its colour |
| Render.MatScaleIsDiagonal | src/gfx/render.rs:140-150 | `mat_scale` is diag(s, s, s, 1): entries 0, 5, 10 are s, entry 15 is 1, all others 0 |
| Render.ModelMatrixScalesColumns | src/gfx/render.rs:102-104 | for any translation and rotation matrices, `mat_model` is their product with its first three columns scaled by s and its fourth (the translation column) kept |
| Render.ModelMatrixMapsPoints | src/gfx/render.rs:102-104 | translation × rotation × scale maps p to rot(s·p) + pos |
| Render.ModelMatrixWithoutRotation | src/gfx/render.rs:102-104 | with the identity rotation the model matrix maps p to s·p + pos |
| Render.Transformation | src/gfx/render.rs:96-100 | the 16 floats read back, column-major, into the model matrix |
| Render.DrawnVertexCount | src/gfx/render.rs:88 | the fixed count of 6 vertices stays inside the buffer iff the mesh has at least 2 triangles |
| Render.BufferedVertexCount | src/gfx/render.rs:88 | the number of vertices the buffer really holds, 3·len, times the stride is the buffer length |
| Render.DrawCountMatchesOnlyQuads | src/gfx/render.rs:88 | the hard-coded draw count 6 equals the buffered vertex count iff the mesh has exactly 2 triangles |
| Phys.Physics.constructor | src/physics.rs:11-18 | `new` puts pos at (x, y, z), vel and ang at zero, rot at the identity, and the state satisfies `Valid`: rot is orthonormal, as a `Rotation3` is (the same as src/physics/mod.rs lines 13-20) |
| Phys.Physics.Move | src/physics.rs:21-25 | pos becomes pos + vel·t, rot becomes rot · step where step is the rotation about ang·t, vel and ang are kept, `move_(0)` changes nothing, and rot stays orthonormal (`Valid` is kept, the job `renormalize` does) (the same as src/physics/mod.rs lines 23-27) |
| Phys.AdvanceComposes | src/physics.rs:22 | with constant vel, moving by t1 and then t2 puts pos where one move by t1 + t2 does (also src/physics/mod.rs line 24) |
| Phys.AdvanceByZero | src/physics.rs:22 | a move by 0 leaves pos where it was |
| Phys.IdentityIsZeroRotation | src/physics.rs:15 | the identity is a rotation that fixes the zero vector, as `Rotation3::new(zeros)` is |
| Phys.TranslationMatrixLayout | src/physics.rs:45-55 | `mat_translation` is the identity except column-major entries 12, 13, 14, which are pos.x, pos.y, pos.z; it is the affine matrix of the identity and pos (also src/physics/mod.rs lines 47-57) |
| Phys.TranslationMatrix | src/physics.rs:45-55 | the column-major list of `mat_translation` is the affine matrix of the identity and pos |
| Phys.Physics.MatTranslation | src/physics.rs:45-55 | `mat_translation` of the current state is the affine matrix of the identity and pos, with pos.x, pos.y, pos.z at column-major entries 12, 13, 14 |
| Phys.RotationMatrix | src/physics.rs:57-59 | `Matrix4::from(rot)` is the affine matrix of rot with no translation |
| Phys.Physics.MatRotation | src/physics.rs:57-59 | `mat_rotation` of the current state is the affine matrix of rot with no translation |
| Phys.ModelMatrix | src/physics.rs:41-43 | translation × rotation is the affine matrix of rot and pos |
| Phys.ModelMatrixMapsPoints | src/physics.rs:41-43 | translation × rotation is the affine matrix (rot, pos) and maps p to rot(p) + pos (also src/physics/mod.rs lines 43-45) |
| Phys.Physics.MatModel | src/physics.rs:41-43 | `mat_model` of the current state is `mat_translation × mat_rotation`, which is the affine matrix of the current rot and pos |
| Phys.RotatedAxis | src/physics.rs:30-36 | a unit axis taken to homogeneous form, multiplied by the rotation matrix and read back is the rotated axis; the read-back never fails |
| Phys.Direction | src/physics.rs:27-39 | `direction` returns the rotation applied to the x, y and z unit vectors, which are the rotation's columns; for an orthonormal rotation the three are orthonormal (also src/physics/mod.rs lines 29-41) |
| Phys.DirectionOfIdentity | src/physics.rs:27-39 | under the identity rotation `direction` is the standard basis |
| Phys.Physics.CurrentDirection | src/physics.rs:27-39 | `direction` of a valid state is its rotation applied to the unit axes: three unit vectors, pairwise orthogonal |
| RectangleShape.QuadMesh | src/shapes/rectangle.rs:10-21 | the quad has 2 triangles; every point has z = 0, x = ±w/2 and y = ±h/2 |
| RectangleShape.QuadSharesDiagonal | src/shapes/rectangle.rs:12-19 | triangles (TL, TR, BR) and (TL, BL, BR) share the TL–BR diagonal and between them use all four corners |
| RectangleShape.New | src/shapes/rectangle.rs:9-31 | a fresh physics at (x, y, z) at rest and unrotated, renderer scale 1, the quad mesh, the colour function kept |
| RectangleShape.TranslateMesh | src/shapes/rectangle.rs:33-41 | the loop returns the triangle of the three points, in order, each multiplied by the matrix, or None (the unwrap's panic) when a product has w = 0 |
| RectangleShape.TransformTriangle | src/shapes/rectangle.rs:33-41 | a triangle comes back iff all three of its points come back from homogeneous form, and then corner j is the transformed point j |
| RectangleShape.TransformTriangleAffine | src/shapes/rectangle.rs:33-41 | under an affine matrix (rot, pos) no point is lost and every corner maps to rot(p) + pos |
| RectangleShape.TransformPointAffine | src/shapes/rectangle.rs:36-38 | one point through an affine matrix comes back as rot(p) + pos |
| RectangleShape.TransformTriangleCanFail | src/shapes/rectangle.rs:38 | a matrix whose bottom row is zero sends every point to w = 0, where the unwrap fails |
| RectangleShape.TransformMesh | src/shapes/rectangle.rs:45-48 | the mesh comes back iff every triangle does; then it has as many triangles, the i-th being the transformed (len − 1 − i)-th |
| RectangleShape.TransformMeshAffine | src/shapes/rectangle.rs:45-48 | mapping an affine matrix over a mesh and reversing gives as many triangles as the mesh, the i-th being the placed (len − 1 − i)-th |
| RectangleShape.Rectangle.Vertices | src/shapes/rectangle.rs:45-48 | `vertices()` returns as many triangles as the mesh, in reverse order, each placed by rot and then pos |
| RectangleShape.VerticesUseModelMatrix | src/shapes/rectangle.rs:46-47 | those triangles are exactly the mesh transformed by `phys.mat_model()` and reversed |
| RectangleShape.UnrotatedVerticesShift | src/shapes/rectangle.rs:46-47 | with the identity rotation, `vertices()` shifts every point by `phys.pos` |
| RectangleShape.PlacedWithoutRotation | src/shapes/rectangle.rs:46-47 | placing a triangle by the identity and pos adds pos to each corner |
| RectangleShape.PlacedQuadPoint | src/shapes/rectangle.rs:45-48 | each vertex of a placed quad is the matching quad corner rotated and moved |
| RectangleShape.VerticesArePlacedQuad | src/shapes/rectangle.rs:45-48 | the vertices of a rectangle on a w × h quad are that quad placed by the rectangle's rotation and position |
| RectangleShape.NewVertices | src/shapes/cube.rs:10-17 | `rectangle::new(x, y, z, w, h)` followed by `vertices()` is the quad placed at (x, y, z) unrotated |
| RectangleShape.NewTurnedVertices | src/shapes/cube.rs:28-36 | the same with `phys.rot` set before `vertices()`: the quad rotated by that rotation, then placed |
| Algebra.ApplyQuarterTurns | src/shapes/cube.rs:36-66 | the four quarter turns about ±x and ±y map (x, y, z) to (x, −z, y), (x, z, −y), (z, y, −x) and (−z, y, x) |
| Algebra.QuarterTurnsAreRotations | src/shapes/cube.rs:36-66 | each of the four quarter turns is orthonormal with determinant 1 |
| Algebra.QuarterTurnsFixTheirAxes | src/shapes/cube.rs:36-66 | each quarter turn fixes the axis it turns about |
| Algebra.OrthonormalKeepsDot | src/physics.rs:23-24 | an orthonormal matrix keeps dot products: lengths and right angles survive it |
| Algebra.OrthonormalCompose | src/physics.rs:23-24 | the product of two orthonormal matrices is orthonormal, so `rot *= step` keeps rot a rotation |
| Algebra.HomogeneousRoundTrip | src/shapes/rectangle.rs:36-38 | a point taken to homogeneous form and back is unchanged |
| Algebra.ColumnMajorRoundTrip | src/physics.rs:49-54 | a matrix built from a 16-entry column-major list reads back as that list |
| CubeShape.CubeMesh | src/shapes/cube.rs:69-74 | front, back, left, right, top and bottom faces concatenated: 12 triangles |
| CubeShape.FrontAndBackFaces | src/shapes/cube.rs:10-26 | front and back are unrotated w × h quads whose vertices lie at z = d/2 and z = −d/2, on corners of the box |
| CubeShape.LeftAndRightFaces | src/shapes/cube.rs:28-46 | left and right are d × h quads turned ±π/2 about y whose vertices lie at x = −w/2 and x = w/2, on corners of the box |
| CubeShape.TopAndBottomFaces | src/shapes/cube.rs:48-66 | top and bottom are w × d quads turned ±π/2 about x whose vertices lie at y = h/2 and y = −h/2, on corners of the box |
| CubeShape.CubeVerticesOnFaces | src/shapes/cube.rs:69-74 | every one of the 36 vertices is a corner of the w × h × d box, and triangles 2f and 2f + 1 lie on face f's plane |
| CubeShape.CubeInsideBox | src/shapes/cube.rs:10-74 | with non-negative sides every vertex lies in [−w/2, w/2] × [−h/2, h/2] × [−d/2, d/2] |
| CubeShape.FrontAndBackVertices | src/shapes/cube.rs:10-26 | the two rectangles built at z = ±d/2 give the front face's triangles followed by the back face's |
| CubeShape.LeftAndRightVertices | src/shapes/cube.rs:28-46 | the two rectangles built at x = ∓w/2 and turned about y give the left face's triangles followed by the right face's |
| CubeShape.TopAndBottomVertices | src/shapes/cube.rs:48-66 | the two rectangles built at y = ±h/2 and turned about x give the top face's triangles followed by the bottom face's |
| CubeShape.TurnedPair | src/shapes/cube.rs:28-66 | two rectangles built at p and q and turned by orthonormal r and s give the quad placed by (r, p) followed by the quad placed by (s, q) |
| CubeShape.CubeVertices | src/shapes/cube.rs:69-74 | the six faces' vertices extended one after another are the cube mesh |
| CubeShape.CubeMeshFaces | src/shapes/cube.rs:69-74 | triangle i of the cube mesh is triangle i mod 2 of face i / 2 |
| CubeShape.New | src/shapes/cube.rs:9-85 | the cube keeps its id, gets a fresh physics at (x, y, z) at rest and unrotated, renderer scale 1, the 12-triangle cube mesh and the same colour function |
| CubeShape.CubeDrawsOneFace | src/gfx/render.rs:88 | a cube buffers 36 vertices but the draw call asks for 6 |
| AxesShape.AxesMesh | src/shapes/axes.rs:37-39 | the x, y and z bars' vertices concatenated: 6 triangles, 18 vertices |
| AxesShape.XBarOnXAxis | src/shapes/axes.rs:9-16 | the 1000 × 0.2 x bar at the origin has its vertices at x = ±l/2, y = ±t/2, z = 0 |
| AxesShape.YBarOnYAxis | src/shapes/axes.rs:18-25 | the 0.2 × 1000 y bar at the origin has its vertices at x = ±t/2, y = ±l/2, z = 0 |
| AxesShape.ZBarOnZAxis | src/shapes/axes.rs:27-35 | the z bar, the y bar's quad turned −π/2 about x, has its vertices at x = ±t/2, y = 0, z = ±l/2 |
| AxesShape.AxesVertexOnBar | src/shapes/axes.rs:37-39 | vertex k of the axes mesh lies on bar k / 6 |
| AxesShape.AxesColorBands | src/shapes/axes.rs:46-54 | with i32 division the colour is red iff −6 < i < 6, green iff 6 ≤ abs(i) < 12, blue iff abs(i) ≥ 12 |
| AxesShape.AxesColorOneHot | src/shapes/axes.rs:47-53 | every returned colour has one component 1 and the others 0 |
| AxesShape.AxesColorFollowsBars | src/shapes/axes.rs:46-54 | for the 18 vertex indices, vertex k gets the colour of bar k / 6: red for x, green for y, blue for z |
| AxesShape.AxesBuffer | src/shapes/axes.rs:41-55 | in the axes' vertex buffer, vertex k's record is a point on bar k / 6 followed by that bar's colour |
| AxesShape.TruncDiv | src/shapes/axes.rs:47-49 | i32 division truncates toward zero: the quotient's magnitude is abs(n) / d and its sign follows n |
| AxesShape.AxesColor | src/shapes/axes.rs:46-54 | the colour function only ever returns red, green or blue |
| AxesShape.BarsVertices | src/shapes/axes.rs:9-39 | the three rectangles built as the source builds them, the last one turned, give the axes mesh |
| AxesShape.New | src/shapes/axes.rs:41-56 | a fresh physics at the origin at rest and unrotated, renderer scale 1, the axes mesh and the banded colour function |
| QuadObject.ObjectMeshIsShapesQuad | src/gfx/rectangle.rs:4-15 | this quad is corner for corner the shapes rectangle's quad: 2 triangles, z = 0, x = ±w/2, y = ±h/2 |
| QuadObject.NewObject | src/gfx/rectangle.rs:3-25 | position (x, y, 0), zero velocity and rotation, scale 1, the shapes quad as mesh, the colour unchanged |
| QuadObject.ObjectMesh | src/gfx/rectangle.rs:4-15 | the quad written corner by corner has 2 triangles, every point at z = 0, x = ±w/2 and y = ±h/2 |
| BounceScene.BounceAxisBounds | src/main.rs:59-83 | after the update the position is at least MARGIN, the far edge is within the far wall whenever the size fits between the margins, and the speed is kept |
| BounceScene.BounceAxisFree | src/main.rs:59-60 | when no wall test fires the position moves by the velocity and the velocity is kept |
| BounceScene.BounceAxisFarWall | src/main.rs:62-65 | reaching the right (or bottom) wall puts the position at WIDTH − MARGIN − width (or HEIGHT − MARGIN − height) and negates the velocity |
| BounceScene.BounceAxisNearWall | src/main.rs:67-70 | reaching the left (or top) margin puts the position on MARGIN and negates the velocity |
| BounceScene.BounceAxis | src/main.rs:59-70 | one axis of the update never leaves the position before MARGIN and keeps the speed |
| BounceScene.Bounced | src/main.rs:58-83 | the bounced rectangle keeps its size and colour and is at least MARGIN from the left and top |
| BounceScene.BouncedInsideMargins | src/main.rs:58-83 | a bounced rectangle keeps its size and colour and its speeds, is at least MARGIN from the left and top, and is inside the right and bottom margins whenever it fits |
| BounceScene.RenderScene | src/main.rs:53-83 | every rectangle of the array is replaced by its bounced self, in place; `delta` plays no part |

## Left out

- The GL calls in `render` (VAO and VBO creation, uploads, shader attribute lookup, `DrawArrays`) are foreign calls. Only their constants are modelled: stride, offsets and the draw count.
- `src/gfx/shader.rs`, `src/gfx/camera.rs`, `src/input.rs`, `src/gfx/object.rs` formatting and `src/shapes/mod.rs` wrap foreign libraries or only format text. They are not part of this model.
- `main.rs` beyond the update loop is not modelled: SDL setup, random rectangles, the frame loop and the `canvas.box_` draw call with its casts to i16.
- Phys.Physics.Move: `Rotation3::new(ang * t)` (the exponential map) is foreign float code. The step rotation is a parameter, required to be a rotation that fixes `ang * t` and that is the identity when `ang * t` is zero. `renormalize` is the identity on exact rotations: `Physics.Valid` says rot is orthonormal, and `Algebra.OrthonormalCompose` proves that `Move` keeps it so without any correction.
- f32 rounding is not modelled: every quantity is an exact real, so the quarter turns built from `FRAC_PI_2` are exact.
- Render.Vertices: the i32 `counter` can overflow past 2^31 − 1 vertices; indices are unbounded integers here.
- Render.MatScale, Render.ModelMatrix and Render.Interleaved carry no contract of their own. Their properties are lemmas: `Render.MatScaleIsDiagonal`, `Render.ModelMatrixScalesColumns`, `Render.InterleavedLength` and `Render.InterleavedLayout`. As contracts, they would hold at every use of these functions and would make unrelated proofs too costly for the solver.
- `vertices()` in `render.rs` is given a mesh and a colour function. The `&v[0]` pointer the GL upload takes of an empty buffer is part of the GL calls left out.
- RectangleShape.Rectangle.Vertices: it is defined with the affine matrix of rot and pos. `RectangleShape.VerticesUseModelMatrix` proves that this matrix is `mat_model()`.
- `src/gfx/mod.rs`'s unused `mat_translation` is a diagonal matrix, not a translation. It is not modelled.
- The colour closures of the three bars in `axes.rs` are passed to `rectangle::new`, but only the bars' vertices are used. They appear in `AxesShape.BarsVertices` as constant functions and nothing is proved about them.

## Findings

| source | as written | input that shows it | evidently intended | confidence | as-written member | corrected member |
|---|---|---|---|---|---|---|
| src/gfx/render.rs:88 | `DrawArrays(TRIANGLES, 0, 6)` draws 6 vertices whatever the mesh | a cube: its buffer holds 36 vertices (`CubeShape.CubeDrawsOneFace`), so only its first face is drawn; the axes hold 18, so only the x bar is drawn | draw every buffered vertex, 3 · mesh length | not executed; high | Render.DrawCountMatchesOnlyQuads | Render.BufferedVertexCount |
