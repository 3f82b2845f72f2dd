# terrain-generation: a verified model of the terrain core

This project models, in Dafny, the core of the `terrain-generation` renderer.

- **Noise field.** A 32-bit multiply/xor/rotate hash picks a gradient direction for every lattice point (`randomGradient`). `dotGridGradient` takes the gradient's dot product with the offset to the sample point. `getPerlinNoise` blends the four corner values bilinearly. The code picks the corners by truncation toward zero, which misplaces them for negative coordinates (see Findings). The cells sample this noise as written. The corrected noise, with corners at the floor, is modelled beside it; the two agree for non-negative coordinates.
- **Scalar helpers.** `randf`, `absf`, `clampf` and `interpolate` of the `math` namespace.
- **Terrain cell.** The `TerrainCell` constructor runs two nested loops.
  - The first fills an 11 x 11 lattice of heights `f * f * 52 - 2`, where `f` is the noise at world lattice index `x * 10 + i`, `z * 10 + j`, divided by 18.45231.
  - The second builds a 4800-float vertex buffer. Each of the 10 x 10 quads gives two triangles, and the 48 floats of position, normal and texture coordinate are copied in at a running index `ti`. The normals are cross products of the quad's edge vectors, flipped when they point down.
  - The buffer then becomes a `Mesh` of 600 vertices.
- **Mesh.** The `Mesh` constructor accumulates the attribute layout: the element total, one pointer call and one enable call per attribute, and the byte offsets. It uploads `byteOffset * numVertices` bytes. `render()` draws the stored vertex count as triangles.
- **Terrain cache and render pass.** `Terrain::render` finds the focus cell by truncating `x / 10` and `z / 10`. It visits the 21 x 21 window around that cell, cx outer and cz inner. For each visited cell it looks the cell up in a map keyed by `cx * 32768 + cz`, generates and inserts the cell on a miss, and draws it translated to `(cx * 10, 0, cz * 10)`. Entries are never evicted.

Floats are modelled as reals and unsigned words as `bv32`. The graphics calls are recorded as values: a layout trace for the mesh and a draw log for the terrain. Cosine and sine are a parameter `trig` of the noise, and the value `rand()` returned is a parameter of `RandF`.

The modules follow the source files:

| module | source |
|---|---|
| `MathUtil` | `src/Math.h` |
| `Noise` | `src/Math.cpp` |
| `MeshLayout` | `src/Mesh.h` and `src/Mesh.cpp` |
| `TerrainConfig` | the macros of `src/Terrain.h` |
| `CellSynthesis` | the loops of the `TerrainCell` constructor in `src/Terrain.cpp` |
| `RenderPass` | `Terrain::render` in `src/Terrain.cpp`, stated on values |
| `Terrain` | the classes `TerrainCell` and `Terrain` |

How each module is modelled:

- `CellSynthesis` and `MeshLayout` keep the source's loops as methods with loop invariants. They are proved against specification functions: `Slot`/`Buffer` give the intended vertex buffer, and `AttribCalls`/`TotalElements`/`VertexBytes` give the layout.
- `Terrain` keeps the cache as a `map` field that the methods of class `Terrain` update in place.
- `RenderPass` gives the pass's state after each visit as a predicate on values. The loops of `Terrain.Render` keep that predicate as their invariant.

## Model

| member | source | states |
|---|---|---|
| MathUtil.RandF | src/Math.h:8-11 | the sample lies in [a, b) when a < b and in (b, a] when b < a; it is a when a == b or when rand() is a multiple of 10000 |
| MathUtil.SampleBounds | src/Math.h:9-10 | for a weight in [0, 1), `k * (b - a) + a` lies between a (included) and b (excluded), and is a at weight 0 |
| MathUtil.Absf | src/Math.h:13-15 | the result is non-negative and is f or -f; it is f exactly when f >= 0 |
| MathUtil.Clampf | src/Math.h:17-19 | the result is in [a, b] when a <= b; it is f inside the range, a below it, and b above it (even when a > b, as long as f >= a) |
| MathUtil.ClampfIdempotent | src/Math.h:17-19 | clamping a clamped value again changes nothing |
| MathUtil.Interpolate | src/Math.h:21-23 | weight 0 gives a0 and weight 1 gives a1; equal ends give that end; a weight in [0, 1] stays between the ends; a negative weight falls beyond a0, away from a1 |
| MathUtil.InterpolateBounds | src/Math.h:21-23 | the facts of Interpolate about the value `(a1 - a0) * w + a0` |
| Noise.Rotate | src/Math.cpp:11 | the or of the shifts left and right by 16 on a 32-bit word is the rotation by 16 bits |
| Noise.RotateInvolution | src/Math.cpp:11-13 | rotating twice by half the word gives the word back |
| Noise.MixOfOrigin | src/Math.cpp:9-14 | the updates send the bit patterns (0, 0) to (0, 0), so lattice point (0, 0) hashes to 0 |
| Noise.ToUnsigned | src/Math.cpp:9 | `unsigned a = ix`: the two's-complement bit pattern of the int, its value modulo 2^32 (no contract; used by Mix) |
| Noise.Mix | src/Math.cpp:9-14 | the five unsigned updates of `a` and `b`, each modulo 2^32, with the multipliers 3284157443, 1911520717 and 2048419325 and the 16-bit rotations (no contract; MixOfOrigin states a property of it) |
| Noise.GradientHash | src/Math.cpp:9-14 | the final `a` of those updates for the bit patterns of ix and iy (no contract) |
| Noise.RandomGradient | src/Math.cpp:5-18 | `(cos, sin)` of the hashed angle, the seed parameter unread (no contract; GradientSeedIndependent states a property of it) |
| Noise.GradientSeedIndependent | src/Math.cpp:5-17 | the seed parameter never changes the gradient |
| Noise.HashGradient | src/Math.cpp:21 | the gradient field `randomGradient` gives every lattice point for one seed (no contract) |
| Noise.TopBitIsHalfTurn | src/Math.cpp:15 | `~(~0u >> 1)` is 2^31 |
| Noise.Angle | src/Math.cpp:15 | the angle lies in [0, 2 * 3.14159265), and hash 0 gives angle 0 |
| Noise.Trunc | src/Math.cpp:30-32 | `static_cast<int>` rounds toward zero: below or at x for x >= 0, above or at x for x < 0, less than 1 away |
| Noise.TruncOfInt | src/Math.cpp:30-32 | truncation keeps integers |
| Noise.DotGridGradient | src/Math.cpp:20-27 | the dot product with the offset is 0 at the gradient's own lattice point |
| Noise.Blend | src/Math.cpp:35-49 | the two interpolations along x and the one along y of the four corner dot products; at each of the four corners the blend is that corner's own dot product |
| Noise.PerlinNoise | src/Math.cpp:29-50 | getPerlinNoise as written: the blend with lower corners `static_cast<int>(x)`, `static_cast<int>(y)` (no contract; NoiseZeroAtLatticePoints and TruncNoiseLeavesCorners state its properties) |
| Noise.GetPerlinNoise | src/Math.cpp:29-50 | getPerlinNoise(x, y, seed) as written, with the gradients of randomGradient (no contract; NoiseSeedIndependent states a property of it) |
| Noise.PerlinNoiseFloor | src/Math.cpp:29-50 | the corrected noise: the same blend with the lower corners at the floor (no contract; FloorNoiseWithinCorners states its property) |
| Noise.GetPerlinNoiseFloor | src/Math.cpp:29-50 | the corrected noise with the gradients of randomGradient (no contract) |
| Noise.NoiseSeedIndependent | src/Math.cpp:29-50 | the value of getPerlinNoise as written, and of the corrected noise, does not depend on the seed |
| Noise.BlendSeedIndependent | src/Math.cpp:20-49 | the blend of the gradients of randomGradient around any corner is the same for two seeds |
| Noise.BlendCongruent | src/Math.cpp:38-49 | the blend reads the gradient field only at the four corners |
| Noise.TruncWeight | src/Math.cpp:35-36 | the weight `x - x0` is in [0, 1) for x >= 0, in (-1, 0) for negative non-integers, and 0 at integers |
| Noise.NoiseZeroAtLatticePoints | src/Math.cpp:29-50 | the noise, as written and corrected, is 0 at every lattice point, whatever the gradients |
| Noise.BlendWithinCorners | src/Math.cpp:38-49 | with both weights in [0, 1], the blend lies within the range of the four corner dot products |
| Noise.FloorNoiseWithinCorners | src/Math.cpp:29-36 | with floors as lower corners, the corners surround the point and the noise stays within the corner range |
| Noise.NoiseAgreesOnNonNegativeQuadrant | src/Math.cpp:29-36 | for x, y >= 0 the truncating noise equals the floor-corner noise |
| Noise.TruncNoiseLeavesCorners | src/Math.cpp:30-49 | at (-0.999, 0) the truncating noise is -3.994002 for an alternating gradient, outside its corners' range [-0.999, 1.999] |
| MeshLayout.ConfigureAttributes | src/Mesh.cpp:13-29 | the loops yield the element total, the pointer and enable calls for each attribute in order, and the final byte offset, which is the byte size of one vertex |
| MeshLayout.OffsetStep | src/Mesh.cpp:17-27 | the first attribute starts at byte 0, and each next one starts where the previous one ends |
| MeshLayout.OffsetsMonotone | src/Mesh.cpp:17-27 | offsets never decrease along the attribute list |
| MeshLayout.OffsetOfEnd | src/Mesh.cpp:27-30 | the offset after the last attribute is the vertex byte size used for the upload |
| MeshLayout.AttribCallsAt | src/Mesh.cpp:18-29 | the trace has two calls per attribute: the pointer call for attribute i (stride `total * sizeOfType`, offset the bytes before it) at position 2i, and the enable call at 2i + 1 |
| MeshLayout.AttribCallsLength | src/Mesh.cpp:18-29 | the trace for k attributes has 2k calls |
| MeshLayout.EnabledExactlyOnce | src/Mesh.cpp:18-29 | each attribute index is enabled exactly once, at position 2i + 1 |
| MeshLayout.UniformStrideIsVertexSize | src/Mesh.cpp:24-27 | when every element has size t, the stride `numElements * t` is the vertex byte size |
| MeshLayout.MixedSizesStrideDiffers | src/Mesh.cpp:24-27 | for every attribute set with at least one element: when two attributes have different element sizes, the stride `numElements * sizeOfType` of one of them is not the vertex byte size |
| MeshLayout.MixedSizesExample | src/Mesh.cpp:24-27 | one 4-byte and one 1-byte element give a stride of 8 for the first attribute while a vertex takes 5 bytes |
| MeshLayout.Mesh.constructor | src/Mesh.cpp:7-32 | the mesh records the vertex count, the data, the layout trace of its attribute set, and an upload of `VertexBytes * numVertices` bytes |
| MeshLayout.Mesh.Render | src/Mesh.cpp:34-37 | render draws `numVertices` vertices of triangles from vertex 0 |
| TerrainConfig.WindowOutgrowsCapacity | src/Terrain.h:8-14 | the lattice is 11 points wide; the window is 21 cells wide, or 441 cells, more than the declared capacity of 25 |
| CellSynthesis.BufferHoldsVertexCount | src/Terrain.cpp:20-49 | 48 floats per quad, 480 per row and 4800 in all; the 600 vertices handed to the mesh are exactly the 4800 floats |
| CellSynthesis.SampleCoord | src/Terrain.cpp:13-14 | the noise coordinate `(x * 10 + i) / 18.45231` of lattice index i of cell x (no contract; SampleCoordShared states its property) |
| CellSynthesis.LatticeHeight | src/Terrain.cpp:13-15 | the height that lattice point (i, j) of cell (x, z) gets from a noise field, which is at least -2 |
| CellSynthesis.Height | src/Terrain.cpp:15 | the shaped height is at least -2, and is -2 at noise 0 |
| CellSynthesis.SampleCoordShared | src/Terrain.cpp:13-14 | two lattice indices sample the same coordinate exactly when they are the same point, or the last point of one cell and the first of the next |
| CellSynthesis.SharedEdgeHeights | src/Terrain.cpp:11-18 | neighbouring cells agree on the heights of their shared edges |
| CellSynthesis.FillLattice | src/Terrain.cpp:11-19 | every lattice point (i, j) holds the shaped noise at world lattice index (x * 10 + i, z * 10 + j) |
| CellSynthesis.Cross | src/Terrain.cpp:29-31 | the cross product is perpendicular to both of its arguments |
| CellSynthesis.FaceUp | src/Terrain.cpp:30-32 | the flipped vector points up; it is the vector itself when y >= 0 and its opposite otherwise |
| CellSynthesis.NormalA | src/Terrain.cpp:26-30 | the first triangle's normal has y = 1 and is perpendicular to its edges `right` and `diag` |
| CellSynthesis.NormalB | src/Terrain.cpp:26-32 | the second triangle's normal has y = 1 and is perpendicular to its edges `up` and `diag` |
| CellSynthesis.NormalFlips | src/Terrain.cpp:26-32 | `cross(diag, right)` always has y = 1 and is never flipped; `cross(diag, up)` always has y = -1 and is always flipped |
| CellSynthesis.QuadFloats | src/Terrain.cpp:34-42 | a quad's initialiser has 48 floats (QuadVertex and QuadNormalsFitTriangles state what they hold) |
| CellSynthesis.Quad | src/Terrain.cpp:24-42 | quad (i, j) yields 48 floats |
| CellSynthesis.Buffer | src/Terrain.cpp:20-47 | the intended buffer has 4800 floats, and slot n holds float n % 48 of the quad that owns n |
| CellSynthesis.SlotOfQuad | src/Terrain.cpp:21-46 | quad (i, j) owns slots `48 * (10i + j)` to `48 * (10i + j) + 47`, all inside the buffer |
| CellSynthesis.SlotOwner | src/Terrain.cpp:21-46 | every slot belongs to exactly one quad and offset |
| CellSynthesis.QuadTriangles | src/Terrain.cpp:24-42 | the loop body computes the quad's 48 floats, including the flipped normals |
| CellSynthesis.CopyQuad | src/Terrain.cpp:43-45 | the copy loop puts the 48 floats at `ti` to `ti + 47`, and leaves every other slot unchanged |
| CellSynthesis.QuadCopied | src/Terrain.cpp:43-46 | one inner-loop step: once quad (i, j)'s 48 floats are in place at its start index, every slot up to the end of that quad holds its intended value |
| CellSynthesis.AssembleBuffer | src/Terrain.cpp:20-47 | after the nested loops the buffer holds 4800 floats, with slot n equal to slot n of the intended buffer |
| CellSynthesis.QuadVertex | src/Terrain.cpp:34-42 | vertex t of quad (i, j) sits at the local position of its lattice corner, with that corner's height as its y, and carries the corner offsets as its texture coordinate |
| CellSynthesis.BufferVertexHeight | src/Terrain.cpp:20-47 | buffer vertex v has the height of its corner in quad (v / 60, (v / 6) % 10) |
| CellSynthesis.QuadNormalsFitTriangles | src/Terrain.cpp:26-42 | each triangle's normal is shared by its three vertices, has y = 1, and is perpendicular to both of the triangle's edges |
| CellSynthesis.TerrainLayoutMatchesBuffer | src/Mesh.cpp:13-30 | with attributes position, normal and uv of 4-byte floats, a vertex is 8 floats or 32 bytes, the offsets are 0, 12 and 24, and uploading 600 vertices uploads the 4800-float buffer |
| RenderPass.FocusCell | src/Terrain.cpp:61-62 | `static_cast<int>(c / 10)`: for c >= 0 the cell spans [10 cell, 10 cell + 10), and for c < 0 it spans (10 cell - 10, 10 cell] |
| RenderPass.FocusCellNearOrigin | src/Terrain.cpp:61-62 | every coordinate in (-10, 10) falls into cell 0 |
| RenderPass.Key | src/Terrain.cpp:66 | the key `cx * 32768 + cz` (no contract; KeyDecodes, KeyInjective and KeyCollision state its properties) |
| RenderPass.KeyDecodes | src/Terrain.cpp:66 | while cz is in [-16384, 16384) the key decodes back to (cx, cz) |
| RenderPass.KeyInjective | src/Terrain.cpp:66 | the key determines the cell exactly, while both z values are in [-16384, 16384) |
| RenderPass.KeyCollision | src/Terrain.cpp:66 | outside that range, cells (0, 16384) and (1, -16384) share a key |
| RenderPass.WindowCell | src/Terrain.cpp:63-64 | the cell of visit n of the pass: cx = cellX - 10 + n / 21, cz = cellZ - 10 + n % 21 (no contract; WindowCellInWindow and WindowCellAt state its properties) |
| RenderPass.WindowCellInWindow | src/Terrain.cpp:63-64 | every one of the 441 visits lies inside the window, within 10 cells of the focus cell on both axes |
| RenderPass.WindowCellAt | src/Terrain.cpp:63-64 | the visit with cx = cellX - 10 + a and cz = cellZ - 10 + b is visit number 21a + b of the pass |
| RenderPass.InWindowKeys | src/Terrain.cpp:63-66 | a key is among the first `count` window keys exactly when one of those visits has it |
| RenderPass.WindowKeyInjective | src/Terrain.cpp:63-66 | inside the key's z range, two visits of one pass look up the same key only when they are the same visit |
| RenderPass.WindowKeysCount | src/Terrain.cpp:63-66 | inside that range, the first `count` visits look up `count` distinct keys |
| RenderPass.PassStep | src/Terrain.cpp:66-77 | one visit that keeps the cache, adds at most the visited key and appends that cell's draw advances the pass by one |
| RenderPass.PassKeys | src/Terrain.cpp:67-70 | after `count` visits the cache holds exactly the old keys and the visited ones |
| RenderPass.PassComplete | src/Terrain.cpp:63-80 | after a whole pass the cache holds the old keys and the window's keys (at least 441 entries inside the key's z range) |
| Terrain.CellNoise | src/Terrain.cpp:14 | the noise a cell samples: getPerlinNoise as written (no contract) |
| Terrain.TerrainCell.constructor | src/Terrain.cpp:10-50 | the cell's lattice holds the shaped noise of its world lattice points; its mesh holds the intended buffer, draws 600 vertices, and has the layout and upload of the given attribute set |
| Terrain.TerrainCell.GetMesh | src/Terrain.cpp:52-54 | the mesh draws 600 vertices from 4800 floats |
| Terrain.Terrain.constructor | src/Terrain.cpp:56-58 | a new terrain has an empty cache and draw log, and keeps its seed |
| Terrain.Terrain.Render | src/Terrain.cpp:60-80 | the old entries are kept; the keys become the old ones plus the window's; the new draws are the 441 window cells in visiting order, each the cached cell at its translation; inside the key's z range the cache ends with more entries than the declared capacity |
| Terrain.Terrain.RenderWindow | src/Terrain.cpp:63-79 | the outer loop over cx: after it, the whole window has been visited, with the same results as Render |
| Terrain.Terrain.RenderColumn | src/Terrain.cpp:64-78 | the inner loop over cz moves the pass forward by 21 visits |
| Terrain.Terrain.Visit | src/Terrain.cpp:65-77 | one lookup and one draw move the pass forward by one visit |
| Terrain.Terrain.Lookup | src/Terrain.cpp:66-71 | on a hit the cache is unchanged; on a miss it gains exactly the key, holding a new cell generated for (cx, cz) from the terrain's seed; either way the cell under the key is returned |

## Left out

- I/O: the debug printing of each noise value and the shader's `setMatrix4` call are not modelled. The draw log records the translation in place of the model matrix.
- OpenGL objects: buffer and vertex-array creation, binding and the upload itself are not modelled. Their observable parameters are recorded instead: the layout calls, the upload's byte count and the draw call.
- Floating point: floats are reals, so rounding and the `float` casts are not modelled. `glm::normalize` is left out too: the normals kept are the (flipped) cross products, and normalising only scales them by a positive factor.
- Noise.RandomGradient: cosine and sine come from the parameter `trig`, so the model does not fix the gradient's values.
- MathUtil.RandF: `rand()` is stateful and external, so the value it returned is a parameter.
- Noise.Mix: the multiplier sequence is modelled bit-exactly, but no property beyond the origin and the seed independence is proved (for example, its invertibility).
- Terrain.TerrainCell.constructor: the source passes two arguments to a `Mesh` constructor declared with three (Terrain.cpp:49 against Mesh.h:21). The attribute set is therefore a constructor parameter. `TERRAIN_ATTRIBUTES` gives the layout that matches the buffer.
- RenderPass.Key: the key `cx * 32768 + cz` is computed on unbounded integers. The undefined behaviour of the float-to-int casts (Terrain.cpp:61-62, Math.cpp:30-31) and of the signed overflow of the key for huge coordinates (once `|cx|` reaches 65536) are not modelled; the collision inside 32 bits is shown by KeyCollision.
- CellSynthesis.Height: the contract states only the bound and the value at 0. The exact height is carried by LatticeHeight, which the lattice contracts use.
- Terrain.Terrain.Lookup: freshness of a generated cell is stated per lookup; the render pass as a whole states which keys are new, not that their cells are fresh.
- The cache's declared LRU eviction, a per-cell height query and cell decoration appear only as intent in the repository, and the code has none of them. The cache capacity of 25 is declared and never enforced; the model shows that one pass exceeds it.
- Focus cell: `render` truncates `x / 10` toward zero, so cell 0 spans (-10, 10) and is twice as wide as the others (FocusCell, FocusCellNearOrigin).
- `main.cpp`, textures, world objects and shaders are not part of this model.

## Findings

| source | as written | input that shows it | evidently intended | confidence | as-written member | corrected member |
|---|---|---|---|---|---|---|
| src/Math.cpp:30-36 | the lower corners are `static_cast<int>(x)` and `static_cast<int>(y)`, which round toward zero, so for a negative non-integer coordinate the corners do not surround the sample point and the weight is negative | x = -0.999, y = 0 with gradients alternating (1, 0), (-1, 0) along x: the noise is -3.994002, outside the corner range [-0.999, 1.999] | lower corners at the floor, weights in [0, 1), noise within the range of the surrounding corners | not executed | Noise.TruncNoiseLeavesCorners | Noise.FloorNoiseWithinCorners |
