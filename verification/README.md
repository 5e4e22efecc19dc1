# Voxel store of the EOGLL voxel test

A model of the voxel store at the heart of `main.c`. It covers:

- voxels and their kinds;
- chunks, which are flat runs of 16 x 16 x 16 voxels;
- the world, which is a grid of chunks;
- the arithmetic that turns a global voxel coordinate into a chunk index and a slot;
- the start-up loops that fill the world;
- the per-frame choice of which voxels to draw.

Everything is modelled with immutable values and pure functions, except the loops of `main` and `renderWorld`. Those are methods with loop invariants.

Modules, one per file:

- `Voxels` (`voxels.dfy`): the kind enumeration and its C enumerator values, plus the voxel record.
- `Radix` (`radix.dfy`): mixed-radix arithmetic `a + b*A + c*A*B`. Both slots and chunk indices have this shape.
- `Chunks` (`chunks.dfy`): the coordinate triple, chunk storage, the local-to-slot formula `x + 16*y + 256*z` and its inverse, and `getVoxelFromChunk`.
- `Worlds` (`worlds.dfy`): the world struct and splitting a global coordinate into a chunk part and a local part with `/16` and `%16`. It also has the loop order on coordinates, the chunk index as the program writes it, `getVoxelFromWorld`, `setVoxelFromWorld`, and the shipped one-chunk configuration.
- `Setup` (`setup.dfy`): the allocation and the two fill loops of `main`.
- `Rendering` (`rendering.dfy`): the selection logic of `renderWorld` and `renderVoxel`. A frame is the sequence of outcomes: a cube drawn with a texture, or an error line for a kind with no texture.
- `Program` (`program.dfy`): start-up followed by one rendered frame with the program's four-entry texture table.
- `ChunkStride` (`chunk_stride.dfy`): the chunk-index defect and its correction (see Findings).

Reading or writing outside the allocation is undefined behaviour in C. Here every such access is excluded by a precondition:

- `Addressable` requires non-negative coordinates. For those, C's truncating `/` and `%` agree with Dafny's.
- It also requires a chunk index inside `[0, width*height*depth)`.
- At chunk level, `GetVoxelFromChunk` requires only that the slot lies inside the chunk's storage, which is all the C code needs.

The chunk index keeps the program's strides `chunkWidth` and `chunkHeight`. The per-chunk edge is the hard-coded 16, as in the source.

## Model

| member | source | states |
|---|---|---|
| Voxels.Ordinal | main.c:8-13 | every kind's enumerator value is below the number of kinds, and the value is 0 exactly for Air, so zero-filled storage reads as Air |
| Chunks.Slot | main.c:34-36 | every local coordinate in [0,16)^3 gets a slot in [0, 4096), inside the 16*16*16 voxels allocated per chunk |
| Chunks.LocalOfSlot | main.c:35 | every slot of the chunk decodes to a local coordinate in [0,16)^3 whose slot is that same slot, so the slot map is onto |
| Chunks.SlotRoundTrip | main.c:35 | decoding the slot of a local coordinate gives that coordinate back |
| Chunks.SlotInjective | main.c:35 | distinct local coordinates in [0,16)^3 never share a slot |
| Chunks.GetVoxelFromChunk | main.c:34-36 | the voxel read is one held in the chunk's storage; the only demand on the caller is that the slot lies inside that storage |
| Chunks.ReadOutsideCube | main.c:34-36 | with no range check, a coordinate outside [0,16)^3 whose slot is in storage reads the same voxel as the in-cube coordinate decoded from that slot; (17,0,0) reads the voxel of (1,1,0) |
| Worlds.SplitAxis | main.c:39-44 | a non-negative global coordinate g splits into a chunk part c >= 0 and a local part l in [0,16) with g == c*16 + l |
| Worlds.SplitCompose | main.c:39-44 | the split is unique: composing any chunk part and local part in [0,16) and splitting again returns both |
| Worlds.ChunkIndex | main.c:45 | the index as written numbers a chunkWidth x chunkHeight x chunkDepth grid: chunk coordinates below the per-chunk extents get an index below their product |
| Worlds.ChunkIndexInjective | main.c:45 | chunk coordinates with x below chunkWidth and y below chunkHeight never share an index |
| Worlds.AddressableExactly | main.c:38-46 | in a well-formed world a non-negative coordinate is addressable exactly when the chunk read and the slot read of getVoxelFromWorld both stay in bounds |
| Worlds.AddressOf | main.c:45 | every addressable coordinate of a well-formed world names a chunk inside the chunk array and a slot inside that chunk's storage |
| Worlds.GetVoxelFromWorld | main.c:38-46 | the voxel read comes from the chunk at the coordinate's address |
| Worlds.SetVoxelFromWorld | main.c:48-58 | the write keeps the world's shape and allocation. The written voxel reads back at the written coordinate and at every coordinate sharing its address. Every other addressable coordinate reads as before |
| Worlds.SetIdempotent | main.c:57 | writing the same voxel twice at a coordinate yields the same world as writing it once |
| Worlds.ShippedAddressing | main.c:275-285 | in the 1x1x1 world of 16^3 chunks, the world's extent is exactly [0,16)^3, every coordinate there is addressable, and its address is chunk 0 at its local slot |
| Worlds.ShippedSetFrame | main.c:48-58 | in the shipped world a write at one in-extent coordinate leaves every other in-extent coordinate unchanged |
| Setup.Initialise | main.c:275-300 | after allocation and both fill loops, the world has the shipped shape, every voxel with y == 0 is Dirt, and every other voxel of [0,16)^3 is Air |
| Setup.FillAir | main.c:287-293 | the first loop leaves Air at every coordinate of [0,16)^3, whatever the cube held before, and keeps the shipped shape |
| Setup.FillAirPlane | main.c:288-292 | one pass of the middle Air loop at x extends the Air-filled prefix, in loop order, from (x,0,0) to (x+1,0,0) |
| Setup.FillAirColumn | main.c:289-291 | one pass of the innermost Air loop at (x,y) extends the Air-filled prefix from (x,y,0) to (x,y+1,0) |
| Setup.LayFloor | main.c:295-300 | the second loop leaves Dirt at every coordinate of [0,16)^3 with y == 0 and every other coordinate as it found it |
| Setup.WriteShipped | main.c:287-300 | one fill-loop write in the shipped world changes exactly the written coordinate of [0,16)^3 |
| Rendering.RenderVoxel | main.c:77-84 | nothing for Air. An error, not a draw, when the kind's enumerator is at or past textureCount. An error carries the kind's enumerator. Otherwise a single draw at the voxel's coordinate with the enumerator as texture index |
| Rendering.RenderWorld | main.c:96-109 | the coordinates visited are exactly those of [0,width*chunkWidth) x [0,height*chunkHeight) x [0,depth*chunkDepth), each once, in strictly increasing x-then-y-then-z order. The outcomes are those of visiting them in that order and skipping Air |
| Rendering.RenderPlane | main.c:98-107 | one pass of the middle loop at x extends the scan prefix from (x,0,0) to (x+1,0,0) and appends the outcomes of the coordinates it visits |
| Rendering.RenderColumn | main.c:99-106 | one pass of the innermost loop at (x,y) extends the scan prefix from (x,y,0) to (x,y+1,0) and appends the outcomes of the coordinates it visits |
| Rendering.ColumnStep | main.c:100-105 | one body of the innermost loop appends nothing for Air and what renderVoxel yields otherwise, and extends the scan prefix by one coordinate |
| Rendering.VisitEvents | main.c:100-105 | visiting one coordinate yields at most one outcome; none exactly when the coordinate holds Air or lies outside the extent; a draw only at that coordinate |
| Rendering.EventsOf | main.c:97-106 | visiting a sequence of coordinates yields at most one outcome per coordinate, and every draw is at one of the coordinates visited |
| Rendering.EventsMembership | main.c:100-105 | an outcome appears in a frame exactly when visiting one of the frame's coordinates produces it |
| Rendering.DrawnExactly | main.c:96-109 | a frame draws at coordinate c with texture t if and only if c is in the extent, its voxel is not Air, its enumerator is below textureCount, and t is that enumerator |
| Rendering.DrawsInScanOrder | main.c:97-99 | of any two draws in a frame, the earlier is at a coordinate strictly before the later in loop order, so no coordinate is drawn twice |
| Rendering.NoKindErrors | main.c:81-84 | when the texture table has an entry for every kind, no error line is produced |
| Rendering.ShippedRenderSafe | main.c:275-285 | the shipped world can be rendered: every coordinate in its extent is addressable |
| Program.FirstFrame | main.c:265-300 | after start-up, a frame rendered with the four-entry table draws Dirt, with texture 1, at exactly the coordinates of [0,16)^3 with y == 0. It logs no error and draws each of them once, in loop order |
| ChunkStride.AsWrittenIndexEscapes | main.c:45 | as written, in a grid of 2x2x1 chunks of 16^3, the in-extent coordinate (0,16,0) has chunk index 16, outside the 4 chunks |
| ChunkStride.AsWrittenIndexAliases | main.c:57 | as written, in a grid of 17x2x1 chunks of 16^3, the distinct in-extent coordinates (256,0,0) and (0,16,0) share an address |
| ChunkStride.AsWrittenWriteLeaks | main.c:57 | in that grid, writing a voxel at (256,0,0) makes (0,16,0) read that voxel |
| ChunkStride.IntendedChunkIndex | main.c:24-32 | with strides width and height, every cell of the width x height x depth grid of chunks gets an index inside the chunk array |
| ChunkStride.IntendedAddress | main.c:24-32 | with strides width and height, every coordinate of the extent names a chunk inside the chunk array and a slot inside the chunk, and the slot decodes to the coordinate's local part |
| ChunkStride.IntendedAddressInjective | main.c:24-32 | with strides width and height, distinct coordinates of the extent never share an address |
| ChunkStride.ShippedIndexAgrees | main.c:275-285 | in the shipped world the program's index and the intended index give the same address at every coordinate of the extent |

## Left out

- EOGLL and OpenGL calls are not modelled: window creation, shaders, buffers, textures, uniforms, the draw call, buffer swaps and event polling (main.c:71-76, main.c:86-93, main.c:113-273). They are calls into a graphics library. A draw is recorded as an event carrying the coordinate and the texture index.
- The vertex and index arrays and the shader sources are left out, because they are float data and GLSL text.
- Camera movement, rotation, mouse handling and frame timing in the main loop (main.c:303-391) are left out, because they are float math and input polling. The main loop never writes to the world, so each frame selects the same voxels as `Program.FirstFrame`.
- Storage comes from `calloc`. It is modelled as sequences of the allocated length filled with enumerator 0, that is Air.
- Negative coordinates are excluded by precondition. For them C's truncating division differs from Dafny's, and the program never produces them.
- C `int` is 32 bits wide. Overflow is not modelled. Every index the program computes is far below 2^31.
- Raycasting, hit-face resolution and block placement or removal do not appear in `main.c`, so nothing about them is modelled.
- `Voxel vox = {1}` in `main` is never used, and the commented-out accessor call on main.c:55 is not code. Neither is modelled.
- Rendering.VisitEvents: also yields no outcome for a coordinate outside the world's extent. The loops never visit such a coordinate.
- Chunks.GetVoxelFromChunk: its contract says only that the voxel comes from the chunk's storage. Which slot it reads is stated by Chunks.ReadOutsideCube, and at world level only through the read-back of Worlds.SetVoxelFromWorld.
- Worlds.GetVoxelFromWorld: its contract says only that the voxel comes from the chunk at the coordinate's address. What it reads is stated through SetVoxelFromWorld's read-back and frame clauses.

## Findings

| source | as written | input that shows it | evidently intended | confidence | as-written member | corrected member |
|---|---|---|---|---|---|---|
| main.c:45 | chunk index `chunkX + chunkY*chunkWidth + chunkZ*chunkWidth*chunkHeight` strides by voxels per chunk | grid of 2x2x1 chunks of 16^3: in-extent (0,16,0) gets chunk index 16 of 4 chunks | `chunkX + chunkY*width + chunkZ*width*height`, striding by chunks per axis | high (not executed) | ChunkStride.AsWrittenIndexEscapes | ChunkStride.IntendedAddress |
| main.c:57 | the same index in setVoxelFromWorld lets distinct coordinates share a chunk | grid of 17x2x1 chunks of 16^3: (256,0,0) and (0,16,0) both get chunk 16, so a write to one is read at the other | strides width and height, under which addresses are distinct | high (not executed) | ChunkStride.AsWrittenWriteLeaks | ChunkStride.IntendedAddressInjective |

The world accessors keep the index as written. Their precondition confines them to coordinates whose index lies inside the chunk array. In the only configuration the program builds, a single chunk, both indices are 0 everywhere in the world's extent (`ChunkStride.ShippedIndexAgrees`). So the rest of the model, start-up and rendering, describes the intended behaviour as well.
