/** The chunk index of getVoxelFromWorld and setVoxelFromWorld
    (main.c:45, main.c:57) strides the y and z chunk coordinates by the
    per-chunk extents chunkWidth and chunkHeight. The evidently intended
    strides are the chunk-grid extents width and height, which the struct's
    own comments describe as the number of chunks per axis (main.c:26-31).
    The two agree in the shipped one-chunk world; this module shows where
    they part and proves the intended index sound. */
module ChunkStride {
  import opened Voxels
  import opened Chunks
  import opened Worlds
  import opened Radix

  /** A world of `width` x `height` x `depth` chunks of 16 x 16 x 16 Air
      voxels, allocated the way the program allocates its one chunk. */
  function Grid(width: int, height: int, depth: int): (w: World)
    requires 1 <= width && 1 <= height && 1 <= depth
    ensures Valid(w)
    ensures w.width == width && w.height == height && w.depth == depth
    ensures w.chunkWidth == 16 && w.chunkHeight == 16 && w.chunkDepth == 16
  {
    World(seq(width * height * depth, _ => Chunk(seq(Volume, _ => Voxel(Air)))),
          width, height, depth, 16, 16, 16)
  }

  /** As written, a coordinate inside the world's extent can fall outside
      the chunk array: in a grid of 2 x 2 x 1 chunks of 16 x 16 x 16 the
      voxel (0, 16, 0) is in chunk (0, 1, 0), whose index is 16, but there
      are only 4 chunks. */
  lemma AsWrittenIndexEscapes(w: World)
    requires Valid(w) && EdgeMatches(w) && w.width == 2 && w.height == 2 && w.depth == 1
    ensures InBox(w, 0, 16, 0) && !Addressable(w, 0, 16, 0)
    ensures ChunkIndex(w, 0, 1, 0) == 16 && |w.chunks| == 4
  {
  }

  /** As written, two distinct coordinates inside the world's extent can
      share an address: in a grid of 17 x 2 x 1 chunks of 16 x 16 x 16 the
      chunks (16, 0, 0) and (0, 1, 0) both get index 16, so a write to
      (256, 0, 0) is read back at (0, 16, 0). */
  lemma AsWrittenIndexAliases(w: World)
    requires Valid(w) && EdgeMatches(w) && w.width == 17 && w.height == 2 && w.depth == 1
    ensures InBox(w, 256, 0, 0) && InBox(w, 0, 16, 0)
    ensures Addressable(w, 256, 0, 0) && Addressable(w, 0, 16, 0)
    ensures AddressOf(w, 256, 0, 0) == AddressOf(w, 0, 16, 0)
  {
  }

  /** The aliasing made concrete: after writing Stone at (256, 0, 0) of
      such a world, reading (0, 16, 0) gives Stone. */
  lemma AsWrittenWriteLeaks(w: World, v: Voxel)
    requires Valid(w) && EdgeMatches(w) && w.width == 17 && w.height == 2 && w.depth == 1
    ensures Addressable(w, 256, 0, 0) && Addressable(w, 0, 16, 0)
    ensures GetVoxelFromWorld(SetVoxelFromWorld(w, 256, 0, 0, v), 0, 16, 0) == v
  {
    AsWrittenIndexAliases(w);
  }

  /** Both examples are reachable: worlds of those shapes exist. */
  lemma AsWrittenExamplesExist()
    ensures Valid(Grid(2, 2, 1)) && EdgeMatches(Grid(2, 2, 1))
    ensures Valid(Grid(17, 2, 1)) && EdgeMatches(Grid(17, 2, 1))
  {
  }

  /** The chunk index with the intended strides: every cell of the
      width x height x depth grid of chunks gets an index inside the chunk
      array. */
  function IntendedChunkIndex(w: World, cx: int, cy: int, cz: int): (i: int)
    ensures 0 <= cx < w.width && 0 <= cy < w.height && 0 <= cz < w.depth
            ==> 0 <= i < w.width * w.height * w.depth
  {
    MixedRadixInRange(cx, cy, cz, w.width, w.height, w.depth);
    cx + cy * w.width + cz * w.width * w.height
  }

  /** The address of a coordinate under the intended chunk index. Its slot
      decodes back to the coordinate's local part, and every coordinate of
      a well-formed world's extent gets an address inside the allocation. */
  function IntendedAddress(w: World, x: int, y: int, z: int): (a: Address)
    requires 0 <= x && 0 <= y && 0 <= z
    ensures 0 <= a.slot < Volume
    ensures LocalOfSlot(a.slot) == Coord(x % 16, y % 16, z % 16)
    ensures Valid(w) && EdgeMatches(w) && InBox(w, x, y, z) ==> 0 <= a.chunk < |w.chunks|
  {
    var sx, sy, sz := SplitAxis(x), SplitAxis(y), SplitAxis(z);
    ChunkCoordBelow(x, w.width);
    ChunkCoordBelow(y, w.height);
    ChunkCoordBelow(z, w.depth);
    SlotRoundTrip(sx.local, sy.local, sz.local);
    Address(IntendedChunkIndex(w, sx.chunk, sy.chunk, sz.chunk), Slot(sx.local, sy.local, sz.local))
  }

  /** The chunk extents of a world agree with the fixed edge the
      addressing code splits by. */
  predicate EdgeMatches(w: World)
  {
    w.chunkWidth == Edge && w.chunkHeight == Edge && w.chunkDepth == Edge
  }

  /** A coordinate below `n` chunks of 16 is in a chunk below `n`. */
  lemma ChunkCoordBelow(g: int, n: int)
    requires 0 <= g
    ensures g < n * Edge ==> SplitAxis(g).chunk < n
  {
    var s := SplitAxis(g);
    if g < n * Edge && s.chunk >= n {
      MulMono(Edge, n, s.chunk);
    }
  }

  /** With the intended strides, distinct coordinates of the world's extent
      never share an address. */
  lemma IntendedAddressInjective(w: World, x: int, y: int, z: int, x': int, y': int, z': int)
    requires Valid(w) && EdgeMatches(w) && InBox(w, x, y, z) && InBox(w, x', y', z')
    requires IntendedAddress(w, x, y, z) == IntendedAddress(w, x', y', z')
    ensures x == x' && y == y' && z == z'
  {
    var sx, sy, sz := SplitAxis(x), SplitAxis(y), SplitAxis(z);
    var sx', sy', sz' := SplitAxis(x'), SplitAxis(y'), SplitAxis(z');
    ChunkCoordBelow(x, w.width);
    ChunkCoordBelow(y, w.height);
    ChunkCoordBelow(x', w.width);
    ChunkCoordBelow(y', w.height);
    MixedRadixInjective(sx.chunk, sy.chunk, sz.chunk, sx'.chunk, sy'.chunk, sz'.chunk, w.width, w.height);
    SlotInjective(sx.local, sy.local, sz.local, sx'.local, sy'.local, sz'.local);
  }

  /** In the shipped one-chunk world the program's index and the intended
      one give the same address everywhere in the extent, so the model of
      the program as written is also the intended behaviour there. */
  lemma ShippedIndexAgrees(w: World, x: int, y: int, z: int)
    requires Shipped(w) && InBox(w, x, y, z)
    ensures Addressable(w, x, y, z)
    ensures AddressOf(w, x, y, z) == IntendedAddress(w, x, y, z)
  {
    ShippedAddressing(w, x, y, z);
  }
}
