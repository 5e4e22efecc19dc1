/** The world: a grid of chunks and the translation of global voxel
    coordinates into a chunk and a slot inside it (main.c:24-58). */
module Worlds {
  import opened Voxels
  import opened Chunks
  import opened Radix

  /** The C struct: the chunk array, the chunk-grid extents (chunks per
      axis) and the per-chunk extents (voxels per chunk per axis). */
  datatype World = World(
    chunks: seq<Chunk>,
    width: int, height: int, depth: int,
    chunkWidth: int, chunkHeight: int, chunkDepth: int)

  /** The shape the program allocates: positive extents, one chunk per grid
      cell, and every chunk with its full storage. */
  predicate Valid(w: World)
  {
    && 1 <= w.width && 1 <= w.height && 1 <= w.depth
    && 1 <= w.chunkWidth && 1 <= w.chunkHeight && 1 <= w.chunkDepth
    && |w.chunks| == w.width * w.height * w.depth
    && forall i :: 0 <= i < |w.chunks| ==> Allocated(w.chunks[i])
  }

  /** Two worlds with the same extents and the same number of chunks. */
  predicate SameShape(w: World, w': World)
  {
    && w'.width == w.width && w'.height == w.height && w'.depth == w.depth
    && w'.chunkWidth == w.chunkWidth && w'.chunkHeight == w.chunkHeight
    && w'.chunkDepth == w.chunkDepth
    && |w'.chunks| == |w.chunks|
  }

  /** The voxel extent of the world on each axis, as the renderer bounds its
      loops: chunks per axis times voxels per chunk. */
  predicate InBox(w: World, x: int, y: int, z: int)
  {
    && 0 <= x < w.width * w.chunkWidth
    && 0 <= y < w.height * w.chunkHeight
    && 0 <= z < w.depth * w.chunkDepth
  }

  /** Coordinate order of the program's nested loops: x outermost, then y,
      then z. */
  predicate Before(a: Coord, b: Coord)
  {
    a.x < b.x || (a.x == b.x && (a.y < b.y || (a.y == b.y && a.z < b.z)))
  }

  /** A global coordinate on one axis, split into a chunk coordinate and a
      local coordinate. */
  datatype Split = Split(chunk: int, local: int)

  /** Splits a non-negative global coordinate by the fixed chunk edge. For
      such inputs C's truncating division and remainder agree with Dafny's. */
  function SplitAxis(g: int): (s: Split)
    requires 0 <= g
    ensures 0 <= s.chunk && 0 <= s.local < Edge
    ensures g == s.chunk * Edge + s.local
  {
    Split(g / 16, g % 16)
  }

  /** Composing a chunk and a local coordinate and splitting the result
      gives both back: the split is the only one with a local part in
      [0, 16). */
  lemma SplitCompose(c: int, l: int)
    requires 0 <= c && 0 <= l < Edge
    ensures SplitAxis(c * Edge + l) == Split(c, l)
  {
  }

  /** The index of a chunk in the chunk array, as the program writes it:
      the y and z strides use the per-chunk extents chunkWidth and
      chunkHeight, not the chunk-grid extents width and height. So the
      index numbers the cells of a chunkWidth x chunkHeight x chunkDepth
      grid of chunks: each such cell gets an index below the product of
      the per-chunk extents, and no two of them share one. */
  function ChunkIndex(w: World, cx: int, cy: int, cz: int): (i: int)
    ensures 0 <= cx < w.chunkWidth && 0 <= cy < w.chunkHeight && 0 <= cz < w.chunkDepth
            ==> 0 <= i < w.chunkWidth * w.chunkHeight * w.chunkDepth
  {
    MixedRadixInRange(cx, cy, cz, w.chunkWidth, w.chunkHeight, w.chunkDepth);
    cx + cy * w.chunkWidth + cz * w.chunkWidth * w.chunkHeight
  }

  /** Distinct chunk coordinates with x below chunkWidth and y below
      chunkHeight get distinct indices. */
  lemma ChunkIndexInjective(w: World, cx: int, cy: int, cz: int, cx': int, cy': int, cz': int)
    requires 0 <= cx < w.chunkWidth && 0 <= cy < w.chunkHeight
    requires 0 <= cx' < w.chunkWidth && 0 <= cy' < w.chunkHeight
    requires ChunkIndex(w, cx, cy, cz) == ChunkIndex(w, cx', cy', cz')
    ensures cx == cx' && cy == cy' && cz == cz'
  {
    MixedRadixInjective(cx, cy, cz, cx', cy', cz', w.chunkWidth, w.chunkHeight);
  }

  /** The program can touch a global coordinate without leaving its
      allocation: the coordinate is non-negative (so the split matches C)
      and its chunk index lies inside the chunk array. */
  predicate Addressable(w: World, x: int, y: int, z: int)
  {
    && 0 <= x && 0 <= y && 0 <= z
    && 0 <= ChunkIndex(w, SplitAxis(x).chunk, SplitAxis(y).chunk, SplitAxis(z).chunk)
          < w.width * w.height * w.depth
  }

  /** In a well-formed world, a non-negative coordinate is addressable
      exactly when both array reads of getVoxelFromWorld, the chunk and then
      the slot in it, stay in bounds. */
  lemma AddressableExactly(w: World, x: int, y: int, z: int)
    requires Valid(w) && 0 <= x && 0 <= y && 0 <= z
    ensures var ci := ChunkIndex(w, x / 16, y / 16, z / 16);
            var si := x % 16 + y % 16 * 16 + z % 16 * 16 * 16;
            Addressable(w, x, y, z) <==> 0 <= ci < |w.chunks| && 0 <= si < |w.chunks[ci].voxels|
  {
  }

  /** Where a global coordinate lives: a chunk index and a slot in it. */
  datatype Address = Address(chunk: int, slot: int)

  /** The address getVoxelFromWorld reads for a global coordinate. */
  function AddressOf(w: World, x: int, y: int, z: int): (a: Address)
    requires Valid(w) && Addressable(w, x, y, z)
    ensures 0 <= a.chunk < |w.chunks| && 0 <= a.slot < Volume
  {
    var sx, sy, sz := SplitAxis(x), SplitAxis(y), SplitAxis(z);
    Address(ChunkIndex(w, sx.chunk, sy.chunk, sz.chunk), Slot(sx.local, sy.local, sz.local))
  }

  /** Reads the voxel at a global coordinate: pick the chunk, then read the
      local coordinate from it. */
  function GetVoxelFromWorld(w: World, x: int, y: int, z: int): (v: Voxel)
    requires Valid(w) && Addressable(w, x, y, z)
    ensures v in w.chunks[AddressOf(w, x, y, z).chunk].voxels
  {
    var sx, sy, sz := SplitAxis(x), SplitAxis(y), SplitAxis(z);
    GetVoxelFromChunk(w.chunks[ChunkIndex(w, sx.chunk, sy.chunk, sz.chunk)], sx.local, sy.local, sz.local)
  }

  /** Writes a voxel at a global coordinate. The program computes the chunk
      index and the slot inline here rather than going through the chunk
      accessor, so the two are restated as the program writes them. The
      result keeps the world's shape, reads back the written voxel at every
      coordinate with the same address, and reads as before everywhere
      else. */
  function SetVoxelFromWorld(w: World, x: int, y: int, z: int, v: Voxel): (w': World)
    requires Valid(w) && Addressable(w, x, y, z)
    ensures Valid(w') && SameShape(w, w')
    ensures GetVoxelFromWorld(w', x, y, z) == v
    ensures forall a, b, c :: Addressable(w, a, b, c) ==>
              GetVoxelFromWorld(w', a, b, c)
                == if AddressOf(w, a, b, c) == AddressOf(w, x, y, z) then v
                   else GetVoxelFromWorld(w, a, b, c)
  {
    var ci := x / 16 + y / 16 * w.chunkWidth + z / 16 * w.chunkWidth * w.chunkHeight;
    var si := x % 16 + y % 16 * 16 + z % 16 * 16 * 16;
    var c := w.chunks[ci];
    assert Address(ci, si) == AddressOf(w, x, y, z);
    w.(chunks := w.chunks[ci := Chunk(c.voxels[si := v])])
  }

  /** Writing the same voxel twice at a coordinate is the same as writing
      it once. */
  lemma SetIdempotent(w: World, x: int, y: int, z: int, v: Voxel)
    requires Valid(w) && Addressable(w, x, y, z)
    ensures SetVoxelFromWorld(SetVoxelFromWorld(w, x, y, z, v), x, y, z, v)
              == SetVoxelFromWorld(w, x, y, z, v)
  {
    var ci := x / 16 + y / 16 * w.chunkWidth + z / 16 * w.chunkWidth * w.chunkHeight;
    var si := x % 16 + y % 16 * 16 + z % 16 * 16 * 16;
    var once := w.chunks[ci].voxels[si := v];
    var w1 := SetVoxelFromWorld(w, x, y, z, v);
    assert w1 == w.(chunks := w.chunks[ci := Chunk(once)]);
    assert w1.chunks[ci].voxels[si := v] == once;
    assert w1.chunks[ci := Chunk(once)] == w1.chunks;
  }

  /** The one configuration the program builds (main.c:275-285): a single
      chunk, 16 voxels per chunk on every axis. */
  predicate Shipped(w: World)
  {
    && Valid(w)
    && w.width == 1 && w.height == 1 && w.depth == 1
    && w.chunkWidth == 16 && w.chunkHeight == 16 && w.chunkDepth == 16
  }

  /** In the shipped configuration the world's extent is exactly one chunk
      cube, every coordinate in it is addressable, its chunk index is 0 and
      its slot is its local slot. */
  lemma ShippedAddressing(w: World, x: int, y: int, z: int)
    requires Shipped(w)
    ensures InBox(w, x, y, z) <==> InChunk(x, y, z)
    ensures InChunk(x, y, z) ==>
              Addressable(w, x, y, z) && AddressOf(w, x, y, z) == Address(0, Slot(x, y, z))
  {
  }

  /** In the shipped configuration a write at one coordinate of the world
      leaves every other coordinate of the world as it was. */
  lemma ShippedSetFrame(w: World, x: int, y: int, z: int, v: Voxel, a: int, b: int, c: int)
    requires Shipped(w) && InBox(w, x, y, z) && InBox(w, a, b, c)
    requires (a, b, c) != (x, y, z)
    ensures Addressable(w, a, b, c) && Addressable(w, x, y, z)
    ensures GetVoxelFromWorld(SetVoxelFromWorld(w, x, y, z, v), a, b, c) == GetVoxelFromWorld(w, a, b, c)
  {
    ShippedAddressing(w, x, y, z);
    ShippedAddressing(w, a, b, c);
    if AddressOf(w, a, b, c) == AddressOf(w, x, y, z) {
      SlotInjective(a, b, c, x, y, z);
    }
  }
}
