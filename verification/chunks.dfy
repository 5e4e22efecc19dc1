/** One chunk: a flat block of voxels addressed by local coordinates
    (main.c:20-22, main.c:34-36). */
module Chunks {
  import opened Voxels

  /** Voxels along each edge of a chunk. The addressing code uses this
      number directly instead of the world's per-chunk extents. */
  const Edge: int := 16

  /** Voxels allocated for a chunk (main.c:285). */
  const Volume: int := 16 * 16 * 16

  /** A chunk owns a one-dimensional run of voxels. */
  datatype Chunk = Chunk(voxels: seq<Voxel>)

  /** The chunk's storage has the size the program allocates. */
  predicate Allocated(c: Chunk)
  {
    |c.voxels| == Volume
  }

  /** A local coordinate inside the 16 x 16 x 16 cube of a chunk. */
  predicate InChunk(x: int, y: int, z: int)
  {
    0 <= x < Edge && 0 <= y < Edge && 0 <= z < Edge
  }

  /** A coordinate triple, local to a chunk or global to the world. */
  datatype Coord = Coord(x: int, y: int, z: int)

  /** The flat slot a local coordinate is stored at, x fastest and z slowest.
      Every triple has a slot; only slots inside the storage may be read. */
  function Slot(x: int, y: int, z: int): (i: int)
    ensures InChunk(x, y, z) ==> 0 <= i < Volume
  {
    x + y * 16 + z * 16 * 16
  }

  /** The local coordinate stored at slot `i`: the inverse of Slot. */
  function LocalOfSlot(i: int): (l: Coord)
    requires 0 <= i < Volume
    ensures InChunk(l.x, l.y, l.z)
    ensures Slot(l.x, l.y, l.z) == i
  {
    Coord(i % 16, (i / 16) % 16, i / 256)
  }

  /** Decoding the slot of a local coordinate gives that coordinate back. */
  lemma SlotRoundTrip(x: int, y: int, z: int)
    requires InChunk(x, y, z)
    ensures LocalOfSlot(Slot(x, y, z)) == Coord(x, y, z)
  {
  }

  /** Distinct local coordinates never share a slot. */
  lemma SlotInjective(x: int, y: int, z: int, x': int, y': int, z': int)
    requires InChunk(x, y, z) && InChunk(x', y', z')
    requires Slot(x, y, z) == Slot(x', y', z')
    ensures x == x' && y == y' && z == z'
  {
    SlotRoundTrip(x, y, z);
    SlotRoundTrip(x', y', z');
  }

  /** Reads the voxel at a local coordinate. The program does no range
      check: all it needs is that the slot lies inside the storage. */
  function GetVoxelFromChunk(c: Chunk, x: int, y: int, z: int): (v: Voxel)
    requires 0 <= Slot(x, y, z) < |c.voxels|
    ensures v in c.voxels
  {
    c.voxels[Slot(x, y, z)]
  }

  /** Without a range check a coordinate outside the cube reads whichever
      slot its formula lands on: the same voxel as the cube coordinate
      stored at that slot. So (17, 0, 0) reads the voxel of (1, 1, 0). */
  lemma ReadOutsideCube(c: Chunk, x: int, y: int, z: int)
    requires Allocated(c) && 0 <= Slot(x, y, z) < |c.voxels|
    ensures var l := LocalOfSlot(Slot(x, y, z));
            InChunk(l.x, l.y, l.z)
            && GetVoxelFromChunk(c, x, y, z) == GetVoxelFromChunk(c, l.x, l.y, l.z)
    ensures Slot(x, y, z) == Slot(17, 0, 0) ==> GetVoxelFromChunk(c, x, y, z) == GetVoxelFromChunk(c, 1, 1, 0)
  {
  }
}
