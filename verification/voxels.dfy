/** The voxel record and its kinds (main.c:8-18). */
module Voxels {

  /** The kinds a voxel can hold, in the order of the C enumeration. */
  datatype VoxelType = Air | Dirt | Grass | Stone

  /** Number of enumerators in the kind enumeration. */
  const KindCount: nat := 4

  /** The integer the C enumeration assigns to a kind; the renderer uses it
      as an index into the texture table. Only Air has value 0, which is
      also what zero-filled storage reads as. */
  function Ordinal(t: VoxelType): (n: nat)
    ensures n < KindCount
    ensures n == 0 <==> t == Air
  {
    match t
    case Air => 0
    case Dirt => 1
    case Grass => 2
    case Stone => 3
  }

  /** One cell of the world; the C struct has a single field, its kind. */
  datatype Voxel = Voxel(kind: VoxelType)
}
