/** The program's own sequence (main.c:265-300, main.c:387): build the
    world, then render it every frame with a four-entry texture table.
    Nothing in the frame loop writes to the world, so every frame selects
    the same voxels. */
module Program {
  import opened Voxels
  import opened Chunks
  import opened Worlds
  import opened Setup
  import opened Rendering

  /** Entries in the program's texture table (main.c:269). */
  const TextureCount: nat := 4

  /** Builds the world and renders one frame of it. The frame draws one
      Dirt cube at each coordinate of the y == 0 floor of the chunk, in
      loop order, draws nothing else and logs no error. */
  method FirstFrame() returns (events: seq<RenderEvent>)
    ensures forall c, t :: Drawn(c, t) in events <==>
              InChunk(c.x, c.y, c.z) && c.y == 0 && t == Ordinal(Dirt)
    ensures forall e :: e in events ==> e.Drawn?
    ensures DrawsInOrder(events)
  {
    var w := Initialise();
    ShippedRenderSafe(w);
    var visited;
    visited, events := RenderWorld(w, TextureCount);
    NoKindErrors(w, TextureCount, visited);
    DrawsInScanOrder(w, TextureCount, visited);
    forall c, t
      ensures Drawn(c, t) in events <==> InChunk(c.x, c.y, c.z) && c.y == 0 && t == Ordinal(Dirt)
    {
      DrawnExactly(w, TextureCount, visited, c, t);
      ShippedAddressing(w, c.x, c.y, c.z);
    }
  }
}
