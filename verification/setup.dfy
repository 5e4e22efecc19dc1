/** Building the world at start-up (main.c:275-300): allocate one zeroed
    chunk, fill the cube with Air, then lay a floor of Dirt at y == 0. */
module Setup {
  import opened Voxels
  import opened Chunks
  import opened Worlds

  /** The voxel the start-up loops leave at a coordinate of the cube. */
  function Initial(y: int): Voxel
  {
    if y == 0 then Voxel(Dirt) else Voxel(Air)
  }

  /** Runs the allocation and both fill loops. */
  method Initialise() returns (w: World)
    ensures Shipped(w)
    ensures forall x, y, z :: InBox(w, x, y, z) ==>
              Addressable(w, x, y, z) && GetVoxelFromWorld(w, x, y, z) == Initial(y)
  {
    // calloc leaves every voxel with enumerator 0, which is Air.
    w := World([Chunk(seq(Volume, _ => Voxel(Air)))], 1, 1, 1, 16, 16, 16);
    w := FillAir(w);
    w := LayFloor(w);
    forall a, b, c | InBox(w, a, b, c)
      ensures Addressable(w, a, b, c) && GetVoxelFromWorld(w, a, b, c) == Initial(b)
    {
      ShippedAddressing(w, a, b, c);
    }
  }

  /** Every coordinate of the cube is addressable, and the ones the loops
      wrote before reaching (x, y, z) hold Air. */
  ghost predicate AirBefore(w: World, x: int, y: int, z: int)
    requires Shipped(w)
  {
    forall a, b, c {:trigger GetVoxelFromWorld(w, a, b, c)} {:trigger Addressable(w, a, b, c)} :: InChunk(a, b, c) ==>
      Addressable(w, a, b, c)
      && (Before(Coord(a, b, c), Coord(x, y, z)) ==> GetVoxelFromWorld(w, a, b, c) == Voxel(Air))
  }

  /** The first fill loop (main.c:287-293): writes Air at every coordinate
      of the cube, whatever the cube held before. */
  method FillAir(w0: World) returns (w: World)
    requires Shipped(w0)
    ensures Shipped(w)
    ensures forall a, b, c :: InChunk(a, b, c) ==>
              Addressable(w, a, b, c) && GetVoxelFromWorld(w, a, b, c) == Voxel(Air)
  {
    w := w0;
    var x := 0;
    while x < 16
      invariant 0 <= x <= 16
      invariant Shipped(w) && AirBefore(w, x, 0, 0)
    {
      w := FillAirPlane(w, x);
      x := x + 1;
    }
  }

  /** The middle loop of the Air fill: every y, then every z, at one x. */
  method FillAirPlane(w0: World, x: int) returns (w: World)
    requires Shipped(w0) && 0 <= x < 16 && AirBefore(w0, x, 0, 0)
    ensures Shipped(w) && AirBefore(w, x + 1, 0, 0)
  {
    w := w0;
    var y := 0;
    while y < 16
      invariant 0 <= y <= 16
      invariant Shipped(w) && AirBefore(w, x, y, 0)
    {
      w := FillAirColumn(w, x, y);
      y := y + 1;
    }
  }

  /** The innermost loop of the Air fill: every z at one x and y. */
  method FillAirColumn(w0: World, x: int, y: int) returns (w: World)
    requires Shipped(w0) && 0 <= x < 16 && 0 <= y < 16 && AirBefore(w0, x, y, 0)
    ensures Shipped(w) && AirBefore(w, x, y + 1, 0)
  {
    w := w0;
    var z := 0;
    while z < 16
      invariant 0 <= z <= 16
      invariant Shipped(w) && AirBefore(w, x, y, z)
    {
      var w' := WriteShipped(w, x, y, z, Voxel(Air));
      AirStep(w, w', x, y, z);
      w := w';
      z := z + 1;
    }
  }

  /** One write of the Air fill extends the written prefix by one
      coordinate. */
  lemma AirStep(w: World, w': World, x: int, y: int, z: int)
    requires Shipped(w) && InChunk(x, y, z) && AirBefore(w, x, y, z)
    requires w' == WriteShipped(w, x, y, z, Voxel(Air))
    ensures Shipped(w') && AirBefore(w', x, y, z + 1)
  {
  }

  /** Every coordinate of the cube is addressable in both worlds; the
      floor coordinates the second loop wrote before reaching (x, 0, z)
      hold Dirt, and every other coordinate is as in `w0`. */
  ghost predicate FloorBefore(w0: World, w: World, x: int, z: int)
    requires Shipped(w0) && Shipped(w)
  {
    forall a, b, c :: InChunk(a, b, c) ==>
      Addressable(w, a, b, c) && Addressable(w0, a, b, c)
      && GetVoxelFromWorld(w, a, b, c)
           == if b == 0 && (a < x || (a == x && c < z)) then Voxel(Dirt) else GetVoxelFromWorld(w0, a, b, c)
  }

  /** The second fill loop (main.c:295-300): writes Dirt on the y == 0
      plane and leaves the rest of the cube as it was. */
  method LayFloor(w0: World) returns (w: World)
    requires Shipped(w0)
    ensures Shipped(w)
    ensures forall a, b, c :: InChunk(a, b, c) ==>
              Addressable(w, a, b, c) && Addressable(w0, a, b, c)
              && GetVoxelFromWorld(w, a, b, c)
                   == if b == 0 then Voxel(Dirt) else GetVoxelFromWorld(w0, a, b, c)
  {
    w := w0;
    var x := 0;
    FloorStart(w0);
    while x < 16
      invariant 0 <= x <= 16
      invariant Shipped(w) && FloorBefore(w0, w, x, 0)
    {
      var z := 0;
      while z < 16
        invariant 0 <= z <= 16
        invariant Shipped(w) && FloorBefore(w0, w, x, z)
      {
        var w' := WriteShipped(w, x, 0, z, Voxel(Dirt));
        FloorStep(w0, w, w', x, z);
        w := w';
        z := z + 1;
      }
      FloorRowDone(w0, w, x);
      x := x + 1;
    }
  }

  /** Before the second loop nothing of the floor has been written. */
  lemma FloorStart(w0: World)
    requires Shipped(w0)
    ensures FloorBefore(w0, w0, 0, 0)
  {
    forall a, b, c | InChunk(a, b, c)
      ensures Addressable(w0, a, b, c)
    {
      ShippedAddressing(w0, a, b, c);
    }
  }

  /** One write of the second loop extends the written floor by one
      coordinate. */
  lemma FloorStep(w0: World, w: World, w': World, x: int, z: int)
    requires Shipped(w0) && Shipped(w) && 0 <= x < 16 && 0 <= z < 16
    requires FloorBefore(w0, w, x, z)
    requires w' == WriteShipped(w, x, 0, z, Voxel(Dirt))
    ensures Shipped(w') && FloorBefore(w0, w', x, z + 1)
  {
  }

  /** Finishing a row of the floor is starting the next one. */
  lemma FloorRowDone(w0: World, w: World, x: int)
    requires Shipped(w0) && Shipped(w) && FloorBefore(w0, w, x, 16)
    ensures FloorBefore(w0, w, x + 1, 0)
  {
  }

  /** One setVoxelFromWorld call in the shipped configuration, with the
      frame stated over the whole cube. */
  function WriteShipped(w: World, x: int, y: int, z: int, v: Voxel): (w': World)
    requires Shipped(w) && InChunk(x, y, z)
    ensures Shipped(w')
    ensures forall a, b, c :: InChunk(a, b, c) ==>
              Addressable(w', a, b, c)
              && GetVoxelFromWorld(w', a, b, c)
                   == if (a, b, c) == (x, y, z) then v else GetVoxelFromWorld(w, a, b, c)
  {
    ShippedAddressing(w, x, y, z);
    var w' := SetVoxelFromWorld(w, x, y, z, v);
    assert forall a, b, c :: InChunk(a, b, c) ==>
              Addressable(w', a, b, c)
              && GetVoxelFromWorld(w', a, b, c)
                   == if (a, b, c) == (x, y, z) then v else GetVoxelFromWorld(w, a, b, c)
    by {
      forall a, b, c | InChunk(a, b, c)
        ensures Addressable(w', a, b, c)
        ensures GetVoxelFromWorld(w', a, b, c)
                  == if (a, b, c) == (x, y, z) then v else GetVoxelFromWorld(w, a, b, c)
      {
        ShippedAddressing(w, a, b, c);
        if (a, b, c) != (x, y, z) {
          ShippedSetFrame(w, x, y, z, v, a, b, c);
        }
      }
    }
    w'
  }
}
