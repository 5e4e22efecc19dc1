/** Choosing what to draw each frame (main.c:71-109): renderWorld walks
    the world's whole extent and passes every non-Air voxel to renderVoxel,
    which draws it with the texture its kind indexes or logs an error when
    the texture table has no such entry. The drawing itself is left out;
    what is kept is the sequence of outcomes. */
module Rendering {
  import opened Voxels
  import opened Chunks
  import opened Worlds

  /** What one call of renderVoxel produces: a textured cube drawn at a
      coordinate, or an error line for a kind past the end of the texture
      table. */
  datatype RenderEvent = Drawn(at: Coord, texture: nat) | KindOutOfRange(kind: nat)

  /** renderVoxel: nothing for Air, an error for a kind whose enumerator is
      not below `textureCount`, otherwise a draw using the enumerator as the
      texture index. */
  function RenderVoxel(textureCount: nat, v: Voxel, at: Coord): (r: seq<RenderEvent>)
    ensures |r| <= 1
    ensures r == [] <==> v.kind == Air
    ensures forall e :: e in r ==> (e.Drawn? <==> Ordinal(v.kind) < textureCount)
    ensures forall e :: e in r && e.Drawn? ==> e.at == at && e.texture == Ordinal(v.kind)
    ensures forall e :: e in r && e.KindOutOfRange? ==> e.kind == Ordinal(v.kind)
  {
    var k := Ordinal(v.kind);
    if v.kind == Air then []
    else if k >= textureCount then [KindOutOfRange(k)]
    else [Drawn(at, k)]
  }

  /** Every coordinate of the extent can be read without leaving the
      allocation; the loops read all of them. */
  ghost predicate RenderSafe(w: World)
  {
    Valid(w) && forall x, y, z {:trigger Addressable(w, x, y, z)} :: InBox(w, x, y, z) ==> Addressable(w, x, y, z)
  }

  /** A visit order that covers the extent exactly: every coordinate of the
      extent, nothing else, each once, in loop order. */
  ghost predicate ScansBox(w: World, cs: seq<Coord>)
  {
    && (forall c :: c in cs <==> InBox(w, c.x, c.y, c.z))
    && (forall i, j :: 0 <= i < j < |cs| ==> Before(cs[i], cs[j]))
  }

  /** The body of the innermost loop at one coordinate: skip Air, otherwise
      hand the voxel to renderVoxel. At most one outcome, none exactly when
      the coordinate is outside the extent or holds Air, and a draw only
      at that coordinate. */
  function VisitEvents(w: World, textureCount: nat, c: Coord): (r: seq<RenderEvent>)
    requires RenderSafe(w)
    ensures |r| <= 1
    ensures r == [] <==> !InBox(w, c.x, c.y, c.z) || GetVoxelFromWorld(w, c.x, c.y, c.z).kind == Air
    ensures forall e :: e in r && e.Drawn? ==> e.at == c
  {
    if !InBox(w, c.x, c.y, c.z) then []
    else
      var v := GetVoxelFromWorld(w, c.x, c.y, c.z);
      if v.kind == Air then [] else RenderVoxel(textureCount, v, c)
  }

  /** The outcomes of visiting the coordinates `cs` in order: at most one
      per coordinate, and every draw at one of them. */
  function EventsOf(w: World, textureCount: nat, cs: seq<Coord>): (r: seq<RenderEvent>)
    requires RenderSafe(w)
    ensures |r| <= |cs|
    ensures forall e :: e in r && e.Drawn? ==> e.at in cs
  {
    if cs == [] then []
    else EventsOf(w, textureCount, cs[..|cs| - 1]) + VisitEvents(w, textureCount, cs[|cs| - 1])
  }

  /** `cs` visits, in loop order, exactly the coordinates of the extent
      that come before `p`. */
  ghost predicate ScannedUpTo(w: World, cs: seq<Coord>, p: Coord)
  {
    && (forall c :: c in cs <==> InBox(w, c.x, c.y, c.z) && Before(c, p))
    && (forall i, j :: 0 <= i < j < |cs| ==> Before(cs[i], cs[j]))
  }

  /** renderWorld. Returns the coordinates in the order visited and the
      outcomes produced: the visit order scans the world's extent exactly
      once in x, y, z nesting order, and the outcomes are those of visiting
      it in that order. */
  method RenderWorld(w: World, textureCount: nat) returns (visited: seq<Coord>, events: seq<RenderEvent>)
    requires RenderSafe(w)
    ensures ScansBox(w, visited)
    ensures events == EventsOf(w, textureCount, visited)
  {
    visited := [];
    events := [];
    var x := 0;
    while x < w.width * w.chunkWidth
      invariant 0 <= x <= w.width * w.chunkWidth
      invariant ScannedUpTo(w, visited, Coord(x, 0, 0))
      invariant events == EventsOf(w, textureCount, visited)
    {
      visited, events := RenderPlane(w, textureCount, x, visited, events);
      x := x + 1;
    }
  }

  /** The middle loop of renderWorld: every y, then every z, at one x. */
  method RenderPlane(w: World, textureCount: nat, x: int, visited0: seq<Coord>, events0: seq<RenderEvent>)
    returns (visited: seq<Coord>, events: seq<RenderEvent>)
    requires RenderSafe(w) && 0 <= x < w.width * w.chunkWidth
    requires ScannedUpTo(w, visited0, Coord(x, 0, 0))
    requires events0 == EventsOf(w, textureCount, visited0)
    ensures ScannedUpTo(w, visited, Coord(x + 1, 0, 0))
    ensures events == EventsOf(w, textureCount, visited)
  {
    visited, events := visited0, events0;
    var y := 0;
    while y < w.height * w.chunkHeight
      invariant 0 <= y <= w.height * w.chunkHeight
      invariant ScannedUpTo(w, visited, Coord(x, y, 0))
      invariant events == EventsOf(w, textureCount, visited)
    {
      visited, events := RenderColumn(w, textureCount, x, y, visited, events);
      y := y + 1;
    }
    PlaneDone(w, visited, x);
  }

  /** The innermost loop of renderWorld: every z at one x and y. */
  method RenderColumn(w: World, textureCount: nat, x: int, y: int, visited0: seq<Coord>, events0: seq<RenderEvent>)
    returns (visited: seq<Coord>, events: seq<RenderEvent>)
    requires RenderSafe(w) && 0 <= x < w.width * w.chunkWidth && 0 <= y < w.height * w.chunkHeight
    requires ScannedUpTo(w, visited0, Coord(x, y, 0))
    requires events0 == EventsOf(w, textureCount, visited0)
    ensures ScannedUpTo(w, visited, Coord(x, y + 1, 0))
    ensures events == EventsOf(w, textureCount, visited)
  {
    visited, events := visited0, events0;
    var z := 0;
    while z < w.depth * w.chunkDepth
      invariant 0 <= z <= w.depth * w.chunkDepth
      invariant ScannedUpTo(w, visited, Coord(x, y, z))
      invariant events == EventsOf(w, textureCount, visited)
    {
      var here := Coord(x, y, z);
      var voxel := GetVoxelFromWorld(w, x, y, z);
      ColumnStep(w, textureCount, visited, here);
      if voxel.kind != Air {
        events := events + RenderVoxel(textureCount, voxel, here);
      }
      visited := visited + [here];
      z := z + 1;
    }
    ColumnDone(w, visited, x, y);
  }

  /** One pass of the innermost loop body: visiting the next coordinate of
      a column extends the scan prefix and appends what renderVoxel makes
      of a voxel that is not Air. */
  lemma ColumnStep(w: World, textureCount: nat, cs: seq<Coord>, p: Coord)
    requires RenderSafe(w) && ScannedUpTo(w, cs, p) && InBox(w, p.x, p.y, p.z)
    ensures ScannedUpTo(w, cs + [p], Coord(p.x, p.y, p.z + 1))
    ensures var v := GetVoxelFromWorld(w, p.x, p.y, p.z);
            EventsOf(w, textureCount, cs + [p])
              == EventsOf(w, textureCount, cs) + if v.kind == Air then [] else RenderVoxel(textureCount, v, p)
  {
    EventsSnoc(w, textureCount, cs, p);
    ScanStep(w, cs, p);
  }

  /** Visiting one more coordinate appends its outcomes. */
  lemma EventsSnoc(w: World, textureCount: nat, cs: seq<Coord>, c: Coord)
    requires RenderSafe(w) && InBox(w, c.x, c.y, c.z) && forall d :: d in cs ==> InBox(w, d.x, d.y, d.z)
    ensures EventsOf(w, textureCount, cs + [c]) == EventsOf(w, textureCount, cs) + VisitEvents(w, textureCount, c)
  {
    assert (cs + [c])[..|cs|] == cs;
  }

  /** Visiting the next coordinate of a column extends a scan prefix. */
  lemma ScanStep(w: World, cs: seq<Coord>, p: Coord)
    requires ScannedUpTo(w, cs, p) && InBox(w, p.x, p.y, p.z)
    ensures ScannedUpTo(w, cs + [p], Coord(p.x, p.y, p.z + 1))
  {
    assert forall i :: 0 <= i < |cs| ==> cs[i] in cs;
  }

  /** An outcome is produced by visiting a sequence exactly when it is
      produced by visiting one of its coordinates. */
  lemma {:induction false} EventsMembership(w: World, textureCount: nat, cs: seq<Coord>, e: RenderEvent)
    requires RenderSafe(w) && forall d :: d in cs ==> InBox(w, d.x, d.y, d.z)
    ensures e in EventsOf(w, textureCount, cs) <==> exists c :: c in cs && e in VisitEvents(w, textureCount, c)
  {
    if cs != [] {
      var init, last := cs[..|cs| - 1], cs[|cs| - 1];
      assert cs == init + [last];
      EventsMembership(w, textureCount, init, e);
      if e in EventsOf(w, textureCount, cs) && e !in EventsOf(w, textureCount, init) {
        assert last in cs && e in VisitEvents(w, textureCount, last);
      }
      if c :| c in cs && e in VisitEvents(w, textureCount, c) {
        if c != last {
          assert c in init;
        }
      }
    }
  }

  /** A frame draws a cube at a coordinate, with a given texture, exactly
      when that coordinate is in the world's extent, holds a voxel that is
      not Air, and the voxel's enumerator is a valid texture index equal to
      the given one. */
  lemma DrawnExactly(w: World, textureCount: nat, visited: seq<Coord>, c: Coord, t: nat)
    requires RenderSafe(w) && ScansBox(w, visited)
    ensures Drawn(c, t) in EventsOf(w, textureCount, visited)
            <==> InBox(w, c.x, c.y, c.z)
                 && GetVoxelFromWorld(w, c.x, c.y, c.z).kind != Air
                 && Ordinal(GetVoxelFromWorld(w, c.x, c.y, c.z).kind) < textureCount
                 && t == Ordinal(GetVoxelFromWorld(w, c.x, c.y, c.z).kind)
  {
    EventsMembership(w, textureCount, visited, Drawn(c, t));
    if Drawn(c, t) in EventsOf(w, textureCount, visited) {
      var d :| d in visited && Drawn(c, t) in VisitEvents(w, textureCount, d);
      assert d == c;
    }
  }

  /** Of any two draws in `es`, the earlier is at a coordinate strictly
      before the later. */
  ghost predicate DrawsInOrder(es: seq<RenderEvent>)
  {
    forall i, j :: 0 <= i < j < |es| && es[i].Drawn? && es[j].Drawn? ==> Before(es[i].at, es[j].at)
  }

  /** Draws come out in loop order with no coordinate drawn twice. */
  lemma {:induction false} DrawsInScanOrder(w: World, textureCount: nat, cs: seq<Coord>)
    requires RenderSafe(w) && forall d :: d in cs ==> InBox(w, d.x, d.y, d.z)
    requires forall i, j :: 0 <= i < j < |cs| ==> Before(cs[i], cs[j])
    ensures DrawsInOrder(EventsOf(w, textureCount, cs))
  {
    if cs != [] {
      var init, last := cs[..|cs| - 1], cs[|cs| - 1];
      assert forall d :: d in init ==> d in cs;
      assert forall i, j :: 0 <= i < j < |init| ==> init[i] == cs[i] && init[j] == cs[j];
      DrawsInScanOrder(w, textureCount, init);
      var pre := EventsOf(w, textureCount, init);
      var post := VisitEvents(w, textureCount, last);
      var es := EventsOf(w, textureCount, cs);
      assert es == pre + post;
      forall i, j | 0 <= i < j < |es| && es[i].Drawn? && es[j].Drawn?
        ensures Before(es[i].at, es[j].at)
      {
        if j >= |pre| {
          LastDrawAfterEarlier(w, textureCount, cs, pre, post, es, i, j);
        } else {
          assert es[i] == pre[i] && es[j] == pre[j];
        }
      }
    }
  }

  /** The step of DrawsInScanOrder for a later draw made at the last
      coordinate. */
  lemma LastDrawAfterEarlier(w: World, textureCount: nat, cs: seq<Coord>,
                             pre: seq<RenderEvent>, post: seq<RenderEvent>, es: seq<RenderEvent>, i: int, j: int)
    requires RenderSafe(w) && forall d :: d in cs ==> InBox(w, d.x, d.y, d.z)
    requires forall i, j :: 0 <= i < j < |cs| ==> Before(cs[i], cs[j])
    requires cs != []
    requires pre == EventsOf(w, textureCount, cs[..|cs| - 1])
    requires post == VisitEvents(w, textureCount, cs[|cs| - 1])
    requires es == pre + post
    requires 0 <= i < j < |es| && |pre| <= j && es[i].Drawn? && es[j].Drawn?
    ensures Before(es[i].at, es[j].at)
  {
    var init := cs[..|cs| - 1];
    assert |post| <= 1;
    assert i < |pre|;
    assert es[j] == post[j - |pre|];
    assert es[j].at == cs[|cs| - 1];
    assert es[i] == pre[i];
    var m :| 0 <= m < |init| && init[m] == es[i].at;
    assert cs[m] == es[i].at;
  }

  /** When the texture table has an entry for every kind, as in the
      program's four-entry table, renderVoxel never logs an error. */
  lemma {:induction false} NoKindErrors(w: World, textureCount: nat, cs: seq<Coord>)
    requires RenderSafe(w) && forall d :: d in cs ==> InBox(w, d.x, d.y, d.z)
    requires KindCount <= textureCount
    ensures forall e :: e in EventsOf(w, textureCount, cs) ==> e.Drawn?
  {
    if cs != [] {
      NoKindErrors(w, textureCount, cs[..|cs| - 1]);
    }
  }

  /** The shipped one-chunk world can be rendered without leaving its
      allocation. */
  lemma ShippedRenderSafe(w: World)
    requires Shipped(w)
    ensures RenderSafe(w)
  {
  }

  /** Finishing a column of the extent is starting the next column. */
  lemma ColumnDone(w: World, cs: seq<Coord>, x: int, y: int)
    requires ScannedUpTo(w, cs, Coord(x, y, w.depth * w.chunkDepth))
    ensures ScannedUpTo(w, cs, Coord(x, y + 1, 0))
  {
  }

  /** Finishing a plane of the extent is starting the next plane. */
  lemma PlaneDone(w: World, cs: seq<Coord>, x: int)
    requires ScannedUpTo(w, cs, Coord(x, w.height * w.chunkHeight, 0))
    ensures ScannedUpTo(w, cs, Coord(x + 1, 0, 0))
  {
  }
}
