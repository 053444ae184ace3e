/**
 World construction: the chunk loop of `Start` (shared project) and of the
 `Terrain` constructor (desktop project), a fold of `GenerateChunk` over the
 offsets 0, 20, 40, ... that threads the extrusion point and the decoration
 counter from each chunk to the next.
 */
module World {
  import opened Vectors
  import opened Surface
  import opened Decor
  import opened Terrain

  /** The first n chunks and the state after them; chunk k starts at `k * chunksize`. */
  function Build(e: Env, n: nat): (r: (seq<Chunk>, Carry))
    ensures |r.0| == n
  {
    if n == 0 then ([], Initial)
    else
      var prev := Build(e, n - 1);
      var next := GenerateChunk(e, prev.1, ChunkSize * (n - 1));
      (prev.0 + [next.0], next.1)
  }

  /** The whole terrain of a variant. */
  function Generate(e: Env): seq<Chunk>
  {
    Build(e, e.variant.chunkCount).0
  }

  /** The offsets the loop `for (i = 0; i < chunksize * count; i += chunksize)` visits. */
  function ChunkOffsets(count: nat): (r: seq<int>)
    ensures |r| == count
    ensures forall a, b | 0 <= a < b < count :: r[a] < r[b]
    ensures forall k | 0 <= k < count :: r[k] % ChunkSize == 0 && 0 <= r[k] < ChunkSize * count
  {
    seq(count, k => ChunkSize * k)
  }

  /** The desktop terrain starts its 400 chunks at 0, 20, ..., 7980; the shared one its 200 at 0, ..., 3980. */
  lemma OffsetRanges()
    ensures var d := ChunkOffsets(Desktop.chunkCount); |d| == 400 && d[0] == 0 && d[399] == 7980
    ensures var s := ChunkOffsets(Shared.chunkCount); |s| == 200 && s[0] == 0 && s[199] == 3980
  {
  }

  /** What the fold has built: chunk k starts at offset 20k, and the state carries chunk n-1's last skin vertex. */
  predicate Folded(e: Env, n: nat, r: (seq<Chunk>, Carry))
  {
    && |r.0| == n
    && (forall k | 0 <= k < n :: r.0[k].start == ChunkOffsets(n)[k])
    && (forall k | 0 <= k < n :: |r.0[k].skin| == 6 * SegmentCount && |r.0[k].chain| == SegmentCount + 2)
    && (n == 0 ==> r.1.extrusion == Initial.extrusion)
    && (n > 0 ==> r.1.extrusion == r.0[n - 1].skin[6 * SegmentCount - 1].pos)
  }

  lemma {:induction false} BuildFolded(e: Env, n: nat)
    ensures Folded(e, n, Build(e, n))
  {
    if n > 0 {
      BuildFolded(e, n - 1);
      var prev := Build(e, n - 1);
      ChunkShape(e, prev.1, ChunkSize * (n - 1));
      SkinStrip(e, prev.1, ChunkSize * (n - 1));
      assert Build(e, n).0 == prev.0 + [GenerateChunk(e, prev.1, ChunkSize * (n - 1)).0];
    }
  }

  /** Chunks come out in strictly increasing offset order, chunk k at 20k. */
  lemma ChunksInOrder(e: Env, n: nat)
    ensures var cs := Build(e, n).0;
            && |cs| == n
            && (forall k | 0 <= k < n :: cs[k].start == ChunkSize * k)
            && (forall a, b | 0 <= a < b < n :: cs[a].start < cs[b].start)
  {
    BuildFolded(e, n);
  }

  /** Chunk k never changes once built: it is the same in every longer build. */
  lemma {:induction false} ChunkStable(e: Env, k: nat, n: nat)
    requires k < n
    ensures Build(e, n).0[k] == Build(e, k + 1).0[k]
  {
    if k + 1 < n {
      ChunkStable(e, k, n - 1);
      BuildStep(e, n);
      assert Build(e, n).0[k] == Build(e, n - 1).0[k];
    }
  }

  /** Chunk k of a longer build is the chunk generated from the state after k chunks. */
  lemma ChunkOfBuild(e: Env, k: nat, n: nat)
    requires k < n
    ensures Build(e, n).0[k] == GenerateChunk(e, Build(e, k).1, ChunkSize * k).0
  {
    ChunkStable(e, k, n);
    BuildStep(e, k + 1);
  }

  /** Prefixes agree: building more chunks does not change the earlier ones. */
  lemma BuildPrefix(e: Env, m: nat, n: nat)
    requires m <= n
    ensures Build(e, m).0 == Build(e, n).0[..m]
  {
    forall k | 0 <= k < m
      ensures Build(e, m).0[k] == Build(e, n).0[k]
    {
      ChunkStable(e, k, m);
      ChunkStable(e, k, n);
    }
    SamePrefix(Build(e, m).0, Build(e, n).0);
  }

  /** A sequence that agrees element-wise with the start of a longer one is its prefix. */
  lemma SamePrefix(a: seq<Chunk>, b: seq<Chunk>)
    requires |a| <= |b|
    requires forall k | 0 <= k < |a| :: a[k] == b[k]
    ensures a == b[..|a|]
  {
  }

  /** Chunk `next`'s first skin vertex is chunk `prev`'s last one, moved one chunk width left. */
  predicate SkinSeam(prev: Chunk, next: Chunk)
  {
    |prev.skin| == 6 * SegmentCount && |next.skin| == 6 * SegmentCount && next.skin[0].pos == ShiftX(prev.skin[6 * SegmentCount - 1].pos, -(ChunkSize as real))
  }

  /**
   Skin seams: chunk 0's first skin vertex is the origin, and every later
   chunk's first skin vertex is the previous chunk's last one moved 20 left,
   the same world point seen from the next chunk's node.
   */
  lemma SkinSeams(e: Env, n: nat)
    ensures var cs := Build(e, n).0;
            && (n > 0 ==> |cs[0].skin| == 6 * SegmentCount && cs[0].skin[0].pos == Vec3(0.0, 0.0, 0.0))
            && (forall k | 0 <= k < n - 1 :: SkinSeam(cs[k], cs[k + 1]))
  {
    var cs := Build(e, n).0;
    if n > 0 {
      ChunkOfBuild(e, 0, n);
      ChunkEnds(e, Initial, 0);
    }
    forall k | 0 <= k < n - 1
      ensures SkinSeam(cs[k], cs[k + 1])
    {
      SkinSeamAt(e, k, n);
    }
  }

  lemma SkinSeamAt(e: Env, k: nat, n: nat)
    requires k + 1 < n
    ensures SkinSeam(Build(e, n).0[k], Build(e, n).0[k + 1])
  {
    var a := Build(e, k).1;
    var b := Build(e, k + 1).1;
    ChunkOfBuild(e, k, n);
    ChunkOfBuild(e, k + 1, n);
    ChunkEnds(e, a, ChunkSize * k);
    ChunkEnds(e, b, ChunkSize * (k + 1));
    assert b == GenerateChunk(e, a, ChunkSize * k).1;
  }

  /** A chain vertex of chunk c in world coordinates. */
  function WorldPoint(c: Chunk, v: Vec2): Vec2
  {
    Vec2(c.start as real + v.x, v.y)
  }

  /**
   The chains of two neighbouring chunks meet: `prev`'s last vertex is, in
   world coordinates, `next`'s first surface point, and `next`'s lead-in
   vertex lies a quarter unit behind it.
   */
  predicate ChainSeam(prev: Chunk, next: Chunk)
  {
    && |prev.chain| == SegmentCount + 2 && |next.chain| == SegmentCount + 2
    && WorldPoint(prev, prev.chain[SegmentCount + 1]) == WorldPoint(next, next.chain[1])
    && WorldPoint(next, next.chain[0]).x == WorldPoint(prev, prev.chain[SegmentCount + 1]).x - Incr * 0.5
  }

  lemma ChainSeamAt(e: Env, k: nat, n: nat)
    requires k + 1 < n
    ensures ChainSeam(Build(e, n).0[k], Build(e, n).0[k + 1])
  {
    var a := Build(e, k).1;
    var b := Build(e, k + 1).1;
    ChunkOfBuild(e, k, n);
    ChunkOfBuild(e, k + 1, n);
    ChunkEnds(e, a, ChunkSize * k);
    ChunkEnds(e, b, ChunkSize * (k + 1));
    var x := (ChunkSize * k) as real + ChunkSize as real;
    assert ChunkSize * (k + 1) == ChunkSize * k + ChunkSize;
    assert x == (ChunkSize * (k + 1)) as real;
    assert SampleSurface(e, x) == SampleSurface(e, (ChunkSize * (k + 1)) as real + 0.0);
  }

  /**
   Collision seams: the last chain vertex of chunk k is, in world
   coordinates, the first surface point of chunk k+1; the next chunk's
   lead-in vertex lies a quarter unit behind it, so the chains overlap at
   every seam and their concatenation is not ordered by x.
   */
  lemma ChainSeams(e: Env, n: nat)
    ensures forall k | 0 <= k < n - 1 :: ChainSeam(Build(e, n).0[k], Build(e, n).0[k + 1])
  {
    forall k | 0 <= k < n - 1
      ensures ChainSeam(Build(e, n).0[k], Build(e, n).0[k + 1])
    {
      ChainSeamAt(e, k, n);
    }
  }

  /** Total number of decorations placed in a sequence of chunks. */
  function DecorCount(cs: seq<Chunk>): nat
  {
    CountUpTo(cs, |cs|)
  }

  /** Decorations placed in the first k chunks of cs. */
  function CountUpTo(cs: seq<Chunk>, k: nat): nat
    requires k <= |cs|
  {
    if k == 0 then 0 else CountUpTo(cs, k - 1) + |cs[k - 1].decor|
  }

  /** Appending a chunk leaves the counts of the earlier prefixes alone. */
  lemma {:induction false} CountUpToAppend(cs: seq<Chunk>, c: Chunk, k: nat)
    requires k <= |cs|
    ensures CountUpTo(cs + [c], k) == CountUpTo(cs, k)
  {
    if k > 0 {
      CountUpToAppend(cs, c, k - 1);
      assert (cs + [c])[k - 1] == cs[k - 1];
    }
  }

  /** Counting over one more chunk adds that chunk's decorations. */
  lemma DecorCountAppend(cs: seq<Chunk>, c: Chunk)
    ensures DecorCount(cs + [c]) == DecorCount(cs) + |c.decor|
  {
    CountUpToAppend(cs, c, |cs|);
    assert (cs + [c])[|cs|] == c;
  }

  /** One more chunk: the build of n chunks extends that of n-1 by the chunk generated from its state. */
  lemma BuildStep(e: Env, n: nat)
    requires n > 0
    ensures var g := GenerateChunk(e, Build(e, n - 1).1, ChunkSize * (n - 1));
            Build(e, n).0 == Build(e, n - 1).0 + [g.0] && Build(e, n).1 == g.1
  {
  }

  /** One more chunk's effect on the counter and on the number of decorations. */
  lemma DecorStep(e: Env, n: nat)
    requires n > 0
    ensures var a := Build(e, n - 1);
            var b := Build(e, n);
            var d := a.1.decor.discard;
            && (e.variant.decorEnabled ==>
                  b.1.decor.discard == d + SegmentCount && DecorCount(b.0) <= DecorCount(a.0) + ((d + SegmentCount) / 3 - d / 3))
            && (!e.variant.decorEnabled ==> b.1.decor == a.1.decor && DecorCount(b.0) == DecorCount(a.0))
  {
    var prev := Build(e, n - 1);
    var g := GenerateChunk(e, prev.1, ChunkSize * (n - 1));
    ChunkDecor(e, prev.1, ChunkSize * (n - 1));
    BuildStep(e, n);
    DecorCountAppend(prev.0, g.0);
  }

  /**
   With decorations live the shared counter has seen 40 calls per chunk and
   at most a third of them placed anything: no more than 40n/3 decorations in
   n chunks. With them disabled the counter stays 0 and nothing is placed.
   */
  lemma DecorDensity(e: Env, n: nat)
    ensures var r := Build(e, n);
            && (e.variant.decorEnabled ==> r.1.decor.discard == SegmentCount * n && DecorCount(r.0) <= SegmentCount * n / 3)
            && (!e.variant.decorEnabled ==> r.1.decor == DecorState(0, 0) && DecorCount(r.0) == 0)
  {
    if e.variant.decorEnabled {
      LiveDensity(e, n);
    } else {
      DisabledDensity(e, n);
    }
  }

  /** The live half of `DecorDensity`, by induction over the chunks. */
  lemma {:induction false} LiveDensity(e: Env, n: nat)
    requires e.variant.decorEnabled
    ensures Build(e, n).1.decor.discard == SegmentCount * n && DecorCount(Build(e, n).0) <= SegmentCount * n / 3
  {
    if n > 0 {
      LiveDensity(e, n - 1);
      DecorStep(e, n);
      var a := Build(e, n - 1);
      var b := Build(e, n);
      BudgetStep(n, a.1.decor.discard, b.1.decor.discard, DecorCount(a.0), DecorCount(b.0));
    }
  }

  /** The disabled half of `DecorDensity`, by induction over the chunks. */
  lemma {:induction false} DisabledDensity(e: Env, n: nat)
    requires !e.variant.decorEnabled
    ensures Build(e, n).1.decor == DecorState(0, 0) && DecorCount(Build(e, n).0) == 0
  {
    if n > 0 {
      DisabledDensity(e, n - 1);
      DecorStep(e, n);
    }
  }

  /** The live budget after n chunks from the budget after n-1 and one chunk's share. */
  lemma BudgetStep(n: nat, d0: nat, d1: nat, k0: nat, k1: nat)
    requires n > 0
    requires d0 == SegmentCount * (n - 1) && k0 <= SegmentCount * (n - 1) / 3
    requires d1 == d0 + SegmentCount && k1 <= k0 + ((d0 + SegmentCount) / 3 - d0 / 3)
    ensures d1 == SegmentCount * n && k1 <= SegmentCount * n / 3
  {
  }

  /**
   The desktop terrain: no decoration anywhere, the counter never moves, and
   every ground vertex and every top-edge skin vertex lies in the z = -10 plane.
   */
  lemma DesktopTerrain(e: Env, n: nat)
    requires e.variant == Desktop
    ensures var r := Build(e, n);
            && r.1.decor == DecorState(0, 0)
            && DecorCount(r.0) == 0
            && (forall k | 0 <= k < n :: InPlane(r.0[k], -10.0))
  {
    DecorDensity(e, n);
    forall k | 0 <= k < n
      ensures InPlane(Build(e, n).0[k], -10.0)
    {
      ChunkOfBuild(e, k, n);
      ChunkInPlane(e, Build(e, k).1, ChunkSize * k);
    }
  }

  /**
   Chunk k's decorations are the closed-form calls of its 40 segments, made
   from the counter and RNG position the first k chunks left; the state after
   k+1 chunks is what those calls leave.
   */
  lemma ChunkDecorOfBuild(e: Env, k: nat, n: nat)
    requires k < n
    ensures var before := Build(e, k).1.decor;
            var calls := DecorCalls(e, ChunkSize * k, before, SegmentCount);
            Build(e, n).0[k].decor == calls.1 && Build(e, k + 1).1.decor == calls.0
  {
    ChunkOfBuild(e, k, n);
    BuildStep(e, k + 1);
    ChunkDecor(e, Build(e, k).1, ChunkSize * k);
  }

  /**
   The whole terrain of a variant: one chunk per offset, in order; with
   decorations live at most a third of the 40 calls per chunk place
   anything (at most 2666 decorations in the shared world); the desktop
   world has none.
   */
  lemma GenerateWorld(e: Env)
    ensures var w := Generate(e);
            && |w| == e.variant.chunkCount
            && (forall k | 0 <= k < |w| :: w[k].start == ChunkOffsets(e.variant.chunkCount)[k])
            && (e.variant.decorEnabled ==> DecorCount(w) <= SegmentCount * e.variant.chunkCount / 3)
            && (!e.variant.decorEnabled ==> DecorCount(w) == 0)
            && (e.variant == Shared ==> DecorCount(w) <= 2666)
  {
    ChunksInOrder(e, e.variant.chunkCount);
    DecorDensity(e, e.variant.chunkCount);
  }
}
