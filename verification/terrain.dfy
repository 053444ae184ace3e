/**
 `GenerateChunk`: one 20-unit chunk of terrain, built from 40 sub-segments of
 width 0.5. Each segment appends six ground-mesh vertices (triangles
 (bl,tl,tr) and (bl,tr,br)), six surface-skin vertices (a quad between the
 carried extrusion point and the top edge), one collision-chain point and
 one decoration call. The extrusion point is the only state carried from
 segment to segment and, through `Carry`, from chunk to chunk.
 */
module Terrain {
  import opened Options
  import opened Vectors
  import opened Surface
  import opened Decor

  /** A mesh vertex with its texture coordinate. */
  datatype Vertex = Vertex(pos: Vec3, uv: Vec2)

  /**
   A finished chunk, in chunk-local coordinates (the node sits at
   `(start, 0)`); decorations are in world coordinates.
   */
  datatype Chunk = Chunk(start: int, ground: seq<Vertex>, skin: seq<Vertex>, chain: seq<Vec2>, decor: seq<Decoration>)

  /** What one chunk hands to the next: `lastSurfaceExtrusion`, the decoration counter and RNG position. */
  datatype Carry = Carry(extrusion: Vec3, decor: DecorState)

  /** The generator's state before the first chunk: `Vector3.Right * chunksize`, counter 0. */
  const Initial := Carry(Vec3(ChunkSize as real, 0.0, 0.0), DecorState(0, 0))

  // ---------------------------------------------------------------------------
  // The loop body and the loop, as the source runs them
  // ---------------------------------------------------------------------------

  /** What one pass of the segment loop emits. */
  datatype SegmentOut = SegmentOut(
    ground: seq<Vertex>, skin: seq<Vertex>, top: Vec2, decorAt: Vec3, slope: Vec3, extrusion: Vec3)

  /** Ground-mesh vertex: texture coordinate is the position's (x, y) over the chunk width. */
  function GroundVertex(p: Vec3): Vertex
  {
    Vertex(p, Vec2(p.x / ChunkSize as real, p.y / ChunkSize as real))
  }

  /** One pass of the loop at `i`, with `extrusion` the point carried in. */
  function Segment(e: Env, startx: int, i: real, extrusion: Vec3): SegmentOut
  {
    var iend := i + Incr;
    var tlY := SampleSurface(e, startx as real + i);
    var trY := SampleSurface(e, startx as real + iend);
    var blY := tlY + ChunkHeight as real;
    var brY := trY + ChunkHeight as real;
    var z := e.variant.depth;
    var bl := Vec3(i, blY, z);
    var tl := Vec3(i, tlY, z);
    var br := Vec3(iend, brY, z);
    var tr := Vec3(iend, trY, z);
    var startV := Vec2(i / ChunkSize as real * SurfaceRepeat as real, 0.0);
    var endV := Vec2(iend / ChunkSize as real * SurfaceRepeat as real, 0.0);
    var next := Add(tr, e.offset(tl, tr));
    SegmentOut(
      [GroundVertex(bl), GroundVertex(tl), GroundVertex(tr), GroundVertex(bl), GroundVertex(tr), GroundVertex(br)],
      [Vertex(extrusion, startV), Vertex(tl, Vec2(startV.x, -1.0)), Vertex(tr, Vec2(endV.x, -1.0)),
       Vertex(extrusion, startV), Vertex(tr, Vec2(endV.x, -1.0)), Vertex(next, endV)],
      Flat(tr),
      ShiftX(tr, startx as real),
      Sub(tl, tr),
      next)
  }

  /** The loop's accumulated output. */
  datatype Progress = Progress(
    ground: seq<Vertex>, skin: seq<Vertex>, surface: seq<Vec2>, extrusion: Vec3, decorState: DecorState, decor: seq<Decoration>)

  /** The value of the loop variable `i` on pass `k` (0.5 steps are exact in single precision). */
  function X(k: nat): real
  {
    k as real * Incr
  }

  /** One pass of the loop applied to the accumulated output: pass j runs at `i = X(j)`. */
  function Advance(e: Env, startx: int, p: Progress, j: nat): Progress
  {
    var s := Segment(e, startx, X(j), p.extrusion);
    var d := CreateDecor(e, p.decorState, s.decorAt, s.slope);
    Progress(p.ground + s.ground, p.skin + s.skin, p.surface + [s.top], s.extrusion, d.0, p.decor + ToSeq(d.1))
  }

  /** The first `n` passes of the loop, starting from `first`. */
  function Segments(e: Env, startx: int, first: Progress, n: nat): Progress
  {
    if n == 0 then first else Advance(e, startx, Segments(e, startx, first, n - 1), n - 1)
  }

  /** The state entering the loop: surface list holds its first point, the carried point is moved one chunk left. */
  function First(e: Env, carry: Carry, startx: int): Progress
  {
    Progress([], [], [Vec2(0.0, SampleSurface(e, startx as real))], ShiftX(carry.extrusion, -(ChunkSize as real)),
             carry.decor, [])
  }

  function ChunkProgress(e: Env, carry: Carry, startx: int): Progress
  {
    Segments(e, startx, First(e, carry, startx), SegmentCount)
  }

  /** The collision chain's lead-in vertex, half a step before the chunk and 0.005 lower. */
  function Smoother(e: Env, startx: int): Vec2
  {
    Vec2(-Incr * 0.5, SampleSurface(e, startx as real - Incr * 0.5) - 0.005)
  }

  /** `GenerateChunk(startx)`: the chunk and the state handed to the next chunk. */
  function GenerateChunk(e: Env, carry: Carry, startx: int): (Chunk, Carry)
  {
    var p := ChunkProgress(e, carry, startx);
    (Chunk(startx, p.ground, p.skin, [Smoother(e, startx)] + p.surface, p.decor), Carry(p.extrusion, p.decorState))
  }

  // ---------------------------------------------------------------------------
  // Closed forms: where each emitted vertex lies, independent of the loop
  // ---------------------------------------------------------------------------

  /** The k-th surface sample of the chunk at `startx`: `(k/2, h(startx + k/2))` in the mesh plane. */
  function TopPoint(e: Env, startx: int, k: nat): Vec3
  {
    Vec3(X(k), SampleSurface(e, startx as real + X(k)), e.variant.depth)
  }

  /** The extrusion point in force when segment j starts. */
  function Extrusion(e: Env, startx: int, entry: Vec3, j: nat): Vec3
  {
    if j == 0 then entry
    else Add(TopPoint(e, startx, j), e.offset(TopPoint(e, startx, j - 1), TopPoint(e, startx, j)))
  }

  /** Skin texture abscissa at sample k: `k * incr / chunksize * repeat`. */
  function U(k: nat): real
  {
    X(k) / ChunkSize as real * SurfaceRepeat as real
  }

  /** The j-th group of six vertices of a triangle list. */
  function Quad(s: seq<Vertex>, j: nat): seq<Vertex>
    requires 6 * j + 6 <= |s|
  {
    [s[6 * j], s[6 * j + 1], s[6 * j + 2], s[6 * j + 3], s[6 * j + 4], s[6 * j + 5]]
  }

  /** A vertex of the ground mesh lies in the mesh plane and is textured by planar projection. */
  predicate PlanarGround(e: Env, v: Vertex)
  {
    v.pos.z == e.variant.depth && v.uv == Vec2(v.pos.x / ChunkSize as real, v.pos.y / ChunkSize as real)
  }

  /** Ground quad j in closed form: the two top samples and the points one chunk height (100) below them. */
  predicate GroundQuadAt(e: Env, startx: int, q: seq<Vertex>, j: nat)
  {
    var tl := TopPoint(e, startx, j);
    var tr := TopPoint(e, startx, j + 1);
    && |q| == 6
    && q[1].pos == tl && q[2].pos == tr && q[4].pos == tr
    && q[0].pos == Vec3(tl.x, tl.y + ChunkHeight as real, tl.z) && q[3].pos == q[0].pos
    && q[5].pos == Vec3(tr.x, tr.y + ChunkHeight as real, tr.z)
    && (forall m | 0 <= m < 6 :: PlanarGround(e, q[m]))
  }

  /** Skin quad j in closed form: carried point, top edge, new extrusion point, tiled texture. */
  predicate SkinQuadAt(e: Env, startx: int, entry: Vec3, q: seq<Vertex>, j: nat)
  {
    var tl := TopPoint(e, startx, j);
    var tr := TopPoint(e, startx, j + 1);
    && |q| == 6
    && q[0] == Vertex(Extrusion(e, startx, entry, j), Vec2(U(j), 0.0))
    && q[1] == Vertex(tl, Vec2(U(j), -1.0))
    && q[2] == Vertex(tr, Vec2(U(j + 1), -1.0))
    && q[3] == q[0]
    && q[4] == q[2]
    && q[5] == Vertex(Extrusion(e, startx, entry, j + 1), Vec2(U(j + 1), 0.0))
  }

  /** Where segment j's decoration call is made: sample j+1 in world coordinates (`tr + Right * startx`). */
  function DecorAt(e: Env, startx: int, j: nat): Vec3
  {
    ShiftX(TopPoint(e, startx, j + 1), startx as real)
  }

  /** The slope handed to segment j's decoration call: `tl - tr`. */
  function DecorSlope(e: Env, startx: int, j: nat): Vec3
  {
    Sub(TopPoint(e, startx, j), TopPoint(e, startx, j + 1))
  }

  /**
   The first n decoration calls of a chunk in closed form: call j at
   `DecorAt(j)` with `DecorSlope(j)`, the counter and RNG position threaded
   from `ds0`, every placement kept in call order.
   */
  function DecorCalls(e: Env, startx: int, ds0: DecorState, n: nat): (DecorState, seq<Decoration>)
  {
    if n == 0 then (ds0, [])
    else
      var prev := DecorCalls(e, startx, ds0, n - 1);
      var d := CreateDecor(e, prev.0, DecorAt(e, startx, n - 1), DecorSlope(e, startx, n - 1));
      (d.0, prev.1 + ToSeq(d.1))
  }

  /**
   A decoration placed by call j of a chunk: the call passed the one-in-three
   gate, and the sprite stands 15 in front of sample j+1 in world
   coordinates, a tree 0.1 lower.
   */
  predicate PlacedAt(e: Env, startx: int, ds0: DecorState, d: Decoration, j: nat)
  {
    var at := DecorAt(e, startx, j);
    && Proceeds(ds0.discard + j + 1)
    && d.index < |Catalog|
    && d.pos == Vec3(at.x, if Catalog[d.index] == Tree then at.y - 0.1 else at.y, at.z + 15.0)
  }

  /** The call a placement's x comes from: call j stands at x = startx + (j + 1) / 2. */
  function CallIndex(startx: int, d: Decoration): int
  {
    ((d.pos.x - startx as real) * 2.0).Floor - 1
  }

  /** A placement made by call j is recognised by its x. */
  lemma CallIndexOf(e: Env, startx: int, ds0: DecorState, d: Decoration, j: nat)
    requires PlacedAt(e, startx, ds0, d, j)
    ensures CallIndex(startx, d) == j
  {
    assert d.pos.x - startx as real == X(j + 1);
    assert (d.pos.x - startx as real) * 2.0 == (j + 1) as real;
  }

  /** Placement i of a list, made by call `CallIndex` among the first n. */
  predicate PlacedBy(e: Env, startx: int, ds0: DecorState, ds: seq<Decoration>, i: nat, n: nat)
    requires i < |ds|
  {
    var j := CallIndex(startx, ds[i]);
    0 <= j < n && PlacedAt(e, startx, ds0, ds[i], j)
  }

  /** What one decoration call `d`, made as call j from state `s`, does. */
  predicate CallMade(e: Env, startx: int, ds0: DecorState, j: nat, s: DecorState, d: (DecorState, Option<Decoration>))
  {
    && (e.variant.decorEnabled ==> d.0.discard == s.discard + 1 && (d.1.Some? ==> Proceeds(s.discard + 1)))
    && (!e.variant.decorEnabled ==> d.0 == s && d.1.None?)
    && (d.1.Some? ==> PlacedAt(e, startx, ds0, d.1.value, j))
  }

  /** Call j of the closed form, made from the state the first j calls left. */
  lemma DecorCallStep(e: Env, startx: int, ds0: DecorState, s: DecorState, j: nat)
    requires e.variant.decorEnabled ==> s.discard == ds0.discard + j
    ensures CallMade(e, startx, ds0, j, s, CreateDecor(e, s, DecorAt(e, startx, j), DecorSlope(e, startx, j)))
  {
  }

  /** Appending call n-1's placement to those of the first n-1 calls. */
  lemma PlacedByAppend(e: Env, startx: int, ds0: DecorState, ds: seq<Decoration>, extra: seq<Decoration>, m: nat, n: nat)
    requires n == m + 1
    requires forall i | 0 <= i < |ds| :: PlacedBy(e, startx, ds0, ds, i, m)
    requires forall i | 0 <= i < |extra| :: PlacedAt(e, startx, ds0, extra[i], m)
    ensures forall i | 0 <= i < |ds + extra| :: PlacedBy(e, startx, ds0, ds + extra, i, n)
  {
    forall i | 0 <= i < |ds + extra|
      ensures PlacedBy(e, startx, ds0, ds + extra, i, n)
    {
      if i < |ds| {
        assert PlacedBy(e, startx, ds0, ds, i, m);
        assert (ds + extra)[i] == ds[i];
      } else {
        assert (ds + extra)[i] == extra[i - |ds|];
        CallIndexOf(e, startx, ds0, extra[i - |ds|], m);
      }
    }
  }

  /** Placements made by the first n calls stand no further right than sample n. */
  lemma PlacedByBound(e: Env, startx: int, ds0: DecorState, ds: seq<Decoration>, n: nat)
    requires forall i | 0 <= i < |ds| :: PlacedBy(e, startx, ds0, ds, i, n)
    ensures forall i | 0 <= i < |ds| :: ds[i].pos.x <= startx as real + X(n)
  {
    forall i | 0 <= i < |ds|
      ensures ds[i].pos.x <= startx as real + X(n)
    {
      assert PlacedBy(e, startx, ds0, ds, i, n);
    }
  }

  /** Appending placements to the right of every earlier one keeps the list ordered by x. */
  lemma OrderedAppend(ds: seq<Decoration>, extra: seq<Decoration>, bound: real)
    requires forall a, b | 0 <= a < b < |ds| :: ds[a].pos.x < ds[b].pos.x
    requires forall i | 0 <= i < |ds| :: ds[i].pos.x <= bound
    requires |extra| <= 1 && forall i | 0 <= i < |extra| :: bound < extra[i].pos.x
    ensures forall a, b | 0 <= a < b < |ds + extra| :: (ds + extra)[a].pos.x < (ds + extra)[b].pos.x
  {
  }

  /**
   What the first n closed-form calls have done: live, the counter advanced
   by n and at most the admitted calls placed anything; disabled, nothing
   changed and nothing was placed. Every placement comes from an admitted
   call and stands at that call's sample, and placements run left to right.
   */
  predicate CallsDone(e: Env, startx: int, ds0: DecorState, n: nat, r: (DecorState, seq<Decoration>))
  {
    && (e.variant.decorEnabled ==> r.0.discard == ds0.discard + n && |r.1| <= PassCount(ds0.discard, n))
    && (!e.variant.decorEnabled ==> r.0 == ds0 && r.1 == [])
    && (forall i | 0 <= i < |r.1| :: PlacedBy(e, startx, ds0, r.1, i, n))
    && (forall a, b | 0 <= a < b < |r.1| :: r.1[a].pos.x < r.1[b].pos.x)
  }

  /** One more call keeps `CallsDone`. */
  lemma CallsDoneStep(e: Env, startx: int, ds0: DecorState, m: nat, n: nat,
                      r: (DecorState, seq<Decoration>), d: (DecorState, Option<Decoration>))
    requires n == m + 1
    requires CallsDone(e, startx, ds0, m, r)
    requires CallMade(e, startx, ds0, m, r.0, d)
    ensures CallsDone(e, startx, ds0, n, (d.0, r.1 + ToSeq(d.1)))
  {
    PlacedByAppend(e, startx, ds0, r.1, ToSeq(d.1), m, n);
    PlacedByBound(e, startx, ds0, r.1, m);
    if d.1.Some? {
      assert d.1.value.pos.x == startx as real + X(n);
    }
    OrderedAppend(r.1, ToSeq(d.1), startx as real + X(m));
  }

  /** The first n closed-form calls, by induction over the calls. */
  lemma {:induction false} DecorCallsDone(e: Env, startx: int, ds0: DecorState, n: nat)
    ensures CallsDone(e, startx, ds0, n, DecorCalls(e, startx, ds0, n))
  {
    if n > 0 {
      DecorCallsDone(e, startx, ds0, n - 1);
      var prev := DecorCalls(e, startx, ds0, n - 1);
      DecorCallStep(e, startx, ds0, prev.0, n - 1);
      CallsDoneStep(e, startx, ds0, n - 1, n, prev,
                    CreateDecor(e, prev.0, DecorAt(e, startx, n - 1), DecorSlope(e, startx, n - 1)));
    }
  }

  /** The loop's decoration state and placements after n passes are the closed form's. */
  predicate DecorSoFar(e: Env, startx: int, ds0: DecorState, n: nat, p: Progress)
  {
    (p.decorState, p.decor) == DecorCalls(e, startx, ds0, n)
  }

  /** What the loop has produced after n passes. */
  predicate Built(e: Env, startx: int, entry: Vec3, ds0: DecorState, n: nat, p: Progress)
  {
    && |p.ground| == 6 * n && |p.skin| == 6 * n && |p.surface| == n + 1
    && (forall k | 0 <= k <= n :: p.surface[k] == Flat(TopPoint(e, startx, k)))
    && (forall j | 0 <= j < n :: GroundQuadAt(e, startx, Quad(p.ground, j), j))
    && (forall j | 0 <= j < n :: SkinQuadAt(e, startx, entry, Quad(p.skin, j), j))
    && p.extrusion == Extrusion(e, startx, entry, n)
    && DecorSoFar(e, startx, ds0, n, p)
  }

  // ---------------------------------------------------------------------------
  // The loop meets the closed forms
  // ---------------------------------------------------------------------------

  lemma QuadOfPrefix(a: seq<Vertex>, b: seq<Vertex>, j: nat)
    requires 6 * j + 6 <= |a|
    ensures Quad(a + b, j) == Quad(a, j)
  {
    assert forall m | 0 <= m < 6 :: Quad(a + b, j)[m] == a[6 * j + m] == Quad(a, j)[m];
  }

  lemma QuadOfLast(a: seq<Vertex>, b: seq<Vertex>, j: nat)
    requires |a| == 6 * j && |b| == 6
    ensures Quad(a + b, j) == b
  {
    assert forall m | 0 <= m < 6 :: Quad(a + b, j)[m] == b[m];
  }

  /** Pass j of the loop emits exactly the closed-form quads and moves the extrusion point on. */
  lemma SegmentClosedForm(e: Env, startx: int, entry: Vec3, j: nat)
    ensures var s := Segment(e, startx, X(j), Extrusion(e, startx, entry, j));
            && GroundQuadAt(e, startx, s.ground, j)
            && SkinQuadAt(e, startx, entry, s.skin, j)
            && s.top == Flat(TopPoint(e, startx, j + 1))
            && s.extrusion == Extrusion(e, startx, entry, j + 1)
            && s.decorAt == ShiftX(TopPoint(e, startx, j + 1), startx as real)
            && s.slope == Sub(TopPoint(e, startx, j), TopPoint(e, startx, j + 1))
  {
    assert X(j) + Incr == X(j + 1);
    assert X(j) / ChunkSize as real * SurfaceRepeat as real == U(j);
  }

  /** A pass extends the ground mesh by the closed-form quad and keeps the earlier ones. */
  lemma AdvanceGround(e: Env, startx: int, entry: Vec3, n: nat, p: Progress)
    requires |p.ground| == 6 * n && p.extrusion == Extrusion(e, startx, entry, n)
    requires forall j | 0 <= j < n :: GroundQuadAt(e, startx, Quad(p.ground, j), j)
    ensures var q := Advance(e, startx, p, n);
            |q.ground| == 6 * (n + 1) && forall j | 0 <= j < n + 1 :: GroundQuadAt(e, startx, Quad(q.ground, j), j)
  {
    var s := Segment(e, startx, X(n), p.extrusion);
    SegmentClosedForm(e, startx, entry, n);
    forall j | 0 <= j < n + 1
      ensures GroundQuadAt(e, startx, Quad(p.ground + s.ground, j), j)
    {
      if j < n {
        QuadOfPrefix(p.ground, s.ground, j);
      } else {
        QuadOfLast(p.ground, s.ground, j);
      }
    }
  }

  /** A pass extends the skin by the closed-form quad, keeps the earlier ones and carries the new extrusion point. */
  lemma AdvanceSkin(e: Env, startx: int, entry: Vec3, n: nat, p: Progress)
    requires |p.skin| == 6 * n && p.extrusion == Extrusion(e, startx, entry, n)
    requires forall j | 0 <= j < n :: SkinQuadAt(e, startx, entry, Quad(p.skin, j), j)
    ensures var q := Advance(e, startx, p, n);
            && |q.skin| == 6 * (n + 1) && q.extrusion == Extrusion(e, startx, entry, n + 1)
            && forall j | 0 <= j < n + 1 :: SkinQuadAt(e, startx, entry, Quad(q.skin, j), j)
  {
    var s := Segment(e, startx, X(n), p.extrusion);
    SegmentClosedForm(e, startx, entry, n);
    forall j | 0 <= j < n + 1
      ensures SkinQuadAt(e, startx, entry, Quad(p.skin + s.skin, j), j)
    {
      if j < n {
        QuadOfPrefix(p.skin, s.skin, j);
      } else {
        QuadOfLast(p.skin, s.skin, j);
      }
    }
  }

  /** A pass appends the next surface sample to the collision points. */
  lemma AdvanceSurface(e: Env, startx: int, n: nat, p: Progress)
    requires |p.surface| == n + 1
    requires forall k | 0 <= k <= n :: p.surface[k] == Flat(TopPoint(e, startx, k))
    ensures var q := Advance(e, startx, p, n);
            && |q.surface| == n + 2
            && forall k | 0 <= k <= n + 1 :: q.surface[k] == Flat(TopPoint(e, startx, k))
  {
    var s := Segment(e, startx, X(n), p.extrusion);
    assert X(n) + Incr == X(n + 1);
    assert s.top == Flat(TopPoint(e, startx, n + 1));
  }

  /** Whatever point is carried in, pass j's decoration call is made at `DecorAt(j)` with `DecorSlope(j)`. */
  lemma SegmentDecorCall(e: Env, startx: int, j: nat, extrusion: Vec3)
    ensures var s := Segment(e, startx, X(j), extrusion);
            s.decorAt == DecorAt(e, startx, j) && s.slope == DecorSlope(e, startx, j)
  {
    assert X(j) + Incr == X(j + 1);
  }

  /** A pass makes the next closed-form decoration call and keeps its placement. */
  lemma AdvanceDecor(e: Env, startx: int, ds0: DecorState, n: nat, p: Progress)
    requires DecorSoFar(e, startx, ds0, n, p)
    ensures DecorSoFar(e, startx, ds0, n + 1, Advance(e, startx, p, n))
  {
    SegmentDecorCall(e, startx, n, p.extrusion);
  }

  /** One pass keeps the loop's output equal to the closed form. */
  lemma AdvanceBuilt(e: Env, startx: int, entry: Vec3, ds0: DecorState, n: nat, p: Progress)
    requires Built(e, startx, entry, ds0, n, p)
    ensures Built(e, startx, entry, ds0, n + 1, Advance(e, startx, p, n))
  {
    AdvanceGround(e, startx, entry, n, p);
    AdvanceSkin(e, startx, entry, n, p);
    AdvanceSurface(e, startx, n, p);
    AdvanceDecor(e, startx, ds0, n, p);
  }

  /** The first n passes from `first` are in closed form. */
  predicate PassesBuilt(e: Env, startx: int, first: Progress, n: nat)
  {
    Built(e, startx, first.extrusion, first.decorState, n, Segments(e, startx, first, n))
  }

  /** Whatever the loop starts from, if it starts in closed form it stays in closed form for n passes. */
  lemma {:induction false} SegmentsBuilt(e: Env, startx: int, first: Progress, n: nat)
    requires PassesBuilt(e, startx, first, 0)
    ensures PassesBuilt(e, startx, first, n)
  {
    if n > 0 {
      SegmentsBuilt(e, startx, first, n - 1);
      AdvanceBuilt(e, startx, first.extrusion, first.decorState, n - 1, Segments(e, startx, first, n - 1));
    }
  }

  /** The state entering the loop is the closed form of zero passes. */
  lemma FirstBuilt(e: Env, carry: Carry, startx: int)
    ensures var f := First(e, carry, startx);
            Built(e, startx, f.extrusion, f.decorState, 0, f)
  {
    assert X(0) == 0.0;
  }

  /** The loop of one chunk, all 40 passes. */
  lemma ChunkBuilt(e: Env, carry: Carry, startx: int)
    ensures Built(e, startx, ShiftX(carry.extrusion, -(ChunkSize as real)), carry.decor, SegmentCount, ChunkProgress(e, carry, startx))
  {
    FirstBuilt(e, carry, startx);
    SegmentsBuilt(e, startx, First(e, carry, startx), SegmentCount);
  }

  // ---------------------------------------------------------------------------
  // What one chunk looks like
  // ---------------------------------------------------------------------------

  /** 40 segments of six vertices in each mesh; the chain has the lead-in plus 41 samples. */
  lemma ChunkShape(e: Env, carry: Carry, startx: int)
    ensures var c := GenerateChunk(e, carry, startx).0;
            |c.ground| == 6 * SegmentCount && |c.skin| == 6 * SegmentCount && |c.chain| == SegmentCount + 2 && c.start == startx
  {
    ChunkBuilt(e, carry, startx);
  }

  /**
   The collision chain: vertex 0 is the lead-in at x = -0.25, vertex k >= 1
   is the surface sample at x = (k-1)/2, so vertex 1 is `(0, h(startx))`;
   x strictly increases along the chain.
   */
  lemma CollisionChain(e: Env, carry: Carry, startx: int)
    ensures var c := GenerateChunk(e, carry, startx).0;
            && |c.chain| == SegmentCount + 2
            && c.chain[0] == Vec2(-0.25, SampleSurface(e, startx as real - 0.25) - 0.005)
            && c.chain[1] == Vec2(0.0, SampleSurface(e, startx as real))
            && (forall k | 1 <= k < SegmentCount + 2 :: c.chain[k] == Vec2(X(k - 1), SampleSurface(e, startx as real + X(k - 1))))
            && (forall a, b | 0 <= a < b < SegmentCount + 2 :: c.chain[a].x < c.chain[b].x)
  {
    ChunkBuilt(e, carry, startx);
    var c := GenerateChunk(e, carry, startx).0;
    var p := ChunkProgress(e, carry, startx);
    assert c.chain == [Smoother(e, startx)] + p.surface;
    forall k | 1 <= k < SegmentCount + 2
      ensures c.chain[k] == Vec2(X(k - 1), SampleSurface(e, startx as real + X(k - 1)))
    {
      assert c.chain[k] == p.surface[k - 1];
    }
    assert c.chain[1] == Vec2(X(0), SampleSurface(e, startx as real + X(0)));
    forall a, b | 0 <= a < b < SegmentCount + 2
      ensures c.chain[a].x < c.chain[b].x
    {
      assert c.chain[b].x == X(b - 1);
      if a > 0 {
        assert c.chain[a].x == X(a - 1);
      }
    }
  }

  /**
   Ground mesh: per segment j the triangles (bl,tl,tr) and (bl,tr,br), the
   top corners on the surface samples j and j+1, the bottom corners 100
   below them at the same x; every vertex in the mesh plane with texture
   coordinate (x, y) / 20.
   */
  lemma GroundMesh(e: Env, carry: Carry, startx: int)
    ensures var c := GenerateChunk(e, carry, startx).0;
            && |c.ground| == 6 * SegmentCount
            && (forall j | 0 <= j < SegmentCount ::
                  var q := Quad(c.ground, j);
                  var tl := TopPoint(e, startx, j);
                  var tr := TopPoint(e, startx, j + 1);
                  && q[1].pos == tl && q[2].pos == tr && q[4].pos == tr
                  && q[0].pos == Vec3(tl.x, tl.y + ChunkHeight as real, tl.z) && q[3].pos == q[0].pos
                  && q[5].pos == Vec3(tr.x, tr.y + ChunkHeight as real, tr.z))
            && (forall v | v in c.ground :: PlanarGround(e, v))
  {
    ChunkBuilt(e, carry, startx);
    GroundPlanar(GenerateChunk(e, carry, startx).0.ground, e, startx);
  }

  /** A triangle list whose every quad is a closed-form ground quad has only planar, projected vertices. */
  lemma GroundPlanar(ground: seq<Vertex>, e: Env, startx: int)
    requires |ground| == 6 * SegmentCount
    requires forall j | 0 <= j < SegmentCount :: GroundQuadAt(e, startx, Quad(ground, j), j)
    ensures forall v | v in ground :: PlanarGround(e, v)
  {
    forall v | v in ground
      ensures PlanarGround(e, v)
    {
      var p :| 0 <= p < |ground| && ground[p] == v;
      var j := p / 6;
      assert GroundQuadAt(e, startx, Quad(ground, j), j);
      assert Quad(ground, j)[p - 6 * j] == v;
    }
  }

  /**
   Surface skin: the top-edge vertices of segment j are the surface samples
   j and j+1, its last vertex is `tr + offset(tl, tr)`; the first vertex of
   segment j is the last vertex of segment j-1 (texture coordinate included),
   the first of segment 0 is the carried point moved 20 left, and the point
   carried to the next chunk is the skin's last vertex.
   */
  lemma SkinStrip(e: Env, carry: Carry, startx: int)
    ensures var r := GenerateChunk(e, carry, startx);
            var c := r.0;
            && |c.skin| == 6 * SegmentCount
            && c.skin[0].pos == ShiftX(carry.extrusion, -(ChunkSize as real))
            && r.1.extrusion == c.skin[239].pos
            && (forall j | 1 <= j < SegmentCount :: Quad(c.skin, j)[0] == Quad(c.skin, j - 1)[5])
            && (forall j | 0 <= j < SegmentCount ::
                  var q := Quad(c.skin, j);
                  var tl := TopPoint(e, startx, j);
                  var tr := TopPoint(e, startx, j + 1);
                  && q[3] == q[0] && q[1].pos == tl && q[2].pos == tr && q[4].pos == tr
                  && q[5].pos == Add(tr, e.offset(tl, tr)))
  {
    var entry := ShiftX(carry.extrusion, -(ChunkSize as real));
    ChunkBuilt(e, carry, startx);
    var c := GenerateChunk(e, carry, startx).0;
    assert SkinQuadAt(e, startx, entry, Quad(c.skin, 0), 0);
    assert SkinQuadAt(e, startx, entry, Quad(c.skin, 39), 39);
    assert c.skin[239] == Quad(c.skin, 39)[5];
    forall j | 1 <= j < SegmentCount
      ensures Quad(c.skin, j)[0] == Quad(c.skin, j - 1)[5]
    {
      assert SkinQuadAt(e, startx, entry, Quad(c.skin, j - 1), j - 1);
    }
  }

  /**
   Skin texture: u runs from 0 at the chunk start to the repeat count 6 at
   its end, in steps of 0.15 per segment; v is -1 on the top edge and 0 on
   the extrusion vertices.
   */
  lemma SkinTexture(e: Env, carry: Carry, startx: int)
    ensures var c := GenerateChunk(e, carry, startx).0;
            && |c.skin| == 6 * SegmentCount
            && (forall j | 0 <= j < SegmentCount ::
                  var q := Quad(c.skin, j);
                  && q[0].uv == Vec2(0.15 * j as real, 0.0) && q[3].uv == q[0].uv
                  && q[1].uv == Vec2(0.15 * j as real, -1.0)
                  && q[2].uv == Vec2(0.15 * (j + 1) as real, -1.0) && q[4].uv == q[2].uv
                  && q[5].uv == Vec2(0.15 * (j + 1) as real, 0.0))
            && c.skin[0].uv == Vec2(0.0, 0.0) && c.skin[239].uv == Vec2(6.0, 0.0)
  {
    var entry := ShiftX(carry.extrusion, -(ChunkSize as real));
    ChunkBuilt(e, carry, startx);
    var c := GenerateChunk(e, carry, startx).0;
    assert SkinQuadAt(e, startx, entry, Quad(c.skin, 0), 0);
    assert SkinQuadAt(e, startx, entry, Quad(c.skin, 39), 39);
    assert c.skin[0] == Quad(c.skin, 0)[0];
    assert c.skin[239] == Quad(c.skin, 39)[5];
  }

  /**
   The chunk's 40 decoration calls: call j is made at sample j+1 in world
   coordinates with slope `tl - tr`, from the counter and RNG position the
   previous chunk left, and every placement is kept, in order; the chunk hands
   the resulting counter and RNG position on. Each placement is a valid
   catalog entry standing at the sample of an admitted call, placements run
   left to right, and with decorations live the counter advances by 40 and no
   more placements are made than multiples of 3 the counter passes;
   disabled, nothing changes.
   */
  lemma ChunkDecor(e: Env, carry: Carry, startx: int)
    ensures var r := GenerateChunk(e, carry, startx);
            var d := carry.decor.discard;
            && (r.1.decor, r.0.decor) == DecorCalls(e, startx, carry.decor, SegmentCount)
            && (forall x | x in r.0.decor :: x.index < |Catalog|)
            && (forall i | 0 <= i < |r.0.decor| :: PlacedBy(e, startx, carry.decor, r.0.decor, i, SegmentCount))
            && (forall a, b | 0 <= a < b < |r.0.decor| :: r.0.decor[a].pos.x < r.0.decor[b].pos.x)
            && (e.variant.decorEnabled ==>
                  r.1.decor.discard == d + SegmentCount && |r.0.decor| <= (d + SegmentCount) / 3 - d / 3)
            && (!e.variant.decorEnabled ==> r.1.decor == carry.decor && r.0.decor == [])
  {
    ChunkBuilt(e, carry, startx);
    DecorCallsDone(e, startx, carry.decor, SegmentCount);
    PassCountClosedForm(carry.decor.discard, SegmentCount);
    var ds := GenerateChunk(e, carry, startx).0.decor;
    forall x | x in ds
      ensures x.index < |Catalog|
    {
      var i :| 0 <= i < |ds| && ds[i] == x;
      assert PlacedBy(e, startx, carry.decor, ds, i, SegmentCount);
    }
  }

  /** The ends of the collision chain and of the skin, the facts the seams between chunks rest on. */
  lemma ChunkEnds(e: Env, carry: Carry, startx: int)
    ensures var r := GenerateChunk(e, carry, startx);
            && r.0.start == startx
            && |r.0.chain| == SegmentCount + 2 && |r.0.skin| == 6 * SegmentCount
            && r.0.chain[0] == Vec2(-0.25, SampleSurface(e, startx as real - 0.25) - 0.005)
            && r.0.chain[1] == Vec2(0.0, SampleSurface(e, startx as real))
            && r.0.chain[SegmentCount + 1] == Vec2(ChunkSize as real, SampleSurface(e, startx as real + ChunkSize as real))
            && r.0.skin[0].pos == ShiftX(carry.extrusion, -(ChunkSize as real))
            && r.1.extrusion == r.0.skin[239].pos
  {
    CollisionChain(e, carry, startx);
    SkinStrip(e, carry, startx);
    assert X(SegmentCount) == ChunkSize as real;
  }

  /** Every ground vertex and every top-edge skin vertex of chunk c lies in the plane z = depth. */
  predicate InPlane(c: Chunk, depth: real)
  {
    && |c.skin| == 6 * SegmentCount
    && (forall v | v in c.ground :: v.pos.z == depth)
    && (forall j | 0 <= j < SegmentCount :: Quad(c.skin, j)[1].pos.z == depth && Quad(c.skin, j)[2].pos.z == depth)
  }

  lemma ChunkInPlane(e: Env, carry: Carry, startx: int)
    ensures InPlane(GenerateChunk(e, carry, startx).0, e.variant.depth)
  {
    GroundMesh(e, carry, startx);
    SkinStrip(e, carry, startx);
    ChunkBuilt(e, carry, startx);
    var c := GenerateChunk(e, carry, startx).0;
    forall j | 0 <= j < SegmentCount
      ensures Quad(c.skin, j)[1].pos.z == e.variant.depth && Quad(c.skin, j)[2].pos.z == e.variant.depth
    {
      assert SkinQuadAt(e, startx, ShiftX(carry.extrusion, -(ChunkSize as real)), Quad(c.skin, j), j);
    }
  }
}
