# Atomic Racer 2D: terrain, decorations and wheel dynamics in Dafny

This project models the gameplay core of the Atomic Racer 2D example, a
side-scrolling hill-climb driving game. The model has three parts.

- **Terrain builder.** `GenerateChunk` lays the world out in 20-unit chunks.
  - Each chunk is 40 sub-segments of width 0.5.
  - Each sub-segment emits six ground-mesh vertices, six surface-skin vertices, one collision-chain point and one decoration call.
  - The skin's extrusion point (`lastSurfaceExtrusion`) is carried from segment to segment and from chunk to chunk.
  - Each chunk's collision chain starts with a lead-in "smoother" vertex.
  - The world is the fold of `GenerateChunk` over the offsets 0, 20, 40, ….
  - There are two variants. The shared project (`AtomicMain`) uses height scale 11, the z = 0 plane, 200 chunks and live decorations. The desktop `Terrain` class uses scale 6, the z = -10 plane, 400 chunks, and a `CreateDecor` that returns at once.
- **Decoration placement.** `CreateDecor` runs a call counter shared across chunks, so one call in three proceeds.
  - The admitted call samples `chance = noise(x * 0.2, 0) + 1`.
  - Below 1.2 it picks a bush with probability 4/6. Below 1.3 it always picks a mushroom, stone or sign. Below 1.7 it picks a tree, but only where the absolute value of the slope's y-component is below 0.1.
  - Each pick takes one draw from `System.Random`.
  - The sprite is raised 15 in z. Trees stay upright and move 0.1 down. Everything else is rotated to follow the slope.
- **Wheel dynamics.**
  - The open-loop torque governor `ApplyNonLinearTorque`.
  - The nearest-surface-point search `WheelContactHack`.
  - The dust emitter switched by contact distance.
  - The per-frame input dispatch of both projects:
    - braking takes priority over accelerating;
    - Left and Right roll independently;
    - Space unflips the vehicle;
    - the exhaust speed and variance follow the body's velocity.

## How the model is built

- **Environment.** The world is abstracted into the datatype `Surface.Env`:
  - the coherent-noise function is an uninterpreted `(real, real) -> real`;
  - the rotated slope normal `Quaternion.FromAxisAngle(Back, 90) * NormalizeFast(tr - tl)` is an uninterpreted function of the two top corners;
  - the decoration RNG is a stream of samples in [0, 1), with `Next(n) = floor(u * n)` as in `System.Random`.
- **Modules.** Modules follow the source: `Surface` (constants, variants), `Decor`, `Terrain` (one chunk), `World` (the chunk loop), `Wheel` and `Vehicle`.
  - `Terrain` models the loop as it runs: `Segment` is the loop body, and `Segments` is the left fold over the passes.
  - It also gives an independent closed form of every emitted vertex: `TopPoint`, `Extrusion` and `Quad`.
  - The lemma `SegmentsBuilt` proves, by induction over the passes, that the loop builds exactly the closed form.
  - The user-facing lemmas rest on that proof: `ChunkShape`, `CollisionChain`, `GroundMesh`, `SkinStrip`, `SkinTexture`, `ChunkDecor`, `ChunkEnds` and `ChunkInPlane`.
- **World module.** `World` proves properties of the world as a whole:
  - chunk order;
  - the skin and collision seams between neighbouring chunks;
  - the decoration budget over the whole world.

  It uses the closed form `(c + n) / 3 - c / 3` for the number of calls that pass the one-in-three gate.

Neighbouring collision chains overlap at every seam:
- chunk k's last chain vertex is, in world coordinates, exactly chunk k+1's first surface point;
- chunk k+1's lead-in vertex lies 0.25 behind that point;
- so x increases strictly along each chunk's own chain, and steps back 0.25 at each seam.

`World.ChainSeam` states the overlap.

## Model

| member | source | states |
|---|---|---|
| Surface.SampleSurface | AtomicNET/Solution/Racer.Shared/AtomicMain.cs:422-425 | the height at x is the noise at (x / 20, 0) times the variant's scale; with a positive scale it is positive or zero exactly where the noise is; where each height is used is stated by `Terrain.CollisionChain`, `Terrain.GroundMesh` and `Terrain.ChunkEnds` |
| Surface.SegmentCountMatchesLoop | AtomicNET/Solution/Racer.Shared/AtomicMain.cs:447-448 | the loop variable `i = j * 0.5` stays below the chunk width exactly for j < 40, so each chunk has 40 sub-segments |
| Decor.Next | AtomicNET/Solution/Racer.Shared/AtomicMain.cs:155-172 | `rng.Next(n)` lies in [0, n) and is the sample scaled by n, truncated |
| Decor.OneInThree | AtomicNET/Solution/Racer.Shared/AtomicMain.cs:144-146 | of any three consecutive calls, exactly one passes the `discard % 3` gate |
| Decor.PassCount | AtomicNET/Solution/Racer.Shared/AtomicMain.cs:144-146 | the counting definition: the admitted calls among the n calls after counter value c, never more than n; `Decor.PassCountClosedForm` fixes the exact count |
| Decor.PassCountClosedForm | AtomicNET/Solution/Racer.Shared/AtomicMain.cs:140-146 | among the n calls after counter value c, the admitted ones are the multiples of 3 in (c, c + n], i.e. (c + n)/3 - c/3 calls |
| Decor.PassCountFromZero | AtomicNET/Solution/Racer.Shared/AtomicMain.cs:140-146 | from a fresh counter, exactly n/3 (rounded down) of n calls are admitted |
| Decor.Pick | AtomicNET/Solution/Racer.Shared/AtomicMain.cs:148-176 | below 1.2 the drawn `r = Next(6)` is placed iff r < 4, and it is a bush; in [1.2, 1.3) entry `Next(4) + 4` (mushroom, stone or sign) is always placed; in [1.3, 1.7) tree `Next(3) + 8` is placed iff abs(slope y) < 0.1; from 1.7 on nothing is placed; a pick is a tree iff it comes from the tree band |
| Decor.Place | AtomicNET/Solution/Racer.Shared/AtomicMain.cs:178-191 | the sprite node of a placement; no contract of its own: its position, scale and facing are stated by `Decor.CreateDecor`'s contract |
| Decor.CreateDecor | AtomicNET/Solution/Racer.Shared/AtomicMain.cs:142-193 | when enabled the counter always advances by one; an admitted call places exactly what `Pick` chooses for its band, slope and the next RNG sample, and the RNG advances exactly when that call draws; a placement sits at `position + (0, 0, 15)`, scale 3 for a bush and 4 otherwise; a tree stays upright and moves 0.1 down, anything else is turned along the slope; disabled, nothing changes and nothing is placed |
| Decor.AtMostOneInThree | AtomicNET/Solution/Racer.Shared/AtomicMain.cs:142-146 | three consecutive live calls advance the counter by 3 and place at most one decoration between them |
| Terrain.Segment | AtomicNET/Solution/Racer.Shared/AtomicMain.cs:450-508 | one pass of the loop; no contract of its own: `Terrain.SegmentClosedForm` states what pass j emits |
| Terrain.SegmentClosedForm | AtomicNET/Solution/Racer.Shared/AtomicMain.cs:450-508 | pass j at i = j/2 emits exactly the closed-form ground quad and skin quad of segment j and surface sample j+1, moves the carried point to the closed-form extrusion j+1, and calls `CreateDecor` at sample j+1 in world coordinates with slope tl - tr |
| Terrain.GenerateChunk | AtomicNET/Solution/Racer.Shared/AtomicMain.cs:427-535 | the chunk and the state handed on; no contract of its own: `Terrain.ChunkBuilt`, `ChunkShape`, `CollisionChain`, `GroundMesh`, `SkinStrip`, `SkinTexture`, `ChunkDecor` and `ChunkEnds` state what it produces |
| Terrain.DecorCallsDone | AtomicNET/Solution/Racer.Shared/AtomicMain.cs:464-465 | after the first n closed-form decoration calls of a chunk: live, the counter has advanced by n and no more placements exist than admitted calls; disabled, nothing changed; every placement comes from an admitted call j < n and stands 15 in front of sample j+1 (a tree 0.1 lower); placements run left to right |
| Terrain.CallIndexOf | AtomicNET/Solution/Racer.Shared/AtomicMain.cs:464-465 | a placement made by call j stands at x = startx + (j+1)/2, so its x identifies the call |
| Terrain.SegmentsBuilt | AtomicNET/Solution/Racer.Shared/AtomicMain.cs:447-509 | from a start that is the closed form of zero passes, after n passes the ground mesh, the skin, the surface list, the carried extrusion point, the decoration state and the placements are exactly their closed forms for segments 0..n-1, the decorations being the results of the n calls at samples 1..n with slopes tl - tr |
| Terrain.ChunkBuilt | AtomicNET/Solution/Racer.Shared/AtomicMain.cs:440-509 | the 40 passes of one chunk, starting from its first surface point and the carried point moved 20 left, produce exactly the closed form |
| Terrain.ChunkShape | AtomicNET/Solution/Racer.Shared/AtomicMain.cs:447-517 | a chunk has 240 ground and 240 skin vertices and a 42-vertex collision chain, and starts at its offset |
| Terrain.CollisionChain | AtomicNET/Solution/Racer.Shared/AtomicMain.cs:440-443 | chain vertex 0 is the lead-in `(-0.25, h(startx - 0.25) - 0.005)`; vertex k >= 1 is the surface sample at x = (k-1)/2; x strictly increases along the chain |
| Terrain.GroundMesh | AtomicNET/Solution/Racer.Shared/AtomicMain.cs:450-508 | segment j of the ground mesh is the triangles (bl,tl,tr) and (bl,tr,br) on surface samples j and j+1, with the bottom 100 below the top; every vertex lies in the variant's plane with texture coordinate (x, y)/20 |
| Terrain.SkinStrip | AtomicNET/Solution/Racer.Shared/AtomicMain.cs:471-488 | a skin quad's top edge is on the surface samples and its last vertex is `tr + offset(tl, tr)`; consecutive quads share their extrusion vertex; the first vertex is the carried point moved 20 left; the point carried on is the last skin vertex |
| Terrain.SkinTexture | AtomicNET/Solution/Racer.Shared/AtomicMain.cs:468-488 | skin u runs in steps of 0.15 from 0 at the chunk start to 6 at its end; v is -1 on the top edge and 0 on the extrusion vertices |
| Terrain.ChunkDecor | AtomicNET/Solution/Racer.Shared/AtomicMain.cs:464-465 | a chunk's decorations and the state it hands on are those of the 40 calls at samples 1..40 (world x = startx + (j+1)/2) with slopes tl - tr, threaded from the carried counter and RNG position; every placement is a valid entry made by an admitted call and stands 15 in front of its sample, a tree 0.1 lower; placements run left to right; live, the counter advances by 40 and no more placements are made than multiples of 3 passed; disabled, the state is untouched and nothing is placed |
| Terrain.ChunkEnds | AtomicNET/Solution/Racer.Shared/AtomicMain.cs:523-530 | the chain's lead-in, first and last vertices (last = `(20, h(startx + 20))`) and the skin's first vertex and carried-out point |
| Terrain.ChunkInPlane | AtomicNET/Solution/Racer.Desktop/Terrain.cs:118-121 | every ground vertex and every top-edge skin vertex lies in the plane z = depth of the variant |
| World.Build | AtomicNET/Solution/Racer.Shared/AtomicMain.cs:97-99 | the fold of `GenerateChunk` over the first n offsets has n chunks; `World.BuildFolded` and `World.ChunkOfBuild` state what each chunk is |
| World.ChunkOffsets | AtomicNET/Solution/Racer.Shared/AtomicMain.cs:97 | the chunk loop's offsets are strictly increasing multiples of 20 in [0, 20 * count) |
| World.OffsetRanges | AtomicNET/Solution/Racer.Desktop/Terrain.cs:63 | the desktop world has 400 chunks at 0..7980; the shared one has 200 at 0..3980 |
| World.BuildFolded | AtomicNET/Solution/Racer.Shared/AtomicMain.cs:97-99 | chunk k of the fold starts at offset 20k, and the state after n chunks carries chunk n-1's last skin vertex |
| World.ChunksInOrder | AtomicNET/Solution/Racer.Shared/AtomicMain.cs:97-99 | chunks come out in strictly increasing start order, chunk k at 20k |
| World.ChunkStable | AtomicNET/Solution/Racer.Shared/AtomicMain.cs:97-99 | chunk k is the same in every build of more than k chunks |
| World.BuildPrefix | AtomicNET/Solution/Racer.Shared/AtomicMain.cs:97-99 | building more chunks leaves the earlier ones unchanged |
| World.ChunkOfBuild | AtomicNET/Solution/Racer.Shared/AtomicMain.cs:97-99 | chunk k is the chunk generated at offset 20k from the state left after k chunks |
| World.SkinSeamAt | AtomicNET/Solution/Racer.Shared/AtomicMain.cs:445 | chunk k+1's first skin vertex is chunk k's last one moved 20 left, the same world point seen from the next node |
| World.SkinSeams | AtomicNET/Solution/Racer.Shared/AtomicMain.cs:418 | chunk 0's skin starts at the origin, and every neighbouring pair of chunks meets at a skin seam |
| World.ChainSeamAt | AtomicNET/Solution/Racer.Shared/AtomicMain.cs:523-530 | chunk k's last chain vertex is, in world coordinates, chunk k+1's first surface point, and chunk k+1's lead-in lies 0.25 behind it |
| World.ChainSeams | AtomicNET/Solution/Racer.Shared/AtomicMain.cs:440-443 | every neighbouring pair of chains meets with that overlap |
| World.DecorDensity | AtomicNET/Solution/Racer.Shared/AtomicMain.cs:140-146 | live, after n chunks the counter is 40n and at most 40n/3 decorations exist; disabled, the counter stays 0 and there are none |
| World.ChunkDecorOfBuild | AtomicNET/Solution/Racer.Shared/AtomicMain.cs:97-99 | chunk k's decorations are the 40 closed-form calls made from the counter and RNG position the first k chunks left, and the state after k+1 chunks is what those calls leave |
| World.GenerateWorld | AtomicNET/Solution/Racer.Shared/AtomicMain.cs:97-99 | the world has one chunk per offset, in order; live, at most a third of the 40 calls per chunk place anything (at most 2666 in the shared world); the desktop world has none |
| World.DesktopTerrain | AtomicNET/Solution/Racer.Desktop/Terrain.cs:199-204 | the desktop world has no decorations, its counter never moves, and every ground vertex and every top-edge skin vertex lies in the z = -10 plane |
| Wheel.Governor | AtomicNET/Solution/Racer.Desktop/Vehicle.cs:29-30 | the multiplier is at most 1: 1 at rest or reversed, 0 at the target, in [0, 1) below it, negative past it |
| Wheel.GovernorNonIncreasing | AtomicNET/Solution/Racer.Desktop/Vehicle.cs:30 | the multiplier never grows as the speed fraction grows |
| Wheel.ApplyNonLinearTorque | AtomicNET/Solution/Racer.Desktop/Vehicle.cs:27-32 | with a non-zero target a finite torque is applied; with a zero target the torque is non-finite iff the angular velocity is positive (the direction Down drives), and otherwise it is the full power |
| Wheel.FullPowerAtRestOrReversed | AtomicNET/Solution/Racer.Desktop/Vehicle.cs:27-32 | at rest, or spinning against the target direction, the wheel gets the full power |
| Wheel.NoTorqueAtTarget | AtomicNET/Solution/Racer.Desktop/Vehicle.cs:27-32 | at exactly the target speed the applied torque is 0 |
| Wheel.TorqueBelowAndAboveTarget | AtomicNET/Solution/Racer.Desktop/Vehicle.cs:27-32 | below the target in its direction, the torque has the power's sign and a smaller size; past the target it opposes the power |
| Wheel.WheelContactHack | AtomicNET/Solution/Racer.Shared/AtomicMain.cs:285-310 | the result is at z = 2; either it is the first probe of minimal distance, that distance being below `float.MaxValue`, or no probe beats `float.MaxValue` and the result is `(0, 0, 2)` |
| Wheel.EmitSurfaceParticles | AtomicNET/Solution/Racer.Desktop/Vehicle.cs:34-47 | the emitter turns white iff the contact point is within the limit, and then moves to it; otherwise it turns transparent where it is |
| Wheel.ReachMonotone | AtomicNET/Solution/Racer.Desktop/Vehicle.cs:37-38 | a larger limit never turns particles off |
| Wheel.SharedReachInPlane | AtomicNET/Solution/Racer.Shared/AtomicMain.cs:355-359 | with the wheel at z = 0 and the contact point at z = 2, the 2.6 limit admits exactly the points within sqrt(2.76) in the plane |
| Vehicle.WheelDrive | AtomicNET/Solution/Racer.Desktop/Vehicle.cs:136-149 | a drive is applied iff Down or Up is held; Down drives with (hp, maxSpdBwd), Up alone with the 32-bit negations of hp and maxSpdFwd |
| Vehicle.BrakingWins | AtomicNET/Solution/Racer.Desktop/Vehicle.cs:141-149 | while Down is held, Up makes no difference |
| Vehicle.ExhaustFor | AtomicNET/Solution/Racer.Desktop/Vehicle.cs:165-166 | the exhaust speed and variance from the velocity length; no contract of its own: `Vehicle.ExhaustBounds` states them |
| Vehicle.ExhaustBounds | AtomicNET/Solution/Racer.Desktop/Vehicle.cs:164-166 | for a non-negative speed length L, the exhaust speed is 100 + 20L >= 100 and the variance 10L >= 0 |
| Vehicle.Neg32 | AtomicNET/Solution/Racer.Desktop/Vehicle.cs:148 | C# `int` negation is congruent to -x modulo 2^32 and equals -x except at `int.MinValue` |
| Vehicle.Neg32Involution | AtomicNET/Solution/Racer.Desktop/Vehicle.cs:158 | negating twice gives the value back; only 0 and `int.MinValue` are their own negation |
| Vehicle.Roll | AtomicNET/Solution/Racer.Desktop/Vehicle.cs:155-158 | Left applies +rollForce and Right applies `rollForce * -1` in 32 bits, independently and in that order |
| Vehicle.RollKeysCancel | AtomicNET/Solution/Racer.Desktop/Vehicle.cs:155-158 | with both roll keys held, the two torques cancel exactly when the roll force is not `int.MinValue` |
| Vehicle.Update | AtomicNET/Solution/Racer.Desktop/Vehicle.cs:133-170 | each frame: every wheel gets the governed drive torque for the held keys (braking first), every wheel's emitter is evaluated whatever the keys, the roll torques are applied, Space sets angular velocity 2, and the exhaust follows the speed |
| Vehicle.SharedUpdate | AtomicNET/Solution/Racer.Shared/AtomicMain.cs:337-394 | each frame: every wheel gets the ungoverned ±400 torque (braking first); every emitter node moves to its own wheel's contact point when that is within 2.6, while the one shared dust colour is white iff the last wheel is within 2.6; Left and Right roll by ±500; Space applies -2500 and sets no velocity; the exhaust follows the speed |
| Vehicle.SharedDustFollowsLastWheel | AtomicNET/Solution/Racer.Shared/AtomicMain.cs:353-370 | with the front wheel touching and the rear wheel in the air, both emitters end the frame transparent, though the front emitter's node has moved to its contact point |

## Left out

- Engine plumbing: scene nodes, materials, `CustomGeometry` commits and rigid bodies. Chunks are returned as values.
- The OpenSimplex noise internals. Noise is an uninterpreted function with no range assumed. The two variants use different seeds, which this abstraction covers.
- Single-precision rounding. Arithmetic is on reals. The half-unit loop steps are exact in single precision; the `0.2f`, `1.2f`, `1.3f`, `1.7f` and `0.1f` literals are taken at their decimal values.
- The slope normal `Quaternion.FromAxisAngle(Back, 90) * NormalizeFast(tr - tl)`. It is an uninterpreted function of the two top corners. The quaternion that turns a decoration along its slope is kept as the slope vector itself.
- The exhaust angle (`Atan2` of the velocity minus the body rotation). Trigonometry is not modelled.
- The velocity length (`LengthFast`) is an input to `Vehicle.Update` and `Vehicle.SharedUpdate`.
- Clouds, crates and their RNG: the shared world's `rng.Next(10) == 0` crates, and the desktop's `rng.Next(1) == -10`, which never fires. So are the cloud drift and the camera follow.
- `Racer2D.GetSurfacePointClosestToPoint` is not part of this model. Its result is the `nearest` input of `Wheel.EmitSurfaceParticles` and of `Vehicle.Update`.
- Wheel.WheelContactHack: the probe x-offsets are a parameter. The source accumulates `-1 + 0.02k` in single precision, and that exact sequence is not modelled.
- Wheel.WheelContactHack: distances are compared squared, which picks the same point as comparing square roots.
- Decor.CreateDecor: the 32-bit `discard` counter is unbounded here. It would wrap only after more than 2^31 calls, far beyond the 8,000 the shared world makes.
- Vehicle.Update: each wheel's contact point and reach are inputs, and the search is modelled separately by `Wheel.WheelContactHack`.
- Vehicle.Update: each wheel's emitter colour is kept separately. The desktop caller that hands the `ParticleEffect2D` to `CreateWheel` is not part of this model, so whether the wheels share one effect is not known here.
- Vehicle.SharedUpdate: each wheel's contact point is an input, and the search is modelled separately by `Wheel.WheelContactHack`.
