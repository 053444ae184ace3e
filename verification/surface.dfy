/**
 The height profile every terrain piece samples, and the two variants of the
 terrain generator: the one in `AtomicMain` (shared project) and the `Terrain`
 class of the desktop project. Both sample the same coherent-noise function
 along the x axis; they differ in vertical scale, in the z plane of the
 meshes, in the number of chunks and in whether decorations are placed.
 */
module Surface {
  import opened Vectors

  /** Width of one chunk in world units (`chunksize`). */
  const ChunkSize: int := 20
  /** Vertical offset from the surface to the bottom of the ground mesh (`chunkheight`). */
  const ChunkHeight: int := -100
  /** Horizontal noise scale (`noiseScaleX`). */
  const NoiseScaleX: real := 0.05
  /** Step between two surface samples (`incr`). */
  const Incr: real := 0.5
  /** Number of skin-texture repeats across one chunk (`surfaceVisualRepeatPerChunk`). */
  const SurfaceRepeat: int := 6
  /**
   Number of sub-segments per chunk: the loop `i = 0, 0.5, ...` while
   `i < chunksize - 2 * float.Epsilon`; in single precision that bound is 20
   and every `i` is exact, see `SegmentCountMatchesLoop`.
   */
  const SegmentCount: nat := 40

  /** What distinguishes the two copies of the generator. */
  datatype Variant = Variant(noiseScaleY: real, depth: real, chunkCount: nat, decorEnabled: bool)

  /** `AtomicMain`: scale 11, meshes in the z = 0 plane, 200 chunks, decorations live. */
  const Shared := Variant(11.0, 0.0, 200, true)
  /** `Terrain`: scale 6, meshes in the z = -10 plane, 400 chunks, `CreateDecor` returns at once. */
  const Desktop := Variant(6.0, -10.0, 400, false)

  /** One sample of `System.Random`'s stream: a real in [0, 1). */
  type Unit = u: real | 0.0 <= u < 1.0

  /**
   Everything the generator reads from outside: the variant, the coherent
   noise function (uninterpreted, no range assumed), the slope offset
   `Quaternion.FromAxisAngle(Back, 90) * NormalizeFast(tr - tl)` (uninterpreted
   as a function of the two top corners) and the decoration RNG's sample stream.
   */
  datatype Env = Env(variant: Variant, noise: (real, real) -> real, offset: (Vec3, Vec3) -> Vec3, rng: nat -> Unit)

  /**
   `SampleSurface`: the terrain height at world x, the noise along the line
   y = 0 at x / 20, stretched vertically; with a positive scale the ground is
   above zero exactly where the noise is.
   */
  function SampleSurface(e: Env, x: real): (h: real)
    ensures 0.0 < e.variant.noiseScaleY ==> (0.0 < h <==> 0.0 < e.noise(x / 20.0, 0.0))
    ensures 0.0 < e.variant.noiseScaleY ==> (h == 0.0 <==> e.noise(x / 20.0, 0.0) == 0.0)
  {
    e.noise(x * NoiseScaleX, 0.0) * e.variant.noiseScaleY
  }

  /** The loop variable `i = j * incr` stays below the chunk width exactly for the first 40 values. */
  lemma SegmentCountMatchesLoop(j: nat)
    ensures j as real * Incr < ChunkSize as real <==> j < SegmentCount
  {
  }
}
