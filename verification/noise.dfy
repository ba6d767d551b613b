/** `TerrainGenerator.Noise` and the identical sampling loop at the head of
    `GenerateHeightmap`: Perlin noise at seed-offset coordinates, scaled by an
    intensity and clamped below by a ground level. */
module NoiseField {
  import opened CSharp
  import opened Grids

  /** Unity's `Mathf.PerlinNoise`, whose internals are not modelled. */
  type Perlin = (real, real) -> real

  /** A value of `Random.Range(0, 10000)`: the `int` overload, whose upper bound
      is exclusive. */
  type Seed = s: int | 0 <= s < 10000

  /** An idealising hypothesis: noise values within [0, 1]. Unity documents
      `Mathf.PerlinNoise` as returning values only approximately in that range,
      and it may slightly exceed it, so the bounds proved under this hypothesis
      (`NoiseSampleBounded`, `BaseHeight`, `HeightmapPixels`,
      `PaintedWeightsInUnit`) hold only for noise that stays inside it. */
  ghost predicate PerlinInUnit(perlin: Perlin) {
    forall a: real, b: real :: 0.0 <= perlin(a, b) <= 1.0
  }

  /** The noise-plane coordinate of grid index `i` along an axis of length `dim`. */
  function NoiseCoord(seed: Seed, i: int, dim: int, scale: real): real
    requires dim > 0
  {
    (seed as real + i as real) / dim as real * scale
  }

  /** The clamped sample of one pixel. */
  function NoiseSample(perlin: Perlin, seed: Seed, x: int, y: int, width: int, height: int,
                       scale: real, ground: real, intensity: real): (v: real)
    requires 0 <= x < width && 0 <= y < height
    ensures v >= ground
    ensures v >= perlin(NoiseCoord(seed, x, width, scale), NoiseCoord(seed, y, height, scale)) * intensity
    ensures v == ground || v == perlin(NoiseCoord(seed, x, width, scale), NoiseCoord(seed, y, height, scale)) * intensity
  {
    Max(ground, perlin(NoiseCoord(seed, x, width, scale), NoiseCoord(seed, y, height, scale)) * intensity)
  }

  /** With noise in [0, 1] and a non-negative intensity, a sample lies between the
      ground level and the larger of ground and intensity. */
  lemma NoiseSampleBounded(perlin: Perlin, seed: Seed, x: int, y: int, width: int, height: int,
                           scale: real, ground: real, intensity: real)
    requires 0 <= x < width && 0 <= y < height
    requires PerlinInUnit(perlin) && intensity >= 0.0
    ensures ground <= NoiseSample(perlin, seed, x, y, width, height, scale, ground, intensity) <= Max(ground, intensity)
  {
    var n := perlin(NoiseCoord(seed, x, width, scale), NoiseCoord(seed, y, height, scale));
    assert 0.0 <= n <= 1.0;
    assert n * intensity <= intensity;
  }

  /** The seed is added to both coordinates, so raising it by one shows the same
      noise plane moved one pixel along the diagonal. */
  lemma SeedShiftsDiagonally(perlin: Perlin, seed: Seed, x: int, y: int, width: int, height: int,
                             scale: real, ground: real, intensity: real)
    requires seed + 1 < 10000
    requires 0 <= x && x + 1 < width && 0 <= y && y + 1 < height
    ensures NoiseSample(perlin, seed + 1, x, y, width, height, scale, ground, intensity)
         == NoiseSample(perlin, seed, x + 1, y + 1, width, height, scale, ground, intensity)
  {
    assert NoiseCoord(seed + 1, x, width, scale) == NoiseCoord(seed, x + 1, width, scale);
    assert NoiseCoord(seed + 1, y, height, scale) == NoiseCoord(seed, y + 1, height, scale);
  }

  /** The texture `Noise(width, height, noiseScale, ground, intensity)` fills. */
  function Noise(width: nat, height: nat, noiseScale: real, ground: real, intensity: real,
                 seed: Seed, perlin: Perlin): (t: seq<seq<real>>)
    ensures IsGrid(t, width, height)
    ensures forall x, y :: 0 <= x < width && 0 <= y < height ==>
      t[x][y] == NoiseSample(perlin, seed, x, y, width, height, noiseScale, ground, intensity)
    ensures forall x, y :: 0 <= x < width && 0 <= y < height ==> t[x][y] >= ground
  {
    seq(width, x requires 0 <= x < width =>
      seq(height, y requires 0 <= y < height =>
        NoiseSample(perlin, seed, x, y, width, height, noiseScale, ground, intensity)))
  }
}
