/** `PaintTextures`: five ground-cover weights per alphamap cell, from the
    height at the cell and three fresh noise textures. */
module Painting {
  import opened Outcomes
  import opened Grids
  import opened Terrain
  import opened NoiseField
  import opened Remapping

  /** The alphamap layer indices. */
  const SAND := 0
  const GRASS := 1
  const MOSS := 2
  const DIRT := 3
  const STONE := 4
  /** The layers written; any further layers of the terrain are left as they were. */
  const LAYERS := 5

  /** The five written weights of a cell. */
  function Written(w: seq<real>): seq<real>
    requires |w| >= LAYERS
  {
    w[..LAYERS]
  }

  /** The weights the loop body leaves in one cell that held `prior`: the three
      noise samples and full stone, then sand by height. Below half the sand
      height sand replaces all vegetation; up to the sand height it fades out
      linearly while vegetation keeps its noise; above it there is no sand.
      Stone is always 1, and the weights are not normalised. */
  function BlendCell(prior: seq<real>, hm: real, grass: real, moss: real, dirt: real,
                     sandheight: real): (w: seq<real>)
    requires |prior| >= LAYERS
    ensures |w| == |prior|
    ensures forall i :: LAYERS <= i < |w| ==> w[i] == prior[i]
    ensures w[STONE] == 1.0
    ensures hm < sandheight / 2.0 ==> Written(w) == [1.0, 0.0, 0.0, 0.0, 1.0]
    ensures hm >= sandheight / 2.0 ==> w[GRASS] == grass && w[MOSS] == moss && w[DIRT] == dirt
    ensures sandheight / 2.0 <= hm < sandheight ==> 0.0 < w[SAND] <= 1.0
    ensures sandheight / 2.0 <= hm < sandheight ==> w[SAND] * sandheight == 2.0 * (sandheight - hm)
    ensures hm >= sandheight / 2.0 && hm >= sandheight ==> w[SAND] == 0.0
  {
    var base := prior[GRASS := grass][MOSS := moss][DIRT := dirt][STONE := 1.0];
    if hm < sandheight / 2.0 then
      base[SAND := 1.0][GRASS := 0.0][MOSS := 0.0][DIRT := 0.0]
    else if hm < sandheight then
      var fade := Remap(hm, sandheight / 2.0, sandheight, 0.0, 1.0);
      FadeInRange(hm, sandheight);
      assert (fade - 0.0) * (sandheight - sandheight / 2.0) == (hm - sandheight / 2.0) * 1.0;
      base[SAND := 1.0 - fade]
    else
      base[SAND := 0.0]
  }

  /** In the fade band the remapped height lies in [0, 1). */
  lemma FadeInRange(hm: real, sandheight: real)
    requires sandheight / 2.0 <= hm < sandheight
    ensures 0.0 <= Remap(hm, sandheight / 2.0, sandheight, 0.0, 1.0) < 1.0
  {
    if hm > sandheight / 2.0 {
      RemapStrictlyInside(hm, sandheight / 2.0, sandheight, 0.0, 1.0);
    }
  }

  /** The sand weight never increases with height. */
  lemma {:induction false} SandNonIncreasing(prior: seq<real>, h1: real, h2: real,
                                             grass: real, moss: real, dirt: real, sandheight: real)
    requires |prior| >= LAYERS && h1 <= h2
    ensures BlendCell(prior, h2, grass, moss, dirt, sandheight)[SAND]
         <= BlendCell(prior, h1, grass, moss, dirt, sandheight)[SAND]
  {
    var half := sandheight / 2.0;
    if half <= h1 && h2 < sandheight {
      RemapMonotone(h1, h2, half, sandheight, 0.0, 1.0);
    }
  }

  /** The written weights do not depend on what the cell held before. */
  lemma BlendOverwrites(prior1: seq<real>, prior2: seq<real>, hm: real,
                        grass: real, moss: real, dirt: real, sandheight: real)
    requires |prior1| >= LAYERS && |prior2| >= LAYERS
    ensures Written(BlendCell(prior1, hm, grass, moss, dirt, sandheight))
         == Written(BlendCell(prior2, hm, grass, moss, dirt, sandheight))
  {
    var w1 := BlendCell(prior1, hm, grass, moss, dirt, sandheight);
    var w2 := BlendCell(prior2, hm, grass, moss, dirt, sandheight);
    forall i | 0 <= i < LAYERS
      ensures Written(w1)[i] == Written(w2)[i]
    {
    }
  }

  /** With samples in [0, 1] every written weight is in [0, 1]; on the beach the
      five weights add up to 2, so they are not a partition of unity. */
  lemma BlendWeightsInUnit(prior: seq<real>, hm: real, grass: real, moss: real, dirt: real, sandheight: real)
    requires |prior| >= LAYERS
    requires 0.0 <= grass <= 1.0 && 0.0 <= moss <= 1.0 && 0.0 <= dirt <= 1.0
    ensures var w := BlendCell(prior, hm, grass, moss, dirt, sandheight);
      forall i :: 0 <= i < LAYERS ==> 0.0 <= w[i] <= 1.0
    ensures var w := BlendCell(prior, hm, grass, moss, dirt, sandheight);
      hm < sandheight / 2.0 ==> w[SAND] + w[GRASS] + w[MOSS] + w[DIRT] + w[STONE] == 2.0
  {
    var w := BlendCell(prior, hm, grass, moss, dirt, sandheight);
    assert Written(w)[SAND] == w[SAND];
    assert Written(w)[GRASS] == w[GRASS];
    assert Written(w)[MOSS] == w[MOSS];
    assert Written(w)[DIRT] == w[DIRT];
  }

  /** `alphaData` is a `float[width, height, layers]`: `width` by `height` cells
      of `layers` weights each. */
  ghost predicate IsAlphamap(alpha: seq<seq<seq<real>>>, width: nat, height: nat, layers: nat) {
    IsGrid(alpha, width, height) &&
    forall x, y :: 0 <= x < width && 0 <= y < height ==> |alpha[x][y]| == layers
  }

  /** `PaintTextures` on an alphamap `alpha` of `layers` layers as `GetAlphamaps`
      returned it and a height texture already resized to the alphamap resolution.
      Grass, moss and dirt noise each draw their own seed; moss is drawn with
      `grassAmount`. The first cell's writes to layers 1 to 4 throw
      `IndexOutOfRangeException` when the terrain has fewer than five layers;
      an empty alphamap is written back unchanged whatever its layer count. */
  function PaintTextures(alpha: seq<seq<seq<real>>>, heights: seq<seq<real>>, width: nat, height: nat,
                         layers: nat, p: TerrainParams, grassSeed: Seed, mossSeed: Seed, dirtSeed: Seed,
                         perlin: Perlin): (r: Outcome<seq<seq<seq<real>>>>)
    requires IsAlphamap(alpha, width, height, layers) && IsGrid(heights, width, height)
    ensures r.Ok? <==> width == 0 || height == 0 || layers >= LAYERS
    ensures !r.Ok? ==> r.IndexOutOfRangeException?
    ensures r.Ok? ==> IsAlphamap(r.value, width, height, layers)
    ensures r.Ok? ==> forall x, y :: 0 <= x < width && 0 <= y < height ==>
      r.value[x][y] == BlendCell(alpha[x][y], heights[x][y],
        NoiseSample(perlin, grassSeed, x, y, width, height, p.textureNoiseScale, 0.0, p.grassAmount),
        NoiseSample(perlin, mossSeed, x, y, width, height, p.textureNoiseScale, 0.0, p.grassAmount),
        NoiseSample(perlin, dirtSeed, x, y, width, height, p.textureNoiseScale, 0.0, p.dirtAmount),
        p.sandheight)
  {
    if width > 0 && height > 0 && layers < LAYERS then IndexOutOfRangeException
    else
      var grassNoise := Noise(width, height, p.textureNoiseScale, 0.0, p.grassAmount, grassSeed, perlin);
      var mossNoise := Noise(width, height, p.textureNoiseScale, 0.0, p.grassAmount, mossSeed, perlin);
      var dirtNoise := Noise(width, height, p.textureNoiseScale, 0.0, p.dirtAmount, dirtSeed, perlin);
      Ok(seq(width, x requires 0 <= x < width =>
        seq(height, y requires 0 <= y < height =>
          BlendCell(alpha[x][y], heights[x][y], grassNoise[x][y], mossNoise[x][y], dirtNoise[x][y], p.sandheight))))
  }

  /** `mossAmount` has no effect: the moss texture is drawn with `grassAmount`. */
  lemma MossAmountIgnored(alpha: seq<seq<seq<real>>>, heights: seq<seq<real>>, width: nat, height: nat,
                          layers: nat, p: TerrainParams, mossAmount: real,
                          grassSeed: Seed, mossSeed: Seed, dirtSeed: Seed, perlin: Perlin)
    requires IsAlphamap(alpha, width, height, layers) && IsGrid(heights, width, height)
    ensures PaintTextures(alpha, heights, width, height, layers, p.(mossAmount := mossAmount),
                          grassSeed, mossSeed, dirtSeed, perlin)
         == PaintTextures(alpha, heights, width, height, layers, p, grassSeed, mossSeed, dirtSeed, perlin)
  {
  }

  /** With noise in [0, 1] and amounts in [0, 1], every written weight of a
      painted alphamap is in [0, 1], stone is everywhere 1, and below half the
      sand height a cell is pure sand over stone. */
  lemma PaintedWeightsInUnit(alpha: seq<seq<seq<real>>>, heights: seq<seq<real>>, width: nat, height: nat,
                             layers: nat, p: TerrainParams, grassSeed: Seed, mossSeed: Seed, dirtSeed: Seed,
                             perlin: Perlin, x: int, y: int)
    requires IsAlphamap(alpha, width, height, layers) && IsGrid(heights, width, height)
    requires PerlinInUnit(perlin) && 0.0 <= p.grassAmount <= 1.0 && 0.0 <= p.dirtAmount <= 1.0
    requires 0 <= x < width && 0 <= y < height
    ensures var r := PaintTextures(alpha, heights, width, height, layers, p, grassSeed, mossSeed, dirtSeed, perlin);
      r.Ok? ==>
        var w := r.value[x][y];
        && (forall i :: 0 <= i < LAYERS ==> 0.0 <= w[i] <= 1.0)
        && w[STONE] == 1.0
        && (heights[x][y] < p.sandheight / 2.0 ==> Written(w) == [1.0, 0.0, 0.0, 0.0, 1.0])
  {
    if layers >= LAYERS {
      var g := NoiseSample(perlin, grassSeed, x, y, width, height, p.textureNoiseScale, 0.0, p.grassAmount);
      var m := NoiseSample(perlin, mossSeed, x, y, width, height, p.textureNoiseScale, 0.0, p.grassAmount);
      var d := NoiseSample(perlin, dirtSeed, x, y, width, height, p.textureNoiseScale, 0.0, p.dirtAmount);
      NoiseSampleBounded(perlin, grassSeed, x, y, width, height, p.textureNoiseScale, 0.0, p.grassAmount);
      NoiseSampleBounded(perlin, mossSeed, x, y, width, height, p.textureNoiseScale, 0.0, p.grassAmount);
      NoiseSampleBounded(perlin, dirtSeed, x, y, width, height, p.textureNoiseScale, 0.0, p.dirtAmount);
      BlendWeightsInUnit(alpha[x][y], heights[x][y], g, m, d, p.sandheight);
    }
  }
}
