/** `GenerateHeightmap`: clamped Perlin noise, shoreline falloff, and the decision
    to smooth by a bilinear down-and-up resize. */
module Heightfield {
  import opened Outcomes
  import opened CSharp
  import opened Grids
  import opened Terrain
  import opened NoiseField
  import opened Shoreline

  /** Whether the texture then goes through `TextureScale.Bilinear` down to the
      given size and back up to its own size. The resize itself is not modelled. */
  datatype Smoothing = Unsmoothed | BilinearRoundTrip(downWidth: int, downHeight: int)

  /** The returned texture: pixels as written by the loop, and the smoothing the
      engine then applies to them. */
  datatype HeightTexture = HeightTexture(pixels: seq<seq<real>>, smoothing: Smoothing)

  /** Smoothing happens only for a sharpness below 1; the reduced size is the
      truncating `(int)` cast of `width * terrainSharpness`. */
  function SmoothingPass(width: nat, height: nat, sharpness: real): (s: Smoothing)
    ensures s.Unsmoothed? <==> sharpness >= 1.0
    ensures 0.0 <= sharpness < 1.0 ==>
      0 <= s.downWidth <= width && 0 <= s.downHeight <= height
  {
    if sharpness < 1.0 then
      BilinearRoundTrip(TruncToInt(width as real * sharpness), TruncToInt(height as real * sharpness))
    else Unsmoothed
  }

  /** The clamped noise of one pixel before falloff: `max(minTerrainHeight,
      noise * maxTerrainHeight)`. */
  function BaseHeight(p: TerrainParams, seed: Seed, perlin: Perlin,
                      x: int, y: int, width: int, height: int): (v: real)
    requires 0 <= x < width && 0 <= y < height
    ensures v >= p.minTerrainHeight
    ensures v >= perlin(NoiseCoord(seed, x, width, p.terrainScale),
                        NoiseCoord(seed, y, height, p.terrainScale)) * p.maxTerrainHeight
    ensures v == p.minTerrainHeight
         || v == perlin(NoiseCoord(seed, x, width, p.terrainScale),
                        NoiseCoord(seed, y, height, p.terrainScale)) * p.maxTerrainHeight
    ensures PerlinInUnit(perlin) && p.maxTerrainHeight >= 0.0 ==> v <= Max(p.minTerrainHeight, p.maxTerrainHeight)
  {
    var v := NoiseSample(perlin, seed, x, y, width, height,
      p.terrainScale, p.minTerrainHeight, p.maxTerrainHeight);
    assert PerlinInUnit(perlin) && p.maxTerrainHeight >= 0.0 ==> v <= Max(p.minTerrainHeight, p.maxTerrainHeight) by {
      if PerlinInUnit(perlin) && p.maxTerrainHeight >= 0.0 {
        NoiseSampleBounded(perlin, seed, x, y, width, height,
          p.terrainScale, p.minTerrainHeight, p.maxTerrainHeight);
      }
    }
    v
  }

  /** The value the loop writes at pixel `(x, y)`. */
  function HeightPixel(p: TerrainParams, seed: Seed, perlin: Perlin, x: int, y: int,
                       width: int, height: int, shoreWidth: int, shoreHeight: int): real
    requires 0 <= x < width && 0 <= y < height
  {
    Falloff(BaseHeight(p, seed, perlin, x, y, width, height), x, y, width, height, shoreWidth, shoreHeight)
  }

  function HeightColumn(p: TerrainParams, seed: Seed, perlin: Perlin, x: int,
                        width: int, height: nat, shoreWidth: int, shoreHeight: int): (col: seq<real>)
    requires 0 <= x < width
    ensures |col| == height
    ensures forall y :: 0 <= y < height ==>
      col[y] == HeightPixel(p, seed, perlin, x, y, width, height, shoreWidth, shoreHeight)
  {
    seq(height, y requires 0 <= y < height =>
      HeightPixel(p, seed, perlin, x, y, width, height, shoreWidth, shoreHeight))
  }

  /** The reference definition of `GenerateHeightmap(width, height)` for the seed
      `Random.Range` returned. It throws exactly when the shore band does. */
  function Heightmap(width: nat, height: nat, p: TerrainParams, seed: Seed, perlin: Perlin): (r: Outcome<HeightTexture>)
    ensures r.Ok? <==> ValidDepth(p.shoreDepth)
    ensures !r.Ok? ==> r.DivideByZeroException?
    ensures r.Ok? ==> IsGrid(r.value.pixels, width, height)
    ensures r.Ok? ==> (r.value.smoothing.Unsmoothed? <==> p.terrainSharpness >= 1.0)
  {
    var bandW := ShoreBand(width, p.shoreDepth);
    if bandW.DivideByZeroException? then DivideByZeroException
    else
    // the height band divides by the same `100 / shoreDepth`, so it succeeds too
    var shoreWidth, shoreHeight := bandW.value, ShoreBand(height, p.shoreDepth).value;
    var pixels := seq(width, x requires 0 <= x < width =>
      HeightColumn(p, seed, perlin, x, width, height, shoreWidth, shoreHeight));
    Ok(HeightTexture(pixels, SmoothingPass(width, height, p.terrainSharpness)))
  }

  /** Every pixel before smoothing: with noise in [0, 1] and non-negative height
      limits it lies in [0, max(minTerrainHeight, maxTerrainHeight)]; outside all
      four bands it is the clamped noise itself; the first column and the first
      row are 0 whenever their band is non-empty; every other pixel stays
      positive when the clamped noise is. */
  lemma HeightmapPixels(width: nat, height: nat, p: TerrainParams, seed: Seed, perlin: Perlin, x: int, y: int)
    requires ValidDepth(p.shoreDepth)
    requires 0 <= x < width && 0 <= y < height
    ensures var v := Heightmap(width, height, p, seed, perlin).value.pixels[x][y];
      var base := BaseHeight(p, seed, perlin, x, y, width, height);
      var sw := ShoreBand(width, p.shoreDepth).value;
      var sh := ShoreBand(height, p.shoreDepth).value;
      && (PerlinInUnit(perlin) && p.minTerrainHeight >= 0.0 && p.maxTerrainHeight >= 0.0 ==>
            0.0 <= v <= Max(p.minTerrainHeight, p.maxTerrainHeight))
      && (!InBand(x, width, sw) && !InBand(y, height, sh) ==> v == base)
      && ((0 < sw && x == 0) || (0 < sh && y == 0) ==> v == 0.0)
      && (base > 0.0 && !(0 < sw && x == 0) && !(0 < sh && y == 0) ==> v > 0.0)
  {
    var sw := ShoreBand(width, p.shoreDepth).value;
    var sh := ShoreBand(height, p.shoreDepth).value;
    assert Heightmap(width, height, p, seed, perlin).value.pixels[x][y]
        == HeightPixel(p, seed, perlin, x, y, width, height, sw, sh);
  }

  /** A negative depth within [-100, -1] yields a non-positive band, so no pixel
      is attenuated. */
  lemma NegativeDepthKeepsNoise(width: nat, height: nat, p: TerrainParams, seed: Seed, perlin: Perlin, x: int, y: int)
    requires -100 <= p.shoreDepth < 0
    requires 0 <= x < width && 0 <= y < height
    ensures Heightmap(width, height, p, seed, perlin).Ok?
    ensures Heightmap(width, height, p, seed, perlin).value.pixels[x][y] == BaseHeight(p, seed, perlin, x, y, width, height)
  {
    HeightmapPixels(width, height, p, seed, perlin, x, y);
  }

  /** Within the inspector ranges the only failure is a depth of 0, and a sharpness
      of 1 is the only one that skips smoothing. */
  lemma InspectorRangeOutcome(width: nat, height: nat, p: TerrainParams, seed: Seed, perlin: Perlin)
    requires InInspectorRanges(p)
    ensures Heightmap(width, height, p, seed, perlin).DivideByZeroException? <==> p.shoreDepth == 0
    ensures Heightmap(width, height, p, seed, perlin).Ok? ==>
      (Heightmap(width, height, p, seed, perlin).value.smoothing.Unsmoothed? <==> p.terrainSharpness == 1.0)
  {
  }

  /** With the field initialisers the generation succeeds, is not smoothed, and
      uses a band of one twentieth of each axis. */
  lemma DefaultsHeightmap(width: nat, height: nat, seed: Seed, perlin: Perlin)
    ensures Heightmap(width, height, Defaults, seed, perlin).Ok?
    ensures Heightmap(width, height, Defaults, seed, perlin).value.smoothing == Unsmoothed
    ensures ShoreBand(width, Defaults.shoreDepth) == Ok(width / 20)
  {
    assert TruncDiv(100, 5) == 20;
    TruncDivNonnegDividend(width, 20);
  }

  /** `GenerateHeightmap`'s nested loops: column by column, row by row. */
  method GenerateHeightmap(width: nat, height: nat, p: TerrainParams, seed: Seed, perlin: Perlin)
    returns (r: Outcome<HeightTexture>)
    ensures r == Heightmap(width, height, p, seed, perlin)
  {
    var bandW := ShoreBand(width, p.shoreDepth);
    var bandH := ShoreBand(height, p.shoreDepth);
    if bandW.DivideByZeroException? {
      return DivideByZeroException;
    }
    var shoreWidth, shoreHeight := bandW.value, bandH.value;
    var pixels: seq<seq<real>> := [];
    var x := 0;
    while x < width
      invariant 0 <= x <= width
      invariant |pixels| == x
      invariant forall i :: 0 <= i < x ==>
        pixels[i] == HeightColumn(p, seed, perlin, i, width, height, shoreWidth, shoreHeight)
    {
      var column := GenerateColumn(p, seed, perlin, x, width, height, shoreWidth, shoreHeight);
      pixels := pixels + [column];
      x := x + 1;
    }
    assert pixels == seq(width, i requires 0 <= i < width =>
      HeightColumn(p, seed, perlin, i, width, height, shoreWidth, shoreHeight));
    r := Ok(HeightTexture(pixels, SmoothingPass(width, height, p.terrainSharpness)));
  }

  /** The inner loop over the rows of column `x`. */
  method GenerateColumn(p: TerrainParams, seed: Seed, perlin: Perlin, x: int,
                        width: int, height: nat, shoreWidth: int, shoreHeight: int)
    returns (column: seq<real>)
    requires 0 <= x < width
    ensures column == HeightColumn(p, seed, perlin, x, width, height, shoreWidth, shoreHeight)
  {
    column := [];
    var y := 0;
    while y < height
      invariant 0 <= y <= height
      invariant |column| == y
      invariant forall j :: 0 <= j < y ==>
        column[j] == HeightPixel(p, seed, perlin, x, j, width, height, shoreWidth, shoreHeight)
    {
      var color := ShadePixel(p, seed, perlin, x, y, width, height, shoreWidth, shoreHeight);
      column := column + [color];
      y := y + 1;
    }
  }

  /** The loop body: the clamped sample, then up to four ramp multiplications. */
  method ShadePixel(p: TerrainParams, seed: Seed, perlin: Perlin, x: int, y: int,
                    width: int, height: int, shoreWidth: int, shoreHeight: int)
    returns (color: real)
    requires 0 <= x < width && 0 <= y < height
    ensures (0 < shoreWidth && x == 0) || (0 < shoreHeight && y == 0) ==> color == 0.0
    ensures color == HeightPixel(p, seed, perlin, x, y, width, height, shoreWidth, shoreHeight)
  {
    color := BaseHeight(p, seed, perlin, x, y, width, height);
    ghost var c0 := color;
    if x < shoreWidth {
      color := Attenuate(color, LowRamp(x, shoreWidth));
    }
    assert color == LowEdge(c0, x, shoreWidth);
    ghost var c1 := color;
    if y < shoreHeight {
      color := Attenuate(color, LowRamp(y, shoreHeight));
    }
    assert color == LowEdge(c1, y, shoreHeight);
    ghost var c2 := color;
    if x > width - shoreWidth {
      color := Attenuate(color, HighRamp(x, width, shoreWidth));
    }
    assert color == HighEdge(c2, x, width, shoreWidth);
    ghost var c3 := color;
    if y > height - shoreHeight {
      color := Attenuate(color, HighRamp(y, height, shoreHeight));
    }
    assert color == HighEdge(c3, y, height, shoreHeight);
  }
}
