# Procedural terrain generator — Dafny model

A model of the generation arithmetic of the Unity `TerrainGenerator` component.
The component synthesises a heightmap from clamped Perlin noise, tapers its borders
with a shoreline falloff, optionally blurs it with a bilinear down-and-up resize,
and paints a five-layer alphamap (sand, grass, moss, dirt, stone) from the heights
and three more noise textures.

The model is functional. Floats are ideal `real`s. `Mathf.PerlinNoise` is an
uninterpreted parameter `perlin: (real, real) -> real`. Each `Random.Range(0, 10000)`
draw is a `Seed` parameter in `[0, 10000)`. C# integer division is modelled with
truncation towards zero. The exceptions the code throws are `Outcome` values.
Textures are column-major grids `g[x][y]`.

Modules, leaf first:

- `Outcomes` (`outcomes.dfy`): `Outcome<T> = Ok(value) | DivideByZeroException | IndexOutOfRangeException`.
- `CSharp` (`csharp.dfy`): C# `int /`, the `(int)` cast of a float, `Mathf.Max`.
- `Remapping` (`remap.dfy`): `Remap` and its algebra.
- `Grids` (`grids.dfy`), `Terrain` (`terrain.dfy`): grid shape, and the component's tunables with their initialisers and inspector ranges.
- `NoiseField` (`noise.dfy`): the clamped noise sample and the `Noise` texture.
- `Shoreline` (`shoreline.dfy`): the integer band width, the two ramps, the per-pixel falloff.
- `Heightfield` (`heightfield.dfy`): `GenerateHeightmap` as a reference function and as the source's nested loops.
- `Painting` (`painting.dfy`): the per-cell blend rule and `PaintTextures`.

Some of the code's behaviour is easy to misread. The model follows the code:

- The shore band is `width / (100 / shoreDepth)` in integer arithmetic. It is not `shoreDepth` percent of the width. It is never narrower than that, and it is the whole axis for any depth above 50.
- A depth of 0 throws `DivideByZeroException`; it does not mean "no falloff". So does any depth above 100 or below -100.
- The high-edge ramp is `(width - x) / band`. It never reaches 0, because the last column is `width - 1`. Only the first column and the first row are zeroed.
- Before falloff a height lies in `[minTerrainHeight, max(minTerrainHeight, maxTerrainHeight)]`, not in `[minTerrainHeight, maxTerrainHeight]`.
- Smoothing is skipped for every sharpness of 1 or more, not only for exactly 1.
- With a negative `sandheight`, a cell with `sandheight <= h < sandheight / 2` is pure sand.

## Model

| member | source | states |
|---|---|---|
| CSharp.TruncDiv | TerrainGenerator.cs:60-61 | C# `int /`: the remainder is smaller than the divisor in magnitude and has the sign of the dividend |
| CSharp.TruncToInt | TerrainGenerator.cs:84 | the `(int)` cast truncates towards zero: magnitude within 1 below the argument's, same sign |
| CSharp.Max | TerrainGenerator.cs:67-69 | `Mathf.Max` is an upper bound of both arguments and equals one of them |
| Remapping.Remap | TerrainGenerator.cs:178-180 | maps `low1` to `low2` and `high1` to `high2`, and is affine in between; undefined when `high1 == low1` |
| Remapping.RemapIdentity | TerrainGenerator.cs:178-180 | remapping an interval onto itself is the identity |
| Remapping.RemapMonotone | TerrainGenerator.cs:178-180 | order is preserved onto an increasing target and reversed onto a decreasing one |
| Remapping.RemapStrictlyInside | TerrainGenerator.cs:178-180 | an interior value lands strictly inside the target interval, in either orientation |
| NoiseField.NoiseSample | TerrainGenerator.cs:166-170 | a pixel is never below `ground` nor below noise times intensity, and it is one of the two: their maximum |
| NoiseField.NoiseSampleBounded | TerrainGenerator.cs:168-170 | with noise in [0,1] and intensity >= 0 a pixel lies in `[ground, max(ground, intensity)]` |
| NoiseField.SeedShiftsDiagonally | TerrainGenerator.cs:163-167 | seed `s + 1` samples what seed `s` samples one pixel further along the diagonal |
| NoiseField.Noise | TerrainGenerator.cs:161-176 | the texture is `width` by `height`, each pixel its own clamped sample, none below `ground` |
| Shoreline.ShoreBand | TerrainGenerator.cs:60-61 | throws exactly when `shoreDepth` is 0 or beyond ±100; a positive depth gives a band in `[0, dim]`, a negative one a band <= 0 |
| Shoreline.ShoreBandFullWidth | TerrainGenerator.cs:60-61 | any depth in (50, 100] makes the band the whole axis |
| Shoreline.ShoreBandAtLeastPercentage | TerrainGenerator.cs:60-61 | for depths in (0, 100] the band is at least `dim * shoreDepth / 100` |
| Shoreline.ShoreBandThirtyPercent | TerrainGenerator.cs:60 | 30 percent of a 100-pixel axis yields a 33-pixel band |
| Shoreline.LowRamp | TerrainGenerator.cs:71-74 | the low-edge factor is `i / band`, in [0,1), and 0 exactly at index 0 |
| Shoreline.HighRamp | TerrainGenerator.cs:75-78 | the high-edge factor is `(dim - i) / band`, strictly between 0 and 1 |
| Shoreline.RampMirror | TerrainGenerator.cs:71-78 | the high ramp mirrors the low ramp about `dim`, one pixel off a true mirror image |
| Shoreline.LowEdge | TerrainGenerator.cs:71-74 | one low-edge step scales the pixel by `LowFactor`: `i / band` inside the band, 1 outside it; it never raises a non-negative pixel, zeroes index 0 of a non-empty band, keeps other positive pixels positive |
| Shoreline.HighEdge | TerrainGenerator.cs:75-78 | one high-edge step scales the pixel by `HighFactor`: `(dim - i) / band` inside the band, 1 outside it; it never raises a non-negative pixel and never zeroes a positive one |
| Shoreline.Falloff | TerrainGenerator.cs:71-78 | for any band widths a pixel is scaled by its four edge factors in turn, `x / shoreWidth`, `y / shoreHeight`, `(width - x) / shoreWidth`, `(height - y) / shoreHeight`, each 1 outside its band; so outside all bands it is unchanged; a non-negative pixel is never raised; the first column and row of a non-empty band become 0; every other positive pixel stays positive |
| Shoreline.FullBandFalloff | TerrainGenerator.cs:71-78 | with full-axis bands every pixel is scaled by `x/w * y/h * (w-x)/w * (h-y)/h` |
| Heightfield.SmoothingPass | TerrainGenerator.cs:83-86 | no resize exactly when sharpness >= 1; for sharpness in [0,1) the reduced size is within the original |
| Heightfield.BaseHeight | TerrainGenerator.cs:65-69 | before falloff a height is the larger of `minTerrainHeight` and noise times `maxTerrainHeight`; with noise in [0,1] it is at most `max(minTerrainHeight, maxTerrainHeight)` |
| Heightfield.Heightmap | TerrainGenerator.cs:58-88 | throws exactly when the shore band does; otherwise a `width` by `height` texture, smoothed exactly when sharpness < 1 |
| Heightfield.HeightmapPixels | TerrainGenerator.cs:65-80 | every pixel lies in [0, max(min, max height)]; outside the bands it is the clamped noise; the first column and row are 0 when their band is non-empty; all else stays positive |
| Heightfield.NegativeDepthKeepsNoise | TerrainGenerator.cs:60-78 | a depth in [-100, -1] succeeds and attenuates no pixel |
| Heightfield.InspectorRangeOutcome | TerrainGenerator.cs:11-20 | within the inspector ranges generation throws only for depth 0, and skips smoothing only at sharpness 1 |
| Heightfield.DefaultsHeightmap | TerrainGenerator.cs:12-20 | with the field initialisers generation succeeds unsmoothed with a band of `width / 20` |
| Heightfield.GenerateHeightmap | TerrainGenerator.cs:58-88 | the nested loops produce exactly the reference heightmap, or throw exactly when it does |
| Heightfield.GenerateColumn | TerrainGenerator.cs:64-81 | the inner loop produces exactly the reference column |
| Heightfield.ShadePixel | TerrainGenerator.cs:65-80 | the loop body's sequence of conditional multiplications equals the reference falloff of the clamped sample; a pixel in the first column or row of a non-empty band is 0 |
| Painting.BlendCell | TerrainGenerator.cs:139-155 | stone is 1; below half the sand height the cell is exactly sand 1, vegetation 0, stone 1; from there on vegetation keeps its noise; in the fade band sand is `2 (s - h) / s`, in (0,1]; above both thresholds sand is 0; layers past the fifth are untouched |
| Painting.FadeInRange | TerrainGenerator.cs:151-152 | in the fade band the remapped height lies in [0,1), so sand is in (0,1] |
| Painting.SandNonIncreasing | TerrainGenerator.cs:146-155 | the sand weight never increases with height, for any sand height |
| Painting.BlendOverwrites | TerrainGenerator.cs:131-155 | the five written weights do not depend on the alphamap's previous contents |
| Painting.BlendWeightsInUnit | TerrainGenerator.cs:139-155 | with samples in [0,1] every weight is in [0,1]; on the beach the five weights sum to 2, so they are not normalised |
| Painting.PaintTextures | TerrainGenerator.cs:127-159 | throws `IndexOutOfRangeException` exactly when the alphamap has cells and fewer than five layers; otherwise the alphamap keeps its shape and each cell is the blend of its height with its own grass, moss and dirt samples, moss drawn with `grassAmount` |
| Painting.MossAmountIgnored | TerrainGenerator.cs:134-136 | the painted alphamap is the same whatever `mossAmount` is |
| Painting.PaintedWeightsInUnit | TerrainGenerator.cs:134-155 | with noise and amounts in [0,1] every weight of a painted alphamap is in [0,1], stone is 1, and low cells are pure sand over stone |

## Left out

- Host plumbing: `Start`, `Update`, `InitializeHeightmap`, `GenerateRelief`, `TextureToFloatArray`, and the engine's `GetAlphamaps`, `SetHeights` and `SetAlphamaps`. They move data between the engine's terrain store and the textures. `PaintTextures` takes the alphamap `GetAlphamaps` returned as an argument and returns the one handed to `SetAlphamaps`.
- `Mathf.PerlinNoise` internals: an uninterpreted parameter. Unity documents its result as only approximately within [0,1], and it may slightly exceed that range. `PerlinInUnit` is an idealising hypothesis that it stays inside. The upper bounds in `NoiseSampleBounded`, `BaseHeight`, `HeightmapPixels` and `PaintedWeightsInUnit` hold only under it.
- `Random.Range`: each draw is a `Seed` argument. `GenerateHeightmap` takes one; `PaintTextures` takes one each for grass, moss and dirt, in call order.
- `TextureScale.Bilinear` (lines 83-86 and 133): its source is not part of this model. `SmoothingPass` records whether the round trip happens and at which reduced size, not its effect on the pixels. `PaintTextures` takes heights already at the alphamap's resolution.
- Texture storage: 8-bit quantisation and clamping of `Color` channels, `.grayscale` (a grey pixel is read back as its own value), `Apply`, `Resize`.
- `UpdateDebugHeightmap` and its coroutine: a debug preview copy.
- IEEE float rounding, NaN and infinities: reals are an idealisation. Float `Remap` with `high1 == low1` gives NaN or an infinity, so it is a precondition here; every call site provably meets it.
- `int` overflow in `width / (100 / shoreDepth)` and the `(int)` cast beyond the `int` range: integers are unbounded.
- Weight normalisation: the code does none, and the model does not add it.
- `heightmapDetail`: declared but unused by the modelled code.
