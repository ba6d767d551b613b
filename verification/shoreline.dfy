/** The shoreline falloff of `GenerateHeightmap`: an integer band width per axis,
    and linear ramps that scale down the pixels inside the band along each edge. */
module Shoreline {
  import opened Outcomes
  import opened CSharp
  import opened Remapping

  /** The depths for which `100 / shoreDepth` is a non-zero divisor. */
  predicate ValidDepth(shoreDepth: int) {
    shoreDepth != 0 && -100 <= shoreDepth <= 100
  }

  /** The band width `dim / (100 / shoreDepth)` in C# integer arithmetic. Both
      divisions can throw: the first when `shoreDepth` is 0, the second when the
      first truncates to 0, which happens exactly when `|shoreDepth| > 100`. */
  function ShoreBand(dim: int, shoreDepth: int): (r: Outcome<int>)
    ensures r.Ok? <==> ValidDepth(shoreDepth)
    ensures !r.Ok? ==> r.DivideByZeroException?
    ensures r.Ok? && dim >= 0 && shoreDepth > 0 ==> 0 <= r.value <= dim
    ensures r.Ok? && dim >= 0 && shoreDepth < 0 ==> r.value <= 0
  {
    if shoreDepth == 0 then DivideByZeroException
    else
      var step := TruncDiv(100, shoreDepth);
      TruncDivNonnegDividend(100, shoreDepth);
      if step == 0 then DivideByZeroException
      else
        var band := TruncDiv(dim, step);
        BandSign(dim, step);
        Ok(band)
  }

  lemma BandSign(dim: int, step: int)
    requires step != 0
    ensures dim >= 0 && step > 0 ==> 0 <= TruncDiv(dim, step) <= dim
    ensures dim >= 0 && step < 0 ==> TruncDiv(dim, step) <= 0
  {
    if dim >= 0 {
      TruncDivNonnegDividend(dim, step);
    }
  }

  /** Any depth above 50 percent makes the band the whole axis. */
  lemma ShoreBandFullWidth(dim: int, shoreDepth: int)
    requires 50 < shoreDepth <= 100
    ensures ShoreBand(dim, shoreDepth) == Ok(dim)
  {
    assert TruncDiv(100, shoreDepth) == 1;
  }

  /** The band is never narrower than `shoreDepth` percent of the axis (rounded
      down), because `100 / shoreDepth` rounds the divisor down. */
  lemma ShoreBandAtLeastPercentage(dim: nat, shoreDepth: int)
    requires 0 < shoreDepth <= 100
    ensures ShoreBand(dim, shoreDepth).Ok?
    ensures dim * shoreDepth / 100 <= ShoreBand(dim, shoreDepth).value
  {
    var step := TruncDiv(100, shoreDepth);
    TruncDivNonnegDividend(100, shoreDepth);
    assert step == 100 / shoreDepth;
    var band := TruncDiv(dim, step);
    TruncDivNonnegDividend(dim, step);
    assert band == dim / step;
    FloorBelowPercentage(dim, shoreDepth, step);
  }

  /** With `step <= 100 / depth`, `dim * depth / 100 <= dim / step`. */
  lemma FloorBelowPercentage(dim: nat, depth: int, step: int)
    requires 0 < depth && step == 100 / depth && step >= 1
    ensures dim * depth / 100 <= dim / step
  {
    var p := dim * depth / 100;
    assert step * depth <= 100;
    assert p * 100 <= dim * depth;
    assert p * (step * depth) <= p * 100 by {
      MulLeftMono(p, step * depth, 100);
    }
    assert (p * step) * depth <= dim * depth;
    assert p * step <= dim by {
      if p * step > dim {
        MulRightStrict(dim, p * step, depth);
      }
    }
    var q := dim / step;
    assert dim == q * step + dim % step;
    assert p * step < (q + 1) * step;
    MulCancelLt(p, q + 1, step);
  }

  lemma MulLeftMono(p: int, a: int, b: int)
    requires p >= 0 && a <= b
    ensures p * a <= p * b
  {
  }

  lemma MulCancelLt(a: int, b: int, c: int)
    requires a * c < b * c && c > 0
    ensures a < b
  {
  }

  lemma MulRightStrict(a: int, b: int, c: int)
    requires a < b && c > 0
    ensures a * c < b * c
  {
  }

  /** A depth of 30 percent on a 100-pixel axis gives a 33-pixel band. */
  lemma ShoreBandThirtyPercent()
    ensures ShoreBand(100, 30) == Ok(33)
  {
    assert TruncDiv(100, 30) == 3;
  }

  /** The factor applied to index `i` inside the band along the low (left or
      bottom) edge: `Remap(i, 0, band, 0, 1)`. */
  function LowRamp(i: int, band: int): (f: real)
    requires 0 <= i < band
    ensures f == i as real / band as real
    ensures 0.0 <= f < 1.0
    ensures f == 0.0 <==> i == 0
  {
    Remap(i as real, 0.0, band as real, 0.0, 1.0)
  }

  /** The factor applied to index `i` inside the band along the high (right or
      top) edge: `Remap(i, dim - band, dim, 1, 0)`. It never reaches 0, because
      the last index is `dim - 1`. */
  function HighRamp(i: int, dim: int, band: int): (f: real)
    requires dim - band < i < dim
    ensures f == (dim - i) as real / band as real
    ensures 0.0 < f < 1.0
  {
    var f := Remap(i as real, dim as real - band as real, dim as real, 1.0, 0.0);
    assert (f - 1.0) * band as real == (i - dim + band) as real * -1.0;
    assert f * band as real == (dim - i) as real;
    f
  }

  /** The high-edge ramp is the low-edge ramp mirrored about `dim`, not about
      `dim - 1`: the pixel `i` steps in from the high edge gets the factor of the
      pixel `i` steps in from index 0. */
  lemma RampMirror(i: int, dim: int, band: int)
    requires 0 < i < band <= dim
    ensures HighRamp(dim - i, dim, band) == LowRamp(i, band)
  {
  }

  /** Inside a band along an axis of length `dim`. */
  predicate InBand(i: int, dim: int, band: int) {
    i < band || i > dim - band
  }

  /** One conditional multiplication by a factor in [0, 1]. */
  function Attenuate(c: real, f: real): (r: real)
    requires 0.0 <= f <= 1.0
    ensures c >= 0.0 ==> 0.0 <= r <= c
    ensures c == 0.0 || f == 0.0 ==> r == 0.0
    ensures c > 0.0 && f > 0.0 ==> r > 0.0
  {
    AttenuateFacts(c, f);
    c * f
  }

  lemma AttenuateFacts(c: real, f: real)
    requires 0.0 <= f <= 1.0
    ensures c >= 0.0 ==> 0.0 <= c * f <= c
    ensures c == 0.0 || f == 0.0 ==> c * f == 0.0
    ensures c > 0.0 && f > 0.0 ==> c * f > 0.0
  {
    if c >= 0.0 {
      MulNonneg(c, 1.0 - f);
      assert c * (1.0 - f) == c - c * f;
      MulNonneg(c, f);
    }
    if c > 0.0 && f > 0.0 {
      MulPos(c, f);
    }
  }

  /** `c` scaled by the factor `f`. Named so that a chain of scalings can be
      stated step by step; `Scale(Scale(c, f1), f2)` is `c * f1 * f2`. */
  function Scale(c: real, f: real): real {
    c * f
  }

  /** The factor the low-edge step multiplies by: the ramp `i / band` inside the
      band, 1 outside it. */
  function LowFactor(i: int, band: int): real
    requires 0 <= i
  {
    if i < band then i as real / band as real else 1.0
  }

  /** The factor the high-edge step multiplies by: the ramp `(dim - i) / band`
      inside the band, 1 outside it. */
  function HighFactor(i: int, dim: int, band: int): real
    requires i < dim
  {
    if i > dim - band then (dim - i) as real / band as real else 1.0
  }

  /** The low-edge multiplication of one axis: `if (i < band) c *= Remap(i, 0, band, 0, 1)`. */
  function LowEdge(c: real, i: int, band: int): (r: real)
    requires 0 <= i
    ensures r == Scale(c, LowFactor(i, band))
    ensures c >= 0.0 ==> 0.0 <= r <= c
    ensures c == 0.0 || (0 < band && i == 0) ==> r == 0.0
    ensures c > 0.0 && !(0 < band && i == 0) ==> r > 0.0
  {
    if i < band then Attenuate(c, LowRamp(i, band)) else c
  }

  /** The high-edge multiplication of one axis:
      `if (i > dim - band) c *= Remap(i, dim - band, dim, 1, 0)`. */
  function HighEdge(c: real, i: int, dim: int, band: int): (r: real)
    requires i < dim
    ensures r == Scale(c, HighFactor(i, dim, band))
    ensures c >= 0.0 ==> 0.0 <= r <= c
    ensures c == 0.0 ==> r == 0.0
    ensures c > 0.0 ==> r > 0.0
  {
    if i > dim - band then Attenuate(c, HighRamp(i, dim, band)) else c
  }

  /** The four conditional multiplications of one pixel, in source order. The
      pixel is scaled by `LowFactor` of `x`, then of `y`, then by `HighFactor` of
      `x`, then of `y`: by the product of its four edge factors, each either its
      ramp or 1. */
  function Falloff(color: real, x: int, y: int, width: int, height: int,
                   shoreWidth: int, shoreHeight: int): (r: real)
    requires 0 <= x < width && 0 <= y < height
    ensures !InBand(x, width, shoreWidth) && !InBand(y, height, shoreHeight) ==> r == color
    ensures color >= 0.0 ==> 0.0 <= r <= color
    ensures (0 < shoreWidth && x == 0) || (0 < shoreHeight && y == 0) ==> r == 0.0
    ensures color > 0.0 && !(0 < shoreWidth && x == 0) && !(0 < shoreHeight && y == 0) ==> r > 0.0
    ensures r == Scale(Scale(Scale(Scale(color, LowFactor(x, shoreWidth)), LowFactor(y, shoreHeight)),
                             HighFactor(x, width, shoreWidth)), HighFactor(y, height, shoreHeight))
  {
    var c1 := LowEdge(color, x, shoreWidth);
    var c2 := LowEdge(c1, y, shoreHeight);
    var c3 := HighEdge(c2, x, width, shoreWidth);
    HighEdge(c3, y, height, shoreHeight)
  }

  /** When both bands span their whole axis (depth above 50 percent), every pixel
      is scaled by the product of the two ramps of each axis. */
  lemma FullBandFalloff(color: real, x: int, y: int, width: int, height: int)
    requires 0 <= x < width && 0 <= y < height
    ensures Falloff(color, x, y, width, height, width, height)
         == color * (x as real / width as real) * (y as real / height as real)
                  * ((width - x) as real / width as real) * ((height - y) as real / height as real)
  {
    var c1 := LowEdge(color, x, width);
    LowEdgeFullBand(color, x, width);
    var c2 := LowEdge(c1, y, height);
    LowEdgeFullBand(c1, y, height);
    var c3 := HighEdge(c2, x, width, width);
    HighEdgeFullBand(c2, x, width);
    HighEdgeFullBand(c3, y, height);
  }

  lemma LowEdgeFullBand(c: real, i: int, dim: int)
    requires 0 <= i < dim
    ensures LowEdge(c, i, dim) == c * (i as real / dim as real)
  {
  }

  lemma HighEdgeFullBand(c: real, i: int, dim: int)
    requires 0 <= i < dim
    ensures HighEdge(c, i, dim, dim) == c * ((dim - i) as real / dim as real)
  {
    if i == 0 {
      assert (dim - i) as real / dim as real == 1.0;
    }
  }
}
