/** `TerrainGenerator.Remap`: the linear map of one interval onto another, used by
    the shoreline ramps and the sand fade. */
module Remapping {

  /** Maps `value` from `[low1, high1]` onto `[low2, high2]`. With `high1 == low1`
      the floating-point division yields NaN or an infinity; that case is excluded
      here, and every call site in the generator is shown to avoid it. */
  function Remap(value: real, low1: real, high1: real, low2: real, high2: real): (r: real)
    requires high1 != low1
    ensures (r - low2) * (high1 - low1) == (value - low1) * (high2 - low2)
    ensures value == low1 ==> r == low2
    ensures value == high1 ==> r == high2
  {
    low2 + (value - low1) * (high2 - low2) / (high1 - low1)
  }

  /** Mapping an interval onto itself is the identity. */
  lemma RemapIdentity(value: real, low: real, high: real)
    requires high != low
    ensures Remap(value, low, high, low, high) == value
  {
    DivCancel(value - low, high - low);
  }

  /** On an increasing source interval the map preserves order when the target
      interval increases and reverses it when the target decreases. */
  lemma RemapMonotone(v: real, w: real, low1: real, high1: real, low2: real, high2: real)
    requires low1 < high1 && v <= w
    ensures low2 <= high2 ==> Remap(v, low1, high1, low2, high2) <= Remap(w, low1, high1, low2, high2)
    ensures high2 <= low2 ==> Remap(w, low1, high1, low2, high2) <= Remap(v, low1, high1, low2, high2)
  {
    var d := high1 - low1;
    var rv := Remap(v, low1, high1, low2, high2);
    var rw := Remap(w, low1, high1, low2, high2);
    assert (rw - rv) * d == (w - v) * (high2 - low2);
    if low2 <= high2 {
      MulNonneg(w - v, high2 - low2);
      NonnegFactor(rw - rv, d);
    } else {
      MulNonneg(w - v, low2 - high2);
      NonnegFactor(rv - rw, d);
    }
  }

  /** A value strictly inside the source interval lands strictly inside the target
      interval (in either orientation of the target). */
  lemma RemapStrictlyInside(value: real, low1: real, high1: real, low2: real, high2: real)
    requires low1 < value < high1 && low2 != high2
    ensures var r := Remap(value, low1, high1, low2, high2);
      if low2 < high2 then low2 < r < high2 else high2 < r < low2
  {
    var r := Remap(value, low1, high1, low2, high2);
    var d := high1 - low1;
    assert (r - low2) * d == (value - low1) * (high2 - low2);
    assert (high2 - r) * d == (high1 - value) * (high2 - low2) by {
      assert (high2 - low2) * d == (high1 - low1) * (high2 - low2);
    }
    if low2 < high2 {
      MulPos(value - low1, high2 - low2);
      MulPos(high1 - value, high2 - low2);
      PositiveFactor(r - low2, d);
      PositiveFactor(high2 - r, d);
    } else {
      MulPos(value - low1, low2 - high2);
      MulPos(high1 - value, low2 - high2);
      PositiveFactor(low2 - r, d);
      PositiveFactor(r - high2, d);
    }
  }

  lemma DivCancel(x: real, y: real)
    requires y != 0.0
    ensures x * y / y == x
  {
  }

  lemma MulNonneg(a: real, b: real)
    requires a >= 0.0 && b >= 0.0
    ensures a * b >= 0.0
  {
  }

  lemma MulPos(a: real, b: real)
    requires a > 0.0 && b > 0.0
    ensures a * b > 0.0
  {
  }

  lemma NonnegFactor(a: real, d: real)
    requires d > 0.0 && a * d >= 0.0
    ensures a >= 0.0
  {
    assert a == (a * d) / d;
  }

  lemma PositiveFactor(a: real, d: real)
    requires d > 0.0 && a * d > 0.0
    ensures a > 0.0
  {
    assert a == (a * d) / d;
  }
}
