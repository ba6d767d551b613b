/** The C# and Unity numeric primitives the generator relies on, over unbounded
    integers and ideal reals. */
module CSharp {

  function Abs(a: int): nat {
    if a < 0 then -a else a
  }

  /** C# `int / int`, as the C# language specification defines the division operator: the
      quotient is truncated towards zero, so the remainder `a - q * b` is smaller
      than the divisor in magnitude and carries the sign of the dividend. The
      caller must exclude `b == 0`, which throws. */
  function TruncDiv(a: int, b: int): (q: int)
    requires b != 0
    ensures Abs(a - q * b) < Abs(b)
    ensures a - q * b == 0 || ((a - q * b < 0) <==> (a < 0))
  {
    var m := Abs(a) / Abs(b);
    var q := if (a < 0) == (b < 0) then m else -m;
    TruncDivRemainder(a, b, m);
    q
  }

  lemma TruncDivRemainder(a: int, b: int, m: int)
    requires b != 0 && m == Abs(a) / Abs(b)
    ensures var q := if (a < 0) == (b < 0) then m else -m;
      Abs(a - q * b) == Abs(a) - m * Abs(b)
    ensures 0 <= Abs(a) - m * Abs(b) < Abs(b)
  {
    var r := Abs(a) - m * Abs(b);
    assert Abs(a) == m * Abs(b) + r;
    var q := if (a < 0) == (b < 0) then m else -m;
    if a >= 0 && b > 0 {
      assert a - q * b == r;
    } else if a >= 0 && b < 0 {
      assert q * b == m * Abs(b);
    } else if a < 0 && b < 0 {
      assert q * b == -(m * Abs(b));
    } else {
      assert q * b == -(m * Abs(b));
    }
  }

  /** On a non-negative dividend truncation is the floor of the magnitudes, with
      the sign of the divisor. */
  lemma TruncDivNonnegDividend(a: int, b: int)
    requires a >= 0 && b != 0
    ensures b > 0 ==> TruncDiv(a, b) == a / b && 0 <= TruncDiv(a, b) <= a
    ensures b < 0 ==> TruncDiv(a, b) == -(a / -b) && -a <= TruncDiv(a, b) <= 0
    ensures TruncDiv(a, b) == 0 <==> a < Abs(b)
  {
    DivBounds(a, Abs(b));
  }

  lemma DivBounds(a: nat, b: int)
    requires b >= 1
    ensures 0 <= a / b <= a
    ensures a / b == 0 <==> a < b
  {
    if a >= b {
      assert a / b >= 1 by {
        assert a == (a / b) * b + a % b;
        assert a % b < b;
      }
    }
  }

  /** A C# explicit `(int)` cast of a floating-point value: truncation towards
      zero (values beyond the `int` range are not modelled). */
  function TruncToInt(r: real): (n: int)
    ensures Abs(n) as real <= (if r < 0.0 then -r else r) < Abs(n) as real + 1.0
    ensures n == 0 || ((n < 0) <==> (r < 0.0))
  {
    if r < 0.0 then -((-r).Floor) else r.Floor
  }

  /** Unity's `Mathf.Max(float, float)`. */
  function Max(a: real, b: real): (m: real)
    ensures m >= a && m >= b
    ensures m == a || m == b
  {
    if a < b then b else a
  }
}
