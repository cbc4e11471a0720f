/** Division facts used where the source divides or wraps by a run-time value. */
module Arith {

  lemma MulAtLeast(d: int, q: int)
    requires 0 <= d && 1 <= q
    ensures d <= d * q
  {
    assert d * (q - 1) >= 0 by {
      if q > 1 && d > 0 { assert d * (q - 1) > 0; }
    }
  }

  lemma MulMonotone(a: int, b: int, d: nat)
    requires a <= b
    ensures a * d <= b * d
  {
    assert (b - a) * d >= 0;
    assert (b - a) * d == b * d - a * d;
  }

  /** Quotient and remainder are unique. */
  lemma DivModUnique(x: int, d: int, q: int, r: int)
    requires 0 <= r < d && x == d * q + r
    ensures x / d == q && x % d == r
  {
    var e := x / d - q;
    assert d * e == r - x % d by {
      assert d * (x / d) + x % d == x;
      assert d * (x / d - q) == d * (x / d) - d * q;
    }
    assert d * (-e) == -(d * e);
    if e >= 1 {
      MulAtLeast(d, e);
      assert false;
    } else if e <= -1 {
      MulAtLeast(d, -e);
      assert false;
    }
  }

  predicate Whole(n: int, channels: nat)
    requires channels > 0
  {
    n % channels == 0
  }

  lemma MultipleIsWhole(x: int, channels: nat)
    requires channels > 0
    ensures Whole(x * channels, channels) && (x * channels) / channels == x
  {
    DivModUnique(x * channels, channels, x, 0);
  }

  /** Whole frames add up to, and differ by, whole frames. */
  lemma WholeArithmetic(a: int, b: int, channels: nat)
    requires channels > 0 && Whole(a, channels) && Whole(b, channels)
    ensures Whole(a + b, channels) && Whole(a - b, channels)
  {
    var x, y := a / channels, b / channels;
    assert a == channels * x && b == channels * y;
    DivModUnique(a + b, channels, x + y, 0);
    DivModUnique(a - b, channels, x - y, 0);
  }

  /** Frame counts compare, and differ, as their sample counts do. */
  lemma FramesOrdered(a: nat, b: nat, channels: nat)
    requires channels > 0
    ensures a <= b <==> a * channels <= b * channels
    ensures a <= b ==> (b - a) * channels == b * channels - a * channels
  {
    assert channels * (b - a) == b * channels - a * channels;
    assert channels * (a - b) == a * channels - b * channels;
    if a < b {
      MulAtLeast(channels, b - a);
    } else if b < a {
      MulAtLeast(channels, a - b);
    }
  }

  function CeilDiv(a: nat, b: nat): (r: nat)
    requires b > 0
    ensures b * r >= a && b * r < a + b
  {
    var q := a / b;
    assert a == b * q + a % b;
    if a % b == 0 then q else
      assert b * (q + 1) == b * q + b;
      q + 1
  }
}
