/** The 17.15 fixed point arithmetic of the S16 mixer: rounding of weights and sums, the bound
    that keeps every partial sum in 32 bits, clipping, and when it is needed. */
module FixedPoint {
  import opened Arith
  import opened MixMatrix

  /** Round to the nearest integer, ties to even, as `lrint` in its default mode. */
  function Lrint(x: real): int {
    var f := x.Floor;
    var d := x - f as real;
    if d < 0.5 then f
    else if d > 0.5 then f + 1
    else if f % 2 == 0 then f
    else f + 1
  }

  predicate NearestEven(x: real, r: int, n: int) {
    && Abs(x - r as real) <= 0.5
    && Abs(x - r as real) <= Abs(x - n as real)
    && (n != r && Abs(x - n as real) == Abs(x - r as real) ==> r % 2 == 0)
  }

  lemma NearestOfPart(f: int, d: real, r: int, n: int)
    requires 0.0 <= d < 1.0
    requires r == if d < 0.5 then f else if d > 0.5 then f + 1 else if f % 2 == 0 then f else f + 1
    ensures NearestEven(f as real + d, r, n)
  {
    if n <= f {
      assert n as real <= f as real;
    } else {
      assert n as real >= f as real + 1.0;
    }
  }

  /** No integer is nearer, and where another one is as near the even one is taken. */
  lemma LrintIsNearestEven(x: real, n: int)
    ensures NearestEven(x, Lrint(x), n)
  {
    NearestOfPart(x.Floor, x - x.Floor as real, Lrint(x), n);
  }

  /** A weight in units of 1/32768. */
  function Quantise(w: real): int {
    Lrint(w * 32768.0)
  }

  lemma QuantiseKeepsSign(w: real)
    ensures w >= 0.0 ==> Quantise(w) >= 0
    ensures w == 0.0 ==> Quantise(w) == 0
  {
  }

  predicate IsQuantised(q: seq<int>, row: seq<real>) {
    |q| == |row| && forall k | 0 <= k < |q| :: q[k] == Quantise(row[k])
  }

  function AbsInt(x: int): nat {
    if x < 0 then -x else x
  }

  /** The absolute sum of the first n quantised weights. */
  function Magnitude(q: seq<int>, n: nat): nat
    requires n <= |q|
  {
    if n == 0 then 0 else Magnitude(q, n - 1) + AbsInt(q[n - 1])
  }

  /** The first n terms of a row of quantised weights times a frame. */
  function Dot(q: seq<int>, x: seq<int>, n: nat): int
    requires n <= |q| && n <= |x|
  {
    if n == 0 then 0 else Dot(q, x, n - 1) + q[n - 1] * x[n - 1]
  }

  predicate Sample(x: int) {
    -32768 <= x <= 32767
  }

  predicate Frame(x: seq<int>) {
    forall k | 0 <= k < |x| :: Sample(x[k])
  }

  // ----- Every partial sum fits 32 bits -----

  lemma QuantisationError(w: real)
    ensures AbsInt(Quantise(w)) as real <= Abs(w) * 32768.0 + 0.5
  {
    LrintIsNearestEven(w * 32768.0, 0);
    assert Abs(w * 32768.0) == Abs(w) * 32768.0;
  }

  /** Rounding adds at most one half a weight. */
  lemma {:induction false} QuantisedMagnitude(row: seq<real>, q: seq<int>, n: nat)
    requires IsQuantised(q, row) && n <= |q|
    ensures Magnitude(q, n) as real <= AbsSum(row, n) * 32768.0 + n as real * 0.5
  {
    if n > 0 {
      QuantisedMagnitude(row, q, n - 1);
      QuantisationError(row[n - 1]);
    }
  }

  lemma ProductGrows(w: nat, x: int, y: int)
    requires x <= y
    ensures w * x <= w * y
  {
    MulMonotone(x, y, w);
  }

  lemma TermBound(q: int, x: int)
    requires Sample(x)
    ensures -32768 * AbsInt(q) <= q * x <= 32768 * AbsInt(q)
  {
    ProductGrows(AbsInt(q), -32768, x);
    ProductGrows(AbsInt(q), x, 32768);
    ProductGrows(AbsInt(q), -32768, -x);
    ProductGrows(AbsInt(q), -x, 32768);
  }

  lemma {:induction false} DotBound(q: seq<int>, x: seq<int>, n: nat)
    requires n <= |q| && n <= |x| && Frame(x)
    ensures -32768 * Magnitude(q, n) <= Dot(q, x, n) <= 32768 * Magnitude(q, n)
  {
    if n > 0 {
      DotBound(q, x, n - 1);
      TermBound(q[n - 1], x[n - 1]);
    }
  }

  lemma {:induction false} AbsSumGrows(row: seq<real>, n: nat, all: nat)
    requires n <= all <= |row|
    ensures AbsSum(row, n) <= AbsSum(row, all)
    decreases all
  {
    if n < all {
      AbsSumGrows(row, n, all - 1);
    }
  }

  predicate Int32(v: int) {
    -0x8000_0000 <= v < 0x8000_0000
  }

  /** A sum, with and without the rounding term, is a 32 bit integer. */
  predicate Fits(v: int) {
    Int32(v) && Int32(v + 16384)
  }

  /** For a row of at most 32 weights whose absolute sum is at most one, every partial sum, and
      the whole sum with the rounding term, fits a 32 bit integer. */
  lemma PartialSumsFit(row: seq<real>, q: seq<int>, x: seq<int>, n: nat)
    requires IsQuantised(q, row) && |row| <= 32 && AbsSum(row, |row|) <= 1.0
    requires n <= |q| && n <= |x| && Frame(x)
    ensures Magnitude(q, n) <= 32768 + 16
    ensures Fits(Dot(q, x, n))
  {
    AbsSumGrows(row, n, |row|);
    QuantisedMagnitude(row, q, n);
    DotBound(q, x, n);
  }

  // ----- Rounding and clipping a sum to a sample -----

  /** `(x + 16384) >> 15`: an arithmetic shift rounds down. */
  function Rounded(v: int): int {
    (v + 16384) / 32768
  }

  /** ... which is v / 32768 rounded to nearest, ties up. */
  lemma RoundedIsNearest(v: int, n: int)
    ensures Rounded(v) == n <==> 32768 * n - 16384 <= v < 32768 * n + 16384
  {
  }

  function Clamp(y: int): int {
    if y < -32768 then -32768 else if y > 32767 then 32767 else y
  }

  /** Storing into a 16 bit sample keeps the low 16 bits. */
  function Wrap16(y: int): (s: int)
    ensures Sample(s) && (s - y) % 0x1_0000 == 0
    ensures Sample(y) ==> s == y
  {
    (y + 32768) % 65536 - 32768
  }

  /** `y >> 31` of a 32 bit two's complement number. */
  function SignMask(y: bv32): bv32 {
    if y >= 0x8000_0000 then 0xFFFF_FFFF else 0
  }

  /** The clip expression of the S16 path, on the bits of y. */
  function ClipBits(y: bv32): bv32 {
    if (y + 0x8000) & 0xFFFF_0000 != 0 then SignMask(y) ^ 0x7FFF else y
  }

  function Signed(b: bv32): int {
    if b < 0x8000_0000 then b as int else b as int - 0x1_0000_0000
  }

  predicate ShortRange(y: bv32) {
    y < 0x8000 || y >= 0xFFFF_8000
  }

  lemma HighBits(z: bv32)
    ensures z & 0xFFFF_0000 == 0 <==> z < 0x1_0000
  {
  }

  lemma Shifted(y: bv32)
    ensures y + 0x8000 < 0x1_0000 <==> ShortRange(y)
  {
  }

  lemma SignChoosesEnd(y: bv32)
    ensures SignMask(y) ^ 0x7FFF == if y < 0x8000_0000 then 0x7FFF else 0xFFFF_8000
  {
  }

  lemma ClipBitsCases(y: bv32)
    ensures ClipBits(y) == if ShortRange(y) then y else if y < 0x8000_0000 then 0x7FFF else 0xFFFF_8000
  {
    HighBits(y + 0x8000);
    Shifted(y);
    SignChoosesEnd(y);
    assert ShortRange(y) <==> (y + 0x8000) & 0xFFFF_0000 == 0;
  }

  /** The clip expression is exactly the clamp to 16 bits. */
  lemma ClipIsClamp(y: bv32)
    ensures Signed(ClipBits(y)) == Clamp(Signed(y))
  {
    ClipBitsCases(y);
  }

  /** The sample stored for a sum, with and without clip detection. */
  function ToSample(v: int, clipping: bool): (s: int)
    ensures Sample(s)
  {
    if clipping then Clamp(Rounded(v)) else Wrap16(Rounded(v))
  }

  // ----- When a row can do without clipping -----

  predicate NonNegative(q: seq<int>) {
    forall k | 0 <= k < |q| :: q[k] >= 0
  }

  function Loudest(n: nat): (x: seq<int>)
    ensures |x| == n && Frame(x) && forall k | 0 <= k < n :: x[k] == 32767
  {
    seq(n, _ => 32767)
  }

  lemma {:induction false} DotOfLoudest(q: seq<int>, n: nat, all: nat)
    requires NonNegative(q) && n <= all <= |q|
    ensures Dot(q, Loudest(all), n) == 32767 * Magnitude(q, n)
  {
    if n > 0 {
      DotOfLoudest(q, n - 1, all);
    }
  }

  lemma {:induction false} NonNegativeDotBound(q: seq<int>, x: seq<int>, n: nat)
    requires NonNegative(q) && Frame(x) && n <= |q| && n <= |x|
    ensures -32768 * Magnitude(q, n) <= Dot(q, x, n) <= 32767 * Magnitude(q, n)
  {
    if n > 0 {
      NonNegativeDotBound(q, x, n - 1);
      ProductGrows(q[n - 1], -32768, x[n - 1]);
      ProductGrows(q[n - 1], x[n - 1], 32767);
    }
  }

  /** For every frame the rounded sum is a sample, so that storing it loses nothing. */
  ghost predicate NeverWraps(q: seq<int>, n: nat)
    requires n <= |q|
  {
    forall x: seq<int> | |x| == n && Frame(x) :: Sample(Rounded(Dot(q, x, n)))
  }

  lemma FullScaleSum(sum: nat)
    ensures sum <= 32768 ==> Rounded(32767 * sum) <= 32767 && -32768 <= Rounded(-32768 * sum)
    ensures sum > 32768 ==> Rounded(32767 * sum) > 32767
  {
  }

  /** A nonnegative row needs no clipping, for any frame, exactly when its quantised weights sum
      to at most one. */
  lemma NeverWrapsIff(q: seq<int>, n: nat)
    requires NonNegative(q) && n <= |q|
    ensures NeverWraps(q, n) <==> Magnitude(q, n) <= 32768
  {
    FullScaleSum(Magnitude(q, n));
    if Magnitude(q, n) <= 32768 {
      forall x: seq<int> | |x| == n && Frame(x)
        ensures Sample(Rounded(Dot(q, x, n)))
      {
        NonNegativeDotBound(q, x, n);
      }
    } else {
      DotOfLoudest(q, n, n);
      assert !Sample(Rounded(Dot(q, Loudest(n), n)));
    }
  }

  /** What is stored for a frame is the rounded sum clamped to 16 bits, for every frame. */
  ghost predicate ClampsAlways(q: seq<int>, n: nat, clipping: bool)
    requires n <= |q|
  {
    forall x: seq<int> | |x| == n && Frame(x) ::
      ToSample(Dot(q, x, n), clipping) == Clamp(Rounded(Dot(q, x, n)))
  }

  /** Full scale into a row a little over one wraps to the other end. */
  lemma FullScaleWraps(sum: nat)
    requires 32768 < sum <= 32768 + 16
    ensures Wrap16(Rounded(32767 * sum)) < 0 < Clamp(Rounded(32767 * sum))
  {
  }

  lemma ClampsAlwaysIff(q: seq<int>, n: nat, clipping: bool)
    requires NonNegative(q) && n <= |q| && Magnitude(q, n) <= 32768 + 16
    ensures ClampsAlways(q, n, clipping) <==> clipping || Magnitude(q, n) <= 32768
  {
    if clipping {
    } else if Magnitude(q, n) <= 32768 {
      NeverWrapsIff(q, n);
    } else {
      DotOfLoudest(q, n, n);
      FullScaleWraps(Magnitude(q, n));
      assert ToSample(Dot(q, Loudest(n), n), clipping) != Clamp(Rounded(Dot(q, Loudest(n), n)));
    }
  }
}
