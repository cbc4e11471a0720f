/** Preparing the tables of the S16 mixer: clip detection, the quantised matrix and the lists of
    nonzero weights. */
module Quantisation {
  import opened ChannelLayouts
  import opened FixedPoint
  import opened MixMatrix
  import opened Rematrix

  /** The error carried into weight n of a row. */
  function Carry(row: seq<real>, n: nat): real
    requires n <= |row|
    decreases n, 0
  {
    if n == 0 then 0.0
    else Carry(row, n - 1) + (Target(row, n - 1) - Lrint(Target(row, n - 1)) as real)
  }

  function Target(row: seq<real>, n: nat): real
    requires n < |row|
    decreases n, 1
  {
    row[n] * 32768.0 + Carry(row, n)
  }

  /** The absolute sum of the first n weights, rounded with that carry. */
  function CarriedMagnitude(row: seq<real>, n: nat): nat
    requires n <= |row|
  {
    if n == 0 then 0 else CarriedMagnitude(row, n - 1) + AbsInt(Lrint(Target(row, n - 1)))
  }

  method RowMagnitude(m: array2<real>, o: nat, inN: nat) returns (sum: nat)
    requires o < m.Length0 && inN <= m.Length1
    ensures sum == CarriedMagnitude(Row(m, o), inN)
  {
    ghost var row := Row(m, o);
    var rem := 0.0;
    sum := 0;
    for j := 0 to inN
      invariant rem == Carry(row, j) && sum == CarriedMagnitude(row, j)
    {
      var target := m[o, j] * 32768.0 + rem;
      assert target == Target(row, j);
      var value := Lrint(target);
      rem := rem + (target - value as real);
      sum := sum + AbsInt(value);
    }
  }

  /** Some row, rounded with its carry, sums to more than one. */
  ghost predicate Overflows(m: array2<real>, outN: nat, inN: nat)
    requires outN <= m.Length0 && inN <= m.Length1
    reads m
  {
    exists o :: 0 <= o < outN && CarriedMagnitude(Row(m, o), inN) > 32768
  }

  method DetectClipping(m: array2<real>, outN: nat, inN: nat) returns (clipping: bool)
    requires outN <= m.Length0 && inN <= m.Length1
    ensures clipping <==> Overflows(m, outN, inN)
  {
    var maxsum := 0;
    ghost var top := 0;
    for o := 0 to outN
      invariant forall a | 0 <= a < o :: CarriedMagnitude(Row(m, a), inN) <= maxsum
      invariant maxsum > 0 ==> top < o && CarriedMagnitude(Row(m, top), inN) == maxsum
    {
      var sum := RowMagnitude(m, o, inN);
      if maxsum < sum {
        maxsum, top := sum, o;
      }
    }
    clipping := maxsum > 32768;
  }

  /** Quantise one row and list its nonzero weights. */
  method QuantiseRow(m: array2<real>, m32: array2<int>, ch: array2<nat>, i: nat)
    requires Full(m) && m32.Length0 == m32.Length1 == 32 && ch.Length0 == 32 && ch.Length1 == 33 && i < 32
    modifies m32, ch
    ensures RowReady(Row(m, i), Row(m32, i), Row(ch, i))
    ensures forall a, c | 0 <= a < 32 && 0 <= c < 32 && a != i :: m32[a, c] == old(m32[a, c])
    ensures forall a, c | 0 <= a < 32 && 0 <= c < 33 && a != i :: ch[a, c] == old(ch[a, c])
  {
    ghost var row := Row(m, i);
    var chIn := 0;
    for j := 0 to CHANNELS_MAX
      invariant chIn == |NonZero(row, j)|
      invariant forall c | 0 <= c < j :: m32[i, c] == Quantise(row[c])
      invariant forall k | 0 <= k < chIn :: ch[i, 1 + k] == NonZero(row, j)[k]
      invariant forall a, c | 0 <= a < 32 && 0 <= c < 32 && a != i :: m32[a, c] == old(m32[a, c])
      invariant forall a, c | 0 <= a < 32 && 0 <= c < 33 && a != i :: ch[a, c] == old(ch[a, c])
    {
      m32[i, j] := Lrint(m[i, j] * 32768.0);
      if m[i, j] != 0.0 {
        chIn := chIn + 1;
        ch[i, chIn] := j;
      }
    }
    ch[i, 0] := chIn;
  }

  method QuantiseMatrix(m: array2<real>, m32: array2<int>, ch: array2<nat>)
    requires Full(m) && m32.Length0 == m32.Length1 == 32 && ch.Length0 == 32 && ch.Length1 == 33
    modifies m32, ch
    ensures forall i | 0 <= i < 32 :: RowReady(Row(m, i), Row(m32, i), Row(ch, i))
  {
    for i := 0 to CHANNELS_MAX
      invariant forall a | 0 <= a < i :: RowReady(Row(m, a), Row(m32, a), Row(ch, a))
    {
      label before:
      QuantiseRow(m, m32, ch, i);
      forall a | 0 <= a < i
        ensures RowReady(Row(m, a), Row(m32, a), Row(ch, a))
      {
        assert Row(m32, a) == old@before(Row(m32, a)) && Row(ch, a) == old@before(Row(ch, a));
      }
    }
  }
}
