/** What the S16 mixer can and cannot get wrong, for every context it accepts: no sum overflows 32
    bits, and exactly when the clip detection fails to protect the stored samples. */
module MixerBounds {
  import opened ChannelLayouts
  import opened FixedPoint
  import opened MixCoefficients
  import opened MixMatrix
  import opened Mixers
  import opened Quantisation
  import opened Rematrix

  /** The tables of a context that accepted its layouts. */
  ghost predicate Context(m: array2<real>, m32: array2<int>, ch: array2<nat>, inL: Layout, outL: Layout)
    reads m, m32, ch
  {
    && Full(m) && m32.Length1 == 32 && Supported(inL, outL) && MatrixFor(m, inL, outL)
    && Ready(m, m32, ch, ChannelCount(outL), ChannelCount(inL))
  }

  /** Every quantised weight is nonnegative, and no row has a weight sum over one. */
  lemma RowsAreTame(m: array2<real>, m32: array2<int>, ch: array2<nat>, inL: Layout, outL: Layout, o: nat)
    requires Context(m, m32, ch, inL, outL) && o < ChannelCount(outL)
    ensures NonNegative(Row(m32, o)) && IsQuantised(Row(m32, o), Row(m, o)) && AbsSum(Row(m, o), 32) <= 1.0
  {
    assert RowSum(m, o) == AbsSum(Row(m, o), 32);
    CleaningKeepsCount(inL);
    CleaningKeepsCount(outL);
    forall c | 0 <= c < 32
      ensures Row(m32, o)[c] >= 0
    {
      WeightIsNonNegative(m, inL, outL, o, c);
      assert Row(m32, o)[c] == Quantise(Row(m, o)[c]);
      QuantiseKeepsSign(m[o, c]);
    }
  }

  lemma SignOfMultiple(x: real, y: real, c: real)
    requires c >= 1.0 && Multiple(x, y, c) && x >= 0.0
    ensures y >= 0.0
  {
    if y < 0.0 {
      NegativeMultiple(y, c);
    }
  }

  lemma NegativeMultiple(y: real, c: real)
    requires y < 0.0 && c >= 1.0
    ensures y * c < 0.0
  {
  }

  /** An entry of the matrix belongs to a pair of channels, or is zero. */
  lemma EntryIsWeight(m: array2<real>, inL: Layout, outL: Layout, scale: real, o: nat, c: nat)
    requires Full(m) && Normalised(m, inL, outL, scale) && o < ChannelCount(outL) && c < ChannelCount(inL)
    ensures exists w :: w >= 0.0 && Multiple(w, m[o, c], scale)
  {
    var i := RankHit(outL, 32, o);
    var j := RankHit(inL, 32, c);
    CoefficientsNonNegative(inL, outL, i, j);
    assert Multiple(Coefficient(inL, outL, i, j), m[Rank(outL, i), Rank(inL, j)], scale);
  }

  lemma WeightIsNonNegative(m: array2<real>, inL: Layout, outL: Layout, o: nat, c: nat)
    requires Full(m) && MatrixFor(m, inL, outL) && o < ChannelCount(CleanLayout(outL)) && c < 32
    ensures m[o, c] >= 0.0
  {
    var scale :| ScaledFor(m, inL, outL, scale);
    if c < ChannelCount(CleanLayout(inL)) {
      EntryIsWeight(m, CleanLayout(inL), CleanLayout(outL), scale, o, c);
      var w :| w >= 0.0 && Multiple(w, m[o, c], scale);
      SignOfMultiple(w, m[o, c], scale);
    }
  }

  /** No sum, whole or partial, and no sum with its rounding term leaves 32 bits, for any frame. */
  lemma SumsNeverOverflow(m: array2<real>, m32: array2<int>, ch: array2<nat>, inL: Layout, outL: Layout,
                          o: nat, x: seq<int>, k: nat)
    requires Context(m, m32, ch, inL, outL) && o < ChannelCount(outL)
    requires |x| == ChannelCount(inL) && Frame(x) && k <= |NonZero(Row(m, o), |x|)|
    ensures Fits(SparseDot(NonZero(Row(m, o), |x|), Row(m32, o), x, k))
  {
    RowsAreTame(m, m32, ch, inL, outL, o);
    var n := SparsePartialSum(Row(m, o), Row(m32, o), x, |x|, k);
    PartialSumsFit(Row(m, o), Row(m32, o), x, n);
  }

  /** For every context: what is stored is the clamped sum, for all frames, exactly when clip
      detection is on or no row of quantised weights sums to more than one. */
  lemma StoresClampedIff(m: array2<real>, m32: array2<int>, ch: array2<nat>, inL: Layout, outL: Layout, clipping: bool)
    requires Context(m, m32, ch, inL, outL)
    ensures (forall o | 0 <= o < ChannelCount(outL) :: ClampsAlways(Row(m32, o), ChannelCount(inL), clipping))
            <==> clipping || forall o | 0 <= o < ChannelCount(outL) :: Magnitude(Row(m32, o), ChannelCount(inL)) <= 32768
  {
    forall o | 0 <= o < ChannelCount(outL)
      ensures ClampsAlways(Row(m32, o), ChannelCount(inL), clipping)
              <==> clipping || Magnitude(Row(m32, o), ChannelCount(inL)) <= 32768
    {
      RowsAreTame(m, m32, ch, inL, outL, o);
      PartialSumsFit(Row(m, o), Row(m32, o), Loudest(ChannelCount(inL)), ChannelCount(inL));
      ClampsAlwaysIff(Row(m32, o), ChannelCount(inL), clipping);
    }
  }

  // ----- Clip detection against the quantised matrix -----

  function ThreeFront(): Layout {
    seq(32, i => i < 3)
  }

  lemma RanksOfThreeFront()
    ensures Rank(ThreeFront(), 0) == 0 && Rank(ThreeFront(), 1) == 1 && Rank(ThreeFront(), 2) == 2
    ensures ChannelCount(ThreeFront()) == 3 && SaneLayout(ThreeFront()) && CleanLayout(ThreeFront()) == ThreeFront()
  {
    RankPastThree(32);
    assert Rank(ThreeFront(), 3) == Rank(ThreeFront(), 2) + 1;
  }

  lemma {:induction false} RankPastThree(n: nat)
    requires 3 <= n <= 32
    ensures Rank(ThreeFront(), n) == Rank(ThreeFront(), 3)
  {
    if n > 3 {
      RankPastThree(n - 1);
    }
  }

  function Mono(): Layout {
    Only(FRONT_CENTER)
  }

  lemma RanksOfMono()
    ensures Rank(Mono(), FRONT_CENTER) == 0 && ChannelCount(Mono()) == 1
    ensures SaneLayout(Mono()) && CleanLayout(Mono()) == Mono()
  {
    RankOfOnly(FRONT_CENTER, FRONT_CENTER);
    RankOfOnly(FRONT_CENTER, 32);
  }

  lemma ThreeFrontToMonoWeights()
    ensures Coefficient(ThreeFront(), Mono(), FRONT_CENTER, FRONT_LEFT) == M_SQRT1_2
    ensures Coefficient(ThreeFront(), Mono(), FRONT_CENTER, FRONT_RIGHT) == M_SQRT1_2
    ensures Coefficient(ThreeFront(), Mono(), FRONT_CENTER, FRONT_CENTER) == CENTER_MIX_LEVEL * M_SQRT2
  {
  }

  const FOLD_SUM: real := M_SQRT1_2 + M_SQRT1_2 + CENTER_MIX_LEVEL * M_SQRT2

  lemma SumOfThree(row: seq<real>)
    requires |row| == 32 && row[0] >= 0.0 && row[1] >= 0.0 && row[2] >= 0.0
    requires forall c | 3 <= c < 32 :: row[c] == 0.0
    ensures AbsSum(row, 32) == row[0] + row[1] + row[2]
  {
    AbsSumOfPadded(row, 3, 32);
    assert AbsSum(row, 0) == 0.0;
    assert AbsSum(row, 1) == row[0];
    assert AbsSum(row, 2) == row[0] + row[1];
  }

  lemma ScaleOfFold(a: real, b: real, c: real, scale: real)
    requires Multiple(M_SQRT1_2, a, scale) && Multiple(M_SQRT1_2, b, scale)
    requires Multiple(CENTER_MIX_LEVEL * M_SQRT2, c, scale) && a + b + c <= 1.0 && scale >= 1.0
    ensures scale > 1.0
    ensures a + b + c == 1.0 ==> scale == FOLD_SUM
  {
    assert (a + b + c) * scale == FOLD_SUM;
  }

  /** The one row for three front channels into mono: weights in the ratio of the coefficients,
      which sum to one. */
  lemma FoldRow(m: array2<real>)
    requires Full(m) && MatrixFor(m, ThreeFront(), Mono())
    ensures Multiple(M_SQRT1_2, m[0, 0], FOLD_SUM) && Multiple(M_SQRT1_2, m[0, 1], FOLD_SUM)
    ensures Multiple(CENTER_MIX_LEVEL * M_SQRT2, m[0, 2], FOLD_SUM)
    ensures forall c | 3 <= c < 32 :: m[0, c] == 0.0
  {
    RanksOfThreeFront();
    RanksOfMono();
    ThreeFrontToMonoWeights();
    var scale :| ScaledFor(m, ThreeFront(), Mono(), scale);
    FoldEntries(m, scale);
    WeightIsNonNegative(m, ThreeFront(), Mono(), 0, 0);
    WeightIsNonNegative(m, ThreeFront(), Mono(), 0, 1);
    WeightIsNonNegative(m, ThreeFront(), Mono(), 0, 2);
    SumOfThree(Row(m, 0));
    assert RowSum(m, 0) <= 1.0;
    ScaleOfFold(m[0, 0], m[0, 1], m[0, 2], scale);
    var r :| 0 <= r < 32 && RowSum(m, r) == 1.0;
    if r > 0 {
      BlankSum(Row(m, r));
    }
  }

  lemma FoldEntries(m: array2<real>, scale: real)
    requires Full(m) && Normalised(m, ThreeFront(), Mono(), scale)
    ensures Multiple(M_SQRT1_2, m[0, 0], scale) && Multiple(M_SQRT1_2, m[0, 1], scale)
    ensures Multiple(CENTER_MIX_LEVEL * M_SQRT2, m[0, 2], scale)
    ensures forall r, c | 0 <= r < 32 && 0 <= c < 32 && (r >= 1 || c >= 3) :: m[r, c] == 0.0
  {
    RanksOfThreeFront();
    RanksOfMono();
    ThreeFrontToMonoWeights();
    assert ThreeFront()[FRONT_LEFT] && ThreeFront()[FRONT_RIGHT] && ThreeFront()[FRONT_CENTER];
    assert Mono()[FRONT_CENTER];
  }

  /** Rounded each on its own the weights, about 9597.53, 9597.53 and 13572.95, sum to 32769; with
      the carry they sum to 32768. */
  lemma FoldQuantised(row: seq<real>)
    requires |row| >= 3
    requires Multiple(M_SQRT1_2, row[0], FOLD_SUM) && Multiple(M_SQRT1_2, row[1], FOLD_SUM)
    requires Multiple(CENTER_MIX_LEVEL * M_SQRT2, row[2], FOLD_SUM)
    ensures Quantise(row[0]) == 9598 && Quantise(row[1]) == 9598 && Quantise(row[2]) == 13573
    ensures CarriedMagnitude(row, 3) == 32768
  {
    assert Carry(row, 0) == 0.0;
    assert Lrint(Target(row, 0)) == 9598;
    assert Lrint(Target(row, 1)) == 9597;
    assert Lrint(Target(row, 2)) == 13573;
    assert CarriedMagnitude(row, 1) == 9598;
    assert CarriedMagnitude(row, 2) == 9598 + 9597;
  }

  /** So for these layouts no clipping is detected although the row of quantised weights is over
      one. */
  lemma DetectionMisses(m: array2<real>, m32: array2<int>, ch: array2<nat>)
    requires Full(m) && m32.Length0 == m32.Length1 == 32 && Context(m, m32, ch, ThreeFront(), Mono())
    ensures !Overflows(m, 1, 3) && Magnitude(Row(m32, 0), 3) == 32769
  {
    RanksOfThreeFront();
    RanksOfMono();
    FoldRow(m);
    var q := Row(m32, 0);
    FoldQuantised(Row(m, 0));
    assert q[0] == 9598 && q[1] == 9598 && q[2] == 13573;
    assert Magnitude(q, 1) == 9598;
    assert Magnitude(q, 2) == 9598 + 9598;
  }

  lemma FullScaleSample(input: seq<int>, out: seq<int>, was: seq<int>, m32: array2<int>)
    requires |input| == 3 && HasFrames(3, 3, 1) && forall c | 0 <= c < 3 :: input[c] == 32767
    requires m32.Length0 == m32.Length1 == 32
    requires NonNegative(Row(m32, 0)) && Magnitude(Row(m32, 0), 3) == 32769
    requires FilledUpTo(out, was, 1, 1, DenseOutput(input, 3, m32, Operand(false), 1, 1), 1)
    ensures |out| > 0 && out[0] == -32768
  {
    var q := Row(m32, 0);
    assert FrameAt(input, 3, 0) == Loudest(3);
    DenseAt(input, 3, q, Operand(false), 1, 0);
    DotOfLoudest(q, 3, 3);
    var values := DenseOutput(input, 3, m32, Operand(false), 1, 1);
    assert ChannelIs(out, 0, 1, values[0]);
    assert Idx(0, 0, 1) == 0;
    assert values[0][0] == Wrap16(Rounded(32767 * 32769));
  }

  /** One run of the whole mixer, made for three front channels into mono: a frame of full-scale
      samples goes in, the call succeeds, and the most negative sample comes out. */
  method FullScaleWrapsToNegative() returns (mixer: Mixer, input: array<int>, out: array<int>, o: Outcome)
    ensures mixer.Valid() && mixer.valid && !mixer.clipping
    ensures mixer.inLayout == ThreeFront() && mixer.outLayout == Mono() && mixer.inCount == 3 && mixer.outCount == 1
    ensures input[..] == [32767, 32767, 32767] && o == Returned(0)
    ensures out[..] == [-32768]
  {
    RanksOfThreeFront();
    RanksOfMono();
    mixer := new Mixer(3, ThreeFront(), 1, Mono());
    assert mixer.inLayout == ThreeFront() && mixer.outLayout == Mono();
    DetectionMisses(mixer.matrix, mixer.matrix32, mixer.matrixCh);
    RowsAreTame(mixer.matrix, mixer.matrix32, mixer.matrixCh, ThreeFront(), Mono(), 0);
    input := new int[3](_ => 32767);
    out := new int[1](_ => 0);
    o := mixer.Mix(1, input, 6, out, 2);
    FullScaleSample(input[..], out[..], [0], mixer.matrix32);
  }
}
