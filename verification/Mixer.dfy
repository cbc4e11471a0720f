/** The S16 mixer: the context made from two layouts, and mixing with its size checks. */
module Mixers {
  import opened Arith
  import opened ChannelLayouts
  import opened CopyAndTrunc
  import opened FixedPoint
  import opened MixMatrix
  import opened Quantisation
  import opened Rematrix

  /** An undefined layout of one or two channels is taken as mono or stereo. */
  function CheckLayout(l: Layout, channels: nat): Layout {
    if ChannelCount(l) > 0 then l
    else if channels == 1 then Only(FRONT_CENTER)
    else if channels == 2 then seq(32, i => i == FRONT_LEFT || i == FRONT_RIGHT)
    else l
  }

  /** Taken so, an undefined layout of one or two channels has exactly those, in front. */
  lemma CheckedLayoutIsFront(l: Layout, channels: nat)
    requires ChannelCount(l) == 0 && (channels == 1 || channels == 2)
    ensures ChannelCount(CheckLayout(l, channels)) == channels && SaneLayout(CheckLayout(l, channels))
    ensures forall c | 0 <= c < 32 ::
              CheckLayout(l, channels)[c] <==> (if channels == 1 then c == 2 else c < 2)
  {
    if channels == 1 {
      RankOfOnly(FRONT_CENTER, 32);
    } else {
      var stereo := CheckLayout(l, 2);
      assert Rank(stereo, 0) == 0 && Rank(stereo, 1) == 1 && Rank(stereo, 2) == 2;
      RankPastStereo(stereo, 32);
    }
  }

  lemma {:induction false} RankPastStereo(l: Layout, n: nat)
    requires 2 <= n <= 32 && Rank(l, 2) == 2 && forall c | 2 <= c < 32 :: !l[c]
    ensures Rank(l, n) == 2
  {
    if n > 2 {
      RankPastStereo(l, n - 1);
    }
  }

  /** The layouts a context can mix: they have the channels they are said to have, and are
      supported. */
  predicate Mixable(inChannels: nat, inLayout: Layout, outChannels: nat, outLayout: Layout) {
    && inChannels == ChannelCount(inLayout) && outChannels == ChannelCount(outLayout)
    && Supported(inLayout, outLayout)
  }

  /** The layouts' weights over a common scale that leaves no row with more than one, and is no
      larger than that takes. */
  ghost predicate ScaledFor(m: array2<real>, inLayout: Layout, outLayout: Layout, scale: real)
    requires Full(m)
    reads m
  {
    && scale >= 1.0 && Normalised(m, CleanLayout(inLayout), CleanLayout(outLayout), scale)
    && (forall r | 0 <= r < 32 :: RowSum(m, r) <= 1.0)
    && (scale > 1.0 ==> exists r :: 0 <= r < 32 && RowSum(m, r) == 1.0)
  }

  ghost predicate MatrixFor(m: array2<real>, inLayout: Layout, outLayout: Layout)
    requires Full(m)
    reads m
  {
    exists scale :: ScaledFor(m, inLayout, outLayout, scale)
  }

  /** The counts are compared with the layout as given: an undefined one never makes a context. */
  lemma UndefinedIsNeverMixable(inChannels: nat, inLayout: Layout, outChannels: nat, outLayout: Layout)
    requires ChannelCount(inLayout) == 0 || ChannelCount(outLayout) == 0
    ensures !Mixable(inChannels, inLayout, outChannels, outLayout)
  {
    if ChannelCount(inLayout) == 0 {
      EmptyIsNotSane(inLayout);
    } else {
      EmptyIsNotSane(outLayout);
    }
  }

  lemma EmptyIsNotSane(l: Layout)
    requires ChannelCount(l) == 0
    ensures !SaneLayout(CleanLayout(l))
  {
    forall c | 0 <= c < 32
      ensures !l[c]
    {
      if l[c] {
        RankMonotone(l, c, 32);
      }
    }
  }

  lemma CountsOfChecked(l: Layout, channels: nat)
    requires channels == ChannelCount(l)
    ensures CheckLayout(l, channels) == l
  {
  }

  lemma CancelFactor(a: nat, b: nat, c: nat)
    requires c > 0
    ensures a * c >= b * c <==> a >= b
  {
    if a < b {
      MulAtLeast(c, b - a);
      assert (b - a) * c == b * c - a * c;
    } else {
      assert (a - b) * c == a * c - b * c;
      assert (a - b) * c >= 0;
    }
  }

  /** The two size checks of `mix`, as written. */
  predicate ChecksPass(frames: nat, inBytes: nat, outBytes: nat, inN: nat, outN: nat) {
    frames * inN * 2 <= inBytes && frames * inN * 2 * outN <= outBytes * inN
  }

  /** Both buffers hold that many frames of 16 bit samples. */
  predicate HoldFrames(frames: nat, inBytes: nat, outBytes: nat, inN: nat, outN: nat) {
    2 * (frames * inN) <= inBytes && 2 * (frames * outN) <= outBytes
  }

  /** The checks are right if and only if there are input channels or the output is large enough:
      without input channels they pass, whatever the output. */
  lemma SizeChecksAreExact(frames: nat, inBytes: nat, outBytes: nat, inN: nat, outN: nat)
    ensures (ChecksPass(frames, inBytes, outBytes, inN, outN) <==> HoldFrames(frames, inBytes, outBytes, inN, outN))
            <==> inN > 0 || 2 * (frames * outN) <= outBytes
    ensures inN == 0 ==> ChecksPass(frames, inBytes, outBytes, inN, outN)
  {
    if inN > 0 {
      assert frames * inN * 2 * outN == 2 * (frames * outN) * inN;
      CancelFactor(outBytes, 2 * (frames * outN), inN);
    }
  }

  /** One frame of two channels made of no channels, into no room at all, passes them. */
  lemma SizeChecksCanMiss()
    ensures ChecksPass(1, 0, 0, 0, 2) && !HoldFrames(1, 0, 0, 0, 2)
  {
  }

  /** What a call of `mix` comes to: it returns, or it goes on to fill more of the output than it
      was told there is. */
  datatype Outcome = Returned(r: int) | Overrun

  class Mixer {
    const inLayout: Layout
    const outLayout: Layout
    const inCount: nat
    const outCount: nat
    const matrix: array2<real>
    const matrix32: array2<int>
    const matrixCh: array2<nat>
    var clipping: bool
    var valid: bool

    ghost predicate Valid()
      reads this, matrix, matrix32, matrixCh
    {
      && Full(matrix) && matrix32.Length0 == matrix32.Length1 == 32
      && matrixCh.Length0 == 32 && matrixCh.Length1 == 33
      && (valid ==>
            && Mixable(inCount, inLayout, outCount, outLayout)
            && MatrixFor(matrix, inLayout, outLayout)
            && Ready(matrix, matrix32, matrixCh, outCount, inCount)
            && (clipping <==> Overflows(matrix, outCount, inCount)))
    }

    constructor (inChannels: nat, inL: Layout, outChannels: nat, outL: Layout)
      ensures Valid() && fresh(matrix) && fresh(matrix32) && fresh(matrixCh)
      ensures inLayout == CheckLayout(inL, inChannels) && outLayout == CheckLayout(outL, outChannels)
      ensures inCount == inChannels && outCount == outChannels
      ensures valid <==> Mixable(inChannels, inL, outChannels, outL)
    {
      inLayout := CheckLayout(inL, inChannels);
      outLayout := CheckLayout(outL, outChannels);
      inCount := inChannels;
      outCount := outChannels;
      matrix := new real[32, 32]((i, j) => 0.0);
      matrix32 := new int[32, 32]((i, j) => 0);
      matrixCh := new nat[32, 33]((i, j) => 0);
      clipping := false;
      valid := false;
      new;
      if inChannels == ChannelCount(inL) && outChannels == ChannelCount(outL) {
        CountsOfChecked(inL, inChannels);
        CountsOfChecked(outL, outChannels);
        var ok := Init();
        valid := ok;
      }
    }

    method Init() returns (ok: bool)
      requires Full(matrix) && matrix32.Length0 == matrix32.Length1 == 32
      requires matrixCh.Length0 == 32 && matrixCh.Length1 == 33
      requires inCount == ChannelCount(inLayout) && outCount == ChannelCount(outLayout)
      requires forall r, c | 0 <= r < 32 && 0 <= c < 32 :: matrix[r, c] == 0.0
      modifies matrix, matrix32, matrixCh, `clipping
      ensures ok <==> Supported(inLayout, outLayout)
      ensures ok ==> MatrixFor(matrix, inLayout, outLayout)
      ensures ok ==> Ready(matrix, matrix32, matrixCh, outCount, inCount)
      ensures ok ==> (clipping <==> Overflows(matrix, outCount, inCount))
    {
      ghost var scale;
      ok, scale := AutoMatrix(inLayout, outLayout, true, matrix);
      if !ok {
        return;
      }
      assert ScaledFor(matrix, inLayout, outLayout, scale);
      CleaningKeepsCount(inLayout);
      CleaningKeepsCount(outLayout);
      clipping := DetectClipping(matrix, outCount, inCount);
      QuantiseMatrix(matrix, matrix32, matrixCh);
      forall o | 0 <= o < outCount
        ensures PaddedRow(Row(matrix, o), inCount)
      {
      }
    }
  
    /** Mixing once the sizes are known to do. */
    method MixChecked(frames: nat, input: array<int>, out: array<int>)
      requires Valid() && out != input
      requires frames * inCount <= input.Length && frames * outCount <= out.Length
      modifies out
      ensures HasFrames(input.Length, inCount, frames) && Idx(frames, 0, inCount) <= input.Length
      ensures valid ==> inCount <= 32 && FilledUpTo(out[..], old(out[..]), outCount, frames,
                          DenseOutput(input[..], inCount, matrix32, Operand(clipping), frames, outCount), outCount)
      ensures !valid ==> out[..] == Truncated(input[..], inCount, outCount, frames) + old(out[frames * outCount..])
    {
      IdxIs(frames, 0, inCount);
      IdxIs(frames, 0, outCount);
      LongEnough(input.Length, inCount, frames);
      LongEnough(out.Length, outCount, frames);
      if !valid {
        CopyOrTruncate(out, outCount, input, inCount, frames);
      } else {
        Rematrix.Rematrix(out, outCount, input, inCount, matrix, matrix32, matrixCh, Operand(clipping), frames);
      }
    }

    /** Mix `frames` frames; sizes are in bytes of 16 bit samples. */
    method Mix(frames: nat, input: array<int>, inBytes: nat, out: array<int>, outBytes: nat) returns (o: Outcome)
      requires Valid() && out != input
      requires inBytes <= 2 * input.Length && outBytes <= 2 * out.Length
      modifies out
      ensures o.Overrun? <==> frames > 0 && outCount > 0 && inCount == 0 && outBytes < 2 * (frames * outCount)
      ensures o == Returned(-1) <==> frames > 0 && outCount > 0 && !o.Overrun?
                                     && !HoldFrames(frames, inBytes, outBytes, inCount, outCount)
      ensures o == Returned(0) || o == Returned(-1) || o.Overrun?
      ensures o != Returned(0) || frames == 0 || outCount == 0 ==> out[..] == old(out[..])
      ensures o == Returned(0) && frames > 0 && outCount > 0 && valid ==>
                && HasFrames(input.Length, inCount, frames) && inCount <= 32
                && FilledUpTo(out[..], old(out[..]), outCount, frames,
                              DenseOutput(input[..], inCount, matrix32, Operand(clipping), frames, outCount), outCount)
      ensures o == Returned(0) && frames > 0 && outCount > 0 && !valid ==>
                && Idx(frames, 0, inCount) <= input.Length && frames * outCount <= out.Length
                && out[..] == Truncated(input[..], inCount, outCount, frames) + old(out[frames * outCount..])
    {
      if frames == 0 || outCount == 0 {
        return Returned(0);
      }
      var sizeReadNeeded := frames * inCount * 2;
      SizeChecksAreExact(frames, inBytes, outBytes, inCount, outCount);
      if inBytes < sizeReadNeeded {
        return Returned(-1);
      }
      if outBytes * inCount < sizeReadNeeded * outCount {
        return Returned(-1);
      }
      if outBytes < 2 * (frames * outCount) {
        return Overrun;
      }
      MixChecked(frames, input, out);
      return Returned(0);
    }
  }

  /** What is stored for a sum. */
  function Operand(clipping: bool): int -> int {
    v => ToSample(v, clipping)
  }
}
