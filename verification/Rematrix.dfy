/** Applying the mixing matrix to interleaved samples: for every output channel a strided pass
    over the frames that visits only the input channels with a nonzero weight. */
module Rematrix {
  import opened Arith
  import opened FixedPoint
  import opened MixMatrix

  // ----- Interleaved buffers -----

  /** The place of channel c of frame i in a buffer of n channels: i strides of n past c. */
  function Idx(i: nat, c: nat, n: nat): (k: nat) {
    if i == 0 then c else Idx(i - 1, c, n) + n
  }

  lemma {:induction false} IdxIs(i: nat, c: nat, n: nat)
    ensures Idx(i, c, n) == i * n + c
  {
    if i > 0 {
      IdxIs(i - 1, c, n);
      assert i * n == (i - 1) * n + n;
    }
  }

  lemma {:induction false} IdxBound(i: nat, c: nat, n: nat, frames: nat)
    requires i < frames && c < n
    ensures Idx(i, c, n) < frames * n
  {
    IdxIs(i, c, n);
    IdxIs(i + 1, c, n);
    MulMonotone(i + 1, frames, n);
  }

  /** Different samples have different places. */
  lemma {:induction false} IdxDistinct(i: nat, c: nat, j: nat, d: nat, n: nat)
    requires c < n && d < n && Idx(i, c, n) == Idx(j, d, n)
    ensures i == j && c == d
  {
    if i > 0 && j > 0 {
      IdxDistinct(i - 1, c, j - 1, d, n);
    }
  }

  /** Every place in the first `frames` frames is that of some sample. */
  lemma {:induction false} IdxCovers(k: nat, n: nat, frames: nat) returns (i: nat, c: nat)
    requires k < frames * n
    ensures i < frames && c < n && Idx(i, c, n) == k
  {
    if k < n {
      i, c := 0, k;
    } else {
      assert (frames - 1) * n == frames * n - n;
      i, c := IdxCovers(k - n, n, frames - 1);
      i := i + 1;
    }
  }

  /** A buffer of that length holds so many frames of n channels. */
  predicate HasFrames(length: nat, n: nat, frames: nat) {
    forall i, c | 0 <= i < frames && 0 <= c < n :: Idx(i, c, n) < length
  }

  lemma LongEnough(length: nat, n: nat, frames: nat)
    requires frames * n <= length
    ensures HasFrames(length, n, frames)
  {
    forall i: nat, c: nat | i < frames && c < n
      ensures Idx(i, c, n) < length
    {
      IdxBound(i, c, n, frames);
    }
  }

  /** Frame i of an interleaved buffer. */
  function FrameAt(s: seq<int>, n: nat, i: nat): (x: seq<int>)
    requires HasFrames(|s|, n, i + 1)
    ensures |x| == n && forall c | 0 <= c < n :: x[c] == s[Idx(i, c, n)]
  {
    seq(n, c requires 0 <= c < n => s[Idx(i, c, n)])
  }

  /** Place k is none of channel c in the first `frames` frames. */
  ghost predicate Elsewhere(k: nat, c: nat, n: nat, frames: nat) {
    forall i | 0 <= i < frames :: Idx(i, c, n) != k
  }

  lemma OtherChannelIsElsewhere(i: nat, c: nat, d: nat, n: nat, frames: nat)
    requires c < n && d < n && c != d
    ensures Elsewhere(Idx(i, c, n), d, n, frames)
  {
    forall j | 0 <= j < frames
      ensures Idx(j, d, n) != Idx(i, c, n)
    {
      if Idx(j, d, n) == Idx(i, c, n) {
        IdxDistinct(i, c, j, d, n);
      }
    }
  }

  lemma TailIsElsewhere(k: nat, c: nat, n: nat, frames: nat)
    requires c < n && k >= frames * n
    ensures Elsewhere(k, c, n, frames)
  {
    forall i | 0 <= i < frames
      ensures Idx(i, c, n) != k
    {
      IdxBound(i, c, n, frames);
    }
  }

  // ----- Sparse rows -----

  /** The columns below n with a nonzero weight, in order. */
  function NonZero(row: seq<real>, n: nat): (l: seq<nat>)
    requires n <= |row|
    ensures |l| <= n && forall k | 0 <= k < |l| :: l[k] < n
  {
    if n == 0 then []
    else if row[n - 1] != 0.0 then NonZero(row, n - 1) + [n - 1]
    else NonZero(row, n - 1)
  }

  predicate Within(l: seq<nat>, n: nat) {
    forall k | 0 <= k < |l| :: l[k] < n
  }

  /** The first k terms of the product over the listed columns only. */
  function SparseDot(l: seq<nat>, q: seq<int>, x: seq<int>, k: nat): int
    requires k <= |l| && Within(l, |q|) && Within(l, |x|)
  {
    if k == 0 then 0 else SparseDot(l, q, x, k - 1) + q[l[k - 1]] * x[l[k - 1]]
  }

  lemma {:induction false} SparseDotAgree(l: seq<nat>, m: seq<nat>, q: seq<int>, x: seq<int>, k: nat)
    requires k <= |l| && k <= |m| && l[..k] == m[..k]
    requires Within(l, |q|) && Within(l, |x|) && Within(m, |q|) && Within(m, |x|)
    ensures SparseDot(l, q, x, k) == SparseDot(m, q, x, k)
  {
    if k > 0 {
      assert l[..k - 1] == l[..k][..k - 1] == m[..k][..k - 1] == m[..k - 1];
      assert l[k - 1] == l[..k][k - 1] == m[..k][k - 1] == m[k - 1];
      SparseDotAgree(l, m, q, x, k - 1);
    }
  }

  lemma OneMoreTerm(l: seq<nat>, q: seq<int>, x: seq<int>, c: nat)
    requires Within(l, |q|) && Within(l, |x|) && c < |q| && c < |x|
    ensures SparseDot(l + [c], q, x, |l| + 1) == SparseDot(l, q, x, |l|) + q[c] * x[c]
  {
    SparseDotAgree(l + [c], l, q, x, |l|);
  }

  /** Leaving out the zero weights changes nothing. */
  lemma {:induction false} SparseIsDense(row: seq<real>, q: seq<int>, x: seq<int>, n: nat)
    requires IsQuantised(q, row) && n <= |row| && n <= |x|
    ensures SparseDot(NonZero(row, n), q, x, |NonZero(row, n)|) == Dot(q, x, n)
  {
    if n > 0 {
      SparseIsDense(row, q, x, n - 1);
      var l := NonZero(row, n - 1);
      if row[n - 1] != 0.0 {
        OneMoreTerm(l, q, x, n - 1);
      } else {
        QuantiseKeepsSign(row[n - 1]);
        assert q[n - 1] == 0;
      }
    }
  }

  /** The first k listed columns are all those below some column. */
  lemma {:induction false} NonZeroPrefix(row: seq<real>, n: nat, k: nat) returns (m: nat)
    requires n <= |row| && k <= |NonZero(row, n)|
    ensures m <= n && NonZero(row, n)[..k] == NonZero(row, m)
  {
    if k == |NonZero(row, n)| {
      m := n;
    } else {
      m := NonZeroPrefix(row, n - 1, k);
      assert NonZero(row, n)[..k] == NonZero(row, n - 1)[..k];
    }
  }

  lemma {:induction false} NonZeroOfPadded(row: seq<real>, n: nat, all: nat)
    requires n <= all <= |row| && forall c | n <= c < all :: row[c] == 0.0
    ensures NonZero(row, all) == NonZero(row, n)
    decreases all
  {
    if n < all {
      NonZeroOfPadded(row, n, all - 1);
    }
  }

  /** So every partial sum of the sparse product is one of the dense product. */
  lemma SparsePartialSum(row: seq<real>, q: seq<int>, x: seq<int>, n: nat, k: nat) returns (m: nat)
    requires IsQuantised(q, row) && n <= |row| && n <= |x| && k <= |NonZero(row, n)|
    ensures m <= n && SparseDot(NonZero(row, n), q, x, k) == Dot(q, x, m)
  {
    m := NonZeroPrefix(row, n, k);
    SparseIsDense(row, q, x, m);
    SparseDotAgree(NonZero(row, n), NonZero(row, m), q, x, k);
  }

  // ----- One output channel -----

  /** Channel c of buffer `was` has been filled, frame by frame, with `values`; all other places
      are as they were. */
  ghost predicate Filled(s: seq<int>, was: seq<int>, c: nat, n: nat, values: seq<int>) {
    && |s| == |was|
    && (forall i | 0 <= i < |values| :: Idx(i, c, n) < |s| && s[Idx(i, c, n)] == values[i])
    && (forall k | 0 <= k < |s| && Elsewhere(k, c, n, |values|) :: s[k] == was[k])
  }

  lemma FilledStep(s: seq<int>, was: seq<int>, c: nat, n: nat, values: seq<int>, v: int)
    requires Filled(s, was, c, n, values) && c < n && Idx(|values|, c, n) < |s|
    ensures Filled(s[Idx(|values|, c, n) := v], was, c, n, values + [v])
  {
    var o := Idx(|values|, c, n);
    forall i | 0 <= i < |values|
      ensures Idx(i, c, n) != o
    {
      if Idx(i, c, n) == o {
        IdxDistinct(i, c, |values|, c, n);
      }
    }
    forall k | 0 <= k < |s| && Elsewhere(k, c, n, |values| + 1)
      ensures k != o && s[k] == was[k]
    {
      assert Idx(|values|, c, n) != k;
      assert Elsewhere(k, c, n, |values|);
    }
    var s', values' := s[o := v], values + [v];
    assert forall i | 0 <= i < |values'| :: Idx(i, c, n) < |s'| && s'[Idx(i, c, n)] == values'[i];
  }

  function NoChannel(frames: nat): (v: seq<int>)
    ensures |v| == frames
  {
    if frames == 0 then [] else NoChannel(frames - 1) + [0]
  }

  method Silence(out: array<int>, outC: nat, outN: nat, frames: nat)
    requires HasFrames(out.Length, outN, frames) && outC < outN
    modifies out
    ensures Filled(out[..], old(out[..]), outC, outN, NoChannel(frames))
  {
    for i := 0 to frames
      invariant Filled(out[..], old(out[..]), outC, outN, NoChannel(i))
    {
      IdxIs(i, outC, outN);
      FilledStep(out[..], old(out[..]), outC, outN, NoChannel(i), 0);
      out[i * outN + outC] := 0;
    }
  }

  /** One weighted channel, frame by frame. */
  function OneChannel(s: seq<int>, c: nat, n: nat, w: int, f: int -> int, frames: nat): (v: seq<int>)
    requires HasFrames(|s|, n, frames) && c < n
    ensures |v| == frames
  {
    if frames == 0 then [] else OneChannel(s, c, n, w, f, frames - 1) + [f(w * s[Idx(frames - 1, c, n)])]
  }

  /** `f` is what is done with a sum before it is stored. */
  method Copy(out: array<int>, outC: nat, outN: nat, input: array<int>, inC: nat, inN: nat,
              coeff: int, f: int -> int, frames: nat)
    requires out != input && outC < outN && inC < inN
    requires HasFrames(out.Length, outN, frames) && HasFrames(input.Length, inN, frames)
    modifies out
    ensures Filled(out[..], old(out[..]), outC, outN, OneChannel(input[..], inC, inN, coeff, f, frames))
  {
    var o, p := outC, inC;
    for i := 0 to frames
      invariant o == Idx(i, outC, outN) && p == Idx(i, inC, inN)
      invariant Filled(out[..], old(out[..]), outC, outN, OneChannel(input[..], inC, inN, coeff, f, i))
    {
      FilledStep(out[..], old(out[..]), outC, outN, OneChannel(input[..], inC, inN, coeff, f, i), f(coeff * input[p]));
      out[o] := f(coeff * input[p]);
      o := o + outN;
      p := p + inN;
    }
  }

  /** The sum of two weighted channels, frame by frame. */
  function TwoChannels(s: seq<int>, c: nat, d: nat, n: nat, w: int, v: int, f: int -> int, frames: nat): (r: seq<int>)
    requires HasFrames(|s|, n, frames) && c < n && d < n
    ensures |r| == frames
  {
    if frames == 0 then []
    else TwoChannels(s, c, d, n, w, v, f, frames - 1) + [f(w * s[Idx(frames - 1, c, n)] + v * s[Idx(frames - 1, d, n)])]
  }

  method Sum2(out: array<int>, outC: nat, outN: nat, input: array<int>, in1: nat, in2: nat, inN: nat,
              coeff1: int, coeff2: int, f: int -> int, frames: nat)
    requires out != input && outC < outN && in1 < inN && in2 < inN
    requires HasFrames(out.Length, outN, frames) && HasFrames(input.Length, inN, frames)
    modifies out
    ensures Filled(out[..], old(out[..]), outC, outN, TwoChannels(input[..], in1, in2, inN, coeff1, coeff2, f, frames))
  {
    ghost var s, was := input[..], out[..];
    var o, p1, p2 := outC, in1, in2;
    for i := 0 to frames
      invariant o == Idx(i, outC, outN) && p1 == Idx(i, in1, inN) && p2 == Idx(i, in2, inN) && input[..] == s
      invariant Filled(out[..], was, outC, outN, TwoChannels(s, in1, in2, inN, coeff1, coeff2, f, i))
    {
      var v := f(coeff1 * input[p1] + coeff2 * input[p2]);
      ghost var cur, done := out[..], TwoChannels(s, in1, in2, inN, coeff1, coeff2, f, i);
      FilledStep(cur, was, outC, outN, done, v);
      out[o] := v;
      assert out[..] == cur[o := v];
      assert TwoChannels(s, in1, in2, inN, coeff1, coeff2, f, i + 1) == done + [v];
      o := o + outN;
      p1 := p1 + inN;
      p2 := p2 + inN;
    }
  }

  // ----- All output channels -----

  /** The specification of one output channel: the whole row times every frame. */
  function Dense(s: seq<int>, n: nat, q: seq<int>, f: int -> int, frames: nat): (v: seq<int>)
    requires HasFrames(|s|, n, frames) && n <= |q|
    ensures |v| == frames
  {
    if frames == 0 then [] else Dense(s, n, q, f, frames - 1) + [f(Dot(q, FrameAt(s, n, frames - 1), n))]
  }

  lemma {:induction false} DenseAt(s: seq<int>, n: nat, q: seq<int>, f: int -> int, frames: nat, i: nat)
    requires HasFrames(|s|, n, frames) && n <= |q| && i < frames
    ensures Dense(s, n, q, f, frames)[i] == f(Dot(q, FrameAt(s, n, i), n))
  {
    if i < frames - 1 {
      DenseAt(s, n, q, f, frames - 1, i);
    }
  }

  /** A row of weights is zero past the input channels. */
  predicate PaddedRow(row: seq<real>, n: nat) {
    n <= |row| && forall c | n <= c < |row| :: row[c] == 0.0
  }

  lemma {:induction false} NoChannelIsDense(s: seq<int>, n: nat, row: seq<real>, q: seq<int>, f: int -> int, frames: nat)
    requires HasFrames(|s|, n, frames) && IsQuantised(q, row) && n <= |row| && NonZero(row, n) == [] && f(0) == 0
    ensures NoChannel(frames) == Dense(s, n, q, f, frames)
  {
    if frames > 0 {
      NoChannelIsDense(s, n, row, q, f, frames - 1);
      SparseIsDense(row, q, FrameAt(s, n, frames - 1), n);
    }
  }

  lemma {:induction false} OneChannelIsDense(s: seq<int>, n: nat, row: seq<real>, q: seq<int>, f: int -> int, frames: nat)
    requires HasFrames(|s|, n, frames) && IsQuantised(q, row) && n <= |row| && |NonZero(row, n)| == 1
    ensures var c := NonZero(row, n)[0]; OneChannel(s, c, n, q[c], f, frames) == Dense(s, n, q, f, frames)
  {
    if frames > 0 {
      OneChannelIsDense(s, n, row, q, f, frames - 1);
      var x := FrameAt(s, n, frames - 1);
      SparseIsDense(row, q, x, n);
      SparseOfOne(NonZero(row, n), q, x);
    }
  }

  lemma {:induction false} TwoChannelsAreDense(s: seq<int>, n: nat, row: seq<real>, q: seq<int>, f: int -> int, frames: nat)
    requires HasFrames(|s|, n, frames) && IsQuantised(q, row) && n <= |row| && |NonZero(row, n)| == 2
    ensures var c, d := NonZero(row, n)[0], NonZero(row, n)[1];
            TwoChannels(s, c, d, n, q[c], q[d], f, frames) == Dense(s, n, q, f, frames)
  {
    if frames > 0 {
      TwoChannelsAreDense(s, n, row, q, f, frames - 1);
      var x := FrameAt(s, n, frames - 1);
      SparseIsDense(row, q, x, n);
      SparseOfTwo(NonZero(row, n), q, x);
    }
  }

  lemma SparseOfOne(l: seq<nat>, q: seq<int>, x: seq<int>)
    requires |l| == 1 && Within(l, |q|) && Within(l, |x|)
    ensures SparseDot(l, q, x, 1) == q[l[0]] * x[l[0]]
  {
    assert SparseDot(l, q, x, 0) == 0;
  }

  lemma SparseOfTwo(l: seq<nat>, q: seq<int>, x: seq<int>)
    requires |l| == 2 && Within(l, |q|) && Within(l, |x|)
    ensures SparseDot(l, q, x, 2) == q[l[0]] * x[l[0]] + q[l[1]] * x[l[1]]
  {
    assert SparseDot(l, q, x, 1) == SparseDot(l, q, x, 0) + q[l[0]] * x[l[0]];
  }

  /** The prepared tables of one output channel: the quantised weights, and the number of nonzero
      ones followed by their columns. */
  predicate RowReady(row: seq<real>, q: seq<int>, list: seq<nat>) {
    && IsQuantised(q, row)
    && |list| == |row| + 1 && list[0] == |NonZero(row, |row|)|
    && forall k | 0 <= k < list[0] :: list[1 + k] == NonZero(row, |row|)[k]
  }

  /** Any number of listed channels. */
  method Many(out: array<int>, outC: nat, outN: nat, input: array<int>, inN: nat,
              m32: array2<int>, ch: array2<nat>, f: int -> int, frames: nat, ghost row: seq<real>)
    requires out != input && outC < outN
    requires HasFrames(out.Length, outN, frames) && HasFrames(input.Length, inN, frames)
    requires outC < m32.Length0 && outC < ch.Length0
    requires PaddedRow(row, inN) && RowReady(row, Row(m32, outC), Row(ch, outC))
    modifies out
    ensures Filled(out[..], old(out[..]), outC, outN, Dense(input[..], inN, Row(m32, outC), f, frames))
  {
    ghost var q, list, s, was := Row(m32, outC), Row(ch, outC), input[..], out[..];
    ghost var all := Dense(s, inN, q, f, frames);
    for i := 0 to frames
      invariant Row(m32, outC) == q && Row(ch, outC) == list && input[..] == s
      invariant Filled(out[..], was, outC, outN, all[..i])
    {
      var v := ManySum(i, input, inN, m32, ch, outC, frames, row, s, q, list);
      DenseAt(s, inN, q, f, frames, i);
      StoreSample(out, i, outC, outN, f(v), was, all);
    }
    assert all[..frames] == all;
  }

  /** The store of one sample, the next one of its channel. */
  method StoreSample(out: array<int>, i: nat, outC: nat, outN: nat, v: int, ghost was: seq<int>, ghost all: seq<int>)
    requires outC < outN && Idx(i, outC, outN) < out.Length
    requires i < |all| && all[i] == v && Filled(out[..], was, outC, outN, all[..i])
    modifies out
    ensures Filled(out[..], was, outC, outN, all[..i + 1])
  {
    IdxIs(i, outC, outN);
    ghost var cur := out[..];
    FilledStep(cur, was, outC, outN, all[..i], v);
    out[i * outN + outC] := v;
    assert out[..] == cur[Idx(i, outC, outN) := v];
    assert all[..i + 1] == all[..i] + [v];
  }

  /** One listed term of the sum for frame i. */
  method Term(i: nat, j: nat, input: array<int>, inN: nat, m32: array2<int>, ch: array2<nat>, outC: nat,
              ghost s: seq<int>, ghost q: seq<int>, ghost list: seq<nat>, ghost c: nat)
    returns (t: int)
    requires outC < m32.Length0 && outC < ch.Length0
    requires input[..] == s && Row(m32, outC) == q && Row(ch, outC) == list
    requires 1 + j < |list| && list[1 + j] == c < inN <= |q| && Idx(i, c, inN) < |s|
    ensures t == q[c] * s[Idx(i, c, inN)]
  {
    var chan := ch[outC, 1 + j];
    assert chan == list[1 + j];
    IdxIs(i, c, inN);
    var sample, weight := input[chan + i * inN], m32[outC, chan];
    assert weight == q[c];
    t := sample * weight;
  }

  method ManySum(i: nat, input: array<int>, inN: nat, m32: array2<int>, ch: array2<nat>, outC: nat, frames: nat,
                 ghost row: seq<real>, ghost s: seq<int>, ghost q: seq<int>, ghost list: seq<nat>)
    returns (v: int)
    requires input[..] == s && i < frames && HasFrames(|s|, inN, frames)
    requires outC < m32.Length0 && outC < ch.Length0 && Row(m32, outC) == q && Row(ch, outC) == list
    requires PaddedRow(row, inN) && RowReady(row, q, list)
    ensures v == Dot(q, FrameAt(s, inN, i), inN)
  {
    ghost var x, l := FrameAt(s, inN, i), NonZero(row, inN);
    NonZeroOfPadded(row, inN, |row|);
    v := 0;
    for j := 0 to ch[outC, 0]
      invariant v == SparseDot(l, q, x, j)
    {
      var t := Term(i, j, input, inN, m32, ch, outC, s, q, list, l[j]);
      v := v + t;
    }
    SparseIsDense(row, q, x, inN);
  }

  /** Channel c of a buffer of n channels holds `values`. */
  predicate ChannelIs(s: seq<int>, c: nat, n: nat, values: seq<int>) {
    forall i | 0 <= i < |values| :: Idx(i, c, n) < |s| && s[Idx(i, c, n)] == values[i]
  }

  lemma FillingKeeps(s: seq<int>, was: seq<int>, d: nat, n: nat, fill: seq<int>, c: nat, values: seq<int>)
    requires Filled(s, was, d, n, fill) && ChannelIs(was, c, n, values)
    requires c < n && d < n && c != d
    ensures ChannelIs(s, c, n, values)
  {
    forall i | 0 <= i < |values|
      ensures Idx(i, c, n) < |s| && s[Idx(i, c, n)] == values[i]
    {
      OtherChannelIsElsewhere(i, c, d, n, |fill|);
    }
  }

  lemma FillingKeepsTail(s: seq<int>, was: seq<int>, d: nat, n: nat, fill: seq<int>)
    requires Filled(s, was, d, n, fill) && d < n
    ensures forall k | |fill| * n <= k < |s| :: s[k] == was[k]
  {
    forall k | |fill| * n <= k < |s|
      ensures s[k] == was[k]
    {
      assert (|fill|) * n >= 0;
      TailIsElsewhere(k, d, n, |fill|);
    }
  }

  /** The tables of the first `outN` output channels are ready for the matrix m. */
  ghost predicate Ready(m: array2<real>, m32: array2<int>, ch: array2<nat>, outN: nat, inN: nat)
    reads m, m32, ch
  {
    && outN <= m.Length0 && outN <= m32.Length0 && outN <= ch.Length0
    && forall o | 0 <= o < outN ::
         PaddedRow(Row(m, o), inN) && RowReady(Row(m, o), Row(m32, o), Row(ch, o))
  }

  method OutputChannel(out: array<int>, o: nat, outN: nat, input: array<int>, inN: nat,
                       m32: array2<int>, ch: array2<nat>, f: int -> int, frames: nat, ghost row: seq<real>)
    requires out != input && o < outN && f(0) == 0
    requires HasFrames(out.Length, outN, frames) && HasFrames(input.Length, inN, frames)
    requires o < m32.Length0 && o < ch.Length0
    requires PaddedRow(row, inN) && RowReady(row, Row(m32, o), Row(ch, o))
    modifies out
    ensures Filled(out[..], old(out[..]), o, outN, Dense(input[..], inN, Row(m32, o), f, frames))
  {
    ghost var q, list, s, was := Row(m32, o), Row(ch, o), input[..], out[..];
    ghost var l := NonZero(row, inN);
    NonZeroOfPadded(row, inN, |row|);
    if ch[o, 0] == 0 {
      NoChannelIsDense(s, inN, row, q, f, frames);
      Silence(out, o, outN, frames);
    } else if ch[o, 0] == 1 {
      var c := ch[o, 1];
      assert c == list[1 + 0] == l[0];
      OneChannelIsDense(s, inN, row, q, f, frames);
      Copy(out, o, outN, input, c, inN, m32[o, c], f, frames);
    } else if ch[o, 0] == 2 {
      var c, d := ch[o, 1], ch[o, 2];
      assert c == list[1 + 0] == l[0] && d == list[1 + 1] == l[1];
      TwoChannelsAreDense(s, inN, row, q, f, frames);
      Sum2(out, o, outN, input, c, d, inN, m32[o, c], m32[o, d], f, frames);
    } else {
      Many(out, o, outN, input, inN, m32, ch, f, frames, row);
    }
  }

  /** The first `upTo` channels hold their values; nothing past the frames has changed. */
  predicate FilledUpTo(s: seq<int>, was: seq<int>, n: nat, frames: nat, values: seq<seq<int>>, upTo: nat)
    requires upTo <= |values|
  {
    && |s| == |was|
    && (forall c | 0 <= c < upTo :: ChannelIs(s, c, n, values[c]))
    && (forall k | frames * n <= k < |s| :: s[k] == was[k])
  }

  lemma OneMoreChannel(s: seq<int>, mid: seq<int>, was: seq<int>, n: nat, frames: nat,
                       values: seq<seq<int>>, o: nat)
    requires o < |values| <= n && forall c | 0 <= c < |values| :: |values[c]| == frames
    requires FilledUpTo(mid, was, n, frames, values, o) && Filled(s, mid, o, n, values[o])
    ensures FilledUpTo(s, was, n, frames, values, o + 1)
  {
    forall c | 0 <= c < o
      ensures ChannelIs(s, c, n, values[c])
    {
      FillingKeeps(s, mid, o, n, values[o], c, values[c]);
    }
    FillingKeepsTail(s, mid, o, n, values[o]);
  }

  /** What each output channel is to hold. */
  ghost function DenseOutput(s: seq<int>, inN: nat, m32: array2<int>, f: int -> int, frames: nat, outN: nat)
    : (v: seq<seq<int>>)
    requires HasFrames(|s|, inN, frames) && outN <= m32.Length0 && inN <= m32.Length1
    reads m32
    ensures |v| == outN && forall o | 0 <= o < outN :: v[o] == Dense(s, inN, Row(m32, o), f, frames)
  {
    seq(outN, o requires 0 <= o < outN reads m32 => Dense(s, inN, Row(m32, o), f, frames))
  }

  /** The fast form refines the simple one: every output sample is `f` of the whole quantised row
      times the whole input frame, and nothing past the frames is touched. */
  method Rematrix(out: array<int>, outN: nat, input: array<int>, inN: nat,
                  m: array2<real>, m32: array2<int>, ch: array2<nat>, f: int -> int, frames: nat)
    requires out != input && f(0) == 0 && Ready(m, m32, ch, outN, inN) && inN <= m32.Length1
    requires HasFrames(out.Length, outN, frames) && HasFrames(input.Length, inN, frames)
    modifies out
    ensures FilledUpTo(out[..], old(out[..]), outN, frames,
                       DenseOutput(input[..], inN, m32, f, frames, outN), outN)
  {
    ghost var s := input[..];
    ghost var values := DenseOutput(s, inN, m32, f, frames, outN);
    for o := 0 to outN
      invariant input[..] == s && Ready(m, m32, ch, outN, inN)
      invariant values == DenseOutput(s, inN, m32, f, frames, outN)
      invariant FilledUpTo(out[..], old(out[..]), outN, frames, values, o)
    {
      ghost var mid := out[..];
      OutputChannel(out, o, outN, input, inN, m32, ch, f, frames, Row(m, o));
      OneMoreChannel(out[..], mid, old(out[..]), outN, frames, values, o);
    }
  }
}
