/** The fallback of the mixer when it cannot mix: keep the leading channels, silence the others,
    except that a mono input goes to the first two channels. */
module CopyAndTrunc {
  import opened Copying
  import opened Rematrix

  /** What channel o of an output frame gets from the input frame x. */
  function TruncSample(x: seq<int>, o: nat): int {
    if |x| == 1 && o < 2 then x[0] else if o < |x| then x[o] else 0
  }

  /** One output frame of n channels made of the input frame x. */
  function TruncFrame(x: seq<int>, n: nat): (y: seq<int>)
    ensures |y| == n
  {
    seq(n, o requires 0 <= o < n => TruncSample(x, o))
  }

  /** The first `frames` input frames, one behind the other, each made an output frame. */
  function Truncated(s: seq<int>, inN: nat, outN: nat, frames: nat): (y: seq<int>)
    requires Idx(frames, 0, inN) <= |s|
    ensures |y| == Idx(frames, 0, outN)
  {
    if frames == 0 then []
    else
      var p := Idx(frames - 1, 0, inN);
      Truncated(s, inN, outN, frames - 1) + TruncFrame(s[p..p + inN], outN)
  }

  /** That is what the copies and fills make: mono on the first two channels and silence, the
      frame and silence behind it, or the leading channels. */
  lemma TruncFrameInParts(x: seq<int>, n: nat)
    ensures |x| == 1 && n >= 2 ==> TruncFrame(x, n) == [x[0], x[0]] + Repeat(0, n - 2)
    ensures |x| <= n && (|x| != 1 || n < 2) ==> TruncFrame(x, n) == x + Repeat(0, n - |x|)
    ensures |x| > n ==> TruncFrame(x, n) == x[..n]
  {
    if |x| == 1 && n >= 2 {
      assert TruncFrame(x, n) == [x[0], x[0]] + Repeat(0, n - 2);
    } else if |x| <= n {
      assert TruncFrame(x, n) == x + Repeat(0, n - |x|);
    } else {
      assert TruncFrame(x, n) == x[..n];
    }
  }

  /** The output is the input frames, each cut or filled up, in order. */
  lemma TruncatedAt(s: seq<int>, inN: nat, outN: nat, frames: nat, i: nat, o: nat)
    requires Idx(frames, 0, inN) <= |s| && i < frames && o < outN
    ensures Idx(i, o, outN) < |Truncated(s, inN, outN, frames)| && HasFrames(|s|, inN, i + 1)
    ensures Truncated(s, inN, outN, frames)[Idx(i, o, outN)] == TruncFrame(FrameAt(s, inN, i), outN)[o]
  {
    SameOffset(i, o, outN);
    NextFrame(i, frames, inN);
    FrameIsSlice(s, inN, i);
    TruncatedSlice(s, inN, outN, frames, i, o);
  }

  lemma {:induction false} TruncatedSlice(s: seq<int>, inN: nat, outN: nat, frames: nat, i: nat, o: nat)
    requires Idx(frames, 0, inN) <= |s| && i < frames && o < outN
    ensures Idx(i, 0, outN) + o < |Truncated(s, inN, outN, frames)| && Idx(i, 0, inN) + inN <= |s|
    ensures Truncated(s, inN, outN, frames)[Idx(i, 0, outN) + o] ==
            TruncFrame(s[Idx(i, 0, inN)..Idx(i, 0, inN) + inN], outN)[o]
  {
    NextFrame(i, frames, inN);
    NextTruncated(s, inN, outN, frames - 1);
    if i < frames - 1 {
      TruncatedSlice(s, inN, outN, frames - 1, i, o);
    }
  }

  lemma NextTruncated(s: seq<int>, inN: nat, outN: nat, i: nat)
    requires Idx(i, 0, inN) + inN <= |s|
    ensures Truncated(s, inN, outN, i + 1) ==
            Truncated(s, inN, outN, i) + TruncFrame(s[Idx(i, 0, inN)..Idx(i, 0, inN) + inN], outN)
  {
  }

  lemma {:induction false} SameOffset(i: nat, c: nat, n: nat)
    ensures Idx(i, c, n) == Idx(i, 0, n) + c
  {
    if i > 0 {
      SameOffset(i - 1, c, n);
    }
  }

  lemma {:induction false} NextFrame(i: nat, frames: nat, n: nat)
    requires i < frames
    ensures Idx(i + 1, 0, n) == Idx(i, 0, n) + n <= Idx(frames, 0, n)
  {
    if i + 1 < frames {
      NextFrame(i, frames - 1, n);
    }
  }

  lemma FrameIsSlice(s: seq<int>, n: nat, i: nat)
    requires Idx(i, 0, n) + n <= |s|
    ensures HasFrames(|s|, n, i + 1)
    ensures FrameAt(s, n, i) == s[Idx(i, 0, n)..Idx(i, 0, n) + n]
  {
    IdxIs(i + 1, 0, n);
    LongEnough(|s|, n, i + 1);
    forall c | 0 <= c < n
      ensures FrameAt(s, n, i)[c] == s[Idx(i, 0, n) + c]
    {
      SameOffset(i, c, n);
    }
  }

  lemma SpliceTwice(s: seq<int>, at: nat, a: seq<int>, b: seq<int>)
    requires at + |a| + |b| <= |s|
    ensures Splice(Splice(s, at, a), at + |a|, b) == Splice(s, at, a + b)
  {
  }

  method PadFrame(out: array<int>, o: nat, outN: nat, input: array<int>, p: nat, inN: nat)
    requires out != input && o + outN <= out.Length && p + inN <= input.Length && inN <= outN
    modifies out
    ensures out[..] == Splice(old(out[..]), o, input[p..p + inN] + Repeat(0, outN - inN))
  {
    SpliceTwice(out[..], o, input[p..p + inN], Repeat(0, outN - inN));
    Copying.Copy(out, o, input, p, inN);
    Fill(out, o + inN, 0, outN - inN);
  }

  method MonoFrame(out: array<int>, o: nat, outN: nat, sample: int)
    requires o + outN <= out.Length && outN >= 2
    modifies out
    ensures out[..] == Splice(old(out[..]), o, [sample, sample] + Repeat(0, outN - 2))
  {
    SpliceTwice(out[..], o, [sample, sample], Repeat(0, outN - 2));
    out[o], out[o + 1] := sample, sample;
    assert out[..] == Splice(old(out[..]), o, [sample, sample]);
    Fill(out, o + 2, 0, outN - 2);
  }

  method OneFrame(out: array<int>, o: nat, outN: nat, input: array<int>, p: nat, inN: nat, ghost s: seq<int>)
    requires input[..] == s
    requires out != input && o + outN <= out.Length && p + inN <= input.Length
    modifies out
    ensures out[..] == Splice(old(out[..]), o, TruncFrame(s[p..p + inN], outN))
  {
    ghost var x := s[p..p + inN];
    assert x == input[p..p + inN];
    TruncFrameInParts(x, outN);
    if inN <= outN {
      if inN == 1 && outN >= 2 {
        MonoFrame(out, o, outN, input[p]);
      } else {
        PadFrame(out, o, outN, input, p, inN);
      }
    } else {
      assert x[..outN] == input[p..p + outN];
      Copying.Copy(out, o, input, p, outN);
    }
  }

  /** The output after i turns of the loop: one frame after the other goes to its place. */
  function Written(was: seq<int>, s: seq<int>, inN: nat, outN: nat, i: nat): (y: seq<int>)
    requires Idx(i, 0, inN) <= |s| && Idx(i, 0, outN) <= |was|
    ensures |y| == |was|
  {
    if i == 0 then was
    else
      var p, o := Idx(i - 1, 0, inN), Idx(i - 1, 0, outN);
      Splice(Written(was, s, inN, outN, i - 1), o, TruncFrame(s[p..p + inN], outN))
  }

  lemma {:induction false} WrittenIsTruncated(was: seq<int>, s: seq<int>, inN: nat, outN: nat, i: nat)
    requires Idx(i, 0, inN) <= |s| && Idx(i, 0, outN) <= |was|
    ensures Written(was, s, inN, outN, i) == Truncated(s, inN, outN, i) + was[Idx(i, 0, outN)..]
  {
    if i > 0 {
      WrittenIsTruncated(was, s, inN, outN, i - 1);
      var p, o := Idx(i - 1, 0, inN), Idx(i - 1, 0, outN);
      Extend(Truncated(s, inN, outN, i - 1), was, o, TruncFrame(s[p..p + inN], outN));
    }
  }

  method CopyOrTruncate(out: array<int>, outN: nat, input: array<int>, inN: nat, frames: nat)
    requires out != input
    requires Idx(frames, 0, inN) <= input.Length && Idx(frames, 0, outN) <= out.Length
    modifies out
    ensures out[..] == Truncated(input[..], inN, outN, frames) + old(out[Idx(frames, 0, outN)..])
  {
    ghost var s, was := input[..], out[..];
    var o, p := 0, 0;
    for i := 0 to frames
      invariant o == Idx(i, 0, outN) <= |was| == out.Length && p == Idx(i, 0, inN) <= |s| && input[..] == s
      invariant out[..] == Written(was, s, inN, outN, i)
    {
      NextFrame(i, frames, outN);
      NextFrame(i, frames, inN);
      OneFrame(out, o, outN, input, p, inN, s);
      o := o + outN;
      p := p + inN;
    }
    WrittenIsTruncated(was, s, inN, outN, frames);
  }

  lemma Extend(y: seq<int>, was: seq<int>, o: nat, z: seq<int>)
    requires o == |y| && o + |z| <= |was|
    ensures Splice(y + was[o..], o, z) == y + z + was[o + |z|..]
  {
  }
}
