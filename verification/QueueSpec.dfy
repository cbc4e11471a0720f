/** What the duplex paths do with captured samples, on sequences: queue, newly supplied input,
    the samples the callback is shown, and what stays queued. */
module QueueSpec {
  import opened Arith
  import opened Copying

  /** By how much a queue of n exceeds what is kept. */
  function Excess(n: nat, keep: nat): (e: nat)
    ensures e <= n && n - e <= keep && (e > 0 ==> n - e == keep)
  {
    if n > keep then n - keep else 0
  }

  /** The newest `keep` elements. */
  function KeepNewest<T>(q: seq<T>, keep: nat): seq<T> {
    q[Excess(|q|, keep)..]
  }

  function Dropped<T>(q: seq<T>, keep: nat): seq<T> {
    q[..Excess(|q|, keep)]
  }

  /** How much silence `need` samples take beyond those there. */
  function Padding(have: nat, need: nat): nat {
    if have < need then need - have else 0
  }

  /** The first `need` samples of the queued and the supplied ones, then silence. */
  function Present<T>(all: seq<T>, need: nat, zero: T): (p: seq<T>)
    ensures |p| == need
  {
    if |all| >= need then all[..need] else all + Repeat(zero, Padding(|all|, need))
  }

  /** What is left of them, before old audio is dropped. With `padStays` the silence that was
      shown remains queued, as in the pass-through resampler. */
  function Left<T>(all: seq<T>, need: nat, zero: T, padStays: bool): seq<T> {
    if |all| >= need then all[need..]
    else if padStays then Repeat(zero, Padding(|all|, need))
    else []
  }

  /** Padding first and removing what was shown leaves the same, with no padding in it. */
  lemma LeftOfPadded<T>(all: seq<T>, need: nat, zero: T)
    ensures (all + Repeat(zero, Padding(|all|, need)))[need..] == Left(all, need, zero, false)
  {
  }

  /** With `ask` frames supplied, `ask` being what the need is short of the queue, no silence is
      shown; with one fewer exactly one frame of it is, at the end. */
  lemma DemandShows<T>(all: seq<T>, queued: nat, supplied: nat, need: nat, channels: nat, zero: T)
    requires channels > 0 && |all| == (queued + supplied) * channels
    ensures var ask := if need > queued then need - queued else 0;
            && (supplied == ask ==> ShowsNoSilence(all, need * channels, zero))
            && (supplied + 1 == ask ==> Present(all, need * channels, zero) == all + Repeat(zero, channels))
  {
    FramesOrdered(need, queued + supplied, channels);
    if need > queued && supplied + 1 == need - queued {
      FramesOrdered(queued + supplied, need, channels);
      assert (need - (queued + supplied)) * channels == channels;
    }
  }

  ghost predicate ShowsNoSilence<T>(all: seq<T>, need: nat, zero: T) {
    need <= |all| && Present(all, need, zero) == all[..need]
  }

  // ----- Exactly once, in order, over any run -----

  datatype Sample = Captured(i: nat) | Silence

  /** One fill: how many samples are captured for it, and how many the callback needs. */
  datatype Fill = Fill(supplied: nat, need: nat)

  /** A sample that left the queue, shown to the callback or dropped. */
  datatype Leaving = Shown(s: Sample) | Discarded(s: Sample)

  datatype Stream = Stream(
    queue: seq<Sample>,
    captured: nat,           // samples captured so far
    left: seq<Leaving>       // everything that left, in order
  )

  function Range(a: nat, b: nat): (r: seq<Sample>)
    requires a <= b
    ensures |r| == b - a && forall k | 0 <= k < |r| :: r[k] == Captured(a + k)
  {
    seq(b - a, k requires 0 <= k < b - a => Captured(a + k))
  }

  function AllShown(q: seq<Sample>): (r: seq<Leaving>)
    ensures |r| == |q| && forall k | 0 <= k < |q| :: r[k] == Shown(q[k])
  {
    seq(|q|, k requires 0 <= k < |q| => Shown(q[k]))
  }

  function AllDiscarded(q: seq<Sample>): (r: seq<Leaving>)
    ensures |r| == |q| && forall k | 0 <= k < |q| :: r[k] == Discarded(q[k])
  {
    seq(|q|, k requires 0 <= k < |q| => Discarded(q[k]))
  }

  function After(st: Stream, f: Fill, keep: nat, padStays: bool): Stream {
    var all := st.queue + Range(st.captured, st.captured + f.supplied);
    var rest := Left(all, f.need, Silence, padStays);
    Stream(KeepNewest(rest, keep), st.captured + f.supplied,
           st.left + AllShown(Present(all, f.need, Silence)) + AllDiscarded(Dropped(rest, keep)))
  }

  function AfterAll(st: Stream, fills: seq<Fill>, keep: nat, padStays: bool): Stream
    decreases |fills|
  {
    if fills == [] then st else AfterAll(After(st, fills[0], keep, padStays), fills[1..], keep, padStays)
  }

  /** The captured samples among those, in order. */
  function Captures(q: seq<Sample>): seq<Sample> {
    if q == [] then []
    else (if q[0].Captured? then [q[0]] else []) + Captures(q[1..])
  }

  function Samples(l: seq<Leaving>): (q: seq<Sample>)
    ensures |q| == |l| && forall k | 0 <= k < |l| :: q[k] == l[k].s
  {
    seq(|l|, k requires 0 <= k < |l| => l[k].s)
  }

  lemma {:induction false} CapturesAppend(a: seq<Sample>, b: seq<Sample>)
    ensures Captures(a + b) == Captures(a) + Captures(b)
  {
    if a == [] {
      assert a + b == b;
    } else {
      CapturesAppend(a[1..], b);
      assert (a + b)[1..] == a[1..] + b && (a + b)[0] == a[0];
      var head := if a[0].Captured? then [a[0]] else [];
      assert Captures(a + b) == head + (Captures(a[1..]) + Captures(b));
      Reassociate(head, Captures(a[1..]), Captures(b));
    }
  }

  lemma {:induction false} SilenceHasNone(n: nat)
    ensures Captures(Repeat(Silence, n)) == []
  {
    if n > 0 {
      SilenceHasNone(n - 1);
      assert Repeat(Silence, n)[1..] == Repeat(Silence, n - 1);
    }
  }

  lemma {:induction false} RangeIsCaptured(a: nat, b: nat)
    requires a <= b
    ensures Captures(Range(a, b)) == Range(a, b)
    decreases b - a
  {
    if a < b {
      RangeIsCaptured(a + 1, b);
      assert Range(a, b) == [Captured(a)] + Range(a + 1, b);
      assert Range(a, b)[1..] == Range(a + 1, b);
    }
  }

  /** Every captured sample has left once, in capture order, or is queued in that order. */
  ghost predicate Accounted(st: Stream) {
    Captures(Samples(st.left)) + Captures(st.queue) == Range(0, st.captured)
  }

  lemma RangeAppends(a: nat, b: nat)
    requires a <= b
    ensures Range(0, a) + Range(a, b) == Range(0, b)
  {
  }

  lemma AllAccounted(st: Stream, all: seq<Sample>, supplied: nat)
    requires Accounted(st) && all == st.queue + Range(st.captured, st.captured + supplied)
    ensures Captures(Samples(st.left)) + Captures(all) == Range(0, st.captured + supplied)
  {
    var more := Range(st.captured, st.captured + supplied);
    CapturesAppend(st.queue, more);
    RangeIsCaptured(st.captured, st.captured + supplied);
    RangeAppends(st.captured, st.captured + supplied);
    Reassociate(Captures(Samples(st.left)), Captures(st.queue), more);
  }

  lemma Reassociate<T>(a: seq<T>, b: seq<T>, c: seq<T>)
    ensures (a + b) + c == a + (b + c)
  {
  }

  /** One fill keeps the account. */
  lemma {:induction false} FillAccounts(st: Stream, f: Fill, keep: nat, padStays: bool)
    requires Accounted(st)
    ensures Accounted(After(st, f, keep, padStays))
  {
    var all := st.queue + Range(st.captured, st.captured + f.supplied);
    var rest := Left(all, f.need, Silence, padStays);
    var shown, gone, kept := Present(all, f.need, Silence), Dropped(rest, keep), KeepNewest(rest, keep);
    OutgoingAndKept(all, f.need, keep, padStays);
    PartsAccount(st, f.supplied, shown, gone, kept, all, After(st, f, keep, padStays));
  }

  lemma PartsAccount(st: Stream, supplied: nat, shown: seq<Sample>, gone: seq<Sample>, kept: seq<Sample>,
                     all: seq<Sample>, t: Stream)
    requires Accounted(st) && all == st.queue + Range(st.captured, st.captured + supplied)
    requires Captures(shown + gone) + Captures(kept) == Captures(all)
    requires t == Stream(kept, st.captured + supplied, st.left + AllShown(shown) + AllDiscarded(gone))
    ensures Accounted(t)
  {
    AllAccounted(st, all, supplied);
    LeavingAppends(st.left, shown, gone);
    Regrouped(Captures(Samples(st.left)), Captures(shown + gone), Captures(kept), Captures(all), Range(0, t.captured));
  }

  lemma Regrouped<T>(a: seq<T>, b: seq<T>, c: seq<T>, bc: seq<T>, abc: seq<T>)
    requires b + c == bc && a + bc == abc
    ensures (a + b) + c == abc
  {
    Reassociate(a, b, c);
  }

  lemma Regroup<T>(before: seq<T>, out: seq<T>, kept: seq<T>, queued: seq<T>, supplied: seq<T>)
    requires out + kept == queued + supplied
    ensures (before + out) + kept == (before + queued) + supplied
  {
    assert (before + out) + kept == before + (out + kept);
    assert before + (queued + supplied) == (before + queued) + supplied;
  }

  lemma {:induction false} LeavingAppends(left: seq<Leaving>, shown: seq<Sample>, gone: seq<Sample>)
    ensures Captures(Samples(left + AllShown(shown) + AllDiscarded(gone)))
            == Captures(Samples(left)) + Captures(shown + gone)
  {
    assert Samples(left + AllShown(shown) + AllDiscarded(gone)) == Samples(left) + (shown + gone);
    CapturesAppend(Samples(left), shown + gone);
  }

  lemma {:induction false} OutgoingAndKept(all: seq<Sample>, need: nat, keep: nat, padStays: bool)
    ensures var shown, rest := Present(all, need, Silence), Left(all, need, Silence, padStays);
            Captures(shown + Dropped(rest, keep)) + Captures(KeepNewest(rest, keep)) == Captures(all)
  {
    var shown, rest := Present(all, need, Silence), Left(all, need, Silence, padStays);
    var gone, kept := Dropped(rest, keep), KeepNewest(rest, keep);
    CapturesAppend(shown, gone);
    CapturesAppend(gone, kept);
    assert gone + kept == rest;
    ShownAndLeft(all, need, padStays);
    Regroup(Captures(shown), Captures(gone), Captures(kept), [], Captures(rest));
    assert [] + Captures(rest) == Captures(rest) && Captures(shown) + [] == Captures(shown);
  }

  lemma {:induction false} ShownAndLeft(all: seq<Sample>, need: nat, padStays: bool)
    ensures Captures(Present(all, need, Silence)) + Captures(Left(all, need, Silence, padStays)) == Captures(all)
  {
    if |all| >= need {
      CapturesAppend(all[..need], all[need..]);
      assert all[..need] + all[need..] == all;
    } else {
      CapturesAppend(all, Repeat(Silence, Padding(|all|, need)));
      SilenceHasNone(Padding(|all|, need));
    }
  }

  /** Over any run of fills every captured sample is shown or dropped at most once, in capture
      order, and all others are still queued in capture order. */
  lemma {:induction false} CapturedExactlyOnce(st: Stream, fills: seq<Fill>, keep: nat, padStays: bool)
    requires Accounted(st)
    ensures Accounted(AfterAll(st, fills, keep, padStays))
    decreases |fills|
  {
    if fills != [] {
      FillAccounts(st, fills[0], keep, padStays);
      CapturedExactlyOnce(After(st, fills[0], keep, padStays), fills[1..], keep, padStays);
    }
  }

  /** A sample is dropped only as the oldest queued audio, and only beyond `keep`. */
  lemma {:induction false} DropsOldestBeyondKeep(st: Stream, f: Fill, keep: nat, padStays: bool)
    ensures var all := st.queue + Range(st.captured, st.captured + f.supplied);
            var rest := Left(all, f.need, Silence, padStays);
            var t := After(st, f, keep, padStays);
            && rest == Dropped(rest, keep) + t.queue
            && |t.queue| <= keep
            && (Dropped(rest, keep) != [] ==> |t.queue| == keep)
            && t.left == st.left + AllShown(Present(all, f.need, Silence)) + AllDiscarded(Dropped(rest, keep))
  {
  }

  /** What the callback was shown, in order, of all that left. */
  function Presented(left: seq<Leaving>): seq<Sample> {
    if left == [] then []
    else Presented(left[..|left| - 1]) + (if left[|left| - 1].Shown? then [left[|left| - 1].s] else [])
  }

  lemma PresentedOne(left: seq<Leaving>, x: Leaving)
    ensures Presented(left + [x]) == Presented(left) + (if x.Shown? then [x.s] else [])
  {
    assert (left + [x])[..|left|] == left;
  }

  lemma {:induction false} PresentedShown(left: seq<Leaving>, shown: seq<Sample>)
    ensures Presented(left + AllShown(shown)) == Presented(left) + shown
    decreases |shown|
  {
    if shown == [] {
      assert left + AllShown(shown) == left;
    } else {
      var n := |shown| - 1;
      PresentedShown(left, shown[..n]);
      PresentedOne(left + AllShown(shown[..n]), Shown(shown[n]));
      assert left + AllShown(shown) == left + AllShown(shown[..n]) + [Shown(shown[n])];
      Reassociate(Presented(left), shown[..n], [shown[n]]);
      assert shown[..n] + [shown[n]] == shown;
    }
  }

  lemma {:induction false} PresentedDiscarded(left: seq<Leaving>, gone: seq<Sample>)
    ensures Presented(left + AllDiscarded(gone)) == Presented(left)
    decreases |gone|
  {
    if gone == [] {
      assert left + AllDiscarded(gone) == left;
    } else {
      var n := |gone| - 1;
      PresentedDiscarded(left, gone[..n]);
      PresentedOne(left + AllDiscarded(gone[..n]), Discarded(gone[n]));
      assert left + AllDiscarded(gone) == left + AllDiscarded(gone[..n]) + [Discarded(gone[n])];
    }
  }

  /** A fill presents exactly what the specification shows. */
  lemma FillPresents(st: Stream, f: Fill, keep: nat, padStays: bool)
    ensures Presented(After(st, f, keep, padStays).left)
            == Presented(st.left) + Present(st.queue + Range(st.captured, st.captured + f.supplied), f.need, Silence)
  {
    var all := st.queue + Range(st.captured, st.captured + f.supplied);
    var shown, gone := Present(all, f.need, Silence), Dropped(Left(all, f.need, Silence, padStays), keep);
    PresentedShown(st.left, shown);
    PresentedDiscarded(st.left + AllShown(shown), gone);
  }
}
