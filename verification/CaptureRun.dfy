/** Runs of the fills over captured samples that know when they were captured: the two resamplers
    are runs of the specification in QueueSpec, so that what it says about runs is said of them. */
module CaptureRun {
  import opened QueueSpec
  import opened Resamplers
  import opened SpeexResamplers

  /** A duplex call: frames captured for it, output frames asked for. */
  datatype Call = Call(inputFrames: nat, outputFrames: nat)

  /** The samples captured next. */
  method Capture(from: nat, count: nat) returns (input: array<Sample>)
    ensures fresh(input) && input.Length == count && input[..count] == Range(from, from + count)
  {
    input := new Sample[count](k => Captured(from + k));
  }

  /** One step of the specification, for the samples `all` that are queued or supplied. */
  ghost predicate Steps(st: Stream, st': Stream, all: seq<Sample>, need: nat, keep: nat, padStays: bool) {
    && Accounted(st')
    && st'.queue == KeepNewest(Left(all, need, Silence, padStays), keep)
    && Presented(st'.left) == Presented(st.left) + Present(all, need, Silence)
  }

  lemma AfterSteps(st: Stream, f: Fill, keep: nat, padStays: bool, input: seq<Sample>)
    requires Accounted(st) && input == Range(st.captured, st.captured + f.supplied)
    ensures Steps(st, After(st, f, keep, padStays), st.queue + input, f.need, keep, padStays)
    ensures After(st, f, keep, padStays).captured == st.captured + f.supplied
  {
    FillPresents(st, f, keep, padStays);
    FillAccounts(st, f, keep, padStays);
  }

  lemma ShownInTurn(before: seq<Sample>, first: seq<Sample>, rest: seq<Sample>)
    ensures (before + first) + rest == before + (first + rest)
  {
  }

  /** The fills that a run of pass-through calls is. */
  function PassthroughFills(calls: seq<Call>, channels: nat): (f: seq<Fill>)
    ensures |f| == |calls|
  {
    if calls == [] then []
    else [Fill(calls[0].inputFrames * channels, calls[0].outputFrames * channels)] + PassthroughFills(calls[1..], channels)
  }

  /** Any run of duplex calls of the pass-through resampler is the run of the specification with
      padding that stays: queue and samples shown agree, and every captured sample is accounted
      for. */
  method PassthroughRun(r: PassthroughResampler<Sample>, ghost st: Stream, captured: nat, calls: seq<Call>)
    returns (ghost st': Stream, shown: seq<Sample>)
    requires r.Valid() && r.channels > 0 && r.internalInputBuffer.zero == Silence
    requires r.Queue() == st.queue && captured == st.captured && Accounted(st)
    modifies r.internalInputBuffer, r.internalInputBuffer.data
    ensures r.Valid() && st' == AfterAll(st, PassthroughFills(calls, r.channels), r.Keep(), true)
    ensures r.Queue() == st'.queue && Presented(st'.left) == Presented(st.left) + shown && Accounted(st')
    decreases |calls|
  {
    if calls == [] {
      return st, [];
    }
    var supplied := calls[0].inputFrames * r.channels;
    ghost var f := Fill(supplied, calls[0].outputFrames * r.channels);
    var input := Capture(captured, supplied);
    var _, _, _, first := r.Fill(input, calls[0].inputFrames, true, calls[0].outputFrames, calls[0].outputFrames);
    AfterSteps(st, f, r.Keep(), true, input[..supplied]);
    var rest;
    st', rest := PassthroughRun(r, After(st, f, r.Keep(), true), captured + supplied, calls[1..]);
    shown := first + rest;
    ShownInTurn(Presented(st.left), first, rest);
    assert PassthroughFills(calls, r.channels)[1..] == PassthroughFills(calls[1..], r.channels);
  }

  /** One successful duplex fill of the resampler with an output processor is one step of the
      specification in which padding does not stay, whatever the callback and Speex do. */
  method DuplexFill(r: SpeexResampler<Sample>, ghost st: Stream, captured: nat, call: Call,
                    callback: Callback<Sample>, speex: Speex)
    returns (ghost st': Stream, shown: seq<Sample>)
    requires r.Valid() && !r.draining && r.inputChannels > 0 && r.inputQueue.zero == Silence
    requires r.Queue() == st.queue && captured == st.captured && Accounted(st)
    requires r.Allowed(call.outputFrames, callback, speex) && callback.got >= 0
    modifies r`draining, r.inputQueue, r.inputQueue.data
    modifies r.outputProcessor, r.outputProcessor.inBuffer, r.outputProcessor.inBuffer.data
    ensures r.Valid() && Accounted(st') && r.Queue() == st'.queue
    ensures r.draining == (callback.got < old(r.outputProcessor.InputNeededForOutput(call.outputFrames)))
    ensures r.inputQueue.data == old(r.inputQueue.data) || fresh(r.inputQueue.data)
    ensures r.outputProcessor.inBuffer.data == old(r.outputProcessor.inBuffer.data)
            || fresh(r.outputProcessor.inBuffer.data)
    ensures st' == After(st, Fill(call.inputFrames * r.inputChannels,
                                  old(r.outputProcessor.InputNeededForOutput(call.outputFrames)) * r.inputChannels),
                         r.Keep(), false)
    ensures Presented(st'.left) == Presented(st.left) + shown
  {
    var supplied := call.inputFrames * r.inputChannels;
    ghost var f := Fill(supplied, r.outputProcessor.InputNeededForOutput(call.outputFrames) * r.inputChannels);
    var input := Capture(captured, supplied);
    AfterSteps(st, f, r.Keep(), false, input[..supplied]);
    st' := After(st, f, r.Keep(), false);
    var _, _, out := r.FillDuplex(input, call.inputFrames, call.outputFrames, callback, speex);
    shown := out;
  }

  /** What Speex does at each fill of a run, as far as there are samples for it. */
  datatype Resampling = Resampling(took: nat, produced: nat)

  function AtMost(a: nat, b: nat): nat {
    if a < b then a else b
  }

  /** Any run of successful duplex fills that does not start draining is a run of the specification
      in which padding does not stay, one fill a call, each supplied with the frames captured for
      it: each captured sample is shown or dropped once, in order, or still queued. */
  method DuplexRun(r: SpeexResampler<Sample>, ghost st: Stream, captured: nat, calls: seq<Call>, speexes: seq<Resampling>)
    returns (ghost fills: seq<Fill>, ghost st': Stream, shown: seq<Sample>)
    requires r.Valid() && !r.draining && r.inputChannels > 0 && r.inputQueue.zero == Silence
    requires r.Queue() == st.queue && captured == st.captured && Accounted(st) && |speexes| == |calls|
    modifies r`draining, r.inputQueue, r.inputQueue.data
    modifies r.outputProcessor, r.outputProcessor.inBuffer, r.outputProcessor.inBuffer.data
    ensures r.Valid() && !r.draining && r.Queue() == st'.queue && |r.Queue()| <= r.Keep()
    ensures |fills| == |calls|
    ensures forall k | 0 <= k < |calls| :: fills[k].supplied == calls[k].inputFrames * r.inputChannels
    ensures st' == AfterAll(st, fills, r.Keep(), false) && Accounted(st')
    ensures Presented(st'.left) == Presented(st.left) + shown
    decreases |calls|
  {
    if calls == [] {
      return [], st, [];
    }
    var c := calls[0];
    var before := r.outputProcessor.InputNeededForOutput(c.outputFrames);
    ghost var f := Fill(c.inputFrames * r.inputChannels, before * r.inputChannels);
    var callback := Callback(before, seq(before * r.outputProcessor.channels, _ => Silence));
    var room := r.outputProcessor.inBuffer.length / r.outputProcessor.channels + before;
    var speex := Speex(AtMost(speexes[0].took, room), AtMost(speexes[0].produced, c.outputFrames));
    ghost var st1, others;
    var first, rest;
    st1, first := DuplexFill(r, st, captured, c, callback, speex);
    others, st', rest := DuplexRun(r, st1, captured + c.inputFrames * r.inputChannels, calls[1..], speexes[1..]);
    shown := first + rest;
    fills := [f] + others;
    assert fills[1..] == others;
    ShownInTurn(Presented(st.left), first, rest);
  }
}
