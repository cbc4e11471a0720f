/** The resampler that converts the output with Speex while the input needs no conversion: the
    output processor with its own input buffer, and the two fill paths over it. The data
    callback and Speex itself are parameters. */
module SpeexResamplers {
  import opened Arith
  import opened AutoArrays
  import opened Copying
  import opened QueueSpec
  import opened Resamplers

  /** What the data callback did: its return value, and the frames it left in the buffer. */
  datatype Callback<T> = Callback(got: int, frames: seq<T>)

  /** How many frames Speex took of those given, and how many it produced. */
  datatype Speex = Speex(took: nat, produced: nat)

  class SpeexOneWay<T> {
    const channels: nat
    const sourceRate: nat
    const targetRate: nat
    const inBuffer: AutoArray<T>
    var leftoverSamples: nat
    ghost var written: seq<T>    // all samples the callback has delivered, in order
    ghost var removed: seq<T>    // all samples taken out again, in order
    ghost var dropped: nat       // how many of those Speex did not get

    ghost predicate Valid()
      reads this, inBuffer, inBuffer.data
    {
      && channels > 0 && targetRate > 0 && inBuffer.Valid()
      && Whole(inBuffer.length, channels)
      && written == removed + inBuffer.Contents()
    }

    ghost function Pending(): seq<T>
      reads this, inBuffer, inBuffer.data
      requires inBuffer.Valid()
    {
      inBuffer.Contents()
    }

    constructor (channels: nat, sourceRate: nat, targetRate: nat, zero: T)
      requires channels > 0 && targetRate > 0
      ensures Valid() && fresh(inBuffer) && fresh(inBuffer.data)
      ensures written == [] && removed == [] && dropped == 0
      ensures this.channels == channels && this.sourceRate == sourceRate && this.targetRate == targetRate
    {
      this.channels, this.sourceRate, this.targetRate := channels, sourceRate, targetRate;
      this.inBuffer := new AutoArray<T>(0, zero);
      this.leftoverSamples := 0;
      this.written, this.removed, this.dropped := [], [], 0;
      new;
      MultipleIsWhole(0, channels);
    }

    /** The frames to supply for `outputFrames` resampled ones: those a regular consumption
        takes, one more, less what is there. */
    function InputNeededForOutput(outputFrames: nat): (n: nat)
      requires channels > 0 && targetRate > 0
      reads this, inBuffer
      ensures outputFrames > 0 ==>
                targetRate * (n + inBuffer.length / channels) >= outputFrames * sourceRate + targetRate
      ensures outputFrames == 0 ==> n == 0
      ensures n > 0 ==>
                targetRate * (n + inBuffer.length / channels) < outputFrames * sourceRate + 2 * targetRate
    {
      if outputFrames == 0 then 0
      else
        var left := inBuffer.length / channels;
        var needed := 1 + CeilDiv(outputFrames * sourceRate, targetRate);
        var n := needed - (if left < needed then left else needed);
        assert targetRate * (n + left) >= targetRate * needed by {
          if n + left > needed { MulAtLeast(targetRate, n + left - needed); }
          assert targetRate * (n + left - needed) == targetRate * (n + left) - targetRate * needed;
        }
        assert targetRate * needed == targetRate + targetRate * CeilDiv(outputFrames * sourceRate, targetRate);
        n
    }

    /** Makes room behind what is pending; returns where it starts. */
    method InputBuffer(frameCount: nat) returns (at: nat)
      requires Valid()
      modifies this`leftoverSamples, inBuffer`data
      ensures Valid() && (inBuffer.data == old(inBuffer.data) || fresh(inBuffer.data))
      ensures Pending() == old(Pending())
      ensures at == leftoverSamples == inBuffer.length
      ensures at + frameCount * channels <= inBuffer.data.Length
    {
      leftoverSamples := inBuffer.length;
      inBuffer.Reserve(leftoverSamples + frameCount * channels);
      return leftoverSamples;
    }

    /** Counts in the frames written behind what is pending. */
    method Written(frameCount: nat)
      requires Valid() && leftoverSamples == inBuffer.length
      requires leftoverSamples + frameCount * channels <= inBuffer.data.Length
      modifies this`written, inBuffer`length
      ensures Valid()
      ensures Pending() == old(Pending()) + inBuffer.data[leftoverSamples..leftoverSamples + frameCount * channels]
      ensures written == old(written) + inBuffer.data[leftoverSamples..leftoverSamples + frameCount * channels]
    {
      MultipleIsWhole(frameCount, channels);
      WholeArithmetic(leftoverSamples, frameCount * channels, channels);
      ghost var more := inBuffer.data[leftoverSamples..leftoverSamples + frameCount * channels];
      inBuffer.SetLength(leftoverSamples + frameCount * channels);
      assert Pending() == old(Pending()) + more;
      written := written + more;
      assert removed + (old(Pending()) + more) == (removed + old(Pending())) + more;
    }

    /** Hands what is pending to Speex and removes the prefix it took. */
    method Output(outputFrames: nat, speex: Speex) returns (produced: nat)
      requires Valid()
      requires speex.took <= inBuffer.length / channels && speex.produced <= outputFrames
      modifies this`removed, inBuffer`length, inBuffer.data
      ensures Valid() && produced == speex.produced
      ensures speex.took * channels <= |old(Pending())|
      ensures Pending() == old(Pending())[speex.took * channels..]
      ensures removed == old(removed) + old(Pending())[..speex.took * channels]
    {
      Remove(speex.took);
      return speex.produced;
    }

    method Remove(frames: nat)
      requires Valid() && frames <= inBuffer.length / channels
      modifies this`removed, inBuffer`length, inBuffer.data
      ensures Valid() && frames * channels <= |old(Pending())|
      ensures Pending() == old(Pending())[frames * channels..]
      ensures removed == old(removed) + old(Pending())[..frames * channels]
    {
      ghost var p := Pending();
      var n := frames * channels;
      FramesOrdered(frames, inBuffer.length / channels, channels);
      assert inBuffer.length / channels * channels == inBuffer.length;
      MultipleIsWhole(frames, channels);
      WholeArithmetic(inBuffer.length, n, channels);
      var _ := inBuffer.Pop(null, n);
      removed := removed + p[..n];
      assert p == p[..n] + p[n..];
      assert (old(removed) + p[..n]) + p[n..] == old(removed) + p;
    }

    method DropAudioIfNeeded()
      requires Valid()
      modifies this`removed, this`dropped, inBuffer`length, inBuffer.data
      ensures Valid() && LastTwentieth(|Pending()|, |old(Pending())|, sourceRate, channels)
      ensures Pending() == KeepNewest(old(Pending()), MinBufferedAudioFrame(sourceRate) * channels)
      ensures removed == old(removed) + Dropped(old(Pending()), MinBufferedAudioFrame(sourceRate) * channels)
      ensures dropped == old(dropped) + Excess(|old(Pending())|, MinBufferedAudioFrame(sourceRate) * channels)
    {
      ghost var p := Pending();
      var available := inBuffer.length / channels;
      var toKeep := MinBufferedAudioFrame(sourceRate);
      assert available * channels == inBuffer.length;
      FramesOrdered(toKeep, available, channels);
      FramesOrdered(available, toKeep, channels);
      if available > toKeep {
        dropped := dropped + (available - toKeep) * channels;
        Remove(available - toKeep);
      }
      KeptIsLastTwentieth(p, sourceRate, channels);
    }
  }

  lemma SliceOfSlice<T>(s: seq<T>, at: nat, t: seq<T>, n: nat)
    requires n <= |t| && at + |t| <= |s| && s[at..at + |t|] == t
    ensures s[at..at + n] == t[..n]
  {
    assert s[at..at + |t|][..n] == s[at..at + n];
  }

  class SpeexResampler<T> {
    const inputChannels: nat
    const targetRate: nat
    const inputQueue: AutoArray<T>
    const outputProcessor: SpeexOneWay<T>
    var draining: bool

    /** Between two fills of a stream that is not draining at most a twentieth of a second is
        queued; in the middle of one more may be. */
    ghost predicate Valid()
      reads this, inputQueue, inputQueue.data
      reads outputProcessor, outputProcessor.inBuffer, outputProcessor.inBuffer.data
    {
      Sound() && (!draining ==> inputQueue.length <= Keep())
    }

    ghost predicate Sound()
      reads this, inputQueue, inputQueue.data
      reads outputProcessor, outputProcessor.inBuffer, outputProcessor.inBuffer.data
    {
      && inputQueue.Valid() && outputProcessor.Valid()
      && inputQueue != outputProcessor.inBuffer && inputQueue.data != outputProcessor.inBuffer.data
      && (inputChannels > 0 ==> Whole(inputQueue.length, inputChannels))
    }

    ghost function Queue(): seq<T>
      reads this, inputQueue, inputQueue.data
      requires inputQueue.Valid()
    {
      inputQueue.Contents()
    }

    constructor (inputChannels: nat, outputChannels: nat, targetRate: nat, outputRate: nat, zero: T)
      requires outputChannels > 0 && outputRate > 0
      ensures Valid() && Queue() == [] && !draining
      ensures fresh(inputQueue) && fresh(inputQueue.data) && fresh(outputProcessor)
      ensures fresh(outputProcessor.inBuffer) && fresh(outputProcessor.inBuffer.data)
      ensures outputProcessor.written == [] && outputProcessor.removed == [] && outputProcessor.dropped == 0
      ensures this.inputChannels == inputChannels && this.targetRate == targetRate && inputQueue.zero == zero
      ensures outputProcessor.channels == outputChannels
      ensures outputProcessor.sourceRate == targetRate && outputProcessor.targetRate == outputRate
    {
      this.inputChannels := inputChannels;
      this.targetRate := targetRate;
      this.inputQueue := new AutoArray<T>(0, zero);
      this.outputProcessor := new SpeexOneWay<T>(outputChannels, targetRate, outputRate, zero);
      this.draining := false;
      new;
      if inputChannels > 0 { MultipleIsWhole(0, inputChannels); }
    }

    /** The frames a caller has to supply for the next duplex fill of `outputFrames`. */
    function InputNeededForOutput(outputFrames: nat): nat
      requires outputProcessor.channels > 0 && outputProcessor.targetRate > 0
      reads this, inputQueue, outputProcessor, outputProcessor.inBuffer
    {
      if inputChannels == 0 then 0
      else
        var target := outputProcessor.InputNeededForOutput(outputFrames);
        var queued := inputQueue.length / inputChannels;
        if target > queued then target - queued else 0
    }

    /** With the frames asked for, the next duplex fill shows no silence; with one frame fewer it
        ends in exactly one silent frame. */
    lemma DemandQueryIsExact(outputFrames: nat, inputFrames: nat, input: seq<T>)
      requires Sound() && inputChannels > 0 && |input| == inputFrames * inputChannels
      ensures var need := outputProcessor.InputNeededForOutput(outputFrames) * inputChannels;
              var all := Queue() + input;
              && (inputFrames == InputNeededForOutput(outputFrames) ==>
                    ShowsNoSilence(all, need, inputQueue.zero))
              && (inputFrames + 1 == InputNeededForOutput(outputFrames) ==>
                    Present(all, need, inputQueue.zero) == all + Repeat(inputQueue.zero, inputChannels))
    {
      var queued := inputQueue.length / inputChannels;
      assert queued * inputChannels == inputQueue.length;
      assert (queued + inputFrames) * inputChannels == queued * inputChannels + inputFrames * inputChannels;
      DemandShows(Queue() + input, queued, inputFrames, outputProcessor.InputNeededForOutput(outputFrames),
                  inputChannels, inputQueue.zero);
    }

    /** The data callback fills the room behind the pending samples, however much it keeps. */
    method CallbackWrites(at: nat, frames: seq<T>)
      requires outputProcessor.inBuffer.Valid() && outputProcessor.inBuffer.length <= at
      requires at + |frames| <= outputProcessor.inBuffer.data.Length
      modifies outputProcessor.inBuffer.data
      ensures outputProcessor.inBuffer.data[..at] == old(outputProcessor.inBuffer.data[..at])
      ensures outputProcessor.inBuffer.data[at..at + |frames|] == frames
    {
      var data := outputProcessor.inBuffer.data;
      var i := 0;
      while i < |frames|
        invariant i <= |frames|
        invariant data[..at] == old(data[..at]) && data[at..at + i] == frames[..i]
      {
        data[at + i] := frames[i];
        i := i + 1;
      }
    }

    /** Runs the callback on the room made for it and counts in the frames it returned. */
    method TakeFromCallback(at: nat, before: nat, callback: Callback<T>) returns (failed: bool)
      requires Sound() && at == outputProcessor.leftoverSamples == outputProcessor.inBuffer.length
      requires at + before * outputProcessor.channels <= outputProcessor.inBuffer.data.Length
      requires callback.got <= before && |callback.frames| == before * outputProcessor.channels
      modifies this`draining, outputProcessor`written
      modifies outputProcessor.inBuffer`length, outputProcessor.inBuffer.data
      ensures Sound() && failed == (callback.got < 0)
      ensures draining == (old(draining) || callback.got < before)
      ensures outputProcessor.Pending() == old(outputProcessor.Pending()) + Delivered(callback)
      ensures outputProcessor.written == old(outputProcessor.written) + Delivered(callback)
      ensures failed ==> Delivered(callback) == []
    {
      FramesOrdered(if callback.got < 0 then 0 else callback.got, before, outputProcessor.channels);
      ghost var p := outputProcessor.Pending();
      CallbackWrites(at, callback.frames);
      assert outputProcessor.Pending() == p;
      failed := false;
      if callback.got < before {
        draining := true;
        if callback.got < 0 {
          return true;
        }
      }
      ghost var n := callback.got * outputProcessor.channels;
      SliceOfSlice(outputProcessor.inBuffer.data[..], at, callback.frames, n);
      assert outputProcessor.inBuffer.data[at..at + n] == Delivered(callback);
      outputProcessor.Written(callback.got);
    }

    /** The samples of the frames the callback says it wrote. */
    ghost function Delivered(callback: Callback<T>): seq<T> {
      if 0 <= callback.got && callback.got * outputProcessor.channels <= |callback.frames|
      then callback.frames[..callback.got * outputProcessor.channels]
      else []
    }

    /** What the source demands of the callback and of Speex in one fill. */
    ghost predicate Allowed(outputFrames: nat, callback: Callback<T>, speex: Speex)
      reads this, outputProcessor, outputProcessor.inBuffer
      requires outputProcessor.channels > 0 && outputProcessor.targetRate > 0
    {
      var before := outputProcessor.InputNeededForOutput(outputFrames);
      && (!draining ==> callback.got <= before && |callback.frames| == before * outputProcessor.channels)
      && speex.produced <= outputFrames
      && speex.took <= outputProcessor.inBuffer.length / outputProcessor.channels
                       + (if !draining && callback.got > 0 then callback.got else 0)
    }

    /** A fill of an output-only stream: whatever the callback delivers is appended once, and
        what Speex took is removed once, both in order; a failed callback changes neither. */
    method FillOutput(outputFrames: nat, callback: Callback<T>, speex: Speex) returns (rv: int)
      requires Valid() && outputFrames > 0 && Allowed(outputFrames, callback, speex)
      modifies this`draining, outputProcessor, outputProcessor.inBuffer, outputProcessor.inBuffer.data
      ensures Valid() && Queue() == old(Queue())
      ensures outputProcessor.dropped == old(outputProcessor.dropped)
      ensures draining == (old(draining) ||
                           callback.got < old(outputProcessor.InputNeededForOutput(outputFrames)))
      ensures outputProcessor.written == old(outputProcessor.written) + Fed(old(draining), callback)
      ensures !old(draining) && callback.got < 0 ==>
                rv == callback.got && outputProcessor.removed == old(outputProcessor.removed)
      ensures old(draining) || callback.got >= 0 ==>
                rv == speex.produced &&
                Consumed(old(outputProcessor.removed), outputProcessor.removed,
                         old(outputProcessor.Pending()) + Fed(old(draining), callback), speex.took)
    {
      if !draining {
        var before := outputProcessor.InputNeededForOutput(outputFrames);
        var failed := FillInput(before, callback);
        if failed {
          return callback.got;
        }
      } else {
        assert outputProcessor.Pending() + [] == outputProcessor.Pending();
      }
      rv := outputProcessor.Output(outputFrames, speex);
    }

    /** Lets the callback write straight into the input buffer of the output processor. */
    method FillInput(before: nat, callback: Callback<T>) returns (failed: bool)
      requires Sound() && callback.got <= before && |callback.frames| == before * outputProcessor.channels
      modifies this`draining, outputProcessor`written, outputProcessor`leftoverSamples
      modifies outputProcessor.inBuffer, outputProcessor.inBuffer.data
      ensures Sound() && Queue() == old(Queue()) && failed == (callback.got < 0)
      ensures outputProcessor.inBuffer.data == old(outputProcessor.inBuffer.data) || fresh(outputProcessor.inBuffer.data)
      ensures draining == (old(draining) || callback.got < before)
      ensures outputProcessor.Pending() == old(outputProcessor.Pending()) + Delivered(callback)
      ensures outputProcessor.written == old(outputProcessor.written) + Delivered(callback)
      ensures !failed ==> outputProcessor.inBuffer.length / outputProcessor.channels
                          == old(outputProcessor.inBuffer.length) / outputProcessor.channels + callback.got
    {
      var at := outputProcessor.InputBuffer(before);
      failed := TakeFromCallback(at, before, callback);
      if !failed {
        FramesOrdered(callback.got, before, outputProcessor.channels);
        SpeexHasEnough(at, callback.got, outputProcessor.channels);
      }
    }

    /** What a fill adds to the output processor's input. */
    ghost function Fed(drained: bool, callback: Callback<T>): seq<T> {
      if drained then [] else Delivered(callback)
    }

    /** Exactly the first `took` frames of `all` were removed, and logged behind the others. */
    ghost predicate Consumed(before: seq<T>, after: seq<T>, all: seq<T>, took: nat) {
      took * outputProcessor.channels <= |all| && after == before + all[..took * outputProcessor.channels]
    }

    static lemma SpeexHasEnough(pending: nat, got: nat, channels: nat)
      requires channels > 0 && Whole(pending, channels)
      ensures (pending + got * channels) / channels == pending / channels + got
    {
      DivModUnique(pending + got * channels, channels, pending / channels + got, 0);
    }

    /** The input samples kept at most between two fills. */
    function Keep(): nat {
      MinBufferedAudioFrame(targetRate) * inputChannels
    }

    /** Queues all supplied frames and pads the queue up to the need. */
    method StageQueue(input: array<T>, inputFrames: nat, before: nat) returns (shown: seq<T>)
      requires inputQueue.Valid() && inputChannels > 0 && Whole(inputQueue.length, inputChannels)
      requires inputFrames * inputChannels <= input.Length && input != inputQueue.data
      modifies inputQueue, inputQueue.data
      ensures inputQueue.Valid() && (inputQueue.data == old(inputQueue.data) || fresh(inputQueue.data))
      ensures Whole(inputQueue.length, inputChannels)
      ensures var all, need := old(Queue()) + input[..inputFrames * inputChannels], before * inputChannels;
              && shown == Present(all, need, inputQueue.zero)
              && Queue() == all + Repeat(inputQueue.zero, Padding(|all|, need))
    {
      var samples := inputFrames * inputChannels;
      MultipleIsWhole(inputFrames, inputChannels);
      MultipleIsWhole(before, inputChannels);
      WholeArithmetic(inputQueue.length, samples, inputChannels);
      inputQueue.Push(input, 0, samples);
      var available := inputQueue.length / inputChannels;
      assert available * inputChannels == inputQueue.length;
      FramesOrdered(available, before, inputChannels);
      FramesOrdered(before, available, inputChannels);
      if available < before {
        inputQueue.PushSilence((before - available) * inputChannels);
      } else {
        assert Queue() == Queue() + Repeat(inputQueue.zero, 0);
      }
      shown := inputQueue.data[..before * inputChannels];
      assert shown == Queue()[..before * inputChannels];
    }

    /** Removes what was shown, then the oldest frames beyond those to keep. */
    method UnstageQueue(before: nat)
      requires inputQueue.Valid() && inputChannels > 0 && Whole(inputQueue.length, inputChannels)
      requires before * inputChannels <= inputQueue.length
      modifies inputQueue, inputQueue.data
      ensures inputQueue.Valid() && inputQueue.data == old(inputQueue.data)
      ensures Whole(inputQueue.length, inputChannels)
      ensures Queue() == KeepNewest(old(Queue())[before * inputChannels..], Keep())
      ensures LastTwentieth(|Queue()|, |old(Queue())| - before * inputChannels, targetRate, inputChannels)
    {
      ghost var left := Queue()[before * inputChannels..];
      MultipleIsWhole(before, inputChannels);
      WholeArithmetic(inputQueue.length, before * inputChannels, inputChannels);
      var _ := inputQueue.Pop(null, before * inputChannels);
      DropOld(inputQueue, inputChannels, MinBufferedAudioFrame(targetRate));
      KeptIsLastTwentieth(left, targetRate, inputChannels);
    }

    /** The output samples kept at most between two duplex fills. */
    ghost function OutputKeep(): nat
      reads outputProcessor
    {
      MinBufferedAudioFrame(outputProcessor.sourceRate) * outputProcessor.channels
    }

    /** What a duplex fill does to the output samples `fed`: the prefix Speex took leaves, then
        the oldest ones beyond the limit, counted as dropped; the newest ones stay. */
    ghost predicate Resampled(before: seq<T>, after: seq<T>, droppedBefore: nat, droppedAfter: nat,
                              fed: seq<T>, pending: seq<T>, took: nat)
      reads outputProcessor
      requires outputProcessor.channels > 0
    {
      var n := took * outputProcessor.channels;
      && n <= |fed| && pending == KeepNewest(fed[n..], OutputKeep())
      && LastTwentieth(|pending|, |fed| - n, outputProcessor.sourceRate, outputProcessor.channels)
      && after == before + fed[..n] + Dropped(fed[n..], OutputKeep())
      && droppedAfter == droppedBefore + Excess(|fed| - n, OutputKeep())
    }

    /** A fill of a duplex stream whose input rate is the target rate. A draining stream
        discards the input and only resamples what is pending. */
    method FillDuplex(input: array?<T>, inputFrames: nat, outputFrames: nat, callback: Callback<T>, speex: Speex)
      returns (rv: int, consumed: nat, shown: seq<T>)
      requires Valid() && Allowed(outputFrames, callback, speex) && InputGiven(input, inputFrames)
      modifies this`draining, inputQueue, inputQueue.data
      modifies outputProcessor, outputProcessor.inBuffer, outputProcessor.inBuffer.data
      ensures Valid() && consumed == inputFrames
      ensures inputQueue.data == old(inputQueue.data) || fresh(inputQueue.data)
      ensures outputProcessor.inBuffer.data == old(outputProcessor.inBuffer.data) || fresh(outputProcessor.inBuffer.data)
      ensures old(draining) ==>
                && draining && rv == speex.produced && shown == [] && Queue() == old(Queue())
                && outputProcessor.written == old(outputProcessor.written)
                && outputProcessor.dropped == old(outputProcessor.dropped)
                && Consumed(old(outputProcessor.removed), outputProcessor.removed,
                            old(outputProcessor.Pending()), speex.took)
      ensures !old(draining) ==>
                && Shows(old(Queue()), input, inputFrames, old(outputProcessor.InputNeededForOutput(outputFrames)), shown)
                && draining == (callback.got < old(outputProcessor.InputNeededForOutput(outputFrames)))
                && rv == (if callback.got < 0 then callback.got else speex.produced)
                && outputProcessor.written == old(outputProcessor.written) + Delivered(callback)
      ensures !old(draining) && callback.got < 0 ==>
                && outputProcessor.removed == old(outputProcessor.removed)
                && outputProcessor.dropped == old(outputProcessor.dropped)
      ensures !old(draining) && callback.got >= 0 ==>
                && Keeps(old(Queue()), input, inputFrames, old(outputProcessor.InputNeededForOutput(outputFrames)), Queue())
                && Resampled(old(outputProcessor.removed), outputProcessor.removed,
                             old(outputProcessor.dropped), outputProcessor.dropped,
                             old(outputProcessor.Pending()) + Delivered(callback), outputProcessor.Pending(), speex.took)
      ensures !old(draining) && input != null && inputFrames == old(InputNeededForOutput(outputFrames)) ==>
                ShownInFull(old(Queue()), input[..inputFrames * inputChannels],
                            old(outputProcessor.InputNeededForOutput(outputFrames)), shown)
      ensures !old(draining) && input != null && inputFrames + 1 == old(InputNeededForOutput(outputFrames)) ==>
                shown == old(Queue()) + input[..inputFrames * inputChannels] + Repeat(inputQueue.zero, inputChannels)
    {
      consumed := inputFrames;
      if input != null {
        DemandQueryIsExact(outputFrames, inputFrames, input[..inputFrames * inputChannels]);
      }
      if draining {
        shown := [];
        rv := outputProcessor.Output(outputFrames, speex);
      } else {
        rv, shown := FillDuplexLive(input, inputFrames, outputFrames, callback, speex);
      }
    }

    ghost predicate InputGiven(input: array?<T>, inputFrames: nat)
      reads this, inputQueue, outputProcessor, outputProcessor.inBuffer
    {
      input != null ==> inputChannels > 0 && inputFrames * inputChannels <= input.Length
                        && input != inputQueue.data && input != outputProcessor.inBuffer.data
    }

    /** The callback is shown queue and input only, cut at the need. */
    ghost predicate ShownInFull(q: seq<T>, supplied: seq<T>, before: nat, shown: seq<T>) {
      before * inputChannels <= |q + supplied| && shown == (q + supplied)[..before * inputChannels]
    }

    /** The callback is shown the first `before` frames of queue, input and silence. */
    ghost predicate Shows(q: seq<T>, input: array?<T>, inputFrames: nat, before: nat, shown: seq<T>)
      reads input
    {
      if input == null then shown == []
      else inputFrames * inputChannels <= input.Length &&
           shown == Present(q + input[..inputFrames * inputChannels], before * inputChannels, inputQueue.zero)
    }

    /** The newest frames left of queue and input stay queued: at most a twentieth of a second. */
    ghost predicate Keeps(q: seq<T>, input: array?<T>, inputFrames: nat, before: nat, kept: seq<T>)
      reads input
      requires input != null ==> inputChannels > 0
    {
      if input == null then kept == q
      else
        && inputFrames * inputChannels <= input.Length
        && var left := Left(q + input[..inputFrames * inputChannels], before * inputChannels, inputQueue.zero, false);
           kept == KeepNewest(left, Keep()) && LastTwentieth(|kept|, |left|, targetRate, inputChannels)
    }

    /** The fill of a stream that is not draining. */
    method FillDuplexLive(input: array?<T>, inputFrames: nat, outputFrames: nat, callback: Callback<T>, speex: Speex)
      returns (rv: int, shown: seq<T>)
      requires Valid() && !draining && Allowed(outputFrames, callback, speex) && InputGiven(input, inputFrames)
      modifies this`draining, inputQueue, inputQueue.data
      modifies outputProcessor, outputProcessor.inBuffer, outputProcessor.inBuffer.data
      ensures Valid() && rv == (if callback.got < 0 then callback.got else speex.produced)
      ensures inputQueue.data == old(inputQueue.data) || fresh(inputQueue.data)
      ensures outputProcessor.inBuffer.data == old(outputProcessor.inBuffer.data) || fresh(outputProcessor.inBuffer.data)
      ensures draining == (callback.got < old(outputProcessor.InputNeededForOutput(outputFrames)))
      ensures outputProcessor.written == old(outputProcessor.written) + Delivered(callback)
      ensures Shows(old(Queue()), input, inputFrames, old(outputProcessor.InputNeededForOutput(outputFrames)), shown)
      ensures callback.got < 0 ==>
                && outputProcessor.removed == old(outputProcessor.removed)
                && outputProcessor.dropped == old(outputProcessor.dropped)
      ensures callback.got >= 0 ==>
                && Keeps(old(Queue()), input, inputFrames, old(outputProcessor.InputNeededForOutput(outputFrames)), Queue())
                && Resampled(old(outputProcessor.removed), outputProcessor.removed,
                             old(outputProcessor.dropped), outputProcessor.dropped,
                             old(outputProcessor.Pending()) + Delivered(callback), outputProcessor.Pending(), speex.took)
    {
      var before := outputProcessor.InputNeededForOutput(outputFrames);
      var failed;
      failed, shown := PresentDuplex(input, inputFrames, before, callback);
      if failed {
        return callback.got, shown;
      }
      if input != null {
        LeftOfPadded(old(Queue()) + input[..inputFrames * inputChannels], before * inputChannels, inputQueue.zero);
      }
      rv := FinishDuplex(input != null, before, outputFrames, speex);
    }

    /** Makes room for the output, queues the input, and runs the callback. */
    method PresentDuplex(input: array?<T>, inputFrames: nat, before: nat, callback: Callback<T>)
      returns (failed: bool, shown: seq<T>)
      requires Sound() && !draining && InputGiven(input, inputFrames)
      requires callback.got <= before && |callback.frames| == before * outputProcessor.channels
      modifies this`draining, inputQueue, inputQueue.data
      modifies outputProcessor`written, outputProcessor`leftoverSamples
      modifies outputProcessor.inBuffer, outputProcessor.inBuffer.data
      ensures Sound() && failed == (callback.got < 0)
      ensures inputQueue.data == old(inputQueue.data) || fresh(inputQueue.data)
      ensures outputProcessor.inBuffer.data == old(outputProcessor.inBuffer.data) || fresh(outputProcessor.inBuffer.data)
      ensures draining == (callback.got < before)
      ensures outputProcessor.Pending() == old(outputProcessor.Pending()) + Delivered(callback)
      ensures outputProcessor.written == old(outputProcessor.written) + Delivered(callback)
      ensures Shows(old(Queue()), input, inputFrames, before, shown)
      ensures if input == null then Queue() == old(Queue())
              else var all := old(Queue()) + input[..inputFrames * inputChannels];
                   Queue() == all + Repeat(inputQueue.zero, Padding(|all|, before * inputChannels))
      ensures !failed ==> outputProcessor.inBuffer.length / outputProcessor.channels
                          == old(outputProcessor.inBuffer.length) / outputProcessor.channels + callback.got
    {
      var at := outputProcessor.InputBuffer(before);
      shown := [];
      if input != null {
        shown := StageQueue(input, inputFrames, before);
      }
      failed := TakeFromCallback(at, before, callback);
      if !failed {
        SpeexHasEnough(at, callback.got, outputProcessor.channels);
        FramesOrdered(callback.got, before, outputProcessor.channels);
      }
    }

    /** After a callback that did not fail: drops the shown input, resamples the output. */
    method FinishDuplex(hasInput: bool, before: nat, outputFrames: nat, speex: Speex) returns (rv: int)
      requires Sound()
      requires hasInput ==> inputChannels > 0 && before * inputChannels <= inputQueue.length
      requires !hasInput ==> Valid()
      requires speex.took <= outputProcessor.inBuffer.length / outputProcessor.channels
               && speex.produced <= outputFrames
      modifies inputQueue, inputQueue.data
      modifies outputProcessor, outputProcessor.inBuffer, outputProcessor.inBuffer.data
      ensures Valid() && rv == speex.produced && outputProcessor.written == old(outputProcessor.written)
      ensures inputQueue.data == old(inputQueue.data)
      ensures outputProcessor.inBuffer.data == old(outputProcessor.inBuffer.data)
      ensures Queue() == if hasInput then KeepNewest(old(Queue())[before * inputChannels..], Keep())
                         else old(Queue())
      ensures hasInput ==>
                LastTwentieth(|Queue()|, |old(Queue())| - before * inputChannels, targetRate, inputChannels)
      ensures Resampled(old(outputProcessor.removed), outputProcessor.removed,
                        old(outputProcessor.dropped), outputProcessor.dropped,
                        old(outputProcessor.Pending()), outputProcessor.Pending(), speex.took)
    {
      if hasInput {
        UnstageQueue(before);
      }
      rv := outputProcessor.Output(outputFrames, speex);
      outputProcessor.DropAudioIfNeeded();
    }
  }
}
