/** The pass-through resampler over AutoArray, and what the front ends share. The data callback is
    a parameter: only its return value matters here. */
module Resamplers {
  import opened Arith
  import opened AutoArrays
  import opened Copying
  import opened QueueSpec

  function MinBufferedAudioFrame(sampleRate: nat): nat {
    sampleRate / 20
  }

  /** Of the samples there so many stay that they last at most a twentieth of a second, and no
      fewer than fit in there if any do not stay. */
  predicate LastTwentieth(kept: nat, there: nat, sampleRate: nat, channels: nat)
    requires channels > 0
  {
    && kept <= there && kept * 20 <= sampleRate * channels
    && (kept < there ==> (kept / channels + 1) * 20 > sampleRate)
  }

  lemma KeptIsLastTwentieth<T>(q: seq<T>, sampleRate: nat, channels: nat)
    requires channels > 0
    ensures LastTwentieth(|KeepNewest(q, MinBufferedAudioFrame(sampleRate) * channels)|, |q|, sampleRate, channels)
  {
    var frames := MinBufferedAudioFrame(sampleRate);
    assert frames * 20 <= sampleRate < (frames + 1) * 20;
    MulMonotone(frames * 20, sampleRate, channels);
    assert frames * 20 * channels == frames * channels * 20;
    MultipleIsWhole(frames, channels);
  }

  class PassthroughResampler<T> {
    const channels: nat
    const sampleRate: nat
    const internalInputBuffer: AutoArray<T>

    ghost predicate Valid()
      reads this, internalInputBuffer
    {
      && internalInputBuffer.Valid()
      && (channels > 0 ==> Whole(internalInputBuffer.length, channels))
      && (channels == 0 ==> internalInputBuffer.length == 0)
    }

    ghost function Queue(): seq<T>
      reads this, internalInputBuffer, internalInputBuffer.data
      requires Valid()
    {
      internalInputBuffer.Contents()
    }

    function FramesToSamples(frames: nat): nat {
      frames * channels
    }

    /** The samples kept at most between two calls. */
    function Keep(): nat {
      FramesToSamples(MinBufferedAudioFrame(sampleRate))
    }

    constructor (channels: nat, sampleRate: nat, zero: T)
      ensures Valid() && fresh(internalInputBuffer) && fresh(internalInputBuffer.data)
      ensures Queue() == [] && internalInputBuffer.zero == zero
      ensures this.channels == channels && this.sampleRate == sampleRate
    {
      this.channels := channels;
      this.sampleRate := sampleRate;
      this.internalInputBuffer := new AutoArray<T>(0, zero);
      new;
      if channels > 0 { MultipleIsWhole(0, channels); }
    }

    /** Which sequence the callback is shown, and what stays queued. */
    ghost function ShownTo(q: seq<T>, input: seq<T>, duplex: bool, need: nat): seq<T> {
      if duplex then Present(q + input, need, internalInputBuffer.zero) else input
    }

    ghost function QueueAfter(q: seq<T>, input: seq<T>, duplex: bool, need: nat): seq<T> {
      KeepNewest(Unlimited(q, input, duplex, need), Keep())
    }

    /** What would stay queued without a limit. */
    ghost function Unlimited(q: seq<T>, input: seq<T>, duplex: bool, need: nat): seq<T> {
      if duplex then Left(q + input, need, internalInputBuffer.zero, true) else q
    }

    /** One fill. `shown` is what in_buf points at when the callback runs, `requested` the
        frame count passed to it, `rv` its return value. */
    method Fill(input: array?<T>, inputFrames: nat, hasOutput: bool, outputFrames: nat, rv: int)
      returns (result: int, consumed: nat, requested: nat, shown: seq<T>)
      requires Valid()
      requires input == null ==> hasOutput && inputFrames == 0
      requires input != null ==> channels > 0 && inputFrames * channels <= input.Length
                                 && input != internalInputBuffer.data
      requires !hasOutput ==> outputFrames == 0
      modifies internalInputBuffer, internalInputBuffer.data
      ensures Valid() && result == rv && consumed == inputFrames
      ensures requested == if hasOutput then outputFrames else inputFrames
      ensures internalInputBuffer.data == old(internalInputBuffer.data) || fresh(internalInputBuffer.data)
      ensures input == null ==> shown == [] && Queue() == old(Queue())
      ensures input != null ==>
                var supplied := input[..inputFrames * channels];
                var need := outputFrames * channels;
                && shown == ShownTo(old(Queue()), supplied, hasOutput, need)
                && Queue() == QueueAfter(old(Queue()), supplied, hasOutput, need)
                && LastTwentieth(|Queue()|, |Unlimited(old(Queue()), supplied, hasOutput, need)|, sampleRate, channels)
      ensures input != null && hasOutput && inputFrames == old(InputNeededForOutput(outputFrames)) ==>
                var all := old(Queue()) + input[..inputFrames * channels];
                outputFrames * channels <= |all| && shown == all[..outputFrames * channels]
      ensures input != null && hasOutput && inputFrames + 1 == old(InputNeededForOutput(outputFrames)) ==>
                shown == old(Queue()) + input[..inputFrames * channels] + Repeat(internalInputBuffer.zero, channels)
    {
      if input != null {
        DemandQueryIsExact(outputFrames, inputFrames, input[..inputFrames * channels]);
      }
      requested, shown := outputFrames, [];
      var popInputCount := 0;
      if input != null && !hasOutput {
        requested := inputFrames;
        shown := input[..FramesToSamples(inputFrames)];
      } else if input != null {
        popInputCount, shown := Stage(input, inputFrames, outputFrames);
      }
      result := rv;
      if input != null {
        if popInputCount != 0 {
          var _ := internalInputBuffer.Pop(null, popInputCount);
        }
        DropAudioIfNeeded();
      }
      consumed := inputFrames;
    }

    /** The three ways of presenting duplex input: forward it, forward it and stash what is
        beyond the need, or append it to the queue and pad. Whatever is to be popped after the
        callback lies in front of what stays. */
    method Stage(input: array<T>, inputFrames: nat, outputFrames: nat)
      returns (popInputCount: nat, shown: seq<T>)
      requires Valid() && channels > 0
      requires inputFrames * channels <= input.Length && input != internalInputBuffer.data
      modifies internalInputBuffer, internalInputBuffer.data
      ensures internalInputBuffer.Valid() && popInputCount <= internalInputBuffer.length
      ensures internalInputBuffer.data == old(internalInputBuffer.data) || fresh(internalInputBuffer.data)
      ensures var all := old(Queue()) + input[..inputFrames * channels];
              var need := outputFrames * channels;
              && shown == Present(all, need, internalInputBuffer.zero)
              && internalInputBuffer.Contents()[popInputCount..] == Left(all, need, internalInputBuffer.zero, true)
              && Whole(|Left(all, need, internalInputBuffer.zero, true)|, channels)
    {
      var need := FramesToSamples(outputFrames);
      var samples := FramesToSamples(inputFrames);
      ghost var q := Queue();
      MultipleIsWhole(inputFrames, channels);
      MultipleIsWhole(outputFrames, channels);
      WholeArithmetic(|q|, samples, channels);
      WholeArithmetic(|q| + samples, need, channels);
      WholeArithmetic(need, |q| + samples, channels);
      FramesOrdered(inputFrames, outputFrames, channels);
      FramesOrdered(outputFrames, inputFrames, channels);
      if internalInputBuffer.length != 0 || inputFrames < outputFrames {
        popInputCount, shown := AppendAndPad(input, samples, need);
      } else {
        assert q + input[..samples] == input[..samples];
        popInputCount, shown := 0, input[..need];
        if inputFrames > outputFrames {
          internalInputBuffer.Push(input, need, FramesToSamples(inputFrames - outputFrames));
        }
      }
    }

    method AppendAndPad(input: array<T>, samples: nat, need: nat)
      returns (popInputCount: nat, shown: seq<T>)
      requires internalInputBuffer.Valid()
      requires samples <= input.Length && input != internalInputBuffer.data
      modifies internalInputBuffer, internalInputBuffer.data
      ensures internalInputBuffer.Valid() && popInputCount <= internalInputBuffer.length
      ensures internalInputBuffer.data == old(internalInputBuffer.data) || fresh(internalInputBuffer.data)
      ensures var all := old(internalInputBuffer.Contents()) + input[..samples];
              && shown == Present(all, need, internalInputBuffer.zero)
              && internalInputBuffer.Contents()[popInputCount..] == Left(all, need, internalInputBuffer.zero, true)
    {
      internalInputBuffer.Push(input, 0, samples);
      if internalInputBuffer.length < need {
        popInputCount := internalInputBuffer.length;
        internalInputBuffer.PushSilence(need - internalInputBuffer.length);
      } else {
        popInputCount := need;
      }
      shown := internalInputBuffer.data[..need];
      assert shown == internalInputBuffer.Contents()[..need];
    }

    method DropAudioIfNeeded()
      requires Valid() && channels > 0
      modifies internalInputBuffer, internalInputBuffer.data
      ensures Valid() && Queue() == KeepNewest(old(Queue()), Keep())
      ensures LastTwentieth(|Queue()|, |old(Queue())|, sampleRate, channels)
      ensures internalInputBuffer.data == old(internalInputBuffer.data)
    {
      KeptIsLastTwentieth(Queue(), sampleRate, channels);
      DropOld(internalInputBuffer, channels, MinBufferedAudioFrame(sampleRate));
    }

    /** The frames a caller has to supply for the next fill of `outputFrames`. */
    function InputNeededForOutput(outputFrames: nat): nat
      reads this, internalInputBuffer
    {
      if channels == 0 then 0
      else
        var queued := internalInputBuffer.length / channels;
        if outputFrames > queued then outputFrames - queued else 0
    }

    /** With the frames asked for, the next duplex fill shows no silence; with one frame fewer it
        ends in exactly one silent frame. */
    lemma DemandQueryIsExact(outputFrames: nat, inputFrames: nat, input: seq<T>)
      requires Valid() && channels > 0 && |input| == inputFrames * channels
      ensures var need, all := outputFrames * channels, Queue() + input;
              && (inputFrames == InputNeededForOutput(outputFrames) ==>
                    need <= |all| && ShownTo(Queue(), input, true, need) == all[..need])
              && (inputFrames + 1 == InputNeededForOutput(outputFrames) ==>
                    ShownTo(Queue(), input, true, need) == all + Repeat(internalInputBuffer.zero, channels))
    {
      var queued := internalInputBuffer.length / channels;
      assert queued * channels == internalInputBuffer.length;
      assert (queued + inputFrames) * channels == queued * channels + inputFrames * channels;
      DemandShows(Queue() + input, queued, inputFrames, outputFrames, channels, internalInputBuffer.zero);
    }
  }

  /** Drops the oldest frames of a queue beyond `toKeep` frames. */
  method DropOld<T>(queue: AutoArray<T>, channels: nat, toKeep: nat)
    requires queue.Valid() && channels > 0 && Whole(queue.length, channels)
    modifies queue, queue.data
    ensures queue.Valid() && Whole(queue.length, channels) && queue.data == old(queue.data)
    ensures queue.Contents() == KeepNewest(old(queue.Contents()), toKeep * channels)
  {
    var available := queue.length / channels;
    assert available * channels == queue.length;
    MultipleIsWhole(toKeep, channels);
    FramesOrdered(available, toKeep, channels);
    FramesOrdered(toKeep, available, channels);
    if available > toKeep {
      var _ := queue.Pop(null, (available - toKeep) * channels);
    }
  }
}
