/** The ring buffer and its frame adapter as objects, for calls that do not overlap; module
    RingProtocol takes the same index arithmetic through every interleaving. */
module RingBuffers {
  import opened Arith
  import opened Copying
  import opened RingIndex

  class RingBuffer<T> {
    const data: array<T>
    const blank: T           // what a default-constructed element holds
    var writeIndex: nat
    var readIndex: nat

    ghost predicate Valid()
      reads this
    {
      Index(data.Length, readIndex) && Index(data.Length, writeIndex)
    }

    ghost function Contents(): seq<T>
      reads this, data
      requires Valid()
    {
      Window(data[..], readIndex, writeIndex)
    }

    function Capacity(): nat
      requires data.Length > 0
    {
      data.Length - 1
    }

    constructor (capacity: nat, blank: T)
      ensures Valid() && fresh(data) && Contents() == [] && Capacity() == capacity
      ensures this.blank == blank
    {
      this.data := new T[capacity + 1](_ => blank);
      this.blank := blank;
      this.writeIndex := 0;
      this.readIndex := 0;
    }

    /** What a call that offers `count` elements from `elements` offers. */
    ghost function Offered(elements: array?<T>, count: nat): seq<T>
      reads elements
      requires elements != null ==> count <= elements.Length
    {
      if elements == null then Repeat(blank, count) else elements[..count]
    }

    method Enqueue(elements: array?<T>, count: nat) returns (n: nat)
      requires Valid() && (elements != null ==> count <= elements.Length && elements != data)
      modifies this`writeIndex, data
      ensures Valid() && readIndex == old(readIndex)
      ensures n == Min(Capacity() - old(|Contents()|), count)
      ensures Contents() == old(Contents()) + Offered(elements, count)[..n]
    {
      var wrIdx, rdIdx := writeIndex, readIndex;
      FullIsExact(data.Length, rdIdx, wrIdx);
      if Full(data.Length, rdIdx, wrIdx) {
        return 0;
      }
      n := Min(AvailableWrite(data.Length, rdIdx, wrIdx), count);
      if elements != null {
        PutIn(wrIdx, elements, n);
      } else {
        PutBlanks(wrIdx, n);
      }
      ghost var src := Offered(elements, count)[..n];
      assert src == Offered(elements, n);
      PlaceIsBehind(old(data[..]), rdIdx, wrIdx, src);
      writeIndex := Increment(data.Length, wrIdx, n);
    }

    /** The two copies of enqueue: up to the end of the storage, then from its beginning. */
    method PutIn(at: nat, elements: array<T>, count: nat)
      requires Index(data.Length, at) && count <= data.Length
      requires count <= elements.Length && elements != data
      modifies data
      ensures data[..] == Place(old(data[..]), at, elements[..count])
    {
      var firstPart := Min(data.Length - at, count);
      var secondPart := count - firstPart;
      PlaceInParts(data[..], at, elements[..count]);
      assert elements[..count][..firstPart] == elements[0..0 + firstPart];
      assert elements[..count][firstPart..] == elements[firstPart..firstPart + secondPart];
      Copy(data, at, elements, 0, firstPart);
      Copy(data, 0, elements, firstPart, secondPart);
    }

    /** The same with default-constructed elements. */
    method PutBlanks(at: nat, count: nat)
      requires Index(data.Length, at) && count <= data.Length
      modifies data
      ensures data[..] == Place(old(data[..]), at, Repeat(blank, count))
    {
      var firstPart := Min(data.Length - at, count);
      var secondPart := count - firstPart;
      PlaceInParts(data[..], at, Repeat(blank, count));
      assert Repeat(blank, count)[..firstPart] == Repeat(blank, firstPart);
      assert Repeat(blank, count)[firstPart..] == Repeat(blank, secondPart);
      Fill(data, at, blank, firstPart);
      Fill(data, 0, blank, secondPart);
    }

    method Dequeue(elements: array?<T>, count: nat) returns (n: nat)
      requires Valid() && (elements != null ==> count <= elements.Length && elements != data)
      modifies this`readIndex, elements
      ensures Valid() && writeIndex == old(writeIndex)
      ensures n == Min(old(|Contents()|), count)
      ensures Contents() == old(Contents())[n..]
      ensures elements != null ==> elements[..] == old(Contents())[..n] + old(elements[n..])
    {
      var rdIdx, wrIdx := readIndex, writeIndex;
      if Empty(rdIdx, wrIdx) {
        return 0;
      }
      n := Min(AvailableRead(data.Length, rdIdx, wrIdx), count);
      if elements != null {
        TakeOut(rdIdx, elements, n);
        TakeIsFront(data[..], rdIdx, wrIdx, n);
      }
      WindowDequeue(data[..], rdIdx, wrIdx, n);
      readIndex := Increment(data.Length, rdIdx, n);
    }

    /** The two copies of dequeue. */
    method TakeOut(at: nat, elements: array<T>, count: nat)
      requires Index(data.Length, at) && count <= data.Length
      requires count <= elements.Length && elements != data
      modifies elements
      ensures elements[..] == Take(data[..], at, count) + old(elements[count..])
    {
      var firstPart := Min(data.Length - at, count);
      var secondPart := count - firstPart;
      TakeInParts(data[..], at, count, elements[..]);
      assert data[at..at + firstPart] == data[..][at..at + firstPart];
      assert data[0..0 + secondPart] == data[..][0..0 + secondPart];
      Copy(elements, 0, data, at, firstPart);
      Copy(elements, firstPart, data, 0, secondPart);
    }

    method AvailableToRead() returns (n: nat)
      requires Valid()
      ensures n == |Contents()|
    {
      n := AvailableRead(data.Length, readIndex, writeIndex);
    }

    method AvailableToWrite() returns (n: nat)
      requires Valid()
      ensures n == Capacity() - |Contents()|
    {
      n := AvailableWrite(data.Length, readIndex, writeIndex);
    }
  }

  /** The adapter that speaks in frames. Its invariant is what makes the division exact. */
  class AudioRingBuffer<T> {
    const channelCount: nat
    const ring: RingBuffer<T>

    ghost predicate Valid()
      reads this, ring
    {
      && channelCount > 0 && ring.Valid()
      && Whole(ring.Capacity(), channelCount)
      && Whole(AvailableRead(ring.data.Length, ring.readIndex, ring.writeIndex), channelCount)
    }

    ghost function Contents(): seq<T>
      reads this, ring, ring.data
      requires Valid()
    {
      ring.Contents()
    }

    function FramesToSamples(frames: nat): nat {
      frames * channelCount
    }

    function SamplesToFrames(samples: nat): nat
      requires channelCount > 0
    {
      samples / channelCount
    }

    function CapacityInFrames(): nat
      requires channelCount > 0 && ring.data.Length > 0
    {
      SamplesToFrames(ring.Capacity())
    }

    constructor (channelCount: nat, capacityInFrames: nat, blank: T)
      requires channelCount > 0
      ensures Valid() && fresh(ring) && fresh(ring.data) && Contents() == []
      ensures this.channelCount == channelCount && ring.blank == blank
      ensures CapacityInFrames() == capacityInFrames
    {
      var r := new RingBuffer<T>(capacityInFrames * channelCount, blank);
      this.channelCount := channelCount;
      this.ring := r;
      MultipleIsWhole(capacityInFrames, channelCount);
      MultipleIsWhole(0, channelCount);
      new;
      assert ring.Contents() == [];
    }

    /** Takes whole frames only: as many as there is room for. */
    method Enqueue(frames: array?<T>, frameCount: nat) returns (n: nat)
      requires Valid()
      requires frames != null ==> frameCount * channelCount <= frames.Length && frames != ring.data
      modifies ring`writeIndex, ring.data
      ensures Valid() && n * channelCount <= frameCount * channelCount
      ensures Contents() == old(Contents())
                            + ring.Offered(frames, frameCount * channelCount)[..n * channelCount]
      ensures n + old(|Contents()|) / channelCount
              == Min(CapacityInFrames(), frameCount + old(|Contents()|) / channelCount)
    {
      ghost var used := |Contents()|;
      var written := ring.Enqueue(frames, FramesToSamples(frameCount));
      WholeArithmetic(ring.Capacity(), used, channelCount);
      MultipleIsWhole(frameCount, channelCount);
      WholeArithmetic(used, written, channelCount);
      WholeMin(ring.Capacity() - used, frameCount * channelCount, channelCount);
      WholeQuotients(ring.Capacity(), used, channelCount);
      n := SamplesToFrames(written);
    }

    method Dequeue(frames: array?<T>, frameCount: nat) returns (n: nat)
      requires Valid()
      requires frames != null ==> frameCount * channelCount <= frames.Length && frames != ring.data
      modifies ring`readIndex, frames
      ensures Valid()
      ensures n == Min(old(|Contents()|) / channelCount, frameCount)
      ensures n * channelCount <= old(|Contents()|)
      ensures Contents() == old(Contents())[n * channelCount..]
      ensures frames != null ==>
                n * channelCount <= frames.Length &&
                frames[..] == old(Contents())[..n * channelCount] + old(frames[n * channelCount..])
    {
      ghost var used := |Contents()|;
      var read := ring.Dequeue(frames, FramesToSamples(frameCount));
      MultipleIsWhole(frameCount, channelCount);
      WholeArithmetic(used, read, channelCount);
      WholeMin(used, frameCount * channelCount, channelCount);
      n := SamplesToFrames(read);
    }
  }

  /** The smaller of two whole-frame sample counts is the smaller of their frame counts. */
  lemma WholeMin(a: nat, b: nat, channels: nat)
    requires channels > 0 && Whole(a, channels) && Whole(b, channels)
    ensures Min(a, b) / channels == Min(a / channels, b / channels)
    ensures Min(a, b) / channels * channels == Min(a, b)
  {
    var x, y := a / channels, b / channels;
    assert a == channels * x && b == channels * y;
    if x < y {
      MulAtLeast(channels, y - x);
      assert channels * (y - x) == b - a;
    } else if y < x {
      MulAtLeast(channels, x - y);
      assert channels * (x - y) == a - b;
    }
  }

  lemma WholeQuotients(a: nat, b: nat, channels: nat)
    requires channels > 0 && b <= a && Whole(a, channels) && Whole(b, channels)
    ensures (a - b) / channels == a / channels - b / channels
  {
    var x, y := a / channels, b / channels;
    assert a == channels * x && b == channels * y;
    DivModUnique(a - b, channels, x - y, 0);
  }
}
