/** The wait-free triple buffer: packing of the shared byte, and the object with its own indices.
    Module TripleProtocol takes it through every interleaving of producer and consumer. */
module TripleBuffers {

  const BACK_INDEX_MASK: bv8 := 3
  const BACK_DIRTY_BIT: bv8 := 4

  predicate Slot(i: bv8) {
    i < 3
  }

  predicate Dirty(shared: bv8) {
    shared & BACK_DIRTY_BIT != 0
  }

  function BackIndex(shared: bv8): bv8 {
    shared & BACK_INDEX_MASK
  }

  /** Packing loses nothing: the byte a publication stores gives back its index and its mark. */
  lemma PackingIsExact(i: bv8)
    requires Slot(i)
    ensures BackIndex(i | BACK_DIRTY_BIT) == i && Dirty(i | BACK_DIRTY_BIT)
    ensures BackIndex(i) == i && !Dirty(i)
  {
  }

  /** The three indices name three different slots. */
  predicate Permutation(input: bv8, output: bv8, back: bv8) {
    Slot(input) && Slot(output) && Slot(back) && input != output && output != back && back != input
  }

  class TripleBuffer<T> {
    var storage: array<T>
    var sharedState: bv8
    var outputIdx: bv8
    var inputIdx: bv8

    ghost predicate Valid()
      reads this
    {
      && storage.Length == 3
      && Permutation(inputIdx, outputIdx, BackIndex(sharedState))
      && (sharedState == BackIndex(sharedState) || sharedState == BackIndex(sharedState) | BACK_DIRTY_BIT)
    }

    /** The value published last and not taken yet, if any. */
    ghost function Fresh(): seq<T>
      reads this, storage
      requires Valid()
    {
      if Dirty(sharedState) then [storage[BackIndex(sharedState) as int]] else []
    }

    /** The value `read` hands out when nothing new is there. */
    ghost function Current(): T
      reads this, storage
      requires Valid()
    {
      storage[outputIdx as int]
    }

    constructor (initial: T)
      ensures Valid() && fresh(storage) && Fresh() == [] && Current() == initial
    {
      storage := new T[3](_ => initial);
      sharedState := 0;
      outputIdx := 1;
      inputIdx := 2;
    }

    method Invalidate()
      requires storage.Length == 3
      modifies this`sharedState, this`inputIdx, this`outputIdx
      ensures Valid() && Fresh() == []
    {
      sharedState := 0;
      inputIdx := 1;
      outputIdx := 2;
    }

    method Write(input: T) returns (overwritten: bool)
      requires Valid()
      modifies this`sharedState, this`inputIdx, storage
      ensures Valid() && Fresh() == [input] && Current() == old(Current())
      ensures overwritten <==> old(Fresh()) != []
    {
      storage[inputIdx as int] := input;
      overwritten := Publish();
    }

    method Publish() returns (overwritten: bool)
      requires Valid()
      modifies this`sharedState, this`inputIdx
      ensures Valid() && Fresh() == [old(storage[inputIdx as int])] && Current() == old(Current())
      ensures overwritten <==> old(Fresh()) != []
    {
      PackingIsExact(inputIdx);
      PackingIsExact(BackIndex(sharedState));
      var former := sharedState;
      sharedState := inputIdx | BACK_DIRTY_BIT;
      inputIdx := BackIndex(former);
      overwritten := Dirty(former);
    }

    method Read() returns (value: T)
      requires Valid()
      modifies this`sharedState, this`outputIdx
      ensures Valid() && Fresh() == [] && Current() == value
      ensures value == if old(Fresh()) != [] then old(Fresh())[0] else old(Current())
    {
      var wasUpdated := Update();
      value := storage[outputIdx as int];
    }

    method Update() returns (wasUpdated: bool)
      requires Valid()
      modifies this`sharedState, this`outputIdx
      ensures Valid() && Fresh() == []
      ensures wasUpdated <==> old(Fresh()) != []
      ensures Current() == if wasUpdated then old(Fresh())[0] else old(Current())
    {
      wasUpdated := Dirty(sharedState);
      PackingIsExact(outputIdx);
      PackingIsExact(BackIndex(sharedState));
      if wasUpdated {
        var former := sharedState;
        sharedState := outputIdx;
        outputIdx := BackIndex(former);
      }
    }
  }
}
