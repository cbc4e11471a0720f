/** The growing array all resampler queues are made of. Its storage is `data`, of which the
    first `length` elements count. */
module AutoArrays {
  import opened Copying

  function Max(a: nat, b: nat): nat {
    if a < b then b else a
  }

  class AutoArray<T> {
    var data: array<T>
    var length: nat
    const zero: T

    ghost predicate Valid()
      reads this
    {
      length <= data.Length
    }

    ghost function Contents(): (s: seq<T>)
      reads this, data
      requires Valid()
      ensures |s| == length
    {
      data[..length]
    }

    constructor (capacity: nat, zero: T)
      ensures Valid() && fresh(data) && Contents() == [] && data.Length == capacity
      ensures this.zero == zero
    {
      this.data := new T[capacity](_ => zero);
      this.length := 0;
      this.zero := zero;
    }

    method Reserve(newCapacity: nat)
      requires Valid()
      modifies this`data
      ensures Valid() && (data == old(data) || fresh(data))
      ensures Contents() == old(Contents()) && data.Length == Max(old(data.Length), newCapacity)
    {
      if newCapacity <= data.Length {
        return;
      }
      var newData := new T[newCapacity](_ => zero);
      if data.Length != 0 && length != 0 {
        Copy(newData, 0, data, 0, length);
      }
      data := newData;
      assert data[..length] == old(data[..length]);
    }

    /** Room for `count` more elements, at least doubling the storage when it has to grow. */
    method Grow(count: nat)
      requires Valid()
      modifies this`data
      ensures Valid() && (data == old(data) || fresh(data))
      ensures Contents() == old(Contents()) && length + count <= data.Length
    {
      if length + count > data.Length {
        Reserve(Max(length + count, data.Length * 2));
      }
    }

    /** Appends elements[from..from + count]. */
    method Push(elements: array<T>, from: nat, count: nat)
      requires Valid() && from + count <= elements.Length && elements != data
      modifies this`data, this`length, data
      ensures Valid() && (data == old(data) || fresh(data))
      ensures Contents() == old(Contents()) + elements[from..from + count]
    {
      Grow(count);
      Copy(data, length, elements, from, count);
      length := length + count;
      assert data[..length] == data[..length - count] + data[length - count..length];
    }

    method PushSilence(count: nat)
      requires Valid()
      modifies this`data, this`length, data
      ensures Valid() && (data == old(data) || fresh(data))
      ensures Contents() == old(Contents()) + Repeat(zero, count)
    {
      Grow(count);
      Fill(data, length, zero, count);
      length := length + count;
      assert data[..length] == data[..length - count] + data[length - count..length];
    }

    /** Removes the `count` oldest elements, copying them out if asked; fails if there are
        fewer, and then changes nothing. */
    method Pop(elements: array?<T>, count: nat) returns (ok: bool)
      requires Valid()
      requires elements != null ==> count <= elements.Length && elements != data
      modifies this`length, data, elements
      ensures Valid() && (ok <==> count <= old(length))
      ensures ok ==> Contents() == old(Contents())[count..]
      ensures ok && elements != null ==> elements[..] == old(Contents())[..count] + old(elements[count..])
      ensures !ok ==> Contents() == old(Contents()) && (elements != null ==> elements[..] == old(elements[..]))
    {
      if count > length {
        return false;
      }
      if data.Length == 0 {
        assert count == 0;
        return true;
      }
      if elements != null {
        Copy(elements, 0, data, 0, count);
      }
      MoveDown(data, count, length - count);
      length := length - count;
      return true;
    }

    method SetLength(count: nat)
      requires Valid() && count <= data.Length
      modifies this`length
      ensures Valid() && length == count && Contents() == data[..count]
    {
      length := count;
    }
  }
}
