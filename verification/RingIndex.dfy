/** Index arithmetic of the single producer, single consumer ring buffer, and the sequence a
    pair of indices denotes. The storage holds one slot more than the ring's capacity. */
module RingIndex {
  import opened Arith
  import opened Copying

  predicate Index(cap: nat, i: nat) {
    i < cap
  }

  function AvailableRead(cap: nat, rd: nat, wr: nat): (n: nat)
    requires Index(cap, rd) && Index(cap, wr)
    ensures n < cap && (n == 0 <==> rd == wr)
  {
    if wr >= rd then wr - rd else wr + cap - rd
  }

  function AvailableWrite(cap: nat, rd: nat, wr: nat): (n: nat)
    requires Index(cap, rd) && Index(cap, wr)
    ensures n + AvailableRead(cap, rd, wr) == cap - 1
  {
    var rv := rd - wr - 1;
    if wr >= rd then rv + cap else rv
  }

  predicate Empty(rd: nat, wr: nat) {
    wr == rd
  }

  predicate Full(cap: nat, rd: nat, wr: nat)
    requires cap > 0
  {
    (wr + 1) % cap == rd
  }

  function Increment(cap: nat, i: nat, n: nat): (r: nat)
    requires Index(cap, i) && n <= cap
    ensures Index(cap, r)
    ensures r == if i + n < cap then i + n else i + n - cap
  {
    WrapOnce(cap, i + n);
    (i + n) % cap
  }

  lemma WrapOnce(cap: nat, x: nat)
    requires 0 < cap && x < 2 * cap
    ensures x % cap == if x < cap then x else x - cap
  {
    DivModUnique(x, cap, if x < cap then 0 else 1, if x < cap then x else x - cap);
  }

  /** The full test is exact: it holds if and only if no slot can be written. */
  lemma FullIsExact(cap: nat, rd: nat, wr: nat)
    requires Index(cap, rd) && Index(cap, wr)
    ensures Full(cap, rd, wr) <==> AvailableWrite(cap, rd, wr) == 0
  {
    WrapOnce(cap, wr + 1);
  }

  /** Position of the k-th of n elements copied in two parts from index `start` on. */
  function CopySlot(cap: nat, start: nat, n: nat, k: nat): (p: nat)
    requires Index(cap, start) && k < n <= cap
    ensures p == Increment(cap, start, k)
  {
    var first := if cap - start < n then cap - start else n;
    if k < first then start + k else k - first
  }

  /** The elements between two indices, oldest first. */
  function Window<T>(data: seq<T>, rd: nat, wr: nat): (q: seq<T>)
    requires Index(|data|, rd) && Index(|data|, wr)
    ensures |q| == AvailableRead(|data|, rd, wr)
    ensures forall k | 0 <= k < |q| :: q[k] == data[Increment(|data|, rd, k)]
  {
    seq(AvailableRead(|data|, rd, wr),
        k requires 0 <= k < AvailableRead(|data|, rd, wr) => data[Increment(|data|, rd, k)])
  }

  /** Publishing n slots behind the write index appends what they hold. */
  lemma WindowEnqueue<T>(data: seq<T>, rd: nat, wr: nat, src: seq<T>)
    requires Index(|data|, rd) && Index(|data|, wr)
    requires |src| <= AvailableWrite(|data|, rd, wr)
    requires forall k | 0 <= k < |src| :: data[Increment(|data|, wr, k)] == src[k]
    ensures Window(data, rd, Increment(|data|, wr, |src|)) == Window(data, rd, wr) + src
  {
    var old_ := Window(data, rd, wr);
    var new_ := Window(data, rd, Increment(|data|, wr, |src|));
    assert |new_| == |old_| + |src|;
    forall k | 0 <= k < |new_|
      ensures new_[k] == (old_ + src)[k]
    {
      if k >= |old_| {
        assert Increment(|data|, rd, k) == Increment(|data|, wr, k - |old_|);
      }
    }
  }

  /** Moving the read index past n elements removes the n oldest. */
  lemma WindowDequeue<T>(data: seq<T>, rd: nat, wr: nat, n: nat)
    requires Index(|data|, rd) && Index(|data|, wr)
    requires n <= AvailableRead(|data|, rd, wr)
    ensures Window(data, Increment(|data|, rd, n), wr) == Window(data, rd, wr)[n..]
  {
    var rd' := Increment(|data|, rd, n);
    assert AvailableRead(|data|, rd', wr) == AvailableRead(|data|, rd, wr) - n;
    forall k | 0 <= k < |Window(data, rd', wr)|
      ensures Window(data, rd', wr)[k] == Window(data, rd, wr)[n..][k]
    {
      assert Increment(|data|, rd', k) == Increment(|data|, rd, n + k);
    }
  }

  /** A writable slot is never one of the readable ones. */
  lemma SlotsDisjoint(cap: nat, rd: nat, wr: nat, k: nat, j: nat)
    requires Index(cap, rd) && Index(cap, wr)
    requires k < AvailableWrite(cap, rd, wr) && j < AvailableRead(cap, rd, wr)
    ensures Increment(cap, wr, k) != Increment(cap, rd, j)
  {
  }

  /** Writing one writable slot leaves the readable elements alone. */
  lemma WindowFrame<T>(data: seq<T>, rd: nat, wr: nat, k: nat, x: T)
    requires Index(|data|, rd) && Index(|data|, wr)
    requires k < AvailableWrite(|data|, rd, wr)
    ensures Window(data[Increment(|data|, wr, k) := x], rd, wr) == Window(data, rd, wr)
  {
    var d := data[Increment(|data|, wr, k) := x];
    forall j | 0 <= j < |Window(data, rd, wr)|
      ensures Window(d, rd, wr)[j] == Window(data, rd, wr)[j]
    {
      SlotsDisjoint(|data|, rd, wr, k, j);
    }
  }

  function Min(a: nat, b: nat): nat {
    if a < b then a else b
  }

  /** The storage after copying `src` in from index `at` on, in two parts. */
  function Place<T>(data: seq<T>, at: nat, src: seq<T>): (d: seq<T>)
    requires Index(|data|, at) && |src| <= |data|
    ensures |d| == |data|
  {
    var first := Min(|data| - at, |src|);
    src[first..] + data[|src| - first..at] + src[..first] + data[at + first..]
  }

  lemma PlaceInParts<T>(data: seq<T>, at: nat, src: seq<T>)
    requires Index(|data|, at) && |src| <= |data|
    ensures var first := Min(|data| - at, |src|);
            Place(data, at, src) == Splice(Splice(data, at, src[..first]), 0, src[first..])
  {
  }

  /** What copying `n` elements out from index `at` on yields, in two parts. */
  function Take<T>(data: seq<T>, at: nat, n: nat): (d: seq<T>)
    requires Index(|data|, at) && n <= |data|
    ensures |d| == n
  {
    var first := Min(|data| - at, n);
    data[at..at + first] + data[..n - first]
  }

  lemma TakeInParts<T>(data: seq<T>, at: nat, n: nat, into: seq<T>)
    requires Index(|data|, at) && n <= |data| && n <= |into|
    ensures var first := Min(|data| - at, n);
            Splice(Splice(into, 0, data[at..at + first]), first, data[0..0 + (n - first)])
            == Take(data, at, n) + into[n..]
  {
  }

  /** Copied in at the write index, the elements come behind the readable ones. */
  lemma PlaceIsBehind<T>(data: seq<T>, rd: nat, wr: nat, src: seq<T>)
    requires Index(|data|, rd) && Index(|data|, wr)
    requires |src| <= AvailableWrite(|data|, rd, wr)
    ensures Window(Place(data, wr, src), rd, Increment(|data|, wr, |src|)) == Window(data, rd, wr) + src
  {
    var d := Place(data, wr, src);
    forall k | 0 <= k < |src|
      ensures d[Increment(|data|, wr, k)] == src[k]
    {
    }
    WindowEnqueue(d, rd, wr, src);
    forall j | 0 <= j < AvailableRead(|data|, rd, wr)
      ensures d[Increment(|data|, rd, j)] == data[Increment(|data|, rd, j)]
    {
    }
    assert Window(d, rd, wr) == Window(data, rd, wr);
  }

  /** Copied out at the read index, they are the oldest elements in order. */
  lemma TakeIsFront<T>(data: seq<T>, rd: nat, wr: nat, n: nat)
    requires Index(|data|, rd) && Index(|data|, wr) && n <= AvailableRead(|data|, rd, wr)
    ensures Take(data, rd, n) == Window(data, rd, wr)[..n]
  {
  }
}
