/** Element-wise copying between buffers: Copy/PodCopy, ConstructDefault/PodZero, PodMove. */
module Copying {

  /** `s` with the elements from `at` on overwritten by `t`. */
  function Splice<T>(s: seq<T>, at: nat, t: seq<T>): (r: seq<T>)
    requires at + |t| <= |s|
    ensures |r| == |s|
  {
    s[..at] + t + s[at + |t|..]
  }

  method Copy<T>(dst: array<T>, at: nat, src: array<T>, from: nat, count: nat)
    requires at + count <= dst.Length && from + count <= src.Length && dst != src
    modifies dst
    ensures dst[..] == Splice(old(dst[..]), at, src[from..from + count])
  {
    var i := 0;
    while i < count
      invariant i <= count
      invariant dst[..at] == old(dst[..at]) && dst[at + i..] == old(dst[at + i..])
      invariant dst[at..at + i] == src[from..from + i]
    {
      dst[at + i] := src[from + i];
      i := i + 1;
    }
    assert dst[..] == dst[..at] + dst[at..at + count] + dst[at + count..];
  }

  function Repeat<T>(x: T, n: nat): (s: seq<T>)
    ensures |s| == n && forall k | 0 <= k < n :: s[k] == x
  {
    seq(n, _ => x)
  }

  method Fill<T>(dst: array<T>, at: nat, x: T, count: nat)
    requires at + count <= dst.Length
    modifies dst
    ensures dst[..] == Splice(old(dst[..]), at, Repeat(x, count))
  {
    var i := 0;
    while i < count
      invariant i <= count
      invariant dst[..at] == old(dst[..at]) && dst[at + i..] == old(dst[at + i..])
      invariant dst[at..at + i] == Repeat(x, i)
    {
      dst[at + i] := x;
      i := i + 1;
    }
    assert dst[..] == dst[..at] + dst[at..at + count] + dst[at + count..];
  }

  /** Moves the tail of a buffer to its front; the regions may overlap. */
  method MoveDown<T>(data: array<T>, from: nat, count: nat)
    requires from + count <= data.Length
    modifies data
    ensures data[..count] == old(data[from..from + count])
    ensures data[count..] == old(data[count..])
  {
    var i := 0;
    while i < count
      invariant i <= count
      invariant data[..i] == old(data[from..from + i])
      invariant data[i..] == old(data[i..])
    {
      assert data[from + i] == data[i..][from] == old(data[i..])[from] == old(data[from + i]);
      data[i] := data[from + i];
      assert data[i + 1..] == data[i..][1..] && old(data[i + 1..]) == old(data[i..])[1..];
      i := i + 1;
    }
  }
}
