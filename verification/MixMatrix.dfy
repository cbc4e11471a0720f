/** Building the mixing matrix in place: the rules applied one after the other to the matrix of
    the named channels, then compaction to the channels that are there, then normalisation. */
module MixMatrix {
  import opened ChannelLayouts
  import opened MixCoefficients

  predicate Named(m: array2<real>) {
    m.Length0 == NUM_NAMED_CHANNELS && m.Length1 == NUM_NAMED_CHANNELS
  }

  method AddEntry(m: array2<real>, to: nat, from: nat, w: real)
    requires Named(m) && to < NUM_NAMED_CHANNELS && from < NUM_NAMED_CHANNELS
    modifies m
    ensures forall i, j | 0 <= i < NUM_NAMED_CHANNELS && 0 <= j < NUM_NAMED_CHANNELS ::
              m[i, j] == old(m[i, j]) + Single(i, j, to, from, w)
  {
    m[to, from] := m[to, from] + w;
  }

  method AddStraight(m: array2<real>, outLeft: nat, inLeft: nat, w: real)
    requires Named(m) && outLeft + 1 < NUM_NAMED_CHANNELS && inLeft + 1 < NUM_NAMED_CHANNELS
    modifies m
    ensures forall i, j | 0 <= i < NUM_NAMED_CHANNELS && 0 <= j < NUM_NAMED_CHANNELS ::
              m[i, j] == old(m[i, j]) + Straight(i, j, outLeft, inLeft, w)
  {
    m[outLeft, inLeft] := m[outLeft, inLeft] + w;
    m[outLeft + 1, inLeft + 1] := m[outLeft + 1, inLeft + 1] + w;
  }

  method AddSpread(m: array2<real>, outLeft: nat, from: nat, w: real)
    requires Named(m) && outLeft + 1 < NUM_NAMED_CHANNELS && from < NUM_NAMED_CHANNELS
    modifies m
    ensures forall i, j | 0 <= i < NUM_NAMED_CHANNELS && 0 <= j < NUM_NAMED_CHANNELS ::
              m[i, j] == old(m[i, j]) + Spread(i, j, outLeft, from, w)
  {
    m[outLeft, from] := m[outLeft, from] + w;
    m[outLeft + 1, from] := m[outLeft + 1, from] + w;
  }

  method AddGather(m: array2<real>, to: nat, inLeft: nat, w: real)
    requires Named(m) && to < NUM_NAMED_CHANNELS && inLeft + 1 < NUM_NAMED_CHANNELS
    modifies m
    ensures forall i, j | 0 <= i < NUM_NAMED_CHANNELS && 0 <= j < NUM_NAMED_CHANNELS ::
              m[i, j] == old(m[i, j]) + Gather(i, j, to, inLeft, w)
  {
    m[to, inLeft] := m[to, inLeft] + w;
    m[to, inLeft + 1] := m[to, inLeft + 1] + w;
  }

  method MixFront(m: array2<real>, inL: Layout, outL: Layout)
    requires Named(m)
    requires forall i, j | 0 <= i < NUM_NAMED_CHANNELS && 0 <= j < NUM_NAMED_CHANNELS ::
               m[i, j] == Diagonal(inL, outL, i, j)
    modifies m
    ensures forall i, j | 0 <= i < NUM_NAMED_CHANNELS && 0 <= j < NUM_NAMED_CHANNELS ::
              m[i, j] == Front(inL, outL, i, j)
  {
    if Unaccounted(inL, outL, FRONT_CENTER) {
      if outL[FRONT_LEFT] && outL[FRONT_RIGHT] {
        if inL[FRONT_LEFT] || inL[FRONT_RIGHT] {
          AddSpread(m, FRONT_LEFT, FRONT_CENTER, CENTER_MIX_LEVEL);
        } else {
          AddSpread(m, FRONT_LEFT, FRONT_CENTER, M_SQRT1_2);
        }
      }
    }
    if Unaccounted(inL, outL, FRONT_LEFT) || Unaccounted(inL, outL, FRONT_RIGHT) {
      if outL[FRONT_CENTER] {
        AddGather(m, FRONT_CENTER, FRONT_LEFT, M_SQRT1_2);
        if inL[FRONT_CENTER] {
          m[FRONT_CENTER, FRONT_CENTER] := CENTER_MIX_LEVEL * M_SQRT2;
        }
      }
    }
  }

  method MixBack(m: array2<real>, inL: Layout, outL: Layout)
    requires Named(m)
    modifies m
    ensures forall i, j | 0 <= i < NUM_NAMED_CHANNELS && 0 <= j < NUM_NAMED_CHANNELS ::
              m[i, j] == old(m[i, j]) + BackCenterRule(inL, outL, i, j) + BackPairRule(inL, outL, i, j)
  {
    if Unaccounted(inL, outL, BACK_CENTER) {
      if outL[BACK_LEFT] {
        AddSpread(m, BACK_LEFT, BACK_CENTER, M_SQRT1_2);
      } else if outL[SIDE_LEFT] {
        AddSpread(m, SIDE_LEFT, BACK_CENTER, M_SQRT1_2);
      } else if outL[FRONT_LEFT] {
        AddSpread(m, FRONT_LEFT, BACK_CENTER, SURROUND_MIX_LEVEL * M_SQRT1_2);
      } else if outL[FRONT_CENTER] {
        AddEntry(m, FRONT_CENTER, BACK_CENTER, SURROUND_MIX_LEVEL * M_SQRT1_2);
      }
    }
    if Unaccounted(inL, outL, BACK_LEFT) {
      if outL[BACK_CENTER] {
        AddGather(m, BACK_CENTER, BACK_LEFT, M_SQRT1_2);
      } else if outL[SIDE_LEFT] {
        AddStraight(m, SIDE_LEFT, BACK_LEFT, if inL[SIDE_LEFT] then M_SQRT1_2 else 1.0);
      } else if outL[FRONT_LEFT] {
        AddStraight(m, FRONT_LEFT, BACK_LEFT, SURROUND_MIX_LEVEL);
      } else if outL[FRONT_CENTER] {
        AddGather(m, FRONT_CENTER, BACK_LEFT, SURROUND_MIX_LEVEL * M_SQRT1_2);
      }
    }
  }

  method MixSide(m: array2<real>, inL: Layout, outL: Layout)
    requires Named(m)
    modifies m
    ensures forall i, j | 0 <= i < NUM_NAMED_CHANNELS && 0 <= j < NUM_NAMED_CHANNELS ::
              m[i, j] == old(m[i, j]) + SidePairRule(inL, outL, i, j)
  {
    if Unaccounted(inL, outL, SIDE_LEFT) {
      if outL[BACK_LEFT] {
        AddStraight(m, BACK_LEFT, SIDE_LEFT, if inL[BACK_LEFT] then M_SQRT1_2 else 1.0);
      } else if outL[BACK_CENTER] {
        AddGather(m, BACK_CENTER, SIDE_LEFT, M_SQRT1_2);
      } else if outL[FRONT_LEFT] {
        AddStraight(m, FRONT_LEFT, SIDE_LEFT, SURROUND_MIX_LEVEL);
      } else if outL[FRONT_CENTER] {
        AddGather(m, FRONT_CENTER, SIDE_LEFT, SURROUND_MIX_LEVEL * M_SQRT1_2);
      }
    }
  }

  method MixOffCenterAndLfe(m: array2<real>, inL: Layout, outL: Layout)
    requires Named(m)
    modifies m
    ensures forall i, j | 0 <= i < NUM_NAMED_CHANNELS && 0 <= j < NUM_NAMED_CHANNELS ::
              m[i, j] == old(m[i, j]) + OffCenterRule(inL, outL, i, j) + LfeRule(inL, outL, i, j)
  {
    if Unaccounted(inL, outL, FRONT_LEFT_OF_CENTER) {
      if outL[FRONT_LEFT] {
        AddStraight(m, FRONT_LEFT, FRONT_LEFT_OF_CENTER, 1.0);
      } else if outL[FRONT_CENTER] {
        AddGather(m, FRONT_CENTER, FRONT_LEFT_OF_CENTER, M_SQRT1_2);
      }
    }
    if Unaccounted(inL, outL, LOW_FREQUENCY) {
      if outL[FRONT_CENTER] {
        AddEntry(m, FRONT_CENTER, LOW_FREQUENCY, LFE_MIX_LEVEL);
      } else if outL[FRONT_LEFT] {
        AddSpread(m, FRONT_LEFT, LOW_FREQUENCY, LFE_MIX_LEVEL * M_SQRT1_2);
      }
    }
  }

  /** The matrix holds the coefficient of every pair of named channels. */
  ghost predicate IsNamed(m: array2<real>, inL: Layout, outL: Layout)
    reads m
  {
    && Named(m)
    && forall i, j | 0 <= i < NUM_NAMED_CHANNELS && 0 <= j < NUM_NAMED_CHANNELS ::
         m[i, j] == Coefficient(inL, outL, i, j)
  }

  /** The matrix of the named channels, filled rule by rule. */
  method NamedMatrix(inL: Layout, outL: Layout) returns (m: array2<real>)
    ensures fresh(m) && IsNamed(m, inL, outL)
  {
    m := new real[NUM_NAMED_CHANNELS, NUM_NAMED_CHANNELS]((i, j) => 0.0);
    for k := 0 to NUM_NAMED_CHANNELS
      invariant forall i, j | 0 <= i < NUM_NAMED_CHANNELS && 0 <= j < NUM_NAMED_CHANNELS ::
                  m[i, j] == if i < k then Diagonal(inL, outL, i, j) else 0.0
    {
      if inL[k] && outL[k] {
        m[k, k] := 1.0;
      }
    }
    MixFront(m, inL, outL);
    MixBack(m, inL, outL);
    MixSide(m, inL, outL);
    MixOffCenterAndLfe(m, inL, outL);
  }

  // ----- Compaction and normalisation -----

  function Abs(x: real): real {
    if x < 0.0 then -x else x
  }

  /** The absolute sum of the first n entries. */
  function AbsSum(s: seq<real>, n: nat): (r: real)
    requires n <= |s|
    ensures r >= 0.0
  {
    if n == 0 then 0.0 else AbsSum(s, n - 1) + Abs(s[n - 1])
  }

  function Row<T>(m: array2<T>, r: nat): (s: seq<T>)
    requires r < m.Length0
    reads m
    ensures |s| == m.Length1 && forall c | 0 <= c < m.Length1 :: s[c] == m[r, c]
  {
    seq(m.Length1, c requires 0 <= c < m.Length1 reads m => m[r, c])
  }

  function RowSum(m: array2<real>, r: nat): real
    requires r < m.Length0
    reads m
  {
    AbsSum(Row(m, r), m.Length1)
  }

  lemma {:induction false} AbsSumAgree(s: seq<real>, t: seq<real>, n: nat)
    requires n <= |s| && n <= |t| && forall k | 0 <= k < n :: s[k] == t[k]
    ensures AbsSum(s, n) == AbsSum(t, n)
  {
    if n > 0 {
      AbsSumAgree(s, t, n - 1);
    }
  }

  lemma {:induction false} AbsSumOfPadded(s: seq<real>, n: nat, all: nat)
    requires n <= all <= |s| && forall c | n <= c < all :: s[c] == 0.0
    ensures AbsSum(s, all) == AbsSum(s, n)
    decreases all
  {
    if n < all {
      AbsSumOfPadded(s, n, all - 1);
    }
  }

  predicate Multiple(x: real, y: real, c: real) {
    x == y * c
  }

  lemma AbsScales(x: real, c: real)
    requires c > 0.0
    ensures Abs(x * c) == Abs(x) * c
  {
    if x < 0.0 {
      assert x * c < 0.0;
    } else {
      assert x * c >= 0.0;
    }
  }

  lemma SumsScale(a: real, b: real, x: real, y: real, c: real, a': real, b': real)
    requires Multiple(a, b, c) && Multiple(x, y, c) && c > 0.0
    requires a' == a + Abs(x) && b' == b + Abs(y)
    ensures Multiple(a', b', c)
  {
    AbsScales(y, c);
  }

  lemma {:induction false} AbsSumScales(s: seq<real>, t: seq<real>, c: real, n: nat)
    requires n <= |t| == |s| && c > 0.0 && forall k | 0 <= k < |s| :: Multiple(s[k], t[k], c)
    ensures Multiple(AbsSum(s, n), AbsSum(t, n), c)
  {
    if n > 0 {
      AbsSumScales(s, t, c, n - 1);
      SumsScale(AbsSum(s, n - 1), AbsSum(t, n - 1), s[n - 1], t[n - 1], c, AbsSum(s, n), AbsSum(t, n));
    }
  }

  predicate Full(m: array2<real>) {
    m.Length0 == CHANNELS_MAX && m.Length1 == CHANNELS_MAX
  }

  /** `row` starts with those of the weights `w` whose channel is one of the first n of the
      layout, in channel order. */
  predicate PackedTo(row: seq<real>, l: Layout, w: seq<real>, n: nat)
    requires |w| == 32 && n <= 32
  {
    forall j | 0 <= j < n && l[j] :: Rank(l, j) < |row| && row[Rank(l, j)] == w[j]
  }

  /** `row` holds the weights of the channels of the layout, packed, and zeros after them. */
  predicate Packed(row: seq<real>, l: Layout, w: seq<real>)
    requires |row| == 32 == |w|
  {
    PackedTo(row, l, w, 32) && forall c | ChannelCount(l) <= c < 32 :: row[c] == 0.0
  }

  lemma RowIsPacked(row: seq<real>, packed: seq<real>, l: Layout, w: seq<real>)
    requires |packed| == ChannelCount(l) && |row| == 32 == |w| && PackedTo(packed, l, w, 32)
    requires forall c | 0 <= c < |packed| :: row[c] == packed[c]
    requires forall c | |packed| <= c < 32 :: row[c] == 0.0
    ensures Packed(row, l, w) && AbsSum(row, 32) == AbsSum(packed, |packed|)
  {
    AbsSumOfPadded(row, |packed|, 32);
    AbsSumAgree(row, packed, |packed|);
  }

  lemma PackOne(packed: seq<real>, l: Layout, w: seq<real>, n: nat)
    requires n < 32 == |w| && |packed| == Rank(l, n) && PackedTo(packed, l, w, n)
    ensures !l[n] ==> PackedTo(packed, l, w, n + 1)
    ensures PackedTo(packed + [w[n]], l, w, n + 1)
    ensures AbsSum(packed + [w[n]], |packed| + 1) == AbsSum(packed, |packed|) + Abs(w[n])
  {
    AbsSumAgree(packed + [w[n]], packed, |packed|);
  }

  /** The weights of all input channels in output channel i. */
  function Weights(inL: Layout, outL: Layout, i: nat): (w: seq<real>)
    requires i < 32
    ensures |w| == 32 && forall j | 0 <= j < 32 :: w[j] == Coefficient(inL, outL, i, j)
  {
    seq(32, j requires 0 <= j < 32 => Coefficient(inL, outL, i, j))
  }

  predicate Blank(row: seq<real>) {
    forall c | 0 <= c < |row| :: row[c] == 0.0
  }

  predicate Small(w: seq<real>) {
    forall c | 0 <= c < |w| :: 0.0 <= w[c] <= 8.0
  }

  /** No weight is over 8, so no row of at most 32 sums to more than 256. */
  lemma CoefficientsAreSmall(inL: Layout, outL: Layout, i: nat, j: nat)
    requires i < 32 && j < 32
    ensures 0.0 <= Coefficient(inL, outL, i, j) <= 8.0
  {
    CoefficientsNonNegative(inL, outL, i, j);
  }

  lemma {:induction false} SmallSum(row: seq<real>, n: nat)
    requires n <= |row| && Small(row)
    ensures AbsSum(row, n) <= 8.0 * n as real
  {
    if n > 0 {
      SmallSum(row, n - 1);
    }
  }

  lemma WeightsAreSmall(inL: Layout, outL: Layout, i: nat)
    requires i < 32
    ensures Small(Weights(inL, outL, i))
  {
    forall j | 0 <= j < 32
      ensures 0.0 <= Coefficient(inL, outL, i, j) <= 8.0
    {
      CoefficientsAreSmall(inL, outL, i, j);
    }
  }

  method PackRow(named: array2<real>, m: array2<real>, r: nat, inL: Layout, outL: Layout, i: nat, ghost w: seq<real>)
    returns (sum: real)
    requires Full(m) && Named(named) && named != m && r < 32 && i < 32 == |w|
    requires forall j | 0 <= j < 32 ::
               w[j] == if i < NUM_NAMED_CHANNELS && j < NUM_NAMED_CHANNELS then named[i, j]
                       else if i == j && inL[i] && outL[i] then 1.0 else 0.0
    requires Small(w) && forall c | 0 <= c < 32 :: m[r, c] == 0.0
    modifies m
    ensures Packed(Row(m, r), inL, w) && sum == RowSum(m, r)
    ensures sum <= 256.0
    ensures forall a, c | 0 <= a < 32 && 0 <= c < 32 && a != r :: m[a, c] == old(m[a, c])
  {
    sum := 0.0;
    var inI := 0;
    ghost var packed: seq<real> := [];
    for j := 0 to CHANNELS_MAX
      invariant inI == Rank(inL, j) == |packed| && sum == AbsSum(packed, inI)
      invariant PackedTo(packed, inL, w, j) && Small(packed)
      invariant forall c | 0 <= c < inI :: m[r, c] == packed[c]
      invariant forall c | inI <= c < 32 :: m[r, c] == 0.0
      invariant forall a, c | 0 <= a < 32 && 0 <= c < 32 && a != r :: m[a, c] == old(m[a, c])
    {
      PackOne(packed, inL, w, j);
      if !inL[j] {
        continue;
      }
      if i < NUM_NAMED_CHANNELS && j < NUM_NAMED_CHANNELS {
        m[r, inI] := named[i, j];
      } else {
        m[r, inI] := if i == j && inL[i] && outL[i] then 1.0 else 0.0;
      }
      sum := sum + Abs(m[r, inI]);
      packed := packed + [w[j]];
      inI := inI + 1;
    }
    RowIsPacked(Row(m, r), packed, inL, w);
    SmallSum(packed, |packed|);
  }

  /** Row i of the channel matrix is row Rank(i) of the compact one; the rest is zero. */
  ghost predicate Compact(m: array2<real>, inL: Layout, outL: Layout)
    requires Full(m)
    reads m
  {
    && (forall i | 0 <= i < 32 && outL[i] ::
          Rank(outL, i) < 32 && Packed(Row(m, Rank(outL, i)), inL, Weights(inL, outL, i)))
    && (forall r | ChannelCount(outL) <= r < 32 :: Blank(Row(m, r)))
  }

  lemma BlankSum(row: seq<real>)
    requires Blank(row)
    ensures AbsSum(row, |row|) == 0.0
  {
    AbsSumOfPadded(row, 0, |row|);
  }

  /** All rows of a full matrix. */
  ghost function Rows(m: array2<real>): (rows: seq<seq<real>>)
    requires Full(m)
    reads m
    ensures |rows| == 32 && forall r | 0 <= r < 32 :: rows[r] == Row(m, r)
  {
    seq(32, r requires 0 <= r < 32 reads m => Row(m, r))
  }

  predicate Wide(rows: seq<seq<real>>) {
    |rows| == 32 && forall r | 0 <= r < 32 :: |rows[r]| == 32
  }

  /** The rows of the first i output channels are packed into the first n rows; the others are
      blank. */
  ghost predicate PackedSoFar(rows: seq<seq<real>>, inL: Layout, outL: Layout, i: nat, n: nat)
    requires Wide(rows) && i <= 32
  {
    && n == Rank(outL, i)
    && (forall k | 0 <= k < i && outL[k] ::
          Rank(outL, k) < n && Packed(rows[Rank(outL, k)], inL, Weights(inL, outL, k)))
    && (forall r | n <= r < 32 :: Blank(rows[r]))
  }

  /** The largest absolute sum of the first n rows is that of row top; zero if there are none. */
  ghost predicate LargestSum(rows: seq<seq<real>>, n: nat, maxcoef: real, top: nat)
    requires Wide(rows) && n <= 32
  {
    && 0.0 <= maxcoef <= 256.0 && (forall r | 0 <= r < n :: AbsSum(rows[r], 32) <= maxcoef)
    && if n == 0 then top == 0 && maxcoef == 0.0 else top < n && AbsSum(rows[top], 32) == maxcoef
  }

  lemma RowAdded(rows: seq<seq<real>>, row: seq<real>, inL: Layout, outL: Layout, i: nat, n: nat)
    requires Wide(rows) && |row| == 32 && i < 32 && n < 32 && outL[i] && PackedSoFar(rows, inL, outL, i, n)
    requires Packed(row, inL, Weights(inL, outL, i))
    ensures PackedSoFar(rows[n := row], inL, outL, i + 1, n + 1)
  {
  }

  lemma LargestAdded(rows: seq<seq<real>>, row: seq<real>, n: nat, maxcoef: real, top: nat)
    requires Wide(rows) && |row| == 32 && n < 32 && LargestSum(rows, n, maxcoef, top)
    requires 0.0 <= AbsSum(row, 32) <= 256.0
    ensures var sum := AbsSum(row, 32);
            if maxcoef < sum then LargestSum(rows[n := row], n + 1, sum, n)
            else LargestSum(rows[n := row], n + 1, maxcoef, top)
  {
  }

  /** The row of one output channel. */
  method PackChannel(named: array2<real>, m: array2<real>, r: nat, inL: Layout, outL: Layout, i: nat)
    returns (sum: real)
    requires Full(m) && IsNamed(named, inL, outL) && named != m && r < 32 && i < 32
    requires Blank(Row(m, r))
    modifies m
    ensures Packed(Row(m, r), inL, Weights(inL, outL, i)) && sum == RowSum(m, r) && 0.0 <= sum <= 256.0
    ensures forall a | 0 <= a < 32 && a != r :: Row(m, a) == old(Row(m, a))
  {
    assert forall c | 0 <= c < 32 :: m[r, c] == Row(m, r)[c];
    WeightsAreSmall(inL, outL, i);
    sum := PackRow(named, m, r, inL, outL, i, Weights(inL, outL, i));
  }

  method PackNext(named: array2<real>, m: array2<real>, r: nat, inL: Layout, outL: Layout, i: nat,
                  maxcoef: real, ghost top: nat)
    returns (newMax: real, ghost newTop: nat)
    requires Full(m) && IsNamed(named, inL, outL) && named != m && r < 32 && i < 32 && outL[i]
    requires PackedSoFar(Rows(m), inL, outL, i, r) && LargestSum(Rows(m), r, maxcoef, top)
    modifies m
    ensures PackedSoFar(Rows(m), inL, outL, i + 1, r + 1) && LargestSum(Rows(m), r + 1, newMax, newTop)
  {
    ghost var rows := Rows(m);
    var sum := PackChannel(named, m, r, inL, outL, i);
    RowAdded(rows, Row(m, r), inL, outL, i, r);
    LargestAdded(rows, Row(m, r), r, maxcoef, top);
    assert Rows(m) == rows[r := Row(m, r)];
    newMax, newTop := maxcoef, top;
    if maxcoef < sum {
      newMax, newTop := sum, r;
    }
  }

  method PackMatrix(named: array2<real>, m: array2<real>, inL: Layout, outL: Layout)
    returns (maxcoef: real, ghost top: nat)
    requires Full(m) && IsNamed(named, inL, outL) && named != m
    requires forall r | 0 <= r < 32 :: Blank(Row(m, r))
    modifies m
    ensures Compact(m, inL, outL) && 0.0 <= maxcoef <= 256.0
    ensures forall r | 0 <= r < 32 :: RowSum(m, r) <= maxcoef
    ensures top < 32 && RowSum(m, top) == maxcoef
  {
    maxcoef := 0.0;
    top := 0;
    var outI := 0;
    NoneIsPacked(m, inL, outL);
    for i := 0 to CHANNELS_MAX
      invariant outI <= i && PackedSoFar(Rows(m), inL, outL, i, outI) && LargestSum(Rows(m), outI, maxcoef, top)
    {
      if !outL[i] {
        continue;
      }
      maxcoef, top := PackNext(named, m, outI, inL, outL, i, maxcoef, top);
      outI := outI + 1;
    }
    AllIsPacked(m, inL, outL, outI, maxcoef, top);
  }

  lemma NoneIsPacked(m: array2<real>, inL: Layout, outL: Layout)
    requires Full(m) && forall r | 0 <= r < 32 :: Blank(Row(m, r))
    ensures PackedSoFar(Rows(m), inL, outL, 0, 0) && LargestSum(Rows(m), 0, 0.0, 0)
  {
  }

  lemma AllIsPacked(m: array2<real>, inL: Layout, outL: Layout, n: nat, maxcoef: real, top: nat)
    requires Full(m) && n <= 32 && PackedSoFar(Rows(m), inL, outL, 32, n) && LargestSum(Rows(m), n, maxcoef, top)
    ensures Compact(m, inL, outL) && top < 32 && RowSum(m, top) == maxcoef
    ensures forall r | 0 <= r < 32 :: RowSum(m, r) <= maxcoef
  {
    forall r | n <= r < 32
      ensures RowSum(m, r) == 0.0
    {
      BlankSum(Row(m, r));
    }
  }

  /** Divide the whole matrix by c. */
  method DivideAll(m: array2<real>, c: real)
    requires Full(m) && c > 0.0
    modifies m
    ensures forall i, j | 0 <= i < 32 && 0 <= j < 32 :: Multiple(old(m[i, j]), m[i, j], c)
  {
    for i := 0 to CHANNELS_MAX
      invariant forall a, j | 0 <= a < i && 0 <= j < 32 :: Multiple(old(m[a, j]), m[a, j], c)
      invariant forall a, j | i <= a < 32 && 0 <= j < 32 :: m[a, j] == old(m[a, j])
    {
      for j := 0 to CHANNELS_MAX
        invariant forall a, b | 0 <= a < i && 0 <= b < 32 :: Multiple(old(m[a, b]), m[a, b], c)
        invariant forall a, b | i < a < 32 && 0 <= b < 32 :: m[a, b] == old(m[a, b])
        invariant forall b | 0 <= b < j :: Multiple(old(m[i, b]), m[i, b], c)
        invariant forall b | j <= b < 32 :: m[i, b] == old(m[i, b])
      {
        m[i, j] := m[i, j] / c;
      }
    }
  }

  const INT_MAX: real := 2147483647.0

  function MaxVal(s16: bool): (v: real)
    ensures v > 0.0
  {
    if s16 then 1.0 else INT_MAX
  }

  /** The compact matrix with every weight divided by `scale`. */
  ghost predicate Normalised(m: array2<real>, inL: Layout, outL: Layout, scale: real)
    requires Full(m)
    reads m
  {
    && (forall i, j | 0 <= i < 32 && 0 <= j < 32 && outL[i] && inL[j] ::
          && Rank(outL, i) < 32 && Rank(inL, j) < 32
          && Multiple(Coefficient(inL, outL, i, j), m[Rank(outL, i), Rank(inL, j)], scale))
    && (forall r, c | 0 <= r < 32 && 0 <= c < 32 && (ChannelCount(outL) <= r || ChannelCount(inL) <= c) ::
          m[r, c] == 0.0)
  }

  lemma {:induction false} RankHit(l: Layout, n: nat, r: nat) returns (i: nat)
    requires n <= 32 && r < Rank(l, n)
    ensures i < n && l[i] && Rank(l, i) == r
  {
    if l[n - 1] && Rank(l, n - 1) == r {
      i := n - 1;
    } else {
      i := RankHit(l, n - 1, r);
    }
  }

  lemma CompactIsNormalised(m: array2<real>, inL: Layout, outL: Layout)
    requires Full(m) && Compact(m, inL, outL)
    ensures Normalised(m, inL, outL, 1.0)
  {
    forall i, j | 0 <= i < 32 && 0 <= j < 32 && outL[i] && inL[j]
      ensures Rank(outL, i) < 32 && Rank(inL, j) < 32
      ensures Multiple(Coefficient(inL, outL, i, j), m[Rank(outL, i), Rank(inL, j)], 1.0)
    {
      assert Row(m, Rank(outL, i))[Rank(inL, j)] == Coefficient(inL, outL, i, j);
    }
    forall r, c | 0 <= r < 32 && 0 <= c < 32 && (ChannelCount(outL) <= r || ChannelCount(inL) <= c)
      ensures m[r, c] == 0.0
    {
      if r < ChannelCount(outL) {
        var i := RankHit(outL, 32, r);
        assert Packed(Row(m, r), inL, Weights(inL, outL, i));
      }
      assert Row(m, r)[c] == 0.0;
    }
  }

  lemma ProductIsMonotone(a: real, b: real, c: real)
    requires c > 0.0 && a * c <= b * c
    ensures a <= b
  {
  }

  lemma MultipleBound(x: real, y: real, top: real, limit: real, c: real)
    requires c > 0.0 && Multiple(x, y, c) && Multiple(top, limit, c)
    ensures x <= top <==> y <= limit
    ensures x == top <==> y == limit
    ensures x == 0.0 <==> y == 0.0
  {
    if y < limit {
      assert y * c < limit * c;
    } else if limit < y {
      assert limit * c < y * c;
    }
    if y > 0.0 {
      assert y * c > 0.0;
    } else if y < 0.0 {
      assert y * c < 0.0;
    }
  }

  /** Scale the matrix down to absolute row sums of at most `maxval`, if one is over. */
  method Normalise(m: array2<real>, inL: Layout, outL: Layout, maxcoef: real, maxval: real, ghost top: nat)
    returns (ghost scale: real)
    requires Full(m) && Normalised(m, inL, outL, 1.0) && maxval > 0.0
    requires top < 32 && RowSum(m, top) == maxcoef && forall r | 0 <= r < 32 :: RowSum(m, r) <= maxcoef
    modifies m
    ensures scale >= 1.0 && Normalised(m, inL, outL, scale)
    ensures forall r | 0 <= r < 32 :: RowSum(m, r) <= maxval
    ensures scale > 1.0 ==> RowSum(m, top) == maxval
    ensures maxcoef <= maxval ==> scale == 1.0
  {
    scale := 1.0;
    if maxcoef > maxval {
      var divisor := maxcoef / maxval;
      ProductIsMonotone(1.0, divisor, maxval);
      DivideAll(m, divisor);
      scale := divisor;
      assert Multiple(maxcoef, maxval, scale);
      forall r | 0 <= r < 32
        ensures RowSum(m, r) <= maxval && (r == top ==> RowSum(m, r) == maxval)
      {
        AbsSumScales(old(Row(m, r)), Row(m, r), scale, 32);
        MultipleBound(old(RowSum(m, r)), RowSum(m, r), maxcoef, maxval, scale);
      }
    }
  }

  predicate Supported(inL: Layout, outL: Layout) {
    SaneLayout(CleanLayout(inL)) && SaneLayout(CleanLayout(outL))
  }

  /** Build the matrix from the two layouts: it fails exactly on unsupported ones. */
  method AutoMatrix(inLayout: Layout, outLayout: Layout, s16: bool, m: array2<real>)
    returns (ok: bool, ghost scale: real)
    requires Full(m) && forall r | 0 <= r < 32 :: Blank(Row(m, r))
    modifies m
    ensures ok <==> Supported(inLayout, outLayout)
    ensures ok ==> scale >= 1.0 && Normalised(m, CleanLayout(inLayout), CleanLayout(outLayout), scale)
    ensures ok ==> forall r | 0 <= r < 32 :: RowSum(m, r) <= MaxVal(s16)
    ensures ok && !s16 ==> scale == 1.0
    ensures ok && scale > 1.0 ==> exists r :: 0 <= r < 32 && RowSum(m, r) == MaxVal(s16)
    ensures !ok ==> forall r, c | 0 <= r < 32 && 0 <= c < 32 :: m[r, c] == old(m[r, c])
  {
    var inL, outL := CleanLayout(inLayout), CleanLayout(outLayout);
    scale := 1.0;
    if !SaneLayout(inL) {
      return false, scale;
    }
    if !SaneLayout(outL) {
      return false, scale;
    }
    var named := NamedMatrix(inL, outL);
    assert forall r | 0 <= r < 32 :: Row(m, r) == old(Row(m, r));
    var maxcoef, top := PackMatrix(named, m, inL, outL);
    CompactIsNormalised(m, inL, outL);
    scale := Normalise(m, inL, outL, maxcoef, MaxVal(s16), top);
    ok := true;
  }
}
