/** Channel layouts. A layout is taken as its 32 bits, one a channel; that the source's bit tricks
    on the layout word say the same is proved below. */
module ChannelLayouts {

  const CHANNELS_MAX: nat := 32
  const NUM_NAMED_CHANNELS: nat := 18

  const FRONT_LEFT: nat := 0
  const FRONT_RIGHT: nat := 1
  const FRONT_CENTER: nat := 2
  const LOW_FREQUENCY: nat := 3
  const BACK_LEFT: nat := 4
  const BACK_RIGHT: nat := 5
  const FRONT_LEFT_OF_CENTER: nat := 6
  const FRONT_RIGHT_OF_CENTER: nat := 7
  const BACK_CENTER: nat := 8
  const SIDE_LEFT: nat := 9
  const SIDE_RIGHT: nat := 10
  const TOP_CENTER: nat := 11

  type Layout = l: seq<bool> | |l| == 32 witness seq(32, _ => false)

  /** How many of the first n channels a layout has: the rank of channel n in it. */
  function Rank(l: Layout, n: nat): (r: nat)
    requires n <= 32
    ensures r <= n
  {
    if n == 0 then 0 else Rank(l, n - 1) + (if l[n - 1] then 1 else 0)
  }

  function ChannelCount(l: Layout): nat {
    Rank(l, 32)
  }

  lemma {:induction false} RankMonotone(l: Layout, i: nat, j: nat)
    requires i <= j <= 32
    ensures Rank(l, i) <= Rank(l, j)
    ensures i < j && l[i] ==> Rank(l, i) < Rank(l, j)
    decreases j - i
  {
    if i < j {
      RankMonotone(l, i, j - 1);
    }
  }

  /** Different channels of a layout have different ranks, in channel order. */
  lemma RankInjective(l: Layout, i: nat, j: nat)
    requires i < 32 && j < 32 && l[i] && l[j] && Rank(l, i) == Rank(l, j)
    ensures i == j
  {
    if i < j {
      RankMonotone(l, i, j);
    } else if j < i {
      RankMonotone(l, j, i);
    }
  }

  function Only(k: nat): Layout
    requires k < 32
  {
    seq(32, i => i == k)
  }

  lemma {:induction false} RankOfOnly(k: nat, n: nat)
    requires k < 32 && n <= 32
    ensures Rank(Only(k), n) == if n <= k then 0 else 1
  {
    if n > 0 {
      RankOfOnly(k, n - 1);
    }
  }

  /** A lone channel other than front left is treated as mono. */
  function CleanLayout(l: Layout): Layout {
    if ChannelCount(l) == 1 && !l[FRONT_LEFT] then Only(FRONT_CENTER) else l
  }

  lemma CleaningKeepsCount(l: Layout)
    ensures ChannelCount(CleanLayout(l)) == ChannelCount(l)
  {
    RankOfOnly(FRONT_CENTER, 32);
  }

  predicate EvenPair(l: Layout, left: nat, right: nat)
    requires left < 32 && right < 32
  {
    l[left] == l[right]
  }

  /** At least one front speaker, no lopsided pair, and not all channels at once. */
  predicate SaneLayout(l: Layout) {
    && (l[FRONT_LEFT] || l[FRONT_RIGHT] || l[FRONT_CENTER])
    && EvenPair(l, FRONT_LEFT, FRONT_RIGHT)
    && EvenPair(l, SIDE_LEFT, SIDE_RIGHT)
    && EvenPair(l, BACK_LEFT, BACK_RIGHT)
    && EvenPair(l, FRONT_LEFT_OF_CENTER, FRONT_RIGHT_OF_CENTER)
    && ChannelCount(l) < CHANNELS_MAX
  }

  lemma TwoChannelsCount(l: Layout, i: nat, j: nat)
    requires i < 32 && j < 32 && i != j && l[i] && l[j]
    ensures ChannelCount(l) >= 2
  {
    var a, b := if i < j then i else j, if i < j then j else i;
    RankMonotone(l, a, b);
    RankMonotone(l, b, 32);
  }

  lemma EmptyCount(l: Layout)
    ensures ChannelCount(l) == 0 <==> forall c | 0 <= c < 32 :: !l[c]
  {
    if forall c | 0 <= c < 32 :: !l[c] {
      NoneBelow(l, 32);
    } else {
      var c :| 0 <= c < 32 && l[c];
      RankMonotone(l, c, 32);
    }
  }

  lemma {:induction false} NoneBelow(l: Layout, n: nat)
    requires n <= 32 && forall c | 0 <= c < 32 :: !l[c]
    ensures Rank(l, n) == 0
  {
    if n > 0 {
      NoneBelow(l, n - 1);
    }
  }

  // ----- Layout words and the bit tricks on them -----

  /** The bit of a channel in a layout word. */
  function Mask(c: nat): bv32
    requires c < 32
  {
    match c
    case 0 => 0x1
    case 1 => 0x2
    case 2 => 0x4
    case 3 => 0x8
    case 4 => 0x10
    case 5 => 0x20
    case 6 => 0x40
    case 7 => 0x80
    case 8 => 0x100
    case 9 => 0x200
    case 10 => 0x400
    case 11 => 0x800
    case 12 => 0x1000
    case 13 => 0x2000
    case 14 => 0x4000
    case 15 => 0x8000
    case 16 => 0x10000
    case 17 => 0x20000
    case 18 => 0x40000
    case 19 => 0x80000
    case 20 => 0x100000
    case 21 => 0x200000
    case 22 => 0x400000
    case 23 => 0x800000
    case 24 => 0x1000000
    case 25 => 0x2000000
    case 26 => 0x4000000
    case 27 => 0x8000000
    case 28 => 0x10000000
    case 29 => 0x20000000
    case 30 => 0x40000000
    case _ => 0x80000000
  }

  function LayoutOf(x: bv32): (l: Layout)
    ensures forall c | 0 <= c < 32 :: l[c] <==> x & Mask(c) != 0
  {
    seq(32, c requires 0 <= c < 32 => x & Mask(c) != 0)
  }

  /** Clearing the lowest bit leaves nothing. */
  predicate IsBit(x: bv32) {
    x != 0 && x & (x - 1) == 0
  }

  predicate Even(x: bv32) {
    x == 0 || x & (x - 1) != 0
  }

  function LowestBit(x: bv32): bv32 {
    x & -x
  }

  lemma LowestIsBit(x: bv32)
    requires x != 0
    ensures IsBit(LowestBit(x))
  {
  }

  lemma LowestIsIn(x: bv32)
    requires x != 0
    ensures x & LowestBit(x) != 0
  {
  }

  lemma LowestIsGone(x: bv32)
    ensures (x & (x - 1)) & LowestBit(x) == 0
  {
  }

  lemma BitsMeet(m: bv32, n: bv32)
    requires IsBit(m) && IsBit(n) && m & n != 0
    ensures m == n
  {
  }

  lemma PartOf(x: bv32, y: bv32, m: bv32)
    requires (x & y) & m != 0
    ensures x & m != 0
  {
  }

  lemma MaskIsBit(c: nat)
    requires c < 32
    ensures IsBit(Mask(c))
  {
  }

  lemma MasksDiffer(c: nat, d: nat)
    requires c < d < 32
    ensures Mask(c) < Mask(d)
  {
  }

  lemma LowBits(x: bv32)
    requires IsBit(x) && x < 0x1_0000
    ensures x == 0x1 || x == 0x2 || x == 0x4 || x == 0x8 || x == 0x10 || x == 0x20 || x == 0x40 ||
            x == 0x80 || x == 0x100 || x == 0x200 || x == 0x400 || x == 0x800 || x == 0x1000 ||
            x == 0x2000 || x == 0x4000 || x == 0x8000
  {
  }

  lemma HighBits(x: bv32)
    requires IsBit(x) && x >= 0x1_0000
    ensures x == 0x10000 || x == 0x20000 || x == 0x40000 || x == 0x80000 || x == 0x100000 || x == 0x200000 ||
            x == 0x400000 || x == 0x800000 || x == 0x1000000 || x == 0x2000000 || x == 0x4000000 ||
            x == 0x8000000 || x == 0x10000000 || x == 0x20000000 || x == 0x40000000 || x == 0x80000000
  {
  }

  lemma LowBitIsMask(x: bv32) returns (c: nat)
    requires IsBit(x) && x < 0x1_0000
    ensures c < 32 && x == Mask(c)
  {
    LowBits(x);
    c := if x == 0x1 then 0 else if x == 0x2 then 1 else if x == 0x4 then 2 else if x == 0x8 then 3
         else if x == 0x10 then 4 else if x == 0x20 then 5 else if x == 0x40 then 6 else if x == 0x80 then 7
         else if x == 0x100 then 8 else if x == 0x200 then 9 else if x == 0x400 then 10
         else if x == 0x800 then 11 else if x == 0x1000 then 12 else if x == 0x2000 then 13
         else if x == 0x4000 then 14 else 15;
  }

  lemma HighBitIsMask(x: bv32) returns (c: nat)
    requires IsBit(x) && x >= 0x1_0000
    ensures c < 32 && x == Mask(c)
  {
    HighBits(x);
    c := if x == 0x10000 then 16 else if x == 0x20000 then 17 else if x == 0x40000 then 18
         else if x == 0x80000 then 19 else if x == 0x100000 then 20 else if x == 0x200000 then 21
         else if x == 0x400000 then 22 else if x == 0x800000 then 23 else if x == 0x1000000 then 24
         else if x == 0x2000000 then 25 else if x == 0x4000000 then 26 else if x == 0x8000000 then 27
         else if x == 0x10000000 then 28 else if x == 0x20000000 then 29 else if x == 0x40000000 then 30
         else 31;
  }

  lemma BitIsMask(y: bv32) returns (c: nat)
    requires IsBit(y)
    ensures c < 32 && y == Mask(c)
  {
    if y < 0x1_0000 {
      c := LowBitIsMask(y);
    } else {
      c := HighBitIsMask(y);
    }
  }

  lemma HasChannel(x: bv32, y: bv32, c: nat)
    requires c < 32 && y == Mask(c) && x & y != 0
    ensures LayoutOf(x)[c]
  {
  }

  /** A word that has some bit has the bit of some channel: its lowest. */
  lemma SomeChannel(x: bv32) returns (c: nat)
    requires x != 0
    ensures c < 32 && LowestBit(x) == Mask(c) && LayoutOf(x)[c]
  {
    LowestIsBit(x);
    c := BitIsMask(LowestBit(x));
    LowestIsIn(x);
    HasChannel(x, LowestBit(x), c);
  }

  lemma DifferentMasks(c: nat, d: nat)
    requires c < 32 && d < 32 && Mask(c) & Mask(d) != 0
    ensures c == d
  {
    MaskIsBit(c);
    MaskIsBit(d);
    BitsMeet(Mask(c), Mask(d));
    if c < d {
      MasksDiffer(c, d);
    } else if d < c {
      MasksDiffer(d, c);
    }
  }

  lemma OneBitOneChannel(x: bv32)
    requires IsBit(x)
    ensures ChannelCount(LayoutOf(x)) == 1
  {
    var c := BitIsMask(x);
    LayoutOfMask(c);
    RankOfOnly(c, 32);
  }

  lemma ManyBits(x: bv32)
    requires x & (x - 1) != 0
    ensures x != 0
  {
  }

  lemma InWhole(x: bv32, y: bv32, d: nat)
    requires d < 32 && LayoutOf(x & y)[d]
    ensures LayoutOf(x)[d]
  {
    PartOf(x, y, Mask(d));
  }

  lemma NotInRest(rest: bv32, low: bv32, c: nat, d: nat)
    requires c < 32 && d < 32 && low == Mask(c) && rest & low == 0 && LayoutOf(rest)[d]
    ensures c != d
  {
  }

  /** What is left without the lowest bit. */
  function Rest(x: bv32): bv32 {
    x & (x - 1)
  }

  lemma RestLacks(x: bv32, c: nat, d: nat)
    requires c < 32 && d < 32 && LowestBit(x) == Mask(c) && LayoutOf(Rest(x))[d]
    ensures c != d
  {
    LowestIsGone(x);
    NotInRest(Rest(x), LowestBit(x), c, d);
  }

  lemma RestIsPart(x: bv32, d: nat)
    requires d < 32 && LayoutOf(Rest(x))[d]
    ensures LayoutOf(x)[d]
  {
    InWhole(x, x - 1, d);
  }

  lemma MoreBitsMoreChannels(x: bv32)
    requires Rest(x) != 0
    ensures ChannelCount(LayoutOf(x)) >= 2
  {
    ManyBits(x);
    var c := SomeChannel(x);
    var d := SomeChannel(Rest(x));
    RestIsPart(x, d);
    RestLacks(x, c, d);
    TwoChannelsCount(LayoutOf(x), c, d);
  }

  /** The word has one bit exactly if the layout has one channel. */
  lemma IsBitIsOneChannel(x: bv32)
    ensures IsBit(x) <==> ChannelCount(LayoutOf(x)) == 1
  {
    if x == 0 {
      EmptyWord();
    } else if Rest(x) == 0 {
      OneBitOneChannel(x);
    } else {
      MoreBitsMoreChannels(x);
    }
  }

  lemma EmptyWord()
    ensures ChannelCount(LayoutOf(0)) == 0
  {
    EmptyCount(LayoutOf(0));
  }

  lemma UnderBit(x: bv32, m: bv32)
    requires IsBit(m)
    ensures x & m == 0 || x & m == m
  {
  }

  lemma UnderBoth(x: bv32, m: bv32, n: bv32)
    ensures x & (m | n) == (x & m) | (x & n)
  {
  }

  lemma TwoBits(m: bv32, n: bv32)
    requires IsBit(m) && IsBit(n) && m != n
    ensures Even(m | n) && !Even(m) && !Even(n)
  {
  }

  lemma EvenOfParts(p: bv32, q: bv32, m: bv32, n: bv32)
    requires p == 0 || p == m
    requires q == 0 || q == n
    requires m != 0 && n != 0 && Even(m | n) && !Even(m) && !Even(n)
    ensures Even(p | q) <==> (p != 0 <==> q != 0)
  {
  }

  lemma EvenIsPaired(x: bv32, left: bv32, right: bv32)
    requires IsBit(left) && IsBit(right) && left != right
    ensures Even(x & (left | right)) <==> (x & left != 0 <==> x & right != 0)
  {
    UnderBoth(x, left, right);
    UnderBit(x, left);
    UnderBit(x, right);
    TwoBits(left, right);
    EvenOfParts(x & left, x & right, left, right);
  }

  predicate EvenUnder(x: bv32, left: nat, right: nat)
    requires left < 32 && right < 32
  {
    Even(x & (Mask(left) | Mask(right)))
  }

  /** Under the mask of two channels `even` says that both are there or neither is. */
  lemma EvenIsEvenPair(x: bv32, left: nat, right: nat)
    requires left < right < 32
    ensures EvenUnder(x, left, right) <==> EvenPair(LayoutOf(x), left, right)
  {
    MaskIsBit(left);
    MaskIsBit(right);
    MasksDiffer(left, right);
    EvenIsPaired(x, Mask(left), Mask(right));
  }

  /** `clean_layout` on the word. */
  function CleanWord(x: bv32): bv32 {
    if x != 0 && x != Mask(FRONT_LEFT) && x & (x - 1) == 0 then Mask(FRONT_CENTER) else x
  }

  lemma LayoutOfMask(c: nat)
    requires c < 32
    ensures LayoutOf(Mask(c)) == Only(c)
  {
    forall j | 0 <= j < 32
      ensures LayoutOf(Mask(c))[j] == Only(c)[j]
    {
      MaskIsBit(c);
      SelfMeets(Mask(c));
      if LayoutOf(Mask(c))[j] {
        DifferentMasks(c, j);
      }
    }
  }

  lemma SelfMeets(m: bv32)
    ensures m & m == m
  {
  }

  lemma CleanWordIsCleanLayout(x: bv32)
    ensures LayoutOf(CleanWord(x)) == CleanLayout(LayoutOf(x))
  {
    IsBitIsOneChannel(x);
    LayoutOfMask(FRONT_CENTER);
    LayoutOfMask(FRONT_LEFT);
    if IsBit(x) && LayoutOf(x)[FRONT_LEFT] {
      MaskIsBit(FRONT_LEFT);
      BitsMeet(x, Mask(FRONT_LEFT));
    }
  }

  predicate AnyUnder(x: bv32, mask: bv32) {
    x & mask != 0
  }

  /** The source's layout of the three front channels. */
  const LAYOUT_3F: bv32 := 0x7

  lemma FrontMasks()
    ensures Mask(FRONT_LEFT) == 0x1 && Mask(FRONT_RIGHT) == 0x2 && Mask(FRONT_CENTER) == 0x4
    ensures Mask(FRONT_LEFT) | Mask(FRONT_RIGHT) | Mask(FRONT_CENTER) == LAYOUT_3F
  {
  }

  lemma FrontBits(x: bv32)
    ensures AnyUnder(x, LAYOUT_3F) <==> AnyUnder(x, 0x1) || AnyUnder(x, 0x2) || AnyUnder(x, 0x4)
  {
  }

  lemma AnyIsChannel(x: bv32, c: nat, m: bv32)
    requires c < 32 && m == Mask(c)
    ensures AnyUnder(x, m) <==> LayoutOf(x)[c]
  {
  }

  predicate HasFront(l: Layout) {
    l[FRONT_LEFT] || l[FRONT_RIGHT] || l[FRONT_CENTER]
  }

  /** The mask of the three front channels finds a bit exactly if one of them is there. */
  lemma AnyIsFrontChannel(x: bv32)
    ensures AnyUnder(x, LAYOUT_3F) <==> HasFront(LayoutOf(x))
  {
    FrontMasks();
    FrontBits(x);
    AnyIsChannel(x, FRONT_LEFT, 0x1);
    AnyIsChannel(x, FRONT_RIGHT, 0x2);
    AnyIsChannel(x, FRONT_CENTER, 0x4);
  }

  /** `sane_layout` on the word, whose bit count is the number of its channels. */
  predicate SaneWord(x: bv32) {
    && AnyUnder(x, LAYOUT_3F)
    && EvenUnder(x, FRONT_LEFT, FRONT_RIGHT)
    && EvenUnder(x, SIDE_LEFT, SIDE_RIGHT)
    && EvenUnder(x, BACK_LEFT, BACK_RIGHT)
    && EvenUnder(x, FRONT_LEFT_OF_CENTER, FRONT_RIGHT_OF_CENTER)
    && ChannelCount(LayoutOf(x)) < CHANNELS_MAX
  }

  lemma SaneWordIsSaneLayout(x: bv32)
    ensures SaneWord(x) <==> SaneLayout(LayoutOf(x))
  {
    AnyIsFrontChannel(x);
    EvenIsEvenPair(x, FRONT_LEFT, FRONT_RIGHT);
    EvenIsEvenPair(x, SIDE_LEFT, SIDE_RIGHT);
    EvenIsEvenPair(x, BACK_LEFT, BACK_RIGHT);
    EvenIsEvenPair(x, FRONT_LEFT_OF_CENTER, FRONT_RIGHT_OF_CENTER);
  }
}
