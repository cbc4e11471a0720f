/** The mixing coefficients of the named channels, one rule of the source at a time: what a
    rule adds to the weight of input channel j in output channel i. Coefficients are reals. */
module MixCoefficients {
  import opened ChannelLayouts

  const M_SQRT1_2: real := 0.70710678118654752440
  const M_SQRT2: real := 1.41421356237309504880
  const CENTER_MIX_LEVEL: real := 0.707106769084930419921875    // M_SQRT1_2 as a float
  const SURROUND_MIX_LEVEL: real := 0.707106769084930419921875
  const LFE_MIX_LEVEL: real := 1.0

  predicate Unaccounted(inL: Layout, outL: Layout, c: nat)
    requires c < 32
  {
    inL[c] && !outL[c]
  }

  /** Two left/right entries side by side: weight w for left into left and right into right. */
  function Straight(i: nat, j: nat, outLeft: nat, inLeft: nat, w: real): real {
    if (i == outLeft && j == inLeft) || (i == outLeft + 1 && j == inLeft + 1) then w else 0.0
  }

  /** One channel into a pair. */
  function Spread(i: nat, j: nat, outLeft: nat, from: nat, w: real): real {
    if (i == outLeft || i == outLeft + 1) && j == from then w else 0.0
  }

  /** A pair into one channel. */
  function Gather(i: nat, j: nat, to: nat, inLeft: nat, w: real): real {
    if i == to && (j == inLeft || j == inLeft + 1) then w else 0.0
  }

  function Single(i: nat, j: nat, to: nat, from: nat, w: real): real {
    if i == to && j == from then w else 0.0
  }

  function Diagonal(inL: Layout, outL: Layout, i: nat, j: nat): real
    requires i < 32 && j < 32
  {
    if i == j && inL[i] && outL[i] then 1.0 else 0.0
  }

  function CenterToFront(inL: Layout, outL: Layout, i: nat, j: nat): real {
    if Unaccounted(inL, outL, FRONT_CENTER) && outL[FRONT_LEFT] && outL[FRONT_RIGHT] then
      Spread(i, j, FRONT_LEFT, FRONT_CENTER,
             if inL[FRONT_LEFT] || inL[FRONT_RIGHT] then CENTER_MIX_LEVEL else M_SQRT1_2)
    else 0.0
  }

  predicate FoldsStereo(inL: Layout, outL: Layout) {
    && (Unaccounted(inL, outL, FRONT_LEFT) || Unaccounted(inL, outL, FRONT_RIGHT))
    && outL[FRONT_CENTER]
  }

  function StereoToCenter(inL: Layout, outL: Layout, i: nat, j: nat): real {
    if FoldsStereo(inL, outL) then Gather(i, j, FRONT_CENTER, FRONT_LEFT, M_SQRT1_2) else 0.0
  }

  function BackCenterRule(inL: Layout, outL: Layout, i: nat, j: nat): real {
    if !Unaccounted(inL, outL, BACK_CENTER) then 0.0
    else if outL[BACK_LEFT] then Spread(i, j, BACK_LEFT, BACK_CENTER, M_SQRT1_2)
    else if outL[SIDE_LEFT] then Spread(i, j, SIDE_LEFT, BACK_CENTER, M_SQRT1_2)
    else if outL[FRONT_LEFT] then Spread(i, j, FRONT_LEFT, BACK_CENTER, SURROUND_MIX_LEVEL * M_SQRT1_2)
    else if outL[FRONT_CENTER] then Single(i, j, FRONT_CENTER, BACK_CENTER, SURROUND_MIX_LEVEL * M_SQRT1_2)
    else 0.0
  }

  function BackPairRule(inL: Layout, outL: Layout, i: nat, j: nat): real {
    if !Unaccounted(inL, outL, BACK_LEFT) then 0.0
    else if outL[BACK_CENTER] then Gather(i, j, BACK_CENTER, BACK_LEFT, M_SQRT1_2)
    else if outL[SIDE_LEFT] then
      Straight(i, j, SIDE_LEFT, BACK_LEFT, if inL[SIDE_LEFT] then M_SQRT1_2 else 1.0)
    else if outL[FRONT_LEFT] then Straight(i, j, FRONT_LEFT, BACK_LEFT, SURROUND_MIX_LEVEL)
    else if outL[FRONT_CENTER] then Gather(i, j, FRONT_CENTER, BACK_LEFT, SURROUND_MIX_LEVEL * M_SQRT1_2)
    else 0.0
  }

  function SidePairRule(inL: Layout, outL: Layout, i: nat, j: nat): real {
    if !Unaccounted(inL, outL, SIDE_LEFT) then 0.0
    else if outL[BACK_LEFT] then
      Straight(i, j, BACK_LEFT, SIDE_LEFT, if inL[BACK_LEFT] then M_SQRT1_2 else 1.0)
    else if outL[BACK_CENTER] then Gather(i, j, BACK_CENTER, SIDE_LEFT, M_SQRT1_2)
    else if outL[FRONT_LEFT] then Straight(i, j, FRONT_LEFT, SIDE_LEFT, SURROUND_MIX_LEVEL)
    else if outL[FRONT_CENTER] then Gather(i, j, FRONT_CENTER, SIDE_LEFT, SURROUND_MIX_LEVEL * M_SQRT1_2)
    else 0.0
  }

  function OffCenterRule(inL: Layout, outL: Layout, i: nat, j: nat): real {
    if !Unaccounted(inL, outL, FRONT_LEFT_OF_CENTER) then 0.0
    else if outL[FRONT_LEFT] then Straight(i, j, FRONT_LEFT, FRONT_LEFT_OF_CENTER, 1.0)
    else if outL[FRONT_CENTER] then Gather(i, j, FRONT_CENTER, FRONT_LEFT_OF_CENTER, M_SQRT1_2)
    else 0.0
  }

  function LfeRule(inL: Layout, outL: Layout, i: nat, j: nat): real {
    if !Unaccounted(inL, outL, LOW_FREQUENCY) then 0.0
    else if outL[FRONT_CENTER] then Single(i, j, FRONT_CENTER, LOW_FREQUENCY, LFE_MIX_LEVEL)
    else if outL[FRONT_LEFT] then Spread(i, j, FRONT_LEFT, LOW_FREQUENCY, LFE_MIX_LEVEL * M_SQRT1_2)
    else 0.0
  }

  /** Where stereo folds into a center that the input has too, the center's own weight is set
      anew; everything else adds up. */
  function Front(inL: Layout, outL: Layout, i: nat, j: nat): real
    requires i < 32 && j < 32
  {
    if FoldsStereo(inL, outL) && inL[FRONT_CENTER] && i == FRONT_CENTER && j == FRONT_CENTER then
      CENTER_MIX_LEVEL * M_SQRT2
    else
      Diagonal(inL, outL, i, j) + CenterToFront(inL, outL, i, j) + StereoToCenter(inL, outL, i, j)
  }

  /** The weight of input channel j in output channel i. */
  function Coefficient(inL: Layout, outL: Layout, i: nat, j: nat): real
    requires i < 32 && j < 32
  {
    if i < NUM_NAMED_CHANNELS && j < NUM_NAMED_CHANNELS then
      Front(inL, outL, i, j) + BackCenterRule(inL, outL, i, j) + BackPairRule(inL, outL, i, j)
      + SidePairRule(inL, outL, i, j) + OffCenterRule(inL, outL, i, j) + LfeRule(inL, outL, i, j)
    else Diagonal(inL, outL, i, j)
  }

  lemma CoefficientsNonNegative(inL: Layout, outL: Layout, i: nat, j: nat)
    requires i < 32 && j < 32
    ensures Coefficient(inL, outL, i, j) >= 0.0
  {
  }

  // ----- Mirror symmetry -----

  /** The channel on the other side; the non-top channels only. */
  function Mirror(c: nat): (m: nat)
    requires c < TOP_CENTER
    ensures m < TOP_CENTER
  {
    match c
    case 0 => 1
    case 1 => 0
    case 4 => 5
    case 5 => 4
    case 6 => 7
    case 7 => 6
    case 9 => 10
    case 10 => 9
    case _ => c
  }

  predicate Symmetric(l: Layout) {
    && EvenPair(l, FRONT_LEFT, FRONT_RIGHT) && EvenPair(l, SIDE_LEFT, SIDE_RIGHT)
    && EvenPair(l, BACK_LEFT, BACK_RIGHT)
    && EvenPair(l, FRONT_LEFT_OF_CENTER, FRONT_RIGHT_OF_CENTER)
  }

  lemma FrontMirrors(inL: Layout, outL: Layout, i: nat, j: nat)
    requires Symmetric(inL) && Symmetric(outL) && i < TOP_CENTER && j < TOP_CENTER
    ensures Front(inL, outL, Mirror(i), Mirror(j)) == Front(inL, outL, i, j)
  {
  }

  lemma BackMirrors(inL: Layout, outL: Layout, i: nat, j: nat)
    requires i < TOP_CENTER && j < TOP_CENTER
    ensures BackCenterRule(inL, outL, Mirror(i), Mirror(j)) == BackCenterRule(inL, outL, i, j)
    ensures BackPairRule(inL, outL, Mirror(i), Mirror(j)) == BackPairRule(inL, outL, i, j)
  {
  }

  lemma OtherRulesMirror(inL: Layout, outL: Layout, i: nat, j: nat)
    requires i < TOP_CENTER && j < TOP_CENTER
    ensures SidePairRule(inL, outL, Mirror(i), Mirror(j)) == SidePairRule(inL, outL, i, j)
    ensures OffCenterRule(inL, outL, Mirror(i), Mirror(j)) == OffCenterRule(inL, outL, i, j)
    ensures LfeRule(inL, outL, Mirror(i), Mirror(j)) == LfeRule(inL, outL, i, j)
  {
  }

  /** For every pair of sane layouts, swapping left and right changes no weight. */
  lemma MatrixMirrors(inL: Layout, outL: Layout, i: nat, j: nat)
    requires SaneLayout(inL) && SaneLayout(outL) && i < TOP_CENTER && j < TOP_CENTER
    ensures Coefficient(inL, outL, Mirror(i), Mirror(j)) == Coefficient(inL, outL, i, j)
  {
    FrontMirrors(inL, outL, i, j);
    BackMirrors(inL, outL, i, j);
    OtherRulesMirror(inL, outL, i, j);
  }

  // ----- Where each channel goes, and how loud -----

  // Channels 0, 4, 6 and 9 are on the left, 1, 5, 7 and 10 on the right; 2 is the front center,
  // 3 the low frequencies, 8 the back center.

  predicate OnLeft(c: nat) {
    c == 0 || c == 4 || c == 6 || c == 9
  }

  predicate OnRight(c: nat) {
    c == 1 || c == 5 || c == 7 || c == 10
  }

  predicate Central(c: nat) {
    c == 2 || c == 3 || c == 8
  }

  predicate Surround(c: nat) {
    c == 4 || c == 5 || c == 8 || c == 9 || c == 10
  }

  /** Where channel j is to be heard if the output does not have it, best first. */
  function Route(j: nat): (r: seq<nat>)
    ensures forall k | 0 <= k < |r| :: r[k] < TOP_CENTER
  {
    match j
    case 0 => [2]
    case 1 => [2]
    case 2 => [0]
    case 3 => [2, 0]
    case 4 => [8, 9, 0, 2]
    case 5 => [8, 10, 1, 2]
    case 6 => [0, 2]
    case 7 => [1, 2]
    case 8 => [4, 9, 0, 2]
    case 9 => [4, 8, 0, 2]
    case 10 => [5, 8, 1, 2]
    case _ => []
  }

  /** The first channel of the route that the layout has; 32 if there is none. */
  function FirstThere(l: Layout, route: seq<nat>): (d: nat)
    requires forall k | 0 <= k < |route| :: route[k] < TOP_CENTER
    ensures d < TOP_CENTER || d == 32
  {
    if route == [] then 32 else if l[route[0]] then route[0] else FirstThere(l, route[1..])
  }

  lemma FirstOfFour(l: Layout, a: nat, b: nat, c: nat, d: nat)
    requires a < TOP_CENTER && b < TOP_CENTER && c < TOP_CENTER && d < TOP_CENTER
    ensures FirstThere(l, [a, b, c, d]) == if l[a] then a else FirstThere(l, [b, c, d])
    ensures FirstThere(l, [b, c, d]) == if l[b] then b else FirstThere(l, [c, d])
    ensures FirstThere(l, [c, d]) == if l[c] then c else FirstThere(l, [d])
    ensures FirstThere(l, [d]) == if l[d] then d else 32
  {
    assert [a, b, c, d][1..] == [b, c, d] && [b, c, d][1..] == [c, d] && [c, d][1..] == [d] && [d][1..] == [];
  }

  lemma Destinations(l: Layout, j: nat)
    requires j < TOP_CENTER
    ensures var r := Route(j);
            FirstThere(l, r) == if l[r[0]] then r[0]
                                else if |r| > 1 && l[r[1]] then r[1]
                                else if |r| > 2 && l[r[2]] then r[2]
                                else if |r| > 3 && l[r[3]] then r[3]
                                else 32
  {
    var r := Route(j);
    if |r| == 4 {
      FirstOfFour(l, r[0], r[1], r[2], r[3]);
    } else if |r| == 2 {
      FirstOfFour(l, 0, 0, r[0], r[1]);
    } else {
      FirstOfFour(l, 0, 0, 0, r[0]);
    }
  }

  /** A channel both sides have goes to itself alone; another one to the first channel of its route
      that is there, from the middle to that channel's mirror image too. */
  predicate HeardIn(outL: Layout, i: nat, j: nat)
    requires i < 32 && j < 32
  {
    if outL[j] then i == j
    else
      var d := FirstThere(outL, Route(j));
      d < TOP_CENTER && (i == d || (Central(j) && i == Mirror(d)))
  }

  /** For every pair of sane layouts, that is exactly where a channel of the input goes. */
  lemma ChannelsAreRouted(inL: Layout, outL: Layout, i: nat, j: nat)
    requires SaneLayout(inL) && SaneLayout(outL) && i < 32 && j < 32
    ensures Coefficient(inL, outL, i, j) > 0.0 <==> inL[j] && HeardIn(outL, i, j)
  {
    if Surround(j) {
      SurroundsAreRouted(inL, outL, i, j);
    } else if j < TOP_CENTER {
      FrontsAreRouted(inL, outL, i, j);
    } else {
      OthersPassThrough(inL, outL, i, j);
    }
  }

  lemma FrontsAreRouted(inL: Layout, outL: Layout, i: nat, j: nat)
    requires SaneLayout(inL) && SaneLayout(outL) && i < 32 && (j < 4 || j == 6 || j == 7)
    ensures Coefficient(inL, outL, i, j) > 0.0 <==> inL[j] && HeardIn(outL, i, j)
  {
    Destinations(outL, j);
    match j
    case 0 =>
    case 1 =>
    case 2 =>
    case 3 =>
    case 6 =>
    case 7 =>
  }

  lemma OthersPassThrough(inL: Layout, outL: Layout, i: nat, j: nat)
    requires i < 32 && TOP_CENTER <= j < 32
    ensures Coefficient(inL, outL, i, j) == (if i == j && inL[j] && outL[j] then 1.0 else 0.0)
    ensures HeardIn(outL, i, j) <==> outL[j] && i == j
  {
  }

  lemma SurroundsAreRouted(inL: Layout, outL: Layout, i: nat, j: nat)
    requires SaneLayout(inL) && SaneLayout(outL) && i < 32 && Surround(j)
    ensures Coefficient(inL, outL, i, j) > 0.0 <==> inL[j] && HeardIn(outL, i, j)
  {
    Destinations(outL, j);
    match j
    case 4 =>
    case 5 =>
    case 8 =>
    case 9 =>
    case 10 =>
  }

  /** For all layouts, nothing of the left is heard on the right, and nothing of the right on the
      left. */
  lemma SidesStayApart(inL: Layout, outL: Layout, i: nat, j: nat)
    requires i < 32 && j < 32 && ((OnLeft(i) && OnRight(j)) || (OnRight(i) && OnLeft(j)))
    ensures Coefficient(inL, outL, i, j) == 0.0
  {
  }

  /** How often the power is halved on the way from channel j to channel i: into the front from
      behind, between the middle and the sides, and into a surround pair that the input has too.
      The back center counts as if it got to the front center by way of the front pair. */
  function Halvings(inL: Layout, i: nat, j: nat): nat
    requires i < 32
  {
    if i == j then 0
    else
      (if Surround(j) && i < 3 then 1 else 0)
      + (if Central(i) != Central(j) || (i == 2 && j == 8) then 1 else 0)
      + (if Surround(i) && Surround(j) && Central(i) == Central(j) && inL[i] then 1 else 0)
  }

  function Halved(n: nat): real {
    if n == 0 then 1.0 else Halved(n - 1) / 2.0
  }

  /** The square of every weight is, within a millionth, 1 halved that often. */
  lemma LevelsAreHalvings(inL: Layout, outL: Layout, i: nat, j: nat)
    requires SaneLayout(inL) && SaneLayout(outL) && i < 32 && j < 32
    requires Coefficient(inL, outL, i, j) > 0.0
    ensures var w := Coefficient(inL, outL, i, j);
            -0.000001 < w * w - Halved(Halvings(inL, i, j)) < 0.000001
  {
    if Surround(j) {
      SurroundLevels(inL, outL, i, j);
    } else if j < TOP_CENTER {
      FrontLevels(inL, outL, i, j);
    } else {
      OthersPassThrough(inL, outL, i, j);
    }
    LevelSquared(Coefficient(inL, outL, i, j), Halvings(inL, i, j));
  }

  /** The levels of the source, by how often they halve the power. */
  predicate IsLevel(w: real, halvings: nat) {
    match halvings
    case 0 => w == 1.0 || w == CENTER_MIX_LEVEL * M_SQRT2
    case 1 => w == M_SQRT1_2 || w == CENTER_MIX_LEVEL
    case 2 => w == SURROUND_MIX_LEVEL * M_SQRT1_2
    case _ => false
  }

  lemma LevelSquared(w: real, halvings: nat)
    requires IsLevel(w, halvings)
    ensures -0.000001 < w * w - Halved(halvings) < 0.000001
  {
    assert Halved(0) == 1.0 && Halved(1) == 0.5 && Halved(2) == 0.25;
  }

  lemma FrontLevels(inL: Layout, outL: Layout, i: nat, j: nat)
    requires SaneLayout(inL) && SaneLayout(outL) && i < 32 && (j < 4 || j == 6 || j == 7)
    requires Coefficient(inL, outL, i, j) > 0.0
    ensures IsLevel(Coefficient(inL, outL, i, j), Halvings(inL, i, j))
  {
  }

  lemma SurroundLevels(inL: Layout, outL: Layout, i: nat, j: nat)
    requires SaneLayout(inL) && SaneLayout(outL) && i < 32 && Surround(j)
    requires Coefficient(inL, outL, i, j) > 0.0
    ensures IsLevel(Coefficient(inL, outL, i, j), Halvings(inL, i, j))
  {
    match j
    case 4 =>
    case 5 =>
    case 8 =>
    case 9 =>
    case 10 =>
  }

  // ----- No channel is lost -----

  /** For every pair of sane layouts, every non-top input channel is heard in some output channel on
      its side or in the middle: the one returned. */
  lemma NoChannelIsLost(inL: Layout, outL: Layout, j: nat) returns (i: nat)
    requires SaneLayout(inL) && SaneLayout(outL) && j < TOP_CENTER && inL[j]
    ensures i < TOP_CENTER && outL[i] && Coefficient(inL, outL, i, j) > 0.0
    ensures Central(i) || Central(j) || (OnLeft(i) <==> OnLeft(j))
  {
    if outL[j] {
      i := j;
    } else if j == FRONT_CENTER {
      i := FRONT_LEFT;
    } else if j == FRONT_LEFT || j == FRONT_RIGHT {
      i := FRONT_CENTER;
    } else if j == BACK_CENTER {
      i := if outL[BACK_LEFT] then BACK_LEFT else if outL[SIDE_LEFT] then SIDE_LEFT
           else if outL[FRONT_LEFT] then FRONT_LEFT else FRONT_CENTER;
    } else if j == BACK_LEFT || j == BACK_RIGHT {
      i := if outL[BACK_CENTER] then BACK_CENTER else if outL[SIDE_LEFT] then SIDE_LEFT + (j - BACK_LEFT)
           else if outL[FRONT_LEFT] then FRONT_LEFT + (j - BACK_LEFT) else FRONT_CENTER;
    } else if j == SIDE_LEFT || j == SIDE_RIGHT {
      i := if outL[BACK_LEFT] then BACK_LEFT + (j - SIDE_LEFT) else if outL[BACK_CENTER] then BACK_CENTER
           else if outL[FRONT_LEFT] then FRONT_LEFT + (j - SIDE_LEFT) else FRONT_CENTER;
    } else if j == LOW_FREQUENCY {
      i := if outL[FRONT_CENTER] then FRONT_CENTER else FRONT_LEFT;
    } else {
      i := if outL[FRONT_LEFT] then FRONT_LEFT + (j - FRONT_LEFT_OF_CENTER) else FRONT_CENTER;
    }
    RulesAreHeard(inL, outL, i, j);
  }

  lemma RulesAreHeard(inL: Layout, outL: Layout, i: nat, j: nat)
    requires i < TOP_CENTER && j < TOP_CENTER
    requires Front(inL, outL, i, j) > 0.0 || BackCenterRule(inL, outL, i, j) > 0.0
             || BackPairRule(inL, outL, i, j) > 0.0 || SidePairRule(inL, outL, i, j) > 0.0
             || OffCenterRule(inL, outL, i, j) > 0.0 || LfeRule(inL, outL, i, j) > 0.0
    ensures Coefficient(inL, outL, i, j) > 0.0
  {
  }
}
