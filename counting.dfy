/** Hi-Lo card counting and the advisory lookups built on the true count
    (the counting part of ui.py). */
module Counting {
  import opened Cards
  import opened Tally
  import opened Deck

  /** The Hi-Lo weight of a rank: +1 for 2 to 6, -1 for 10, jack, queen, king
      and ace, 0 for 7, 8 and 9. */
  function RankWeight(r: Rank): int
  {
    match r
    case Two => 1
    case Three => 1
    case Four => 1
    case Five => 1
    case Six => 1
    case Seven => 0
    case Eight => 0
    case Nine => 0
    case Ten => -1
    case Jack => -1
    case Queen => -1
    case King => -1
    case Ace => -1
  }

  /** The Hi-Lo weight of a card. */
  function HiLo(c: Card): int
  {
    RankWeight(c.rank)
  }

  /** The running count contributed by a sequence of cards. */
  function HiLoSum(cards: seq<Card>): int
  {
    SumOf(cards, HiLo)
  }

  /** Across the thirteen ranks the Hi-Lo weights cancel: five +1, five -1. */
  lemma RanksBalance()
    ensures SumOf(Ranks, RankWeight) == 0
  {
    var low := [Two, Three, Four, Five, Six];
    var neutral := [Seven, Eight, Nine];
    var high := [Ten, Jack, Queen, King, Ace];
    assert Ranks == low + neutral + high;
    SumOfConcat(low + neutral, high, RankWeight);
    SumOfConcat(low, neutral, RankWeight);
    SumOfUniform(low, RankWeight, 1);
    SumOfUniform(neutral, RankWeight, 0);
    SumOfUniform(high, RankWeight, -1);
  }

  /** A run of cards whose ranks are rs counts what rs weighs. */
  lemma {:induction false} HiLoSumByRanks(cards: seq<Card>, rs: seq<Rank>)
    requires |cards| == |rs|
    requires forall j :: 0 <= j < |cards| ==> cards[j].rank == rs[j]
    ensures HiLoSum(cards) == SumOf(rs, RankWeight)
  {
    if cards != [] {
      HiLoSumByRanks(cards[..|cards| - 1], rs[..|rs| - 1]);
    }
  }

  /** Each suit's run of the template holds the ranks in order. */
  lemma TemplateSuitRun(k: nat)
    requires k < 4
    ensures |SingleDeckTemplate()[13 * k..13 * k + 13]| == 13
    ensures forall j :: 0 <= j < 13 ==> SingleDeckTemplate()[13 * k..13 * k + 13][j].rank == Ranks[j]
  {
    TemplateLength();
    forall j | 0 <= j < 13
      ensures SingleDeckTemplate()[13 * k..13 * k + 13][j].rank == Ranks[j]
    {
      DivModThirteen(k, j);
    }
  }

  /** The running count over one full deck is 0. */
  lemma TemplateBalanced()
    ensures HiLoSum(SingleDeckTemplate()) == 0
  {
    var t := SingleDeckTemplate();
    TemplateLength();
    forall k | 0 <= k < 4
      ensures HiLoSum(t[13 * k..13 * k + 13]) == 0
    {
      TemplateSuitRun(k);
      HiLoSumByRanks(t[13 * k..13 * k + 13], Ranks);
      RanksBalance();
    }
    assert t == t[0..13] + t[13..26] + t[26..39] + t[39..52];
    SumOfConcat(t[0..13], t[13..26], HiLo);
    SumOfConcat(t[0..13] + t[13..26], t[26..39], HiLo);
    SumOfConcat(t[0..13] + t[13..26] + t[26..39], t[39..52], HiLo);
    assert HiLoSum(t[13 * 0..13 * 0 + 13]) == 0;
    assert HiLoSum(t[13 * 1..13 * 1 + 13]) == 0;
    assert HiLoSum(t[13 * 2..13 * 2 + 13]) == 0;
    assert HiLoSum(t[13 * 3..13 * 3 + 13]) == 0;
  }

  /** The running count over a whole fresh shoe is 0. */
  lemma FreshShoeBalanced()
    ensures HiLoSum(FreshShoe()) == 0
  {
    var t := SingleDeckTemplate();
    FreshShoeIsFourTemplates();
    TemplateBalanced();
    SumOfConcat(t, t, HiLo);
    SumOfConcat(t + t, t, HiLo);
    SumOfConcat(t + t + t, t, HiLo);
  }

  /** However the shoe is shuffled, drawing all of it brings the running count
      back to 0. */
  lemma ShuffledShoeBalanced(shoe: seq<Card>)
    requires multiset(shoe) == multiset(FreshShoe())
    ensures HiLoSum(shoe) == 0
  {
    FreshShoeBalanced();
    SumOfPermutation(shoe, FreshShoe(), HiLo);
  }

  // ---------------------------------------------------------------------------
  // True count and advice

  function MaxReal(a: real, b: real): real
  {
    if a >= b then a else b
  }

  function MaxInt(a: int, b: int): int
  {
    if a >= b then a else b
  }

  /** The running count divided by the decks left, where the decks left are
      the cards remaining over 52 but never less than half a deck. Stated
      exactly: the count times 52 over max(cards remaining, 26). */
  function TrueCount(runningCount: int, cardsRemaining: int): (tc: real)
    ensures tc == (runningCount * 52) as real / MaxInt(cardsRemaining, 26) as real
    ensures tc == 0.0 <==> runningCount == 0
    ensures tc > 0.0 <==> runningCount > 0
  {
    var decksRemaining := MaxReal(cardsRemaining as real / 52.0, 0.5);
    assert decksRemaining == MaxInt(cardsRemaining, 26) as real / 52.0;
    runningCount as real / decksRemaining
  }

  /** The advantage labels, without their colours. */
  datatype Advantage = VeryFavorable | Favorable | SlightEdge | VeryBad | Unfavorable | HouseEdge | Neutral

  /** The betting suggestions, without their colours. */
  datatype Suggestion = MaxBet | IncreaseBet | SmallIncrease | MinBetOnly | StandardBet

  /** _get_advantage_text: thresholds 3, 2, 1, then -3, -2, -1, tested in that
      order; each label owns one band of true counts. */
  function AdvantageText(tc: real): (a: Advantage)
    ensures a == VeryFavorable <==> tc >= 3.0
    ensures a == Favorable <==> 2.0 <= tc < 3.0
    ensures a == SlightEdge <==> 1.0 <= tc < 2.0
    ensures a == Neutral <==> -1.0 < tc < 1.0
    ensures a == HouseEdge <==> -2.0 < tc <= -1.0
    ensures a == Unfavorable <==> -3.0 < tc <= -2.0
    ensures a == VeryBad <==> tc <= -3.0
  {
    if tc >= 3.0 then VeryFavorable
    else if tc >= 2.0 then Favorable
    else if tc >= 1.0 then SlightEdge
    else if tc <= -3.0 then VeryBad
    else if tc <= -2.0 then Unfavorable
    else if tc <= -1.0 then HouseEdge
    else Neutral
  }

  /** _get_betting_suggestion: its own thresholds 3, 2, 1, then -2. */
  function BettingSuggestion(tc: real): (b: Suggestion)
    ensures b == MaxBet <==> tc >= 3.0
    ensures b == IncreaseBet <==> 2.0 <= tc < 3.0
    ensures b == SmallIncrease <==> 1.0 <= tc < 2.0
    ensures b == StandardBet <==> -2.0 < tc < 1.0
    ensures b == MinBetOnly <==> tc <= -2.0
  {
    if tc >= 3.0 then MaxBet
    else if tc >= 2.0 then IncreaseBet
    else if tc >= 1.0 then SmallIncrease
    else if tc <= -2.0 then MinBetOnly
    else StandardBet
  }

  /** How favourable a label is, from -3 (very bad) to 3 (very favourable). */
  function AdvantageLevel(a: Advantage): int
  {
    match a
    case VeryBad => -3
    case Unfavorable => -2
    case HouseEdge => -1
    case Neutral => 0
    case SlightEdge => 1
    case Favorable => 2
    case VeryFavorable => 3
  }

  /** A higher true count never gives a worse label. */
  lemma AdvantageMonotone(tc1: real, tc2: real)
    requires tc1 <= tc2
    ensures AdvantageLevel(AdvantageText(tc1)) <= AdvantageLevel(AdvantageText(tc2))
  {
  }

  /** The two tables agree where both have a band: the three favourable bands
      match one for one, MIN BET ONLY covers the two worst labels, and the
      standard bet covers House Edge and Neutral. */
  lemma AdviceTablesAgree(tc: real)
    ensures BettingSuggestion(tc) == MaxBet <==> AdvantageText(tc) == VeryFavorable
    ensures BettingSuggestion(tc) == IncreaseBet <==> AdvantageText(tc) == Favorable
    ensures BettingSuggestion(tc) == SmallIncrease <==> AdvantageText(tc) == SlightEdge
    ensures BettingSuggestion(tc) == MinBetOnly <==> AdvantageText(tc) in {VeryBad, Unfavorable}
    ensures BettingSuggestion(tc) == StandardBet <==> AdvantageText(tc) in {HouseEdge, Neutral}
  {
  }

  /** A level count gives a true count of 0 and the neutral advice. */
  lemma ZeroCountIsNeutral(cardsRemaining: int)
    ensures TrueCount(0, cardsRemaining) == 0.0
    ensures AdvantageText(TrueCount(0, cardsRemaining)) == Neutral
    ensures BettingSuggestion(TrueCount(0, cardsRemaining)) == StandardBet
  {
  }
}
