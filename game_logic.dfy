/** Hand scoring: the value table, the ace soft-adjust loop and blackjack
    detection (game_logic.py). */
module GameLogic {
  import opened Cards
  import opened Tally

  /** The value table of calculate_score: number cards count their face value,
      jack, queen and king count 10, an ace counts 11. */
  function CardValue(c: Card): int
  {
    match c.rank
    case Two => 2
    case Three => 3
    case Four => 4
    case Five => 5
    case Six => 6
    case Seven => 7
    case Eight => 8
    case Nine => 9
    case Ten => 10
    case Jack => 10
    case Queen => 10
    case King => 10
    case Ace => 11
  }

  /** 1 for an ace, 0 otherwise: the weight behind num_aces. */
  function AceWeight(c: Card): int
  {
    if c.rank == Ace then 1 else 0
  }

  /** The hand total with every ace counted as 11. */
  function RawTotal(hand: seq<Card>): int
  {
    SumOf(hand, CardValue)
  }

  /** The number of aces in the hand. */
  function NumAces(hand: seq<Card>): (n: int)
    ensures 0 <= n <= |hand|
  {
    AceCountBounds(hand);
    SumOf(hand, AceWeight)
  }

  /** The total when k of the hand's aces count 1 instead of 11. */
  function TotalWithHardAces(hand: seq<Card>, k: nat): int
  {
    RawTotal(hand) - 10 * k
  }

  /** The hand total with every ace counted as 1. */
  function HardTotal(hand: seq<Card>): int
  {
    RawTotal(hand) - 10 * NumAces(hand)
  }

  /** What the soft-adjust loop does to a total and a count of aces still
      counted as 11: take 10 off per ace while the total is over 21. */
  function SoftAdjust(total: int, aces: int): int
    decreases aces
  {
    if total > 21 && aces > 0 then SoftAdjust(total - 10, aces - 1) else total
  }

  /** The Blackjack score of a hand, as calculate_score computes it. */
  function Score(hand: seq<Card>): int
  {
    SoftAdjust(RawTotal(hand), NumAces(hand))
  }

  /** calculate_score: the sums of the value table and of the aces, then the
      loop that turns aces from 11 into 1 while the hand is over 21. */
  method CalculateScore(hand: seq<Card>) returns (score: int)
    ensures score == Score(hand)
  {
    score := RawTotal(hand);
    var numAces := NumAces(hand);
    while score > 21 && numAces > 0
      invariant numAces >= 0
      invariant SoftAdjust(score, numAces) == Score(hand)
      decreases numAces
    {
      score := score - 10;
      numAces := numAces - 1;
    }
  }

  /** is_blackjack: a two-card hand that scores 21. */
  predicate IsBlackjack(hand: seq<Card>)
  {
    Score(hand) == 21 && |hand| == 2
  }

  // ---------------------------------------------------------------------------
  // Helpers about the sums

  lemma {:induction false} AceCountBounds(hand: seq<Card>)
    ensures 0 <= SumOf(hand, AceWeight) <= |hand|
  {
    if hand != [] {
      AceCountBounds(hand[..|hand| - 1]);
    }
  }

  /** Counting an ace as 1 still leaves every card worth at least 1, so the
      all-aces-as-one total rises by at least 1 with every card added. */
  lemma HardTotalGrows(hand: seq<Card>, c: Card)
    ensures HardTotal(hand + [c]) >= HardTotal(hand) + 1
  {
    SumOfAppend(hand, c, CardValue);
    SumOfAppend(hand, c, AceWeight);
  }

  // ---------------------------------------------------------------------------
  // Properties of the soft-adjust loop

  /** The facts about SoftAdjust from which every property of Score follows:
      the result takes 10 off for some k of the aces (k no more than their
      number); it is the largest of those totals that is at most 21; if it is
      still over 21 every ace was reduced; and if anything was taken off the
      result is over 11. */
  lemma {:induction false} SoftAdjustFacts(total: int, aces: nat)
    ensures exists k :: 0 <= k <= aces && SoftAdjust(total, aces) == total - 10 * k
    ensures forall j :: 0 <= j <= aces && total - 10 * j <= 21 ==> total - 10 * j <= SoftAdjust(total, aces)
    ensures SoftAdjust(total, aces) > 21 ==> SoftAdjust(total, aces) == total - 10 * aces
    ensures SoftAdjust(total, aces) < total ==> SoftAdjust(total, aces) > 11
    decreases aces
  {
    if total > 21 && aces > 0 {
      SoftAdjustFacts(total - 10, aces - 1);
      var k :| 0 <= k <= aces - 1 && SoftAdjust(total - 10, aces - 1) == total - 10 - 10 * k;
      assert SoftAdjust(total, aces) == total - 10 * (k + 1);
      forall j | 0 <= j <= aces && total - 10 * j <= 21
        ensures total - 10 * j <= SoftAdjust(total, aces)
      {
        assert j >= 1;
        assert total - 10 * j == (total - 10) - 10 * (j - 1);
      }
    } else {
      assert SoftAdjust(total, aces) == total - 10 * 0;
    }
  }

  // ---------------------------------------------------------------------------
  // Properties of Score

  /** The score is the raw total less 10 for k of the aces, 0 <= k <= NumAces. */
  lemma ScoreReducesSomeAces(hand: seq<Card>)
    ensures exists k: nat :: k <= NumAces(hand) && Score(hand) == TotalWithHardAces(hand, k)
  {
    SoftAdjustFacts(RawTotal(hand), NumAces(hand));
    var k :| 0 <= k <= NumAces(hand) && Score(hand) == RawTotal(hand) - 10 * k;
    assert Score(hand) == TotalWithHardAces(hand, k);
  }

  /** Of all the totals the hand can make by counting some aces as 1, the score
      is the largest one that does not exceed 21; if none does, it is the
      all-aces-as-one total, which is the smallest. */
  lemma ScoreIsBestTotal(hand: seq<Card>)
    ensures forall k: nat :: k <= NumAces(hand) && TotalWithHardAces(hand, k) <= 21 ==>
      TotalWithHardAces(hand, k) <= Score(hand) <= 21
    ensures Score(hand) > 21 ==> forall k: nat :: k <= NumAces(hand) ==> Score(hand) <= TotalWithHardAces(hand, k)
  {
    SoftAdjustFacts(RawTotal(hand), NumAces(hand));
  }

  /** A hand whose raw total is at most 21 is not adjusted. */
  lemma ScoreWithoutAdjustment(hand: seq<Card>)
    requires RawTotal(hand) <= 21
    ensures Score(hand) == RawTotal(hand)
  {
  }

  /** A score over 21 means every ace already counts as 1. */
  lemma ScoreOverMeansAllAcesHard(hand: seq<Card>)
    ensures Score(hand) > 21 ==> Score(hand) == HardTotal(hand)
  {
    SoftAdjustFacts(RawTotal(hand), NumAces(hand));
  }

  /** The score never falls below the all-aces-as-one total. */
  lemma ScoreAtLeastHardTotal(hand: seq<Card>)
    ensures Score(hand) >= HardTotal(hand)
  {
    SoftAdjustFacts(RawTotal(hand), NumAces(hand));
  }

  /** A hand is not bust exactly when its all-aces-as-one total is at most 21. */
  lemma ScoreBustIff(hand: seq<Card>)
    ensures Score(hand) <= 21 <==> HardTotal(hand) <= 21
  {
    SoftAdjustFacts(RawTotal(hand), NumAces(hand));
  }

  /** Each reduction starts from a total over 21, so a hand with a reduced ace
      scores more than 11. */
  lemma ScoreAfterReductionAboveEleven(hand: seq<Card>)
    ensures Score(hand) < RawTotal(hand) ==> Score(hand) > 11
  {
    SoftAdjustFacts(RawTotal(hand), NumAces(hand));
  }

  /** The score depends on which cards are held, not on their order. */
  lemma ScoreIgnoresOrder(a: seq<Card>, b: seq<Card>)
    requires multiset(a) == multiset(b)
    ensures Score(a) == Score(b)
  {
    SumOfPermutation(a, b, CardValue);
    SumOfPermutation(a, b, AceWeight);
  }

  /** The sums of a two-card hand, written out. */
  lemma TwoCardTotals(a: Card, b: Card)
    ensures RawTotal([a, b]) == CardValue(a) + CardValue(b)
    ensures NumAces([a, b]) == AceWeight(a) + AceWeight(b)
  {
    assert [a, b] == [a] + [b] && [a] == [] + [a];
    SumOfAppend([], a, CardValue);
    SumOfAppend([a], b, CardValue);
    SumOfAppend([], a, AceWeight);
    SumOfAppend([a], b, AceWeight);
  }

  /** The sums of a three-card hand, written out. */
  lemma ThreeCardTotals(a: Card, b: Card, c: Card)
    ensures RawTotal([a, b, c]) == CardValue(a) + CardValue(b) + CardValue(c)
    ensures NumAces([a, b, c]) == AceWeight(a) + AceWeight(b) + AceWeight(c)
  {
    assert [a, b, c][..2] == [a, b];
    TwoCardTotals(a, b);
  }

  /** Two aces and a nine make 21: one ace counts 11, the other 1. */
  lemma TwoAcesAndNineMakeTwentyOne(s1: Suit, s2: Suit, s3: Suit)
    ensures Score([Card(Ace, s1), Card(Ace, s2), Card(Nine, s3)]) == 21
  {
    ThreeCardTotals(Card(Ace, s1), Card(Ace, s2), Card(Nine, s3));
    assert SoftAdjust(31, 2) == SoftAdjust(21, 1) == 21;
  }

  /** Two aces alone make 12. */
  lemma TwoAcesMakeTwelve(s1: Suit, s2: Suit)
    ensures Score([Card(Ace, s1), Card(Ace, s2)]) == 12
  {
    TwoCardTotals(Card(Ace, s1), Card(Ace, s2));
    assert SoftAdjust(22, 2) == SoftAdjust(12, 1) == 12;
  }

  /** A blackjack is exactly an ace together with a ten-valued card. */
  lemma BlackjackIsAceAndTen(hand: seq<Card>)
    ensures IsBlackjack(hand) <==>
      |hand| == 2 &&
      ((hand[0].rank == Ace && CardValue(hand[1]) == 10) ||
       (hand[1].rank == Ace && CardValue(hand[0]) == 10))
  {
    if |hand| == 2 {
      assert hand == [hand[0], hand[1]];
      TwoCardTotals(hand[0], hand[1]);
    }
  }

  /** Ace and king is a blackjack; three sevens make 21 but are not one. */
  lemma BlackjackExamples(s1: Suit, s2: Suit, s3: Suit)
    ensures IsBlackjack([Card(Ace, s1), Card(King, s2)])
    ensures Score([Card(Seven, s1), Card(Seven, s2), Card(Seven, s3)]) == 21
    ensures !IsBlackjack([Card(Seven, s1), Card(Seven, s2), Card(Seven, s3)])
  {
    TwoCardTotals(Card(Ace, s1), Card(King, s2));
    ThreeCardTotals(Card(Seven, s1), Card(Seven, s2), Card(Seven, s3));
  }
}
