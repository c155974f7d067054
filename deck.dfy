/** The shoe: the 52-card template, the NumDecks-deck shoe built from it,
    drawing from the top, and the deck information record (deck.py). */
module Deck {
  import opened Cards

  /** NUM_DECKS: how many decks make up the shoe. */
  const NumDecks: nat := 4

  const Suits: seq<Suit> := [Clubs, Diamonds, Hearts, Spades]

  const Ranks: seq<Rank> := [Two, Three, Four, Five, Six, Seven, Eight, Nine, Ten, Jack, Queen, King, Ace]

  /** single_deck_template: suit by suit, and within a suit rank by rank,
      so card i has rank Ranks[i % 13] and suit Suits[i / 13]. */
  function SingleDeckTemplate(): seq<Card>
  {
    seq(|Suits| * |Ranks|, i requires 0 <= i < |Suits| * |Ranks| => Card(Ranks[i % |Ranks|], Suits[i / |Ranks|]))
  }

  /** The position of a rank in Ranks. */
  function RankIndex(r: Rank): (k: nat)
    ensures k < |Ranks| && Ranks[k] == r
  {
    match r
    case Two => 0
    case Three => 1
    case Four => 2
    case Five => 3
    case Six => 4
    case Seven => 5
    case Eight => 6
    case Nine => 7
    case Ten => 8
    case Jack => 9
    case Queen => 10
    case King => 11
    case Ace => 12
  }

  /** The position of a suit in Suits. */
  function SuitIndex(s: Suit): (k: nat)
    ensures k < |Suits| && Suits[k] == s
  {
    match s
    case Clubs => 0
    case Diamonds => 1
    case Hearts => 2
    case Spades => 3
  }

  /** Division by 13 undoes the layout 13 * q + k. */
  lemma DivModThirteen(q: nat, k: nat)
    requires k < 13
    ensures (13 * q + k) / 13 == q && (13 * q + k) % 13 == k
  {
  }

  /** The template holds 52 cards. */
  lemma TemplateLength()
    ensures |SingleDeckTemplate()| == 52
  {
  }

  /** Card (r, s) sits at position 13 * SuitIndex(s) + RankIndex(r) of the template. */
  lemma TemplateAt(r: Rank, s: Suit)
    ensures 13 * SuitIndex(s) + RankIndex(r) < 52
    ensures SingleDeckTemplate()[13 * SuitIndex(s) + RankIndex(r)] == Card(r, s)
  {
    DivModThirteen(SuitIndex(s), RankIndex(r));
  }

  /** Ranks lists every rank once: RankIndex inverts indexing. */
  lemma RankIndexInverts(k: nat)
    requires k < |Ranks|
    ensures RankIndex(Ranks[k]) == k
  {
    if k < 7 {
      if k < 4 { if k < 2 { if k == 0 {} else {} } else { if k == 2 {} else {} } }
      else { if k == 4 {} else if k == 5 {} else {} }
    } else {
      if k < 10 { if k == 7 {} else if k == 8 {} else {} }
      else { if k == 10 {} else if k == 11 {} else {} }
    }
  }

  /** Suits lists every suit once: SuitIndex inverts indexing. */
  lemma SuitIndexInverts(k: nat)
    requires k < |Suits|
    ensures SuitIndex(Suits[k]) == k
  {
    if k == 0 {} else if k == 1 {} else if k == 2 {} else {}
  }

  /** The only position of card (r, s) in the template is 13 * SuitIndex(s) + RankIndex(r). */
  lemma TemplatePositionUnique(i: nat)
    requires i < 52
    ensures i == 13 * SuitIndex(SingleDeckTemplate()[i].suit) + RankIndex(SingleDeckTemplate()[i].rank)
  {
    RankIndexInverts(i % 13);
    SuitIndexInverts(i / 13);
  }

  /** An element found at exactly one position occurs once. */
  lemma {:induction false} OccursOnce<T>(s: seq<T>, p: nat, x: T)
    requires p < |s| && s[p] == x
    requires forall i :: 0 <= i < |s| && s[i] == x ==> i == p
    ensures multiset(s)[x] == 1
  {
    var n := |s| - 1;
    assert s == s[..n] + [s[n]];
    if p == n {
      assert x !in s[..n];
      assert multiset(s[..n])[x] == 0;
    } else {
      OccursOnce(s[..n], p, x);
    }
  }

  /** Every (rank, suit) pair occurs exactly once in the template. */
  lemma TemplateHasEachCardOnce(c: Card)
    ensures multiset(SingleDeckTemplate())[c] == 1
  {
    TemplateAt(c.rank, c.suit);
    forall i | 0 <= i < |SingleDeckTemplate()| && SingleDeckTemplate()[i] == c
      ensures i == 13 * SuitIndex(c.suit) + RankIndex(c.rank)
    {
      TemplatePositionUnique(i);
    }
    OccursOnce(SingleDeckTemplate(), 13 * SuitIndex(c.suit) + RankIndex(c.rank), c);
  }

  // ---------------------------------------------------------------------------
  // The shoe

  /** n copies of a deck, one after the other. */
  function Repeat(deck: seq<Card>, n: nat): seq<Card>
  {
    if n == 0 then [] else Repeat(deck, n - 1) + deck
  }

  /** The unshuffled shoe that create_deck returns. */
  function FreshShoe(): seq<Card>
  {
    Repeat(SingleDeckTemplate(), NumDecks)
  }

  lemma {:induction false} RepeatLength(deck: seq<Card>, n: nat)
    ensures |Repeat(deck, n)| == n * |deck|
  {
    if n > 0 {
      RepeatLength(deck, n - 1);
    }
  }

  /** n copies hold every card n times as often as one copy does. */
  lemma {:induction false} RepeatCount(deck: seq<Card>, n: nat, c: Card)
    ensures multiset(Repeat(deck, n))[c] == n * multiset(deck)[c]
  {
    if n > 0 {
      RepeatCount(deck, n - 1, c);
      var k := multiset(deck)[c];
      assert multiset(Repeat(deck, n))[c] == multiset(Repeat(deck, n - 1))[c] + k;
      assert (n - 1) * k + k == n * k;
    }
  }

  /** The shoe holds NumDecks * 52 = 208 cards. */
  lemma FreshShoeLength()
    ensures |FreshShoe()| == NumDecks * 52 == 208
  {
    TemplateLength();
    RepeatLength(SingleDeckTemplate(), NumDecks);
  }

  /** The shoe is the template four times over. */
  lemma FreshShoeIsFourTemplates()
    ensures FreshShoe() == SingleDeckTemplate() + SingleDeckTemplate() + SingleDeckTemplate() + SingleDeckTemplate()
  {
    var t := SingleDeckTemplate();
    assert Repeat(t, 1) == t;
  }

  /** Position i of four copies of a 52-card sequence holds its card i % 52. */
  lemma FourCopiesAt(t: seq<Card>, i: nat)
    requires |t| == 52 && i < 208
    ensures (t + t + t + t)[i] == t[i % 52]
  {
    if i < 52 {
    } else if i < 104 {
      assert i % 52 == i - 52;
    } else if i < 156 {
      assert i % 52 == i - 104;
    } else {
      assert i % 52 == i - 156;
    }
  }

  /** The shoe is unshuffled: card i is card i % 52 of the template. */
  lemma FreshShoeAt(i: nat)
    requires i < NumDecks * 52
    ensures |FreshShoe()| == NumDecks * 52
    ensures FreshShoe()[i] == SingleDeckTemplate()[i % 52]
  {
    TemplateLength();
    FreshShoeIsFourTemplates();
    FourCopiesAt(SingleDeckTemplate(), i);
  }

  /** Every (rank, suit) pair occurs exactly NumDecks times in the shoe. */
  lemma FreshShoeHasEachCardNumDecksTimes(c: Card)
    ensures multiset(FreshShoe())[c] == NumDecks
  {
    TemplateHasEachCardOnce(c);
    RepeatCount(SingleDeckTemplate(), NumDecks, c);
  }

  /** How many cards of rank r a collection holds, suit by suit. */
  function RankCount(m: multiset<Card>, r: Rank): nat
  {
    m[Card(r, Clubs)] + m[Card(r, Diamonds)] + m[Card(r, Hearts)] + m[Card(r, Spades)]
  }

  /** Every rank occurs NumDecks times per suit, 16 times in all. */
  lemma FreshShoeHasEachRankSixteenTimes(r: Rank)
    ensures RankCount(multiset(FreshShoe()), r) == NumDecks * |Suits| == 16
  {
    FreshShoeHasEachCardNumDecksTimes(Card(r, Clubs));
    FreshShoeHasEachCardNumDecksTimes(Card(r, Diamonds));
    FreshShoeHasEachCardNumDecksTimes(Card(r, Hearts));
    FreshShoeHasEachCardNumDecksTimes(Card(r, Spades));
  }

  /** The contents of a full shoe, in any order: every card NumDecks times. */
  ghost predicate IsShoeContents(m: multiset<Card>)
  {
    forall c: Card :: m[c] == NumDecks
  }

  /** The fresh shoe has those contents, and nothing else has: a shuffled shoe
      is exactly a reordering of the fresh one. */
  lemma ShoeContentsCharacterized(m: multiset<Card>)
    ensures IsShoeContents(m) <==> m == multiset(FreshShoe())
  {
    forall c: Card
      ensures multiset(FreshShoe())[c] == NumDecks
    {
      FreshShoeHasEachCardNumDecksTimes(c);
    }
    if IsShoeContents(m) {
      assert forall c: Card :: m[c] == multiset(FreshShoe())[c];
    }
  }

  /** create_deck: extend an empty shoe with NUM_DECKS copies of the template. */
  method CreateDeck() returns (shoe: seq<Card>)
    ensures shoe == FreshShoe()
    ensures |shoe| == NumDecks * 52
  {
    shoe := [];
    for k := 0 to NumDecks
      invariant shoe == Repeat(SingleDeckTemplate(), k)
    {
      shoe := shoe + SingleDeckTemplate();
    }
    FreshShoeLength();
  }

  /** draw_from_top: pop the last card of the list. Popping an empty list is
      an error in the program; its caller reshuffles long before that. */
  method DrawFromTop(deck: seq<Card>) returns (card: Card, rest: seq<Card>)
    requires |deck| > 0
    ensures rest + [card] == deck
    ensures multiset(rest) + multiset{card} == multiset(deck)
  {
    card := deck[|deck| - 1];
    rest := deck[..|deck| - 1];
  }

  /** The dictionary that get_deck_info returns. */
  datatype DeckInfo = DeckInfo(numDecks: nat, cardsPerDeck: nat, totalCards: nat)

  /** get_deck_info: the number of decks, the cards per deck and their product,
      which is the size of a fresh shoe. */
  function GetDeckInfo(): (info: DeckInfo)
    ensures info.numDecks == NumDecks && info.cardsPerDeck == 52
    ensures info.totalCards == info.cardsPerDeck * info.numDecks == |FreshShoe()|
  {
    FreshShoeLength();
    TemplateLength();
    DeckInfo(NumDecks, |SingleDeckTemplate()|, |SingleDeckTemplate()| * NumDecks)
  }
}
