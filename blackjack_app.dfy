/** The game engine of BlackjackApp (ui.py) without its widgets: the session
    state, the shoe with automatic reshuffling, Hi-Lo counting, betting, the
    deal, the player's actions, the dealer's turn and settlement. Every chain
    of timed callbacks in the program is a sequence of direct calls here. */
module App {
  import opened Cards
  import opened Tally
  import opened GameLogic
  import opened Deck
  import opened Counting
  import opened Settlement
  import opened Shoe

  /** The balance a session starts with and returns to on a reset. */
  const StartingBalance: int := 1000

  /** The dealer draws while under this score. */
  const DealerStandsAt: int := 17

  /** What random.shuffle may turn a fresh shoe into: any reordering of it. */
  ghost predicate IsShuffledShoe(s: seq<Card>)
  {
    IsShoeContents(multiset(s))
  }

  predicate EndsWith<T(==)>(s: seq<T>, suffix: seq<T>)
  {
    |suffix| <= |s| && s[|s| - |suffix|..] == suffix
  }

  lemma EndsWithAppend<T>(s: seq<T>, suffix: seq<T>, x: T)
    requires EndsWith(s, suffix)
    ensures EndsWith(s + [x], suffix + [x])
  {
    assert (s + [x])[|s + [x]| - |suffix + [x]|..] == s[|s| - |suffix|..] + [x];
  }

  /** Starting from `start`, each of the cards in `drawn` was drawn while the
      hand scored under DealerStandsAt. */
  ghost predicate DrewWhileUnder(start: seq<Card>, drawn: seq<Card>)
  {
    forall k :: 0 <= k < |drawn| ==> Score(start + drawn[..k]) < DealerStandsAt
  }

  lemma DrewOneMore(start: seq<Card>, drawn: seq<Card>, card: Card)
    requires DrewWhileUnder(start, drawn) && Score(start + drawn) < DealerStandsAt
    ensures DrewWhileUnder(start, drawn + [card])
  {
    forall k | 0 <= k < |drawn| + 1
      ensures Score(start + (drawn + [card])[..k]) < DealerStandsAt
    {
      if k < |drawn| {
        assert (drawn + [card])[..k] == drawn[..k];
      } else {
        assert (drawn + [card])[..k] == drawn;
      }
    }
  }

  /** DrewWhileUnder in terms of the prefixes of the final hand. */
  lemma DrewWhileUnderPrefix(start: seq<Card>, drawn: seq<Card>)
    requires DrewWhileUnder(start, drawn)
    ensures forall k :: |start| <= k < |start + drawn| ==> Score((start + drawn)[..k]) < DealerStandsAt
  {
    forall k | |start| <= k < |start + drawn|
      ensures Score((start + drawn)[..k]) < DealerStandsAt
    {
      assert (start + drawn)[..k] == start + drawn[..k - |start|];
    }
  }

  /** The dealer's hand grew from `before` to `after` by drawing only while it
      scored under 17, and it now scores at least 17. */
  ghost predicate DealerPlayed(before: seq<Card>, after: seq<Card>)
  {
    && |before| <= |after| && after[..|before|] == before
    && Score(after) >= DealerStandsAt
    && forall k :: |before| <= k < |after| ==> Score(after[..k]) < DealerStandsAt
  }

  /** A fresh shoe in any order, with nothing drawn or counted yet. */
  lemma NewShoeValid(contents: multiset<Card>, shoe: seq<Card>)
    requires |contents| == NumDecks * 52 && multiset(shoe) == contents
    ensures ShoeValid(contents, shoe, [], [], 0, 0)
  {
    assert |shoe| == |multiset(shoe)|;
  }

  /** Zeroing the counter keeps the shoe valid; the counter restarts. */
  lemma CounterResetValid(contents: multiset<Card>, deck: seq<Card>, sinceShuffle: seq<Card>,
                          counted: seq<Card>, runningCount: int, cardsSeen: int)
    requires ShoeValid(contents, deck, sinceShuffle, counted, runningCount, cardsSeen)
    ensures ShoeValid(contents, deck, sinceShuffle, [], 0, 0)
  {
    assert sinceShuffle[|sinceShuffle|..] == [];
  }

  /** Why a command was turned down. */
  datatype Refusal =
    | RoundInProgress
    | InsufficientFunds
    | BetTooSmall
    | CannotDoubleDown
    | CannotAffordInsurance
    | SplitUnavailable

  datatype Verdict = Allowed | Denied(reason: Refusal)

  /** Where a round stands after a command: still the player's turn (and
      whether the insurance button is lit), or over. noFunds is the "no money
      left" check that end_game makes. */
  datatype RoundStatus =
    | PlayerTurn(insuranceOffered: bool)
    | Over(outcome: Outcome, noFunds: bool)

  datatype Reply = Refused(reason: Refusal) | Proceeded(status: RoundStatus)

  /** The shoe and the counter agree with the cards drawn: the shoe is what
      remains of a shoe of `contents` after the cards drawn since it was
      built, it never holds fewer than ReshuffleThreshold cards between draws,
      and the counter has counted the latest of those cards. */
  ghost predicate ShoeValid(contents: multiset<Card>, deck: seq<Card>, sinceShuffle: seq<Card>,
                            counted: seq<Card>, runningCount: int, cardsSeen: int)
  {
    && |contents| == NumDecks * 52
    && multiset(deck) + multiset(sinceShuffle) == contents
    && ReshuffleThreshold <= |deck|
    && EndsWith(sinceShuffle, counted)
    && runningCount == HiLoSum(counted)
    && cardsSeen == |counted|
  }

  lemma ShuffledShoeLength(s: seq<Card>)
    requires IsShuffledShoe(s)
    ensures |s| == NumDecks * 52
  {
    ShoeContentsCharacterized(multiset(s));
    FreshShoeLength();
    assert |s| == |multiset(s)|;
  }

  class BlackjackApp {
    // Money
    var balance: int
    var bet: int
    var insuranceBet: int

    // Round flags
    var canDoubleDown: bool
    var canSplit: bool
    var gameInProgress: bool

    // Cards
    const totalCards: int
    const numDecks: int
    var deck: seq<Card>
    var discardPile: seq<Card>
    var playerHand: seq<Card>
    var dealerHand: seq<Card>

    /** The cards a full shoe holds, whatever their order. */
    ghost const shoeContents: multiset<Card>

    // Hi-Lo counter
    var runningCount: int
    var cardsSeen: int

    /** The cards drawn since the shoe was last rebuilt. */
    ghost var sinceShuffle: seq<Card>
    /** The cards counted since the counter was last reset. */
    ghost var counted: seq<Card>

    /** The shoe and counter fields satisfy ShoeValid (the counter covers
        the latest cards drawn since the last reshuffle: all of them unless
        reset_balance reset it since), and the bet is never negative. */
    ghost predicate Valid()
      reads this
    {
      ShoeValid(shoeContents, deck, sinceShuffle, counted, runningCount, cardsSeen) && bet >= 0
    }

    /** `s` is an order random.shuffle may give a rebuilt shoe. */
    ghost predicate IsReshuffle(s: seq<Card>)
    {
      |s| == NumDecks * 52 && multiset(s) == shoeContents
    }

    /** The shoe holds NumDecks standard decks; fixed at construction. */
    ghost predicate StandardShoe()
    {
      IsShoeContents(shoeContents)
    }

    /** The counter has counted every card drawn since the last reshuffle.
        Only reset_balance breaks this, until the next reshuffle. */
    ghost predicate CounterInStep()
      reads this
    {
      counted == sinceShuffle
    }

    /** The shoe, the discard pile and the counter as one value. */
    function ShoeNow(): ShoeState
      reads this
    {
      ShoeState(deck, discardPile, runningCount, cardsSeen)
    }

    twostate predicate MoneyKept()
      reads this
    {
      balance == old(balance) && bet == old(bet) && insuranceBet == old(insuranceBet)
    }

    twostate predicate FlagsKept()
      reads this
    {
      canDoubleDown == old(canDoubleDown) && canSplit == old(canSplit) && gameInProgress == old(gameInProgress)
    }

    twostate predicate ShoeKept()
      reads this
    {
      ShoeNow() == old(ShoeNow()) && sinceShuffle == old(sinceShuffle) && counted == old(counted)
    }

    /** _init_game_state followed by reset_game; `shuffle` is the order that
        random.shuffle gives the shoe create_deck builds. */
    constructor (shuffle: seq<Card>)
      requires IsShuffledShoe(shuffle)
      ensures Valid() && StandardShoe() && CounterInStep() && IsReshuffle(shuffle)
      ensures balance == StartingBalance && bet == 0 && insuranceBet == 0
      ensures !canDoubleDown && !canSplit && !gameInProgress
      ensures totalCards == NumDecks * 52 && numDecks == NumDecks
      ensures deck == shuffle && discardPile == [] && playerHand == [] && dealerHand == []
      ensures runningCount == 0 && cardsSeen == 0
    {
      balance := StartingBalance;
      bet := 0;
      insuranceBet := 0;
      canDoubleDown := false;
      canSplit := false;
      gameInProgress := false;
      var info := GetDeckInfo();
      totalCards := info.totalCards;
      numDecks := info.numDecks;
      ShuffledShoeLength(shuffle);
      shoeContents := multiset(shuffle);
      deck := shuffle;
      discardPile := [];
      playerHand := [];
      dealerHand := [];
      runningCount := 0;
      cardsSeen := 0;
      sinceShuffle := [];
      counted := [];
      new;
      assert |shoeContents| == |shuffle|;
      ResetGame();
    }

    // -------------------------------------------------------------------------
    // Counting

    /** When the counter has seen every card drawn since the last reshuffle,
        the running count is minus the Hi-Lo sum of the cards still in the
        shoe, and the cards seen and the cards left make up a whole shoe. */
    lemma CountTracksShoe()
      requires Valid() && StandardShoe() && CounterInStep()
      ensures runningCount == -HiLoSum(deck)
      ensures cardsSeen + |deck| == NumDecks * 52
    {
      ShoeContentsCharacterized(shoeContents);
      assert multiset(deck + sinceShuffle) == multiset(FreshShoe());
      ShuffledShoeBalanced(deck + sinceShuffle);
      SumOfConcat(deck, sinceShuffle, HiLo);
      ShuffledShoeLength(deck + sinceShuffle);
    }

    /** _update_card_count: one more card seen; +1 for 2 to 6, -1 for tens,
        court cards and aces. */
    method UpdateCardCount(card: Card)
      modifies this
      ensures runningCount == old(runningCount) + HiLo(card)
      ensures cardsSeen == old(cardsSeen) + 1
      ensures counted == old(counted) + [card]
      ensures deck == old(deck) && discardPile == old(discardPile) && sinceShuffle == old(sinceShuffle)
      ensures playerHand == old(playerHand) && dealerHand == old(dealerHand)
      ensures MoneyKept() && FlagsKept()
    {
      var rank := card.rank;
      cardsSeen := cardsSeen + 1;
      if rank in {Two, Three, Four, Five, Six} {
        runningCount := runningCount + 1;
      } else if rank in {Ten, Jack, Queen, King, Ace} {
        runningCount := runningCount - 1;
      }
      counted := counted + [card];
    }

    /** _calculate_true_count on the current shoe. While the counter is in
        step with the shoe it is minus the Hi-Lo sum of the cards left, per
        deck left. */
    function CalculateTrueCount(): (tc: real)
      reads this
      ensures tc == (runningCount * 52) as real / MaxInt(|deck|, 26) as real
      ensures tc > 0.0 <==> runningCount > 0
    {
      TrueCount(runningCount, |deck|)
    }

    /** While the counter is in step with the shoe, a positive true count
        means the cards left hold more tens and aces than low cards. */
    lemma TrueCountReflectsShoe()
      requires Valid() && StandardShoe() && CounterInStep()
      ensures CalculateTrueCount() == TrueCount(-HiLoSum(deck), |deck|)
      ensures CalculateTrueCount() > 0.0 <==> HiLoSum(deck) < 0
      ensures CalculateTrueCount() == 0.0 <==> HiLoSum(deck) == 0
    {
      CountTracksShoe();
    }

    // -------------------------------------------------------------------------
    // Drawing

    /** _draw_card: rebuild the shoe if it is down to the threshold, then pop
        the top card and count it, exactly as DrawOne states. */
    method DrawCard(shuffle: seq<Card>) returns (card: Card)
      requires Valid() && IsReshuffle(shuffle)
      modifies this
      ensures Valid()
      ensures Draw(ShoeNow(), card) == DrawOne(old(ShoeNow()), shuffle)
      ensures |deck| == if old(|deck|) <= ReshuffleThreshold then NumDecks * 52 - 1 else old(|deck|) - 1
      ensures old(CounterInStep()) || old(|deck|) <= ReshuffleThreshold ==> CounterInStep()
      ensures playerHand == old(playerHand) && dealerHand == old(dealerHand)
      ensures MoneyKept() && FlagsKept()
    {
      DrawAfterRebuild(ShoeNow(), shuffle);
      if |deck| <= ReshuffleThreshold {
        Reshuffle(shuffle);
      }
      ghost var rebuilt := ShoeNow();
      card := TakeTopCard();
      PopIsDraw(rebuilt, shuffle, card, ShoeNow());
    }

    /** The reshuffle branch of _draw_card: a new shoe in the order `shuffle`,
        an empty discard pile and a zeroed counter. */
    method Reshuffle(shuffle: seq<Card>)
      requires Valid() && IsReshuffle(shuffle)
      modifies this
      ensures Valid() && CounterInStep()
      ensures deck == shuffle && |deck| == NumDecks * 52 && discardPile == []
      ensures runningCount == 0 && cardsSeen == 0
      ensures sinceShuffle == [] && counted == []
      ensures playerHand == old(playerHand) && dealerHand == old(dealerHand)
      ensures MoneyKept() && FlagsKept()
    {
      NewShoeValid(shoeContents, shuffle);
      deck := shuffle;
      discardPile := [];
      runningCount := 0;
      cardsSeen := 0;
      sinceShuffle := [];
      counted := [];
    }

    /** The rest of _draw_card: pop the top card and count it. */
    method TakeTopCard() returns (card: Card)
      requires Valid() && |deck| > ReshuffleThreshold
      modifies this
      ensures Valid()
      ensures deck + [card] == old(deck) && discardPile == old(discardPile)
      ensures runningCount == old(runningCount) + HiLo(card) && cardsSeen == old(cardsSeen) + 1
      ensures sinceShuffle == old(sinceShuffle) + [card] && counted == old(counted) + [card]
      ensures playerHand == old(playerHand) && dealerHand == old(dealerHand)
      ensures MoneyKept() && FlagsKept()
    {
      var rest;
      card, rest := DrawFromTop(deck);
      deck := rest;
      EndsWithAppend(sinceShuffle, counted, card);
      sinceShuffle := sinceShuffle + [card];
      SumOfAppend(counted, card, HiLo);
      UpdateCardCount(card);
    }

    // -------------------------------------------------------------------------
    // Betting

    /** _validate_bet: refuse during a round, then a bet above the balance,
        then a bet below 1, in that order. */
    function ValidateBet(amount: int): (v: Verdict)
      reads this
      ensures v == Allowed <==> !gameInProgress && 1 <= amount <= balance
      ensures v == Denied(RoundInProgress) <==> gameInProgress
      ensures v == Denied(InsufficientFunds) <==> !gameInProgress && amount > balance
      ensures v == Denied(BetTooSmall) <==> !gameInProgress && amount <= balance && amount < 1
    {
      if gameInProgress then Denied(RoundInProgress)
      else if amount > balance then Denied(InsufficientFunds)
      else if amount < 1 then Denied(BetTooSmall)
      else Allowed
    }

    /** The state a completed initial deal leaves behind: four cards drawn
        from the shoe into the hands player, dealer, player, dealer, and, on
        a player blackjack, both hands on the discard pile. */
    twostate predicate RoundDealt(status: RoundStatus, shuffle: seq<Card>)
      reads this
    {
      && |playerHand| == 2 && |dealerHand| == 2
      && Dealt(old(ShoeNow()), shuffle, [playerHand[0], dealerHand[0], playerHand[1], dealerHand[1]],
               if IsBlackjack(playerHand) then playerHand + dealerHand else [], ShoeNow())
      && canSplit == (playerHand[0].rank == playerHand[1].rank)
      && insuranceBet == 0
      && bet >= 0
      && canDoubleDown
      && DealSettled(status, old(balance), true)
    }

    /** How _finish_initial_deal leaves the round, from the balance and the
        round flag it found: a player blackjack is settled at once (a push if
        the dealer has one too); otherwise play goes on, with insurance lit
        when the dealer's up-card is an ace. */
    ghost predicate DealSettled(status: RoundStatus, balance0: int, inProgress0: bool)
      reads this
      requires |playerHand| == 2 && |dealerHand| == 2 && bet >= 0
    {
      if IsBlackjack(playerHand) then
        && !gameInProgress
        && status == Over(if IsBlackjack(dealerHand) then BlackjackPush else BlackjackWin, balance0 <= 0)
        && balance == balance0 + Payout(status.outcome, bet)
      else
        && gameInProgress == inProgress0
        && status == PlayerTurn(dealerHand[0].rank == Ace)
        && balance == balance0
    }

    /** quick_bet: place the bet and deal, or refuse and change nothing. */
    method QuickBet(amount: int, shuffle: seq<Card>) returns (reply: Reply)
      requires Valid() && IsReshuffle(shuffle)
      modifies this
      ensures Valid()
      ensures old(CounterInStep()) ==> CounterInStep()
      ensures old(ValidateBet(amount)).Denied? ==>
        reply == Refused(old(ValidateBet(amount)).reason) && unchanged(this)
      ensures old(ValidateBet(amount)) == Allowed ==>
        reply.Proceeded? && bet == amount && RoundDealt(reply.status, shuffle)
    {
      var verdict := ValidateBet(amount);
      if verdict.Denied? {
        reply := Refused(verdict.reason);
        return;
      }
      bet := amount;
      var status := StartNewRound(shuffle);
      reply := Proceeded(status);
    }

    // -------------------------------------------------------------------------
    // The deal

    /** start_new_round: open the round, clear the hands and deal player,
        dealer, player, dealer, then finish the deal. */
    method StartNewRound(shuffle: seq<Card>) returns (status: RoundStatus)
      requires Valid() && IsReshuffle(shuffle)
      modifies this
      ensures Valid()
      ensures old(CounterInStep()) ==> CounterInStep()
      ensures bet == old(bet)
      ensures RoundDealt(status, shuffle)
    {
      OpenRound();
      DealInitialCards(shuffle);
      ghost var cards := [playerHand[0], dealerHand[0], playerHand[1], dealerHand[1]];
      ghost var dealt := ShoeNow();
      status := FinishInitialDeal();
      ghost var discarded := if IsBlackjack(playerHand) then playerHand + dealerHand else [];
      DealtDiscard(old(ShoeNow()), shuffle, cards, [], dealt, discarded);
      assert [] + discarded == discarded;
    }

    /** The first half of start_new_round: the round is on, no insurance,
        doubling allowed, splitting not yet, empty hands. */
    method OpenRound()
      modifies this
      ensures gameInProgress && insuranceBet == 0 && canDoubleDown && !canSplit
      ensures playerHand == [] && dealerHand == []
      ensures unchanged(this`balance, this`bet, this`deck, this`discardPile, this`runningCount, this`cardsSeen)
      ensures unchanged(this`sinceShuffle, this`counted)
    {
      gameInProgress := true;
      insuranceBet := 0;
      canDoubleDown := true;
      canSplit := false;
      playerHand := [];
      dealerHand := [];
    }

    /** _deal_initial_cards: player, dealer, player, dealer, each card the
        next one drawn from the shoe. */
    method DealInitialCards(shuffle: seq<Card>)
      requires Valid() && IsReshuffle(shuffle) && playerHand == [] && dealerHand == []
      modifies this
      ensures Valid()
      ensures |playerHand| == 2 && |dealerHand| == 2
      ensures Dealt(old(ShoeNow()), shuffle, [playerHand[0], dealerHand[0], playerHand[1], dealerHand[1]], [], ShoeNow())
      ensures old(CounterInStep()) ==> CounterInStep()
      ensures MoneyKept() && FlagsKept()
    {
      DealPair(shuffle);
      ghost var first := [playerHand[0], dealerHand[0]];
      ghost var s1 := ShoeNow();
      DealPair(shuffle);
      ghost var second := [playerHand[1], dealerHand[1]];
      DealtThen(old(ShoeNow()), shuffle, first, s1, second, [], ShoeNow());
      assert first + second == [playerHand[0], dealerHand[0], playerHand[1], dealerHand[1]];
    }

    /** One pass of _deal_initial_cards: a card to the player, then one to
        the dealer. */
    method DealPair(shuffle: seq<Card>)
      requires Valid() && IsReshuffle(shuffle)
      modifies this
      ensures Valid()
      ensures |playerHand| == old(|playerHand|) + 1 && playerHand[..old(|playerHand|)] == old(playerHand)
      ensures |dealerHand| == old(|dealerHand|) + 1 && dealerHand[..old(|dealerHand|)] == old(dealerHand)
      ensures Dealt(old(ShoeNow()), shuffle, [playerHand[|playerHand| - 1], dealerHand[|dealerHand| - 1]], [], ShoeNow())
      ensures old(CounterInStep()) ==> CounterInStep()
      ensures MoneyKept() && FlagsKept()
    {
      DealPlayerCard(shuffle);
      ghost var p := playerHand[|playerHand| - 1];
      ghost var s1 := ShoeNow();
      DealDealerCard(shuffle);
      ghost var d := dealerHand[|dealerHand| - 1];
      DealtThen(old(ShoeNow()), shuffle, [p], s1, [d], [], ShoeNow());
      assert [p] + [d] == [p, d];
    }

    /** _deal_player_card_1 and _deal_player_card_2: draw a card into the
        player's hand. */
    method DealPlayerCard(shuffle: seq<Card>)
      requires Valid() && IsReshuffle(shuffle)
      modifies this
      ensures Valid()
      ensures |playerHand| > 0 && playerHand == old(playerHand) + [playerHand[|playerHand| - 1]]
      ensures Dealt(old(ShoeNow()), shuffle, [playerHand[|playerHand| - 1]], [], ShoeNow())
      ensures old(CounterInStep()) ==> CounterInStep()
      ensures dealerHand == old(dealerHand)
      ensures MoneyKept() && FlagsKept()
    {
      ghost var s0 := ShoeNow();
      var card := DrawCard(shuffle);
      DealtOne(s0, shuffle, card, ShoeNow());
      playerHand := playerHand + [card];
    }

    /** _deal_dealer_card_1 and _deal_dealer_card_2: draw a card into the
        dealer's hand (the second one face down, which only the display
        distinguishes). */
    method DealDealerCard(shuffle: seq<Card>)
      requires Valid() && IsReshuffle(shuffle)
      modifies this
      ensures Valid()
      ensures |dealerHand| > 0 && dealerHand == old(dealerHand) + [dealerHand[|dealerHand| - 1]]
      ensures Dealt(old(ShoeNow()), shuffle, [dealerHand[|dealerHand| - 1]], [], ShoeNow())
      ensures old(CounterInStep()) ==> CounterInStep()
      ensures playerHand == old(playerHand)
      ensures MoneyKept() && FlagsKept()
    {
      ghost var s0 := ShoeNow();
      var card := DrawCard(shuffle);
      DealtOne(s0, shuffle, card, ShoeNow());
      dealerHand := dealerHand + [card];
    }

    /** _finish_initial_deal: note whether the two player cards share a rank,
        settle a player blackjack at once (a push if the dealer has one too),
        and otherwise light insurance when the dealer's up-card is an ace. */
    method FinishInitialDeal() returns (status: RoundStatus)
      requires Valid() && |playerHand| == 2 && |dealerHand| == 2
      modifies this
      ensures Valid()
      ensures unchanged(this`playerHand, this`dealerHand, this`bet, this`insuranceBet, this`canDoubleDown)
      ensures unchanged(this`sinceShuffle, this`counted)
      ensures canSplit == (playerHand[0].rank == playerHand[1].rank)
      ensures DealSettled(status, old(balance), old(gameInProgress))
      ensures ShoeNow() == Discard(old(ShoeNow()), if IsBlackjack(playerHand) then playerHand + dealerHand else [])
    {
      NoteSplit();
      if IsBlackjack(playerHand) {
        status := SettleNaturals(old(gameInProgress));
        return;
      }
      status := PlayerTurn(dealerHand[0].rank == Ace);
      DiscardNothing(ShoeNow());
    }

    /** The first step of _finish_initial_deal: splitting is possible when
        the player's two cards share a rank. */
    method NoteSplit()
      requires |playerHand| == 2
      modifies this`canSplit
      ensures canSplit == (playerHand[0].rank == playerHand[1].rank)
    {
      canSplit := playerHand[0].rank == playerHand[1].rank;
    }

    /** The blackjack branch of _finish_initial_deal: a push when the dealer
        has blackjack too, otherwise the 3:2 win. */
    method SettleNaturals(ghost inProgress0: bool) returns (status: RoundStatus)
      requires Valid() && |playerHand| == 2 && |dealerHand| == 2 && IsBlackjack(playerHand)
      modifies this
      ensures Valid()
      ensures unchanged(this`playerHand, this`dealerHand, this`bet, this`insuranceBet)
      ensures unchanged(this`canDoubleDown, this`canSplit, this`sinceShuffle, this`counted)
      ensures DealSettled(status, old(balance), inProgress0)
      ensures !gameInProgress
      ensures status == Over(if IsBlackjack(dealerHand) then BlackjackPush else BlackjackWin, old(balance) <= 0)
      ensures balance == old(balance) + Payout(status.outcome, bet)
      ensures ShoeNow() == Discard(old(ShoeNow()), playerHand + dealerHand)
    {
      if IsBlackjack(dealerHand) {
        var noFunds := CloseRound(0);
        status := Over(BlackjackPush, noFunds);
      } else {
        status := PlayerBlackjackWin();
      }
    }

    // -------------------------------------------------------------------------
    // Ending a round

    /** end_game (its state part): close the round, move both hands onto the
        discard pile and report whether the balance, as it stands before the
        caller settles the bet, is used up. */
    method EndGame() returns (noFunds: bool)
      modifies this
      ensures !gameInProgress
      ensures ShoeNow() == Discard(old(ShoeNow()), playerHand + dealerHand)
      ensures noFunds == (balance <= 0)
      ensures unchanged(this`playerHand, this`dealerHand, this`canDoubleDown, this`canSplit)
      ensures unchanged(this`sinceShuffle, this`counted)
      ensures MoneyKept()
    {
      gameInProgress := false;
      discardPile := discardPile + (playerHand + dealerHand);
      noFunds := balance <= 0;
    }

    /** Every settlement path: end_game, then the change to the balance that
        the caller makes afterwards (so end_game's no-funds check sees the
        balance before that change). */
    method CloseRound(delta: int) returns (noFunds: bool)
      requires Valid()
      modifies this
      ensures Valid()
      ensures noFunds == (old(balance) <= 0)
      ensures balance == old(balance) + delta
      ensures !gameInProgress
      ensures ShoeNow() == Discard(old(ShoeNow()), playerHand + dealerHand)
      ensures unchanged(this`playerHand, this`dealerHand, this`bet, this`insuranceBet)
      ensures unchanged(this`canDoubleDown, this`canSplit, this`sinceShuffle, this`counted)
    {
      noFunds := EndGame();
      balance := balance + delta;
    }

    /** _player_blackjack_win: end the round, then pay 3:2. */
    method PlayerBlackjackWin() returns (status: RoundStatus)
      requires Valid()
      modifies this
      ensures Valid()
      ensures status == Over(BlackjackWin, old(balance) <= 0)
      ensures balance == old(balance) + ThreeToTwo(bet)
      ensures !gameInProgress
      ensures ShoeNow() == Discard(old(ShoeNow()), playerHand + dealerHand)
      ensures unchanged(this`playerHand, this`dealerHand, this`bet, this`insuranceBet)
      ensures unchanged(this`canDoubleDown, this`canSplit, this`sinceShuffle, this`counted)
    {
      var noFunds := CloseRound(ThreeToTwo(bet));
      status := Over(BlackjackWin, noFunds);
    }

    /** _player_bust: end the round, then take the bet. */
    method PlayerBust() returns (status: RoundStatus)
      requires Valid()
      modifies this
      ensures Valid()
      ensures status == Over(Bust, old(balance) <= 0)
      ensures balance == old(balance) - bet
      ensures !gameInProgress
      ensures ShoeNow() == Discard(old(ShoeNow()), playerHand + dealerHand)
      ensures unchanged(this`playerHand, this`dealerHand, this`bet, this`insuranceBet)
      ensures unchanged(this`canDoubleDown, this`canSplit, this`sinceShuffle, this`counted)
    {
      var noFunds := CloseRound(-bet);
      status := Over(Bust, noFunds);
    }

    /** end_game_comparison and _show_final_result: compare the final scores,
        end the round, then settle. */
    method ShowFinalResult() returns (status: RoundStatus)
      requires Valid()
      modifies this
      ensures Valid()
      ensures status == Over(Showdown(Score(playerHand), Score(dealerHand)), old(balance) <= 0)
      ensures balance == old(balance) + Payout(status.outcome, bet)
      ensures !gameInProgress
      ensures ShoeNow() == Discard(old(ShoeNow()), playerHand + dealerHand)
      ensures unchanged(this`playerHand, this`dealerHand, this`bet, this`insuranceBet)
      ensures unchanged(this`canDoubleDown, this`canSplit, this`sinceShuffle, this`counted)
    {
      var playerScore := CalculateScore(playerHand);
      var dealerScore := CalculateScore(dealerHand);
      var noFunds;
      if dealerScore > 21 {
        noFunds := CloseRound(bet);
        status := Over(DealerBust, noFunds);
      } else if playerScore > dealerScore {
        noFunds := CloseRound(bet);
        status := Over(PlayerWins, noFunds);
      } else if playerScore < dealerScore {
        noFunds := CloseRound(-bet);
        status := Over(DealerWins, noFunds);
      } else {
        noFunds := CloseRound(0);
        status := Over(Tie, noFunds);
      }
    }

    // -------------------------------------------------------------------------
    // The player's actions

    /** The conditions under which enable_game_buttons lights Double Down. */
    predicate DoubleDownEnabled()
      reads this
    {
      canDoubleDown && bet <= balance
    }

    /** The conditions under which enable_game_buttons lights Split. */
    predicate SplitEnabled()
      reads this
    {
      canSplit && bet <= balance
    }

    /** hit and _complete_hit: draw a card, give up doubling and splitting,
        then bust, stand on 21, or go on. The cards drawn are the player's,
        then the dealer's if the player stood on 21. */
    method Hit(shuffle: seq<Card>) returns (status: RoundStatus)
      requires Valid() && IsReshuffle(shuffle)
      modifies this
      ensures Valid()
      ensures |playerHand| == old(|playerHand|) + 1 && playerHand[..old(|playerHand|)] == old(playerHand)
      ensures |dealerHand| >= old(|dealerHand|) && dealerHand[..old(|dealerHand|)] == old(dealerHand)
      ensures Dealt(old(ShoeNow()), shuffle, [playerHand[|playerHand| - 1]] + dealerHand[old(|dealerHand|)..],
                    if Score(playerHand) >= 21 then playerHand + dealerHand else [], ShoeNow())
      ensures old(CounterInStep()) ==> CounterInStep()
      ensures !canDoubleDown && !canSplit && !DoubleDownEnabled() && !SplitEnabled()
      ensures bet == old(bet) && insuranceBet == old(insuranceBet)
      ensures Score(playerHand) > 21 ==>
        && status == Over(Bust, old(balance) <= 0)
        && balance == old(balance) - bet
        && dealerHand == old(dealerHand)
        && !gameInProgress
      ensures Score(playerHand) == 21 ==>
        && DealerPlayed(old(dealerHand), dealerHand)
        && status == Over(Showdown(21, Score(dealerHand)), old(balance) <= 0)
        && balance == old(balance) + Payout(status.outcome, bet)
        && !gameInProgress
      ensures Score(playerHand) < 21 ==>
        && status == PlayerTurn(false)
        && balance == old(balance) && dealerHand == old(dealerHand)
        && gameInProgress == old(gameInProgress)
    {
      TakePlayerCard(shuffle);
      ghost var s1 := ShoeNow();
      ghost var card := playerHand[|playerHand| - 1];
      assert dealerHand[old(|dealerHand|)..] == [];
      var playerScore := CalculateScore(playerHand);
      if playerScore > 21 {
        status := PlayerBust();
        DealtDiscard(old(ShoeNow()), shuffle, [card], [], s1, playerHand + dealerHand);
        assert [card] + dealerHand[old(|dealerHand|)..] == [card];
        assert [] + (playerHand + dealerHand) == playerHand + dealerHand;
      } else if playerScore == 21 {
        status := Stand(shuffle);
        DealtThen(old(ShoeNow()), shuffle, [card], s1, dealerHand[old(|dealerHand|)..], playerHand + dealerHand, ShoeNow());
      } else {
        status := PlayerTurn(false);
        assert [card] + dealerHand[old(|dealerHand|)..] == [card];
      }
    }

    /** The first half of _complete_hit and _complete_double_down: one more
        card for the player, after which doubling and splitting are off. */
    method TakePlayerCard(shuffle: seq<Card>)
      requires Valid() && IsReshuffle(shuffle)
      modifies this
      ensures Valid()
      ensures |playerHand| == old(|playerHand|) + 1 && playerHand[..old(|playerHand|)] == old(playerHand)
      ensures Dealt(old(ShoeNow()), shuffle, [playerHand[|playerHand| - 1]], [], ShoeNow())
      ensures old(CounterInStep()) ==> CounterInStep()
      ensures !canDoubleDown && !canSplit
      ensures unchanged(this`dealerHand, this`balance, this`bet, this`insuranceBet, this`gameInProgress)
    {
      DealPlayerCard(shuffle);
      canDoubleDown := false;
      canSplit := false;
    }

    /** stand: the dealer plays out the hand and the round is settled. */
    method Stand(shuffle: seq<Card>) returns (status: RoundStatus)
      requires Valid() && IsReshuffle(shuffle)
      modifies this
      ensures Valid()
      ensures DealerPlayed(old(dealerHand), dealerHand)
      ensures Dealt(old(ShoeNow()), shuffle, dealerHand[old(|dealerHand|)..], playerHand + dealerHand, ShoeNow())
      ensures old(CounterInStep()) ==> CounterInStep()
      ensures status == Over(Showdown(Score(playerHand), Score(dealerHand)), old(balance) <= 0)
      ensures balance == old(balance) + Payout(status.outcome, bet)
      ensures !gameInProgress
      ensures playerHand == old(playerHand)
      ensures bet == old(bet) && insuranceBet == old(insuranceBet)
      ensures canDoubleDown == old(canDoubleDown) && canSplit == old(canSplit)
    {
      status := DealerPlaySequence(shuffle);
    }

    /** _dealer_play_sequence: the dealer plays out the hand, then the hands
        are compared. */
    method DealerPlaySequence(shuffle: seq<Card>) returns (status: RoundStatus)
      requires Valid() && IsReshuffle(shuffle)
      modifies this
      ensures Valid()
      ensures DealerPlayed(old(dealerHand), dealerHand)
      ensures Dealt(old(ShoeNow()), shuffle, dealerHand[old(|dealerHand|)..], playerHand + dealerHand, ShoeNow())
      ensures old(CounterInStep()) ==> CounterInStep()
      ensures status == Over(Showdown(Score(playerHand), Score(dealerHand)), old(balance) <= 0)
      ensures balance == old(balance) + Payout(status.outcome, bet)
      ensures !gameInProgress
      ensures playerHand == old(playerHand)
      ensures bet == old(bet) && insuranceBet == old(insuranceBet)
      ensures canDoubleDown == old(canDoubleDown) && canSplit == old(canSplit)
    {
      DealerDraws(shuffle);
      ghost var drawn := dealerHand[old(|dealerHand|)..];
      ghost var s1 := ShoeNow();
      status := ShowFinalResult();
      DealtDiscard(old(ShoeNow()), shuffle, drawn, [], s1, playerHand + dealerHand);
      assert [] + (playerHand + dealerHand) == playerHand + dealerHand;
    }

    /** The drawing part of _dealer_play_sequence: while the dealer scores
        under 17, draw a card into the dealer's hand. */
    method DealerDraws(shuffle: seq<Card>)
      requires Valid() && IsReshuffle(shuffle)
      modifies this
      ensures Valid()
      ensures DealerPlayed(old(dealerHand), dealerHand)
      ensures Dealt(old(ShoeNow()), shuffle, dealerHand[old(|dealerHand|)..], [], ShoeNow())
      ensures old(CounterInStep()) ==> CounterInStep()
      ensures playerHand == old(playerHand)
      ensures MoneyKept() && FlagsKept()
    {
      var dealerScore := CalculateScore(dealerHand);
      ghost var drawn: seq<Card> := [];
      DiscardNothing(ShoeNow());
      while dealerScore < DealerStandsAt
        invariant Valid()
        invariant dealerScore == Score(dealerHand)
        invariant dealerHand == old(dealerHand) + drawn
        invariant Dealt(old(ShoeNow()), shuffle, drawn, [], ShoeNow())
        invariant old(CounterInStep()) ==> CounterInStep()
        invariant DrewWhileUnder(old(dealerHand), drawn)
        invariant playerHand == old(playerHand)
        invariant MoneyKept() && FlagsKept()
        decreases DealerStandsAt - HardTotal(dealerHand)
      {
        ScoreAtLeastHardTotal(dealerHand);
        ghost var before := dealerHand;
        ghost var s1 := ShoeNow();
        DealDealerCard(shuffle);
        ghost var card := dealerHand[|dealerHand| - 1];
        assert dealerHand == before + [card];
        DealtThen(old(ShoeNow()), shuffle, drawn, s1, [card], [], ShoeNow());
        HardTotalGrows(before, card);
        DrewOneMore(old(dealerHand), drawn, card);
        drawn := drawn + [card];
        dealerScore := CalculateScore(dealerHand);
      }
      DrewWhileUnderPrefix(old(dealerHand), drawn);
      assert dealerHand[old(|dealerHand|)..] == drawn;
    }

    /** double_down and _complete_double_down: refuse unless doubling is still
        allowed and the bet does not exceed the balance; otherwise double the
        bet, draw exactly one card, and bust or stand. */
    method DoubleDown(shuffle: seq<Card>) returns (reply: Reply)
      requires Valid() && IsReshuffle(shuffle)
      modifies this
      ensures Valid()
      ensures old(CounterInStep()) ==> CounterInStep()
      ensures !old(DoubleDownEnabled()) ==> reply == Refused(CannotDoubleDown) && unchanged(this)
      ensures old(DoubleDownEnabled()) ==>
        && bet == 2 * old(bet) && insuranceBet == old(insuranceBet)
        && |playerHand| == old(|playerHand|) + 1 && playerHand[..old(|playerHand|)] == old(playerHand)
        && |dealerHand| >= old(|dealerHand|) && dealerHand[..old(|dealerHand|)] == old(dealerHand)
        && Dealt(old(ShoeNow()), shuffle, [playerHand[|playerHand| - 1]] + dealerHand[old(|dealerHand|)..],
                 playerHand + dealerHand, ShoeNow())
        && !canDoubleDown && !canSplit
        && !gameInProgress
        && reply.Proceeded? && reply.status.Over? && reply.status.noFunds == (old(balance) <= 0)
        && (Score(playerHand) > 21 ==>
              reply.status.outcome == Bust && balance == old(balance) - bet && dealerHand == old(dealerHand))
        && (Score(playerHand) <= 21 ==>
              && DealerPlayed(old(dealerHand), dealerHand)
              && reply.status.outcome == Showdown(Score(playerHand), Score(dealerHand))
              && balance == old(balance) + Payout(reply.status.outcome, bet))
    {
      if !canDoubleDown || bet > balance {
        reply := Refused(CannotDoubleDown);
        return;
      }
      bet := bet * 2;
      var status := CompleteDoubleDown(shuffle);
      reply := Proceeded(status);
    }

    /** _complete_double_down: the one card, then bust or stand. */
    method CompleteDoubleDown(shuffle: seq<Card>) returns (status: RoundStatus)
      requires Valid() && IsReshuffle(shuffle)
      modifies this
      ensures Valid()
      ensures |playerHand| == old(|playerHand|) + 1 && playerHand[..old(|playerHand|)] == old(playerHand)
      ensures |dealerHand| >= old(|dealerHand|) && dealerHand[..old(|dealerHand|)] == old(dealerHand)
      ensures Dealt(old(ShoeNow()), shuffle, [playerHand[|playerHand| - 1]] + dealerHand[old(|dealerHand|)..],
                    playerHand + dealerHand, ShoeNow())
      ensures old(CounterInStep()) ==> CounterInStep()
      ensures !canDoubleDown && !canSplit
      ensures bet == old(bet) && insuranceBet == old(insuranceBet)
      ensures !gameInProgress
      ensures status.Over? && status.noFunds == (old(balance) <= 0)
      ensures Score(playerHand) > 21 ==>
        status.outcome == Bust && balance == old(balance) - bet && dealerHand == old(dealerHand)
      ensures Score(playerHand) <= 21 ==>
        && DealerPlayed(old(dealerHand), dealerHand)
        && status.outcome == Showdown(Score(playerHand), Score(dealerHand))
        && balance == old(balance) + Payout(status.outcome, bet)
    {
      TakePlayerCard(shuffle);
      ghost var s1 := ShoeNow();
      ghost var card := playerHand[|playerHand| - 1];
      assert dealerHand[old(|dealerHand|)..] == [];
      var playerScore := CalculateScore(playerHand);
      if playerScore > 21 {
        status := PlayerBust();
        DealtDiscard(old(ShoeNow()), shuffle, [card], [], s1, playerHand + dealerHand);
        assert [card] + dealerHand[old(|dealerHand|)..] == [card];
        assert [] + (playerHand + dealerHand) == playerHand + dealerHand;
      } else {
        status := Stand(shuffle);
        DealtThen(old(ShoeNow()), shuffle, [card], s1, dealerHand[old(|dealerHand|)..], playerHand + dealerHand, ShoeNow());
      }
    }

    /** take_insurance: a side bet of half the bet, refused when it exceeds
        what the balance holds beyond the bet; it is settled at once, won if
        the dealer holds blackjack and lost otherwise. Whether the dealer shows
        an ace, and whether insurance was already taken, is left to the button
        that calls this. */
    method TakeInsurance() returns (verdict: Verdict)
      requires Valid()
      modifies this
      ensures Valid()
      ensures verdict == Allowed <==> old(bet) / 2 <= old(balance) - old(bet)
      ensures verdict.Denied? ==> verdict.reason == CannotAffordInsurance && unchanged(this)
      ensures verdict == Allowed ==>
        && insuranceBet == bet / 2
        && balance == old(balance) + (if IsBlackjack(dealerHand) then insuranceBet else -insuranceBet)
        && balance >= bet
        && bet == old(bet)
        && playerHand == old(playerHand) && dealerHand == old(dealerHand)
        && FlagsKept() && ShoeKept()
    {
      var insuranceAmount := bet / 2;
      if insuranceAmount > balance - bet {
        verdict := Denied(CannotAffordInsurance);
        return;
      }
      insuranceBet := insuranceAmount;
      if IsBlackjack(dealerHand) {
        balance := balance + insuranceAmount;
      } else {
        balance := balance - insuranceAmount;
      }
      verdict := Allowed;
    }

    /** split_hand: splitting is not implemented; the command only reports so. */
    method SplitHand() returns (verdict: Verdict)
      ensures verdict == Denied(SplitUnavailable)
    {
      verdict := Denied(SplitUnavailable);
    }

    // -------------------------------------------------------------------------
    // Resets

    /** reset_game: no bet, no round, no hands; the shoe, the discard pile,
        the counter and the balance stay. */
    method ResetGame()
      modifies this
      ensures bet == 0 && insuranceBet == 0
      ensures !gameInProgress && !canDoubleDown && !canSplit
      ensures playerHand == [] && dealerHand == []
      ensures unchanged(this`balance, this`deck, this`discardPile, this`runningCount, this`cardsSeen)
      ensures unchanged(this`sinceShuffle, this`counted)
    {
      bet := 0;
      insuranceBet := 0;
      gameInProgress := false;
      canDoubleDown := false;
      canSplit := false;
      playerHand := [];
      dealerHand := [];
    }

    /** reset_balance: back to the starting balance with a fresh counter and
        an empty discard pile, then reset_game. The shoe is not rebuilt, so
        from here on the counter covers only the cards drawn after the reset. */
    method ResetBalance()
      requires Valid()
      modifies this
      ensures Valid()
      ensures balance == StartingBalance && bet == 0 && insuranceBet == 0
      ensures !gameInProgress && !canDoubleDown && !canSplit
      ensures playerHand == [] && dealerHand == []
      ensures runningCount == 0 && cardsSeen == 0 && discardPile == []
      ensures deck == old(deck) && sinceShuffle == old(sinceShuffle)
    {
      CounterResetValid(shoeContents, deck, sinceShuffle, counted, runningCount, cardsSeen);
      balance := StartingBalance;
      runningCount := 0;
      cardsSeen := 0;
      counted := [];
      discardPile := [];
      ResetGame();
    }

    /** new_game: with no money left, reset the balance; otherwise reset_game. */
    method NewGame()
      requires Valid()
      modifies this
      ensures Valid()
      ensures bet == 0 && insuranceBet == 0
      ensures !gameInProgress && !canDoubleDown && !canSplit
      ensures playerHand == [] && dealerHand == []
      ensures deck == old(deck)
      ensures old(balance) <= 0 ==>
        balance == StartingBalance && runningCount == 0 && cardsSeen == 0 && discardPile == []
      ensures old(balance) > 0 ==>
        balance == old(balance) && ShoeKept() && (old(CounterInStep()) ==> CounterInStep())
    {
      if balance <= 0 {
        ResetBalance();
        return;
      }
      ResetGame();
    }
  }

  /** Four cards whose reversal ends a shoe of 208 are its top four, the top
      card first. */
  lemma TopFour(shoe: seq<Card>, rest: seq<Card>, cards: seq<Card>)
    requires |shoe| == NumDecks * 52 && |cards| == 4 && rest + Reversed(cards) == shoe
    ensures cards == [shoe[207], shoe[206], shoe[205], shoe[204]]
    ensures rest == shoe[..204]
  {
    var one, two, three := [cards[0]], [cards[0], cards[1]], [cards[0], cards[1], cards[2]];
    assert one[..0] == [] && two[..1] == one && three[..2] == two && cards[..3] == three;
    assert Reversed(one) == [cards[0]];
    assert Reversed(two) == [cards[1], cards[0]];
    assert Reversed(three) == [cards[2], cards[1], cards[0]];
    assert shoe[204..] == Reversed(cards);
  }

  /** The first round of a session: the four cards dealt are the top four of
      the shuffled shoe, player, dealer, player, dealer; the counter has
      counted exactly them; and the count is minus that of the cards left. */
  method FirstDeal(shuffle: seq<Card>, amount: int) returns (cards: seq<Card>, left: int, runningCount: int, cardsSeen: int)
    requires IsShuffledShoe(shuffle) && 1 <= amount <= StartingBalance
    ensures |shuffle| == NumDecks * 52
    ensures cards == [shuffle[207], shuffle[206], shuffle[205], shuffle[204]]
    ensures left == NumDecks * 52 - 4
    ensures runningCount == HiLoSum(cards) && cardsSeen == 4
    ensures runningCount == -HiLoSum(shuffle[..204])
  {
    ShuffledShoeLength(shuffle);
    var app := new BlackjackApp(shuffle);
    ghost var s0 := app.ShoeNow();
    var reply := app.QuickBet(amount, shuffle);
    cards := [app.playerHand[0], app.dealerHand[0], app.playerHand[1], app.dealerHand[1]];
    ghost var discarded := if IsBlackjack(app.playerHand) then app.playerHand + app.dealerHand else [];
    DealtFromTop(s0, shuffle, cards, discarded, app.ShoeNow());
    TopFour(shuffle, app.deck, cards);
    left := |app.deck|;
    runningCount := app.runningCount;
    cardsSeen := app.cardsSeen;
    app.CountTracksShoe();
  }
}
