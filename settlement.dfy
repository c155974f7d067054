/** How a finished round changes the balance: the outcome of comparing the
    final hands, and what each outcome pays (the settlement paths of
    BlackjackApp in ui.py). */
module Settlement {

  /** Every way a round can end. */
  datatype Outcome =
    | BlackjackWin   // player blackjack against a dealer without one
    | BlackjackPush  // both hold blackjack
    | Bust           // the player went over 21
    | DealerBust     // the dealer went over 21
    | PlayerWins     // higher score than the dealer
    | DealerWins     // lower score than the dealer
    | Tie            // equal scores

  /** int(bet * 1.5) for a whole, non-negative bet: one and a half times the
      bet, rounded down. */
  function ThreeToTwo(bet: int): (r: int)
    requires bet >= 0
    ensures 2 * r <= 3 * bet < 2 * r + 2
  {
    bet + bet / 2
  }

  /** _show_final_result: the dealer busting is tested first, then the
      comparison of scores. */
  function Showdown(playerScore: int, dealerScore: int): Outcome
  {
    if dealerScore > 21 then DealerBust
    else if playerScore > dealerScore then PlayerWins
    else if playerScore < dealerScore then DealerWins
    else Tie
  }

  /** The change to the balance that each ending makes. */
  function Payout(outcome: Outcome, bet: int): int
    requires bet >= 0
  {
    match outcome
    case BlackjackWin => ThreeToTwo(bet)
    case BlackjackPush => 0
    case Bust => -bet
    case DealerBust => bet
    case PlayerWins => bet
    case DealerWins => -bet
    case Tie => 0
  }

  /** A showdown pays the bet exactly when the dealer busts or is beaten,
      takes it exactly when the dealer stands higher, and is a push otherwise. */
  lemma ShowdownPayout(playerScore: int, dealerScore: int, bet: int)
    requires bet > 0
    ensures Payout(Showdown(playerScore, dealerScore), bet) == bet <==>
      dealerScore > 21 || playerScore > dealerScore
    ensures Payout(Showdown(playerScore, dealerScore), bet) == -bet <==>
      dealerScore <= 21 && playerScore < dealerScore
    ensures Payout(Showdown(playerScore, dealerScore), bet) == 0 <==>
      dealerScore <= 21 && playerScore == dealerScore
  {
  }

  /** Between two standing hands the comparison is even-handed: swapping the
      scores swaps a win for a loss and keeps a tie. */
  lemma ShowdownSymmetric(playerScore: int, dealerScore: int)
    requires playerScore <= 21 && dealerScore <= 21
    ensures Showdown(playerScore, dealerScore) == PlayerWins <==> Showdown(dealerScore, playerScore) == DealerWins
    ensures Showdown(playerScore, dealerScore) == Tie <==> Showdown(dealerScore, playerScore) == Tie
  {
  }

  /** No ending takes more than the bet or pays more than 3:2. */
  lemma PayoutBounds(outcome: Outcome, bet: int)
    requires bet >= 0
    ensures -bet <= Payout(outcome, bet) <= ThreeToTwo(bet)
  {
  }
}
