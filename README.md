# Blackjack engine

This project models the rules engine of a single-player Blackjack desktop game with a four-deck shoe. It leaves out the widgets and keeps the game.

- **Cards** (`cards.dfy`): a card is a rank and a suit.
- **Hand scoring** (`game_logic.py`, in `game_logic.dfy`): `calculate_score` follows the value table with aces worth 11, then brings aces down to 1 while the hand is over 21. `is_blackjack` is a two-card 21.
- **The shoe** (`deck.py`, in `deck.dfy`):
  - the 52-card template, suit by suit and rank by rank;
  - the `NUM_DECKS = 4` shoe built from it;
  - drawing from the top, meaning the end of the list;
  - the deck information record.
- **Counting and advice** (the counting part of `ui.py`, in `counting.dfy`):
  - Hi-Lo weights and the running count over a run of cards;
  - the true count as an exact rational;
  - the two advisory lookups, without their colours.
- **Drawing** (`_draw_card` in `ui.py`, in `shoe.dfy`): a draw as a function on one value holding the shoe, the discard pile, the running count and cards seen.
  - `DrawOne` is one draw: rebuild at 52 cards or fewer, then pop the top card and count it.
  - `Draws` is a run of draws.
  - `Dealt(before, shuffle, cards, discarded, now)` says that a run of draws took exactly `cards`, in order, and `discarded` then went onto the pile.
- **Settlement** (`settlement.dfy`):
  - the outcome of comparing the final hands;
  - what each ending does to the balance;
  - `int(bet * 1.5)`, written as `bet + bet / 2`.
- **The session** (`BlackjackApp` in `ui.py`, in `blackjack_app.dfy`): a class with the program's fields, namely balance, bet, insurance bet, the three round flags, shoe, discard pile, both hands, running count and cards seen.
  - There is one method per callback of the game logic, with three merges: `hit` and `_complete_hit` are `Hit`, `end_game_comparison` and `_show_final_result` are `ShowFinalResult`, and each `_deal_*_1` shares one method with its `_deal_*_2`, the two steps being the same apart from the display.
  - Each chain of timed callbacks (`master.after`) becomes a sequence of direct calls.
  - Hence a command such as `Hit` runs through to the state the chain would finally reach.
  - `ShoeNow()` is the value `DrawOne` works on, read off the fields `deck`, `discardPile`, `runningCount` and `cardsSeen`.
  - Every method that draws or discards states its new `ShoeNow()` through `DrawOne`, `Dealt` or `Discard`, starting from the old one; only `TakeTopCard`, the pop beneath `DrawCard`, gives the fields directly. So the contract fixes exactly which cards each command draws and what the pile holds afterwards.
  - Two ghost fields record the draws:
    - `sinceShuffle`: the cards drawn since the last reshuffle;
    - `counted`: the cards counted since the counter was last zeroed.
  - `Valid()` ties the shoe and the counter to these two records:
    - the shoe holds what the shuffled shoe held, less the cards drawn since;
    - it never has fewer than 52 cards between draws;
    - the running count is the Hi-Lo sum of the counted cards, which are the latest of the cards drawn since the reshuffle.
  - `CounterInStep()` says that the counter has counted every card drawn since the reshuffle.
    - The constructor and every reshuffle establish it.
    - Every method that deals, draws or settles keeps it.
    - Only `reset_balance` breaks it, and the next reshuffle restores it (`DrawCard`).

`random.shuffle` is a parameter. Every command that may draw takes `shuffle`, the order that a reshuffle would give the rebuilt shoe. The constructor takes the order for the first shoe. Any reordering of the fresh shoe is allowed (`IsShuffledShoe`, `IsReshuffle`), and no claim is made about how random it is.

Behaviour kept as the code has it:
- Every settlement path runs `end_game` before changing the balance. The "no money left" flag (`RoundStatus.Over.noFunds`) therefore reflects the balance before the round was settled.
- `double_down` accepts a bet equal to the balance and then doubles it. A lost double can make the balance negative, so no `balance >= 0` invariant is claimed.
- `reset_balance` zeroes the counter and empties the discard pile but does not rebuild the shoe. `Valid()` therefore allows a counter that covers only the later part of the draws since the last reshuffle. The lemmas linking the count to the cards left (`CountTracksShoe`, `TrueCountReflectsShoe`) require `CounterInStep()`.
- `take_insurance` does not check for a dealer ace or for a repeat. Only the button does that.
- `split_hand` only reports that splitting is unavailable.

Two points about scoring and insurance:
- **Score.** The score is the largest total not over 21. When no total is that low, it is the all-aces-as-one total. `ScoreIsBestTotal` and `ScoreOverMeansAllAcesHard` state this.
- **Insurance.** `take_insurance` accepts insurance whatever the up-card. Only the button is gated: it is lit only when the dealer shows an ace (ui.py:461-462), and every hit, stand or double turns it off again (ui.py:651-655).

## Model

| member | source | states |
|---|---|---|
| GameLogic.CalculateScore | game_logic.py:1-14 | the loop returns Score(hand): the value-table sum, less 10 for each ace reduced while the total was over 21 |
| GameLogic.NumAces | game_logic.py:8 | the number of aces is between 0 and the size of the hand |
| GameLogic.HardTotalGrows | game_logic.py:2-8 | with every ace counted as 1, each added card raises the total by at least 1 (why the dealer's loop ends) |
| GameLogic.SoftAdjustFacts | game_logic.py:10-12 | the soft-adjust loop reduces k of the aces, 0 <= k <= their number. The result is the largest such total that is at most 21. Over 21 means every ace was reduced. Any reduction leaves more than 11 |
| GameLogic.ScoreReducesSomeAces | game_logic.py:2-12 | the score is the raw sum (ace 11, face 10) minus 10*k for some 0 <= k <= the number of aces |
| GameLogic.ScoreIsBestTotal | game_logic.py:7-14 | of the totals obtainable by counting some aces as 1, the score is the largest that does not exceed 21; if none does, it is the smallest |
| GameLogic.ScoreWithoutAdjustment | game_logic.py:7-10 | a raw sum of at most 21 is the score unchanged |
| GameLogic.ScoreOverMeansAllAcesHard | game_logic.py:10-12 | a score over 21 is the all-aces-as-one total |
| GameLogic.ScoreAtLeastHardTotal | game_logic.py:10-12 | the score is never below the all-aces-as-one total |
| GameLogic.ScoreBustIff | game_logic.py:10-12 | score <= 21 exactly when the all-aces-as-one total is <= 21 |
| GameLogic.ScoreAfterReductionAboveEleven | game_logic.py:10-12 | if at least one ace was reduced, the score is over 11 |
| GameLogic.ScoreIgnoresOrder | game_logic.py:7-12 | two hands holding the same cards in any order score the same |
| GameLogic.TwoAcesAndNineMakeTwentyOne | game_logic.py:2-12 | [ace, ace, 9] scores 21 |
| GameLogic.TwoAcesMakeTwelve | game_logic.py:2-12 | [ace, ace] scores 12 |
| GameLogic.Score | game_logic.py:1-14 | the definition calculate_score computes: the value-table total, then the soft-adjust of SoftAdjust. Its properties are the lemmas below |
| GameLogic.IsBlackjack | game_logic.py:16-17 | the definition of is_blackjack: a two-card hand scoring 21. BlackjackIsAceAndTen characterizes it |
| GameLogic.BlackjackIsAceAndTen | game_logic.py:16-17 | is_blackjack holds exactly for two cards, an ace and a ten-valued card |
| GameLogic.BlackjackExamples | game_logic.py:16-17 | [ace, king] is a blackjack; [7, 7, 7] scores 21 but is not one |
| Deck.SingleDeckTemplate | deck.py:12-14 | the definition of single_deck_template: the 52 cards suit by suit, rank by rank. Its properties are the three rows below |
| Deck.TemplateLength | deck.py:12-14 | the template has 52 cards |
| Deck.TemplateAt | deck.py:14 | card (r, s) sits at position 13 * (index of s) + (index of r): suit by suit, rank by rank |
| Deck.TemplateHasEachCardOnce | deck.py:12-14 | every (rank, suit) pair occurs exactly once in the template |
| Deck.FreshShoe | deck.py:16-21 | the definition of the unshuffled shoe: NUM_DECKS copies of the template. CreateDeck builds it, and its properties are the rows below |
| Deck.CreateDeck | deck.py:16-21 | the loop of extends builds FreshShoe(), of NUM_DECKS * 52 cards |
| Deck.FreshShoeLength | deck.py:16-21 | the shoe holds NUM_DECKS * 52 = 208 cards |
| Deck.FreshShoeIsFourTemplates | deck.py:18-20 | the shoe is the template four times over, unshuffled |
| Deck.FreshShoeAt | deck.py:19-20 | card i of the shoe is card i % 52 of the template |
| Deck.FreshShoeHasEachCardNumDecksTimes | deck.py:18-20 | every (rank, suit) pair occurs exactly NUM_DECKS times |
| Deck.FreshShoeHasEachRankSixteenTimes | deck.py:10-20 | every rank occurs 16 times in the shoe |
| Deck.ShoeContentsCharacterized | deck.py:16-21 | a collection of cards holds every card exactly NUM_DECKS times exactly when it is the fresh shoe's contents: the shuffled shoes are its reorderings |
| Deck.DrawFromTop | deck.py:23-25 | drawing from a non-empty list takes its last card and leaves the first n-1; the multiset is split accordingly |
| Deck.GetDeckInfo | deck.py:27-34 | num_decks = 4, cards_per_deck = 52 and total_cards = cards_per_deck * num_decks = the size of the fresh shoe |
| Counting.RankWeight | ui.py:319-324 | the Hi-Lo weight of a rank: +1 for 2 to 6, -1 for 10, J, Q, K and A, 0 for 7 to 9. UpdateCardCount is proved to add it |
| Counting.HiLo | ui.py:316-324 | the Hi-Lo weight of a card is that of its rank |
| Counting.RanksBalance | ui.py:321-324 | over the thirteen ranks the Hi-Lo weights sum to 0 |
| Counting.TemplateBalanced | ui.py:314-324 | counting a whole 52-card deck brings the running count back to 0 |
| Counting.FreshShoeBalanced | ui.py:314-324 | counting the whole 208-card shoe brings the running count back to 0 |
| Counting.ShuffledShoeBalanced | ui.py:314-324 | the same holds for every reordering of the shoe |
| Counting.TrueCount | ui.py:326-330 | running_count / max(cards/52, 0.5) is running_count * 52 / max(cards, 26); it is 0 exactly when the running count is 0 and positive exactly when it is positive |
| Counting.AdvantageText | ui.py:332-347 | the tests >= 3, >= 2, >= 1, <= -3, <= -2, <= -1 in that order give each label its band of true counts, and the bands cover every count |
| Counting.BettingSuggestion | ui.py:349-360 | the tests >= 3, >= 2, >= 1, <= -2 in that order give each suggestion its band, and the bands cover every count |
| Counting.AdvantageMonotone | ui.py:332-347 | a higher true count never gives a worse advantage label |
| Counting.AdviceTablesAgree | ui.py:332-360 | the two lookups agree band for band: MIN BET ONLY is exactly VERY BAD or UNFAVORABLE, and the standard bet is exactly House Edge or Neutral |
| Counting.ZeroCountIsNeutral | ui.py:326-360 | a running count of 0 gives true count 0, Neutral and the standard bet |
| Settlement.ThreeToTwo | ui.py:470 | int(bet * 1.5) for a whole bet: 2r <= 3 * bet < 2r + 2 |
| Settlement.Showdown | ui.py:590-605 | the definition of the outcome: the dealer busting is tested first, then the two scores are compared |
| Settlement.Payout | ui.py:467-605 | the definition of each ending's balance change: 3:2 for a blackjack, nothing for a push or tie, +bet for a win, -bet for a loss or bust. ShowdownPayout and PayoutBounds state its properties |
| Settlement.ShowdownPayout | ui.py:590-605 | the bet is won exactly when the dealer busts or is beaten, lost exactly when the dealer stands higher, and pushed exactly on equal standing scores |
| Settlement.ShowdownSymmetric | ui.py:598-605 | between two standing hands, swapping the scores swaps a win for a loss and keeps a tie |
| Settlement.PayoutBounds | ui.py:467-605 | no ending takes more than the bet or pays more than 3:2 |
| Shoe.DrawOne | ui.py:298-312 | the definition of one draw: at RESHUFFLE_THRESHOLD = 52 cards or fewer, the shoe becomes the shuffled fresh shoe with an empty pile and a zeroed counter. Then the last card is popped and counted |
| Shoe.Draws | ui.py:298-312 | n draws in a row yield exactly n cards, the first drawn first |
| Shoe.DrawTakesTopCard | ui.py:300-311 | a draw takes the top card of the shoe, or of the rebuilt shoe at the threshold. The pile is kept or cleared, and the counter adds the card's weight to its old value or to 0 |
| Shoe.PopIsDraw | ui.py:310-311 | above the threshold, popping the last card and counting it is exactly a draw |
| Shoe.DrawsFromTop | ui.py:298-312 | while the shoe stays above the threshold, n draws take its top n cards: the shoe left, followed by the cards in reverse, is the old shoe. The pile is unchanged, and the counter adds the Hi-Lo sum of the cards and n |
| Shoe.DrawsConcat | ui.py:298-312 | m + n draws are m draws followed by n more |
| Shoe.DealtFromTop | ui.py:298-312 | a run of draws from a shoe with enough cards takes its top cards. The pile gains only what was discarded, and the counter counts every card drawn |
| App.BlackjackApp.constructor | ui.py:35-64 | the starting state: balance 1000, no bet, no round, shoe in the shuffled order, empty pile and hands, counter 0, total_cards 208 and num_decks 4 from get_deck_info, then reset_game |
| App.BlackjackApp.CountTracksShoe | ui.py:298-324 | under CounterInStep(), the running count is minus the Hi-Lo sum of the cards left in the shoe, and cards seen plus cards left is 208 |
| App.BlackjackApp.UpdateCardCount | ui.py:314-324 | cards_seen + 1; running_count + 1 for 2-6, - 1 for 10, J, Q, K, A, unchanged for 7-9; nothing else changes |
| App.BlackjackApp.CalculateTrueCount | ui.py:326-330 | the true count of the current shoe, positive exactly when the running count is |
| App.BlackjackApp.TrueCountReflectsShoe | ui.py:326-330 | while the counter is in step with the shoe, the true count is positive exactly when the cards left hold more tens and aces than low cards, and 0 exactly when they balance |
| App.BlackjackApp.DrawCard | ui.py:298-312 | the new shoe, pile and counter and the card drawn are exactly DrawOne of the old ones: the top card is popped and counted, after a rebuild from the shuffled fresh shoe at 52 cards or fewer. The shoe then has 207 cards after a reshuffle and one fewer otherwise. A reshuffle puts the counter back in step, and a counter in step stays so. Money, flags and hands are unchanged |
| App.BlackjackApp.Reshuffle | ui.py:300-305 | the rebuilt shoe is the shuffled order of 208 cards; discard pile, running count and cards seen are cleared |
| App.BlackjackApp.TakeTopCard | ui.py:310-311 | on a shoe of more than 52 cards: the last card is removed and counted, and the invariant is kept |
| App.BlackjackApp.ValidateBet | ui.py:375-386 | refuses in the order: round in progress, amount over the balance, amount under 1; accepts exactly when none applies |
| App.BlackjackApp.QuickBet | ui.py:388-395 | a refused bet changes nothing and reports the reason. On an accepted bet, bet is set to amount and the round is dealt as RoundDealt states. The four cards are the next four draws from the shoe, dealt player, dealer, player, dealer. The split flag is set and doubling is on. A player blackjack is settled at once with both hands discarded |
| App.BlackjackApp.StartNewRound | ui.py:397-410 | the round is opened and dealt as RoundDealt states: exactly the next four draws, and a discard only on a player blackjack. The bet is kept |
| App.BlackjackApp.OpenRound | ui.py:399-406 | round in progress, no insurance, doubling allowed, no split, empty hands; nothing else changes |
| App.BlackjackApp.DealInitialCards | ui.py:412-419 | two cards each. Dealt states that the player's first, the dealer's first, the player's second and the dealer's second are the next four draws from the shoe, in that order, with nothing discarded. Money and flags are unchanged |
| App.BlackjackApp.DealPair | ui.py:415-416 | one pass of the deal: the next two draws go to the player, then the dealer |
| App.BlackjackApp.DealPlayerCard | ui.py:421-426 | the next draw from the shoe is appended to the player's hand (also _deal_player_card_2, ui.py:434-438). The dealer's hand, money and flags are unchanged |
| App.BlackjackApp.DealDealerCard | ui.py:428-432 | the next draw from the shoe is appended to the dealer's hand (also _deal_dealer_card_2, ui.py:440-444). The player's hand, money and flags are unchanged |
| App.BlackjackApp.FinishInitialDeal | ui.py:446-465 | can_split is whether the two player cards share a rank. A player blackjack ends the round (a push against a dealer blackjack, else 3:2), and the pile gains exactly both hands. Otherwise the shoe, pile and counter are unchanged and play continues with insurance offered exactly when the up-card is an ace |
| App.BlackjackApp.NoteSplit | ui.py:449-450 | can_split is whether the player's two cards share a rank |
| App.BlackjackApp.SettleNaturals | ui.py:453-458 | a player blackjack is a push against a dealer blackjack and otherwise wins 3:2; the round is over and the hands are discarded |
| App.BlackjackApp.EndGame | ui.py:607-623 | the round is over, both hands are appended to the discard pile and nothing else about the shoe or counter changes, and the no-funds flag is whether the balance, as it stands then, is at most 0 |
| App.BlackjackApp.CloseRound | ui.py:607-619 | end_game followed by the caller's balance change; the no-funds flag sees the balance before that change |
| App.BlackjackApp.PlayerBlackjackWin | ui.py:467-470 | end_game, then balance + int(bet * 1.5) |
| App.BlackjackApp.PlayerBust | ui.py:499-502 | end_game, then balance - bet |
| App.BlackjackApp.ShowFinalResult | ui.py:580-605 | outcome is Showdown of the two scores (dealer bust first, then the comparison); balance changes by Payout of it; round over, hands discarded |
| App.BlackjackApp.Hit | ui.py:472-497 | the player's card, then any the dealer takes, are exactly the next draws from the shoe. The pile gains both hands when the round ends on 21 or more and nothing otherwise. Doubling and splitting become illegal; over 21 loses the bet; exactly 21 stands, so the dealer plays and the hands are compared; under 21 the player keeps the turn with the money unchanged |
| App.BlackjackApp.TakePlayerCard | ui.py:483-486 | the next draw from the shoe goes to the player; can_double_down and can_split become false |
| App.BlackjackApp.Stand | ui.py:504-510 | the dealer draws while under 17 and ends at 17 or more; the cards added are exactly the next draws from the shoe; then the round is settled by Showdown and the pile gains exactly both hands |
| App.BlackjackApp.DealerPlaySequence | ui.py:512-527 | as Stand: the dealer's hand extends the old one, each card drawn while the hand scored under 17, the cards added are exactly the next draws, final score >= 17, then settlement with both hands discarded |
| App.BlackjackApp.DealerDraws | ui.py:514-524 | the loop keeps the old hand as a prefix, draws only while the score is under 17, stops at 17 or more and always stops; the cards it adds are exactly the draws it made from the shoe, with nothing discarded |
| App.BlackjackApp.DoubleDown | ui.py:529-540 | refused with nothing changed unless can_double_down and bet <= balance. Otherwise the bet is doubled exactly, the insurance bet is kept and exactly one card is drawn for the player. Then either the player busts and loses the doubled bet, or the dealer plays and the hands are compared. The player's card and the dealer's are exactly the next draws, and the pile gains both hands |
| App.BlackjackApp.CompleteDoubleDown | ui.py:542-555 | the next draw goes to the player, the dealer's cards are the draws after it, the pile gains both hands; flags off; over 21 loses the bet, otherwise the dealer plays and the round is settled |
| App.BlackjackApp.TakeInsurance | ui.py:557-574 | refused with nothing changed exactly when bet // 2 > balance - bet. Otherwise insurance is bet // 2 and the balance moves by +amount against a dealer blackjack, -amount otherwise, leaving balance >= bet |
| App.BlackjackApp.SplitHand | ui.py:576-578 | always reports that splitting is unavailable |
| App.BlackjackApp.ResetGame | ui.py:767-775 | bet and insurance 0, no round, both flags off, empty hands; balance, shoe, pile and counter kept |
| App.BlackjackApp.ResetBalance | ui.py:783-790 | balance 1000, counter 0, empty pile, then reset_game; the shoe is not rebuilt |
| App.BlackjackApp.NewGame | ui.py:760-765 | at a balance of 0 or less, reset_balance; otherwise reset_game with balance, shoe, pile and counter kept (and the counter stays in step if it was) |
| App.BlackjackApp.DoubleDownEnabled | ui.py:643 | the condition under which Double Down is lit: can_double_down and bet <= balance |
| App.BlackjackApp.SplitEnabled | ui.py:646 | the condition under which Split is lit: can_split and bet <= balance |
| App.FirstDeal | ui.py:388-419 | a new session's first accepted bet deals the top four cards of the shuffled shoe, as player, dealer, player, dealer, leaving 204. The counter has counted exactly those four, and its count is minus the Hi-Lo sum of the 204 left |

`Hit` states that after a hit `DoubleDownEnabled` and `SplitEnabled` are both false.

## Left out

- Everything on screen is left out: window and widget construction, card images (`card_image`, `card_thumbnail`), label texts, colours, the count display's number formatting, and the rendering calls (`update_ui`, `update_discard_ui`, `update_counting_display`). Messages are replaced by the `Refusal`, `Verdict`, `Reply` and `RoundStatus` values.
- Timer scheduling (`master.after`) is flattened into direct calls. Time, the event queue and presses made while a chain is pending are not modelled.
- Button states, including `_ready_for_next_game` and the betting-token buttons, are left out. The exception is the two boolean conditions of `enable_game_buttons`. In particular the Insurance button's gating is not modelled: it is lit on a dealer ace, disabled after use and disabled by every action. `TakeInsurance` is therefore callable in any state, as the method itself is.
- `random.shuffle`'s randomness is replaced by a caller-supplied reordering of the fresh shoe.
- A reshuffle takes its order from the same `shuffle` parameter each time. Two reshuffles within one command would need more than 155 draws, which no single command makes.
- `CreateDeck` is proved equal to `FreshShoe()`. The constructor and `Reshuffle` take the already-shuffled order instead of calling it.
- Floating point is not modelled:
  - `int(bet * 1.5)` is taken as the exact `bet + bet // 2`. The two agree on every bet the program can hold there: `_player_blackjack_win` (ui.py:467-470) runs straight after the deal, before any double, and `quick_bet` is called only from the 5, 10 and 20 tokens (ui.py:260-266). For bets from about 3·10^15 the float result can differ;
  - the true count is an exact rational.
- `script.py` (image post-processing) and `utils.py` (widget helpers) are not part of this model.
- App.BlackjackApp.DealPlayerCard and App.BlackjackApp.DealDealerCard each stand for two of the program's four `_deal_*` steps, which differ only in the display.
- App.BlackjackApp.CountTracksShoe: requires `CounterInStep()`. After `reset_balance` the program's own counter is out of step until the next reshuffle, and there the lemma says nothing.
- Splitting a hand is not implemented in the program, so there is nothing to model beyond `SplitHand`'s report.
