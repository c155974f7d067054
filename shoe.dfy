/** What a draw does to the shoe, the discard pile and the Hi-Lo counter
    (_draw_card in ui.py), stated on values so that a run of draws can be
    described by a function of the state it started from. */
module Shoe {
  import opened Cards
  import opened Tally
  import opened Counting

  /** RESHUFFLE_THRESHOLD: a draw from a shoe of this many cards or fewer
      rebuilds the shoe first. */
  const ReshuffleThreshold: nat := 52

  /** The part of the session that drawing changes. The top of the shoe is
      the end of `deck`. */
  datatype ShoeState = ShoeState(deck: seq<Card>, pile: seq<Card>, runningCount: int, cardsSeen: int)

  /** One draw: the state after it and the card it took. */
  datatype Draw = Draw(after: ShoeState, card: Card)

  /** A run of draws: the state after them and the cards, first drawn first. */
  datatype Drawing = Drawing(after: ShoeState, cards: seq<Card>)

  /** _draw_card: at the threshold or below, the shoe becomes `shuffle` (the
      order random.shuffle gives a new shoe) with the pile emptied and the
      counter zeroed; then the top card is popped and counted. */
  function DrawOne(s: ShoeState, shuffle: seq<Card>): Draw
    requires |shuffle| > 0
  {
    var t := if |s.deck| <= ReshuffleThreshold then ShoeState(shuffle, [], 0, 0) else s;
    var card := t.deck[|t.deck| - 1];
    Draw(ShoeState(t.deck[..|t.deck| - 1], t.pile, t.runningCount + HiLo(card), t.cardsSeen + 1), card)
  }

  /** n draws in a row, every reshuffle among them in the order `shuffle`. */
  function Draws(s: ShoeState, shuffle: seq<Card>, n: nat): (d: Drawing)
    requires |shuffle| > 0
    ensures |d.cards| == n
  {
    if n == 0 then Drawing(s, [])
    else
      var before := Draws(s, shuffle, n - 1);
      var one := DrawOne(before.after, shuffle);
      Drawing(one.after, before.cards + [one.card])
  }

  /** Cards added on top of the discard pile. */
  function Discard(s: ShoeState, cards: seq<Card>): ShoeState
  {
    s.(pile := s.pile + cards)
  }

  /** Starting from `before`, the draws took `cards`, in this order, and then
      `discarded` went onto the pile, leaving `now`. */
  ghost predicate Dealt(before: ShoeState, shuffle: seq<Card>, cards: seq<Card>, discarded: seq<Card>, now: ShoeState)
  {
    |shuffle| > 0 &&
    var d := Draws(before, shuffle, |cards|);
    d.cards == cards && now == Discard(d.after, discarded)
  }

  /** The cards first drawn last: the order in which they lay in the shoe,
      from the bottom up. */
  function Reversed(cards: seq<Card>): (r: seq<Card>)
    ensures |r| == |cards|
  {
    if cards == [] then [] else [cards[|cards| - 1]] + Reversed(cards[..|cards| - 1])
  }

  // ---------------------------------------------------------------------------
  // What a draw takes

  /** A draw takes the top card of the shoe, or of the rebuilt shoe when the
      shoe was down to the threshold; the counter adds that card's Hi-Lo
      weight to what it had (or to 0 after a rebuild); the pile is emptied by
      a rebuild and otherwise kept. */
  lemma DrawTakesTopCard(s: ShoeState, shuffle: seq<Card>)
    requires |shuffle| > 0
    ensures var d := DrawOne(s, shuffle);
      var rebuilt := |s.deck| <= ReshuffleThreshold;
      && d.after.deck + [d.card] == (if rebuilt then shuffle else s.deck)
      && d.after.pile == (if rebuilt then [] else s.pile)
      && d.after.runningCount == (if rebuilt then 0 else s.runningCount) + HiLo(d.card)
      && d.after.cardsSeen == (if rebuilt then 0 else s.cardsSeen) + 1
  {
  }

  /** The shoe a draw takes its card from: `shuffle` when the shoe is down to
      the threshold, and the shoe itself otherwise. */
  function Rebuilt(s: ShoeState, shuffle: seq<Card>): (t: ShoeState)
    ensures |s.deck| > ReshuffleThreshold ==> t == s
  {
    if |s.deck| <= ReshuffleThreshold then ShoeState(shuffle, [], 0, 0) else s
  }

  /** Rebuilding first changes nothing about the draw: a full shoe is above
      the threshold, so the draw from it pops its top card. */
  lemma DrawAfterRebuild(s: ShoeState, shuffle: seq<Card>)
    requires |shuffle| > ReshuffleThreshold
    ensures DrawOne(s, shuffle) == DrawOne(Rebuilt(s, shuffle), shuffle)
  {
  }

  /** Above the threshold, popping the top card and counting it is a draw. */
  lemma PopIsDraw(s: ShoeState, shuffle: seq<Card>, card: Card, after: ShoeState)
    requires |shuffle| > 0 && |s.deck| > ReshuffleThreshold
    requires after.deck + [card] == s.deck && after.pile == s.pile
    requires after.runningCount == s.runningCount + HiLo(card) && after.cardsSeen == s.cardsSeen + 1
    ensures DrawOne(s, shuffle) == Draw(after, card)
  {
    assert card == s.deck[|s.deck| - 1] && after.deck == s.deck[..|s.deck| - 1];
  }

  /** While the shoe stays above the threshold, n draws take the top n cards
      (the shoe that is left, followed by the cards in reverse order, is the
      shoe they came from), leave the pile alone and count every card. */
  lemma {:induction false} DrawsFromTop(s: ShoeState, shuffle: seq<Card>, n: nat)
    requires |shuffle| > 0 && |s.deck| >= ReshuffleThreshold + n
    ensures var d := Draws(s, shuffle, n);
      && d.after.deck + Reversed(d.cards) == s.deck
      && |d.after.deck| == |s.deck| - n
      && d.after.pile == s.pile
      && d.after.runningCount == s.runningCount + HiLoSum(d.cards)
      && d.after.cardsSeen == s.cardsSeen + n
  {
    if n > 0 {
      DrawsFromTop(s, shuffle, n - 1);
      var before := Draws(s, shuffle, n - 1);
      var one := DrawOne(before.after, shuffle);
      DrawTakesTopCard(before.after, shuffle);
      var cards := before.cards + [one.card];
      assert Draws(s, shuffle, n) == Drawing(one.after, cards);
      assert cards[..|cards| - 1] == before.cards;
      assert Reversed(cards) == [one.card] + Reversed(before.cards);
      assert one.after.deck + Reversed(cards) == (one.after.deck + [one.card]) + Reversed(before.cards);
      SumOfAppend(before.cards, one.card, HiLo);
    }
  }

  /** A run of m + n draws is a run of m followed by a run of n. */
  lemma {:induction false} DrawsConcat(s: ShoeState, shuffle: seq<Card>, m: nat, n: nat)
    requires |shuffle| > 0
    ensures var first := Draws(s, shuffle, m);
      var second := Draws(first.after, shuffle, n);
      Draws(s, shuffle, m + n) == Drawing(second.after, first.cards + second.cards)
  {
    if n > 0 {
      DrawsConcat(s, shuffle, m, n - 1);
      var first := Draws(s, shuffle, m);
      var second := Draws(first.after, shuffle, n - 1);
      var one := DrawOne(second.after, shuffle);
      assert first.cards + (second.cards + [one.card]) == (first.cards + second.cards) + [one.card];
    } else {
      assert Draws(s, shuffle, m).cards + [] == Draws(s, shuffle, m).cards;
    }
  }

  // ---------------------------------------------------------------------------
  // Composing runs of draws

  lemma DiscardNothing(s: ShoeState)
    ensures Discard(s, []) == s
  {
    assert s.pile + [] == s.pile;
  }

  /** A single draw is a run of one. */
  lemma DealtOne(before: ShoeState, shuffle: seq<Card>, card: Card, now: ShoeState)
    requires |shuffle| > 0 && DrawOne(before, shuffle) == Draw(now, card)
    ensures Dealt(before, shuffle, [card], [], now)
  {
    assert Draws(before, shuffle, 0) == Drawing(before, []);
    DiscardNothing(now);
  }

  /** A run that discards nothing, followed by another run, is one run. */
  lemma DealtThen(s0: ShoeState, shuffle: seq<Card>, a: seq<Card>, s1: ShoeState,
                  b: seq<Card>, discarded: seq<Card>, s2: ShoeState)
    requires Dealt(s0, shuffle, a, [], s1) && Dealt(s1, shuffle, b, discarded, s2)
    ensures Dealt(s0, shuffle, a + b, discarded, s2)
  {
    DiscardNothing(Draws(s0, shuffle, |a|).after);
    DrawsConcat(s0, shuffle, |a|, |b|);
  }

  /** Discarding more cards after a run. */
  lemma DealtDiscard(s0: ShoeState, shuffle: seq<Card>, cards: seq<Card>, x: seq<Card>, s1: ShoeState, y: seq<Card>)
    requires Dealt(s0, shuffle, cards, x, s1)
    ensures Dealt(s0, shuffle, cards, x + y, Discard(s1, y))
  {
    var d := Draws(s0, shuffle, |cards|);
    assert d.after.pile + x + y == d.after.pile + (x + y);
  }

  /** While the shoe stays above the threshold, a run of draws takes the top
      cards of the shoe, counts every one of them, and the pile only gains
      what was discarded. */
  lemma DealtFromTop(s0: ShoeState, shuffle: seq<Card>, cards: seq<Card>, discarded: seq<Card>, s1: ShoeState)
    requires Dealt(s0, shuffle, cards, discarded, s1)
    requires |s0.deck| >= ReshuffleThreshold + |cards|
    ensures s1.deck + Reversed(cards) == s0.deck
    ensures |s1.deck| == |s0.deck| - |cards|
    ensures s1.pile == s0.pile + discarded
    ensures s1.runningCount == s0.runningCount + HiLoSum(cards)
    ensures s1.cardsSeen == s0.cardsSeen + |cards|
  {
    DrawsFromTop(s0, shuffle, |cards|);
  }
}
