/**
 * Drawing cards: BlackjackLogic.hit and BlackjackLogic.initial_deal
 * (blackjack_logic.py:126-158). The deck is a list shared by reference and
 * changed in place, so it is an object here; the random choice of a card
 * is a nondeterministic choice of any card of the deck.
 */
module Dealing {
  import opened Wrappers
  import opened Cards
  import opened Participants

  /** A list of cards that `remove` changes in place. */
  class Deck {
    var cards: seq<Card>

    constructor (cards: seq<Card>)
      ensures this.cards == cards
    {
      this.cards := cards;
    }
  }

  /**
   * `random_card = choice(deck); deck.remove(random_card)`: any card of the
   * deck, removed at its first occurrence. An empty deck makes `choice`
   * raise, so the deck must not be empty.
   */
  method DrawOne(deck: Deck) returns (card: Card)
    requires deck.cards != []
    modifies deck`cards
    ensures card in old(deck.cards) && deck.cards == RemoveFirst(old(deck.cards), card)
    ensures |deck.cards| == old(|deck.cards|) - 1
    ensures multiset(deck.cards) + multiset{card} == old(multiset(deck.cards))
  {
    assert deck.cards[0] in deck.cards;
    card :| card in deck.cards;
    RemoveFirstCount(deck.cards, card);
    deck.cards := RemoveFirst(deck.cards, card);
  }

  /**
   * hit: `count` times, a card drawn from the deck is appended to the hand;
   * no other field of the participant changes. The deck must hold the cards
   * asked for. `drawn` are the cards in drawing order.
   */
  method Hit(p: Participant, deck: Deck, count: nat) returns (ghost drawn: seq<Card>)
    requires count <= |deck.cards|
    modifies p`cards, deck`cards
    ensures |drawn| == count
    ensures p.cards == old(p.cards) + drawn
    ensures |deck.cards| == old(|deck.cards|) - count
    ensures multiset(deck.cards) + multiset(drawn) == old(multiset(deck.cards))
  {
    drawn := [];
    for i := 0 to count
      invariant |drawn| == i
      invariant p.cards == old(p.cards) + drawn
      invariant |deck.cards| == old(|deck.cards|) - i
      invariant multiset(deck.cards) + multiset(drawn) == old(multiset(deck.cards))
    {
      var card := DrawOne(deck);
      p.cards := p.cards + [card];
      drawn := drawn + [card];
    }
  }

  /** The hands of a list of participants. */
  function HandsOf(ps: seq<Participant>): (r: seq<seq<Card>>)
    reads set p | p in ps
    ensures |r| == |ps| && forall i :: 0 <= i < |ps| ==> r[i] == ps[i].cards
  {
    if ps == [] then [] else HandsOf(ps[..|ps| - 1]) + [ps[|ps| - 1].cards]
  }

  /** One card to each player in turn, as each of the two passes of initial_deal does. */
  method DealEach(players: seq<Participant>, deck: Deck) returns (ghost drawn: seq<Card>)
    requires Distinct(players)
    requires |players| <= |deck.cards|
    modifies (set p | p in players)`cards, deck`cards
    ensures EachGotOne(old(HandsOf(players)), HandsOf(players), drawn)
    ensures |deck.cards| == old(|deck.cards|) - |players|
    ensures multiset(deck.cards) + multiset(drawn) == old(multiset(deck.cards))
  {
    drawn := [];
    for i := 0 to |players|
      invariant |drawn| == i
      invariant |deck.cards| == old(|deck.cards|) - i
      invariant multiset(deck.cards) + multiset(drawn) == old(multiset(deck.cards))
      invariant forall j :: 0 <= j < i ==> players[j].cards == old(players[j].cards) + [drawn[j]]
      invariant forall j :: i <= j < |players| ==> players[j].cards == old(players[j].cards)
    {
      var d := Hit(players[i], deck, 1);
      Joined(deck.cards, drawn, d);
      drawn := drawn + d;
    }
  }

  /** Each hand of `before` has one more card in `after`: the one at its position in `drawn`. */
  predicate EachGotOne(before: seq<seq<Card>>, after: seq<seq<Card>>, drawn: seq<Card>) {
    && |before| == |after| == |drawn|
    && forall j :: 0 <= j < |before| ==> after[j] == before[j] + [drawn[j]]
  }

  /**
   * The order of initial_deal as positions in `draws`: with n players,
   * draws[i] and draws[n + 1 + i] go to player i, draws[n] is the upcard
   * and draws[2n + 1] the hole card.
   */
  predicate DealtInOrder(before: seq<seq<Card>>, after: seq<seq<Card>>, draws: seq<Card>) {
    var n := |before|;
    && |after| == n && |draws| == 2 * n + 2
    && forall i :: 0 <= i < n ==> after[i] == before[i] + [draws[i], draws[n + 1 + i]]
  }

  /**
   * initial_deal: one card to each player, the upcard to the dealer, a
   * second card to each player, then the hole card, which is removed from
   * the deck but kept apart from the dealer's cards. Only hands, the hole
   * card and the deck change, and the table keeps every card it had.
   */
  method InitialDeal(players: seq<Participant>, dealer: Participant, deck: Deck) returns (ghost draws: seq<Card>)
    requires Distinct(players) && dealer !in players
    requires 2 * |players| + 2 <= |deck.cards|
    modifies (set p | p in players)`cards, dealer`cards, dealer`holeCard, deck`cards
    ensures DealtInOrder(old(HandsOf(players)), HandsOf(players), draws)
    ensures dealer.cards == old(dealer.cards) + [draws[|players|]]
    ensures dealer.holeCard == Some(draws[2 * |players| + 1])
    ensures |deck.cards| == old(|deck.cards|) - (2 * |players| + 2)
    ensures multiset(deck.cards) + multiset(draws) == old(multiset(deck.cards))
    ensures old(dealer.holeCard) == None ==>
              TableCards(HandsOf(players), dealer.cards, dealer.holeCard) + multiset(deck.cards) ==
              old(TableCards(HandsOf(players), dealer.cards, dealer.holeCard) + multiset(deck.cards))
  {
    ghost var h0, deck0, dc0 := HandsOf(players), deck.cards, dealer.cards;
    var first := DealEach(players, deck);
    ghost var h1, deck1 := HandsOf(players), deck.cards;
    var up := Hit(dealer, deck, 1);
    ghost var deck2, dc2 := deck.cards, dealer.cards;
    assert HandsOf(players) == h1;
    var second := DealEach(players, deck);
    ghost var h3, deck3 := HandsOf(players), deck.cards;
    assert dealer.cards == dc2;
    var hole := DealHoleCard(dealer, deck);
    draws := first + up + second + [hole];
    assert HandsOf(players) == h3;
    Conserved(deck0, deck1, deck2, deck3, deck.cards, first, up, second, [hole]);
    DealOrder(h0, h1, h3, first, up, second, hole);
    assert up == [draws[|players|]];
    TableConserved(h0, h3, dc0, deck0, deck.cards, draws);
  }

  /** What the deal takes from the deck is what it puts on the table. */
  lemma TableConserved(h0: seq<seq<Card>>, h3: seq<seq<Card>>, dc0: seq<Card>,
                       deck0: seq<Card>, deck4: seq<Card>, draws: seq<Card>)
    requires DealtInOrder(h0, h3, draws)
    requires multiset(deck4) + multiset(draws) == multiset(deck0)
    ensures TableCards(h3, dc0 + [draws[|h0|]], Some(draws[2 * |h0| + 1])) + multiset(deck4) ==
            TableCards(h0, dc0, None) + multiset(deck0)
  {
    var n := |h0|;
    HeldGrows(h0, h3, draws);
    assert multiset(dc0 + [draws[n]]) == multiset(dc0) + multiset{draws[n]};
    Moved(Held(h0), Held(h3), multiset(dc0), multiset{draws[n]}, multiset{draws[2 * n + 1]},
          multiset(deck4), multiset(draws));
  }

  lemma Moved(h0: multiset<Card>, h3: multiset<Card>, dealt: multiset<Card>, up: multiset<Card>,
              hole: multiset<Card>, rest: multiset<Card>, draws: multiset<Card>)
    requires h3 + up + hole == h0 + draws
    ensures h3 + (dealt + up) + hole + rest == h0 + dealt + multiset{} + (rest + draws)
  {
    calc {
      h3 + (dealt + up) + hole + rest;
      (h3 + up + hole) + dealt + rest;
      (h0 + draws) + dealt + rest;
      h0 + dealt + multiset{} + (rest + draws);
    }
  }

  /** The dealer's second card is drawn face down and kept apart from the dealer's cards. */
  method DealHoleCard(dealer: Participant, deck: Deck) returns (hole: Card)
    requires deck.cards != []
    modifies dealer`holeCard, deck`cards
    ensures dealer.holeCard == Some(hole)
    ensures |deck.cards| == old(|deck.cards|) - 1
    ensures multiset(deck.cards) + multiset([hole]) == old(multiset(deck.cards))
  {
    hole := DrawOne(deck);
    assert multiset([hole]) == multiset{hole};
    dealer.holeCard := Some(hole);
  }

  /** The two passes, the upcard and the hole card make up the deal order. */
  lemma DealOrder(h0: seq<seq<Card>>, h1: seq<seq<Card>>, h3: seq<seq<Card>>,
                  first: seq<Card>, up: seq<Card>, second: seq<Card>, hole: Card)
    requires EachGotOne(h0, h1, first) && EachGotOne(h1, h3, second) && |up| == 1
    ensures DealtInOrder(h0, h3, first + up + second + [hole])
    ensures (first + up + second + [hole])[|h0|] == up[0]
    ensures (first + up + second + [hole])[2 * |h0| + 1] == hole
  {
    var n, draws := |h0|, first + up + second + [hole];
    forall j | 0 <= j < n
      ensures h3[j] == h0[j] + [draws[j], draws[n + 1 + j]]
    {
      assert draws[j] == first[j] && draws[n + 1 + j] == second[j];
    }
  }

  lemma Joined(deck: seq<Card>, drawn: seq<Card>, more: seq<Card>)
    ensures multiset(deck) + multiset(drawn + more) == multiset(deck) + multiset(more) + multiset(drawn)
  {
  }

  lemma Conserved(d0: seq<Card>, d1: seq<Card>, d2: seq<Card>, d3: seq<Card>, d4: seq<Card>,
                  a: seq<Card>, b: seq<Card>, c: seq<Card>, e: seq<Card>)
    requires multiset(d1) + multiset(a) == multiset(d0)
    requires multiset(d2) + multiset(b) == multiset(d1)
    requires multiset(d3) + multiset(c) == multiset(d2)
    requires multiset(d4) + multiset(e) == multiset(d3)
    ensures multiset(d4) + multiset(a + b + c + e) == multiset(d0)
  {
    assert multiset(a + b + c + e) == multiset(a) + multiset(b) + multiset(c) + multiset(e);
  }

  lemma SplitDraws(draws: seq<Card>, n: nat)
    requires |draws| == 2 * n + 2
    ensures multiset(draws) ==
              multiset(draws[..n]) + multiset{draws[n]} + multiset(draws[n + 1..2 * n + 1]) + multiset{draws[2 * n + 1]}
  {
    assert draws == draws[..n] + [draws[n]] + draws[n + 1..2 * n + 1] + [draws[2 * n + 1]];
  }

  /** Every card held at the table: the players' hands, the dealer's cards and the hole card. */
  function TableCards(hands: seq<seq<Card>>, dealerCards: seq<Card>, hole: Option<Card>): multiset<Card> {
    Held(hands) + multiset(dealerCards) + (if hole.Some? then multiset{hole.value} else multiset{})
  }

  /** The cards of several hands, counted together. */
  function Held(hands: seq<seq<Card>>): multiset<Card> {
    if hands == [] then multiset{} else Held(hands[..|hands| - 1]) + multiset(hands[|hands| - 1])
  }

  /** A deal in order adds to the held cards exactly the players' draws. */
  lemma DealtCardsHeld(before: seq<seq<Card>>, after: seq<seq<Card>>, draws: seq<Card>)
    requires DealtInOrder(before, after, draws)
    ensures var n := |before|;
            Held(after) == Held(before) + multiset(draws[..n]) + multiset(draws[n + 1..2 * n + 1])
  {
    var n := |before|;
    HeldGrowsBy(before, after, draws[..n], draws[n + 1..2 * n + 1]);
  }

  /** Two cards more in each hand: the held cards grow by exactly those cards. */
  lemma {:induction false} HeldGrowsBy(before: seq<seq<Card>>, after: seq<seq<Card>>, first: seq<Card>, second: seq<Card>)
    requires |before| == |after| == |first| == |second|
    requires forall i :: 0 <= i < |before| ==> after[i] == before[i] + [first[i], second[i]]
    ensures Held(after) == Held(before) + multiset(first) + multiset(second)
  {
    if before != [] {
      var m := |before| - 1;
      HeldGrowsBy(before[..m], after[..m], first[..m], second[..m]);
      LastCards(first);
      LastCards(second);
      Grown(before[m], first[m], second[m]);
    }
  }

  /** With the hole card slot empty before, the deal moves cards from the deck to the table and no more. */
  lemma HeldGrows(before: seq<seq<Card>>, after: seq<seq<Card>>, draws: seq<Card>)
    requires DealtInOrder(before, after, draws)
    ensures var n := |before|;
            Held(after) + multiset{draws[n]} + multiset{draws[2 * n + 1]} == Held(before) + multiset(draws)
  {
    var n := |before|;
    DealtCardsHeld(before, after, draws);
    SplitDraws(draws, n);
    Rearranged(Held(before), Held(after), multiset(draws[..n]), multiset(draws[n + 1..2 * n + 1]),
               multiset{draws[n]}, multiset{draws[2 * n + 1]});
  }

  lemma Rearranged(h0: multiset<Card>, h1: multiset<Card>, a: multiset<Card>, b: multiset<Card>,
                   up: multiset<Card>, hole: multiset<Card>)
    requires h1 == h0 + a + b
    ensures h1 + up + hole == h0 + (a + up + b + hole)
  {
  }

  lemma LastCards(s: seq<Card>)
    requires s != []
    ensures multiset(s) == multiset(s[..|s| - 1]) + multiset{s[|s| - 1]}
  {
    assert s == s[..|s| - 1] + [s[|s| - 1]];
  }

  lemma Grown(cards: seq<Card>, x: Card, y: Card)
    ensures multiset(cards + [x, y]) == multiset(cards) + multiset{x} + multiset{y}
  {
  }
}
