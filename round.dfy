/**
 * One round of the console game, run_blackjack_console
 * (blackjack_logic.py:304-385), without its console I/O. The round is cut
 * where the console waits for input: OpenRound takes the bets (as inputs)
 * and deals, PlayersTurns takes the action tokens (as inputs), and
 * CloseRound plays the dealer's hand, settles and resets.
 */
module Round {
  import opened Wrappers
  import opened Cards
  import opened Hand
  import opened Participants
  import opened Dealing
  import Actions

  /** The records of a list of participants. */
  function StatesOf(ps: seq<Participant>): (r: seq<PState>)
    reads set p | p in ps
    ensures |r| == |ps| && forall i :: 0 <= i < |ps| ==> r[i] == ps[i].State()
  {
    if ps == [] then [] else StatesOf(ps[..|ps| - 1]) + [ps[|ps| - 1].State()]
  }

  // ---------------------------------------------------------------------
  // Opening the round: bets, the deal, the first scores
  // ---------------------------------------------------------------------

  /**
   * The bet recorded for a requested amount (blackjack_logic.py:315): the
   * amount itself when it is not negative and the balance covers it,
   * otherwise nothing is bet.
   */
  function ClampBet(amount: int, money: Money): (bet: int)
    ensures 0 <= bet && (bet == 0 || money.Covers(bet))
    ensures bet == amount || bet == 0
    ensures 0 <= amount && money.Covers(amount) ==> bet == amount
  {
    if 0 <= amount && money.Covers(amount) then amount else 0
  }

  /** The betting loop: each player's bet is the clamped request; nothing else changes. */
  method PlaceBets(players: seq<Participant>, bets: seq<int>)
    requires |bets| == |players| && Distinct(players)
    modifies (set p | p in players)`bet
    ensures forall i :: 0 <= i < |players| ==> players[i].bet == ClampBet(bets[i], players[i].money)
  {
    for i := 0 to |players|
      invariant forall j :: 0 <= j < i ==> players[j].bet == ClampBet(bets[j], players[j].money)
    {
      players[i].bet := ClampBet(bets[i], players[i].money);
    }
  }

  /** process_turn on every player in turn. */
  method ProcessAll(players: seq<Participant>)
    requires Distinct(players)
    modifies set p | p in players
    ensures forall i :: 0 <= i < |players| ==> players[i].State() == AfterProcessTurn(old(players[i].State()))
  {
    for i := 0 to |players|
      invariant forall j :: 0 <= j < i ==> players[j].State() == AfterProcessTurn(old(players[j].State()))
      invariant forall j :: i <= j < |players| ==> players[j].State() == old(players[j].State())
    {
      players[i].ProcessTurn();
    }
  }

  /** `[player for player in players if not player["busted"]]`: the players still in, in seat order. */
  function Unbusted(ps: seq<Participant>): (r: seq<Participant>)
    reads set p | p in ps
    ensures forall i :: 0 <= i < |r| ==> r[i] in ps && !r[i].busted
    ensures |r| <= |ps|
    ensures Distinct(ps) ==> Distinct(r)
  {
    if ps == [] then []
    else
      var last := ps[|ps| - 1];
      Unbusted(ps[..|ps| - 1]) + (if last.busted then [] else [last])
  }

  /** Every player who has not busted is among the players still in. */
  lemma {:induction false} UnbustedCovers(ps: seq<Participant>, i: nat)
    requires i < |ps| && !ps[i].busted
    ensures ps[i] in Unbusted(ps)
  {
    var m := |ps| - 1;
    if i < m {
      UnbustedCovers(ps[..m], i);
      assert ps[..m][i] == ps[i];
    }
  }

  /**
   * A player's record after the opening: the clamped bet, the two cards of
   * the deal, and process_turn.
   */
  function Opened(s: PState, amount: int, first: Card, second: Card): PState {
    AfterProcessTurn(s.(bet := ClampBet(amount, s.money), cards := s.cards + [first, second]))
  }

  /**
   * The round up to the players' turns (blackjack_logic.py:308-330): bets,
   * initial_deal, process_turn on each player, the players still in, and
   * process_turn on the dealer's upcard.
   */
  method OpenRound(players: seq<Participant>, dealer: Participant, deck: Deck, bets: seq<int>)
      returns (remaining: seq<Participant>, ghost draws: seq<Card>)
    requires |bets| == |players| && Distinct(players) && dealer !in players
    requires 2 * |players| + 2 <= |deck.cards|
    modifies (set p | p in players), dealer, deck`cards
    ensures |draws| == 2 * |players| + 2
    ensures forall i :: 0 <= i < |players| ==>
              players[i].State() == Opened(old(players[i].State()), bets[i], draws[i], draws[|players| + 1 + i])
    ensures dealer.State() ==
              AfterProcessTurn(old(dealer.State()).(cards := old(dealer.cards) + [draws[|players|]],
                                                    holeCard := Some(draws[2 * |players| + 1])))
    ensures remaining == Unbusted(players)
    ensures multiset(deck.cards) + multiset(draws) == old(multiset(deck.cards))
    ensures Held(CardsOf(StatesOf(players))) + multiset(dealer.cards) + multiset{draws[2 * |players| + 1]} + multiset(deck.cards) ==
            Held(CardsOf(old(StatesOf(players)))) + multiset(old(dealer.cards)) + old(multiset(deck.cards))
  {
    ghost var before, deck0 := StatesOf(players), deck.cards;
    draws := BetAndDeal(players, dealer, deck, bets);
    ProcessAll(players);
    dealer.ProcessTurn();
    remaining := Unbusted(players);
    DealConserved(before, StatesOf(players), draws, old(dealer.cards), deck0, deck.cards);
  }

  /** Bets, then initial_deal: only the bets, the hands, the hole card and the deck change. */
  method BetAndDeal(players: seq<Participant>, dealer: Participant, deck: Deck, bets: seq<int>) returns (ghost draws: seq<Card>)
    requires |bets| == |players| && Distinct(players) && dealer !in players
    requires 2 * |players| + 2 <= |deck.cards|
    modifies (set p | p in players)`bet, (set p | p in players)`cards, dealer`cards, dealer`holeCard, deck`cards
    ensures |draws| == 2 * |players| + 2
    ensures forall i :: 0 <= i < |players| ==>
              players[i].State() == old(players[i].State()).(bet := ClampBet(bets[i], old(players[i].money)),
                                                             cards := old(players[i].cards) + [draws[i], draws[|players| + 1 + i]])
    ensures dealer.State() == old(dealer.State()).(cards := old(dealer.cards) + [draws[|players|]],
                                                   holeCard := Some(draws[2 * |players| + 1]))
    ensures multiset(deck.cards) + multiset(draws) == old(multiset(deck.cards))
  {
    ghost var s0 := StatesOf(players);
    PlaceBets(players, bets);
    ghost var s1, h1 := StatesOf(players), HandsOf(players);
    draws := InitialDeal(players, dealer, deck);
    ghost var h2 := HandsOf(players);
    forall i | 0 <= i < |players|
      ensures players[i].State() == s0[i].(bet := ClampBet(bets[i], s0[i].money),
                                            cards := s0[i].cards + [draws[i], draws[|players| + 1 + i]])
    {
      assert h2[i] == h1[i] + [draws[i], draws[|players| + 1 + i]];
      assert s1[i] == s0[i].(bet := ClampBet(bets[i], s0[i].money));
    }
  }

  /** On hands that start empty, nobody busts on the deal: two cards never pass 21. */
  lemma NoBustOnTheDeal(s: PState, amount: int, first: Card, second: Card)
    requires s.cards == [] && !s.busted
    ensures !Opened(s, amount, first, second).busted
    ensures Opened(s, amount, first, second).bet == ClampBet(amount, s.money)
    ensures Opened(s, amount, first, second).score == Some(HandScore([first, second]))
  {
    assert s.cards + [first, second] == [first, second];
    TwoCardsNeverBust(first, second);
  }

  // ---------------------------------------------------------------------
  // The players' turns
  // ---------------------------------------------------------------------

  /** The hands, with the hand at `i` grown by `d`, hold `d` more cards. */
  lemma {:induction false} HeldReplace(hands: seq<seq<Card>>, i: nat, d: seq<Card>)
    requires i < |hands|
    ensures Held(hands[i := hands[i] + d]) == Held(hands) + multiset(d)
    decreases |hands|
  {
    var m := |hands| - 1;
    var hands' := hands[i := hands[i] + d];
    assert hands'[..m] == if i < m then hands[..m][i := hands[i] + d] else hands[..m];
    if i < m {
      HeldReplace(hands[..m], i, d);
    }
  }

  /**
   * What a turn keeps: the hand only grows, a processed record stays
   * processed and a busted one stays standing.
   */
  predicate TurnKept(before: PState, after: PState) {
    && before.cards <= after.cards
    && (Processed(before) ==> Processed(after))
    && (BustedStands(before) ==> BustedStands(after))
  }

  /**
   * The players' turns (blackjack_logic.py:333-345): each player still in
   * plays a turn on their own tokens, in seat order. The phase stops at the
   * first turn that does not end with the player standing, where the
   * console would keep waiting for input or raise on the empty deck.
   * `drawn[i]` are the cards player i drew: they are added to that hand
   * and taken from the deck.
   */
  method PlayersTurns(remaining: seq<Participant>, deck: Deck, tokens: seq<seq<string>>)
      returns (ends: seq<Actions.TurnEnd>, ghost drawn: seq<seq<Card>>)
    requires |tokens| == |remaining| && Distinct(remaining)
    modifies (set p | p in remaining), deck`cards
    ensures TurnsSoFar(old(StatesOf(remaining)), old(deck.cards), tokens, ends, drawn, StatesOf(remaining), deck.cards)
    ensures |ends| < |remaining| ==> ends != [] && ends[|ends| - 1] != Actions.Stood
  {
    ends := [];
    ghost var s0, deck0 := StatesOf(remaining), deck.cards;
    ghost var states := s0;
    drawn := seq(|remaining|, _ => []);
    NoTurnsYet(s0, deck0, tokens, drawn);
    var i := 0;
    while i < |remaining|
      invariant i == |ends| && states == StatesOf(remaining)
      invariant TurnsSoFar(s0, deck0, tokens, ends, drawn, states, deck.cards)
      invariant forall j :: 0 <= j < i ==> ends[j] == Actions.Stood
    {
      ghost var before, deckBefore := states, deck.cards;
      var end, d := OneTurn(remaining, i, deck, tokens[i]);
      states := StatesOf(remaining);
      TurnsExtend(s0, deck0, tokens, ends, drawn, before, deckBefore, end, d, states, deck.cards);
      ends, drawn := ends + [end], drawn[i := d];
      if end != Actions.Stood {
        return;
      }
      i := i + 1;
    }
  }

  /**
   * The players' turns so far, from the records `s0` and the deck `deck0`:
   * the first |ends| players have played (all but the last of them ending
   * standing), the others are untouched; each record is the replay of
   * that player's own tokens, and each hand grew by the cards in `drawn`,
   * which left the deck.
   */
  ghost predicate TurnsSoFar(s0: seq<PState>, deck0: seq<Card>, tokens: seq<seq<string>>, ends: seq<Actions.TurnEnd>,
                             drawn: seq<seq<Card>>, states: seq<PState>, deck: seq<Card>) {
    && |ends| <= |s0| == |states| == |drawn| == |tokens|
    && (forall i {:trigger Actions.TurnPlayed(s0[i], tokens[i], drawn[i], states[i])} ::
          0 <= i < |s0| ==> Actions.TurnPlayed(s0[i], tokens[i], drawn[i], states[i]))
    && (forall i :: 0 <= i < |ends| ==> (states[i].stand <==> ends[i] == Actions.Stood))
    && (forall i :: 0 <= i < |ends| - 1 ==> ends[i] == Actions.Stood)
    && (forall i :: |ends| <= i < |s0| ==> states[i] == s0[i] && drawn[i] == [])
    && (forall i :: 0 <= i < |s0| ==> TurnKept(s0[i], states[i]) && states[i].cards == s0[i].cards + drawn[i])
    && multiset(deck) + Held(drawn) == multiset(deck0)
  }

  /** Before any turn nobody has drawn and every record is as it was. */
  lemma NoTurnsYet(s0: seq<PState>, deck0: seq<Card>, tokens: seq<seq<string>>, drawn: seq<seq<Card>>)
    requires |tokens| == |s0| && drawn == seq(|s0|, _ => [])
    ensures TurnsSoFar(s0, deck0, tokens, [], drawn, s0, deck0)
  {
    HeldOfEmpties(drawn);
    forall k | 0 <= k < |s0|
      ensures Actions.TurnPlayed(s0[k], tokens[k], drawn[k], s0[k])
    {
      Actions.NotYetPlayed(s0[k], tokens[k]);
    }
    assert forall k :: 0 <= k < |s0| ==> s0[k].cards + drawn[k] == s0[k].cards;
  }

  lemma TurnsExtend(s0: seq<PState>, deck0: seq<Card>, tokens: seq<seq<string>>, ends: seq<Actions.TurnEnd>,
                    drawn: seq<seq<Card>>, states: seq<PState>, deck: seq<Card>, end: Actions.TurnEnd, d: seq<Card>,
                    states': seq<PState>, deck': seq<Card>)
    requires TurnsSoFar(s0, deck0, tokens, ends, drawn, states, deck) && |ends| < |s0|
    requires forall i :: 0 <= i < |ends| ==> ends[i] == Actions.Stood
    requires var i := |ends|;
             && |states'| == |states|
             && states' == states[i := states'[i]]
             && (states'[i].stand <==> end == Actions.Stood)
             && TurnKept(states[i], states'[i]) && states'[i].cards == states[i].cards + d
             && Actions.TurnPlayed(states[i], tokens[i], d, states'[i])
             && multiset(deck') + multiset(d) == multiset(deck)
    ensures TurnsSoFar(s0, deck0, tokens, ends + [end], drawn[|ends| := d], states', deck')
  {
    var i := |ends|;
    assert drawn[i] == [] && states[i] == s0[i];
    TurnDrawn(drawn, i, d, deck', deck0);
  }

  /** Hands without cards hold nothing. */
  lemma {:induction false} HeldOfEmpties(hands: seq<seq<Card>>)
    requires forall i :: 0 <= i < |hands| ==> hands[i] == []
    ensures Held(hands) == multiset{}
  {
    if hands != [] {
      HeldOfEmpties(hands[..|hands| - 1]);
    }
  }

  /** Recording the cards of one more turn keeps the deck and the drawn cards together. */
  lemma TurnDrawn(drawn: seq<seq<Card>>, i: nat, d: seq<Card>, deck: seq<Card>, deck0: seq<Card>)
    requires i < |drawn| && drawn[i] == []
    requires multiset(deck) + multiset(d) + Held(drawn) == multiset(deck0)
    ensures multiset(deck) + Held(drawn[i := d]) == multiset(deck0)
  {
    assert drawn[i] + d == d;
    HeldReplace(drawn, i, d);
  }

  /** The turn of the player at `i`; the other players are left alone. */
  method OneTurn(remaining: seq<Participant>, i: nat, deck: Deck, tokens: seq<string>) returns (end: Actions.TurnEnd, ghost d: seq<Card>)
    requires i < |remaining| && Distinct(remaining)
    modifies remaining[i], deck`cards
    ensures StatesOf(remaining) == old(StatesOf(remaining))[i := remaining[i].State()]
    ensures remaining[i].stand <==> end == Actions.Stood
    ensures TurnKept(old(remaining[i].State()), remaining[i].State())
    ensures Actions.TurnPlayed(old(remaining[i].State()), tokens, d, remaining[i].State())
    ensures remaining[i].cards == old(remaining[i].cards) + d
    ensures multiset(deck.cards) + multiset(d) == old(multiset(deck.cards))
  {
    ghost var states := StatesOf(remaining);
    end, d := TurnOf(remaining[i], deck, tokens);
    assert StatesOf(remaining) == states[i := remaining[i].State()];
  }

  /**
   * A player's turn, seen from outside: the record is the replay of the
   * player's tokens, and the hand grows by the cards that left the deck.
   */
  method TurnOf(p: Participant, deck: Deck, tokens: seq<string>) returns (end: Actions.TurnEnd, ghost d: seq<Card>)
    modifies p, deck`cards
    ensures Actions.TurnPlayed(old(p.State()), tokens, d, p.State())
    ensures p.stand <==> end == Actions.Stood
    ensures p.cards == old(p.cards) + d
    ensures multiset(deck.cards) + multiset(d) == old(multiset(deck.cards))
    ensures Processed(old(p.State())) ==> Processed(p.State())
    ensures BustedStands(old(p.State())) ==> BustedStands(p.State())
  {
    var used;
    ghost var trace, draws;
    end, used, trace, draws := Actions.PlayerTurn(p, deck, tokens);
    d := Actions.Concat(draws);
    assert Actions.Replayed(tokens, trace, draws) && trace[0] == old(p.State()) && trace[|draws|] == p.State();
  }

  /** The cards held in a list of records. */
  function CardsOf(states: seq<PState>): (hands: seq<seq<Card>>)
    ensures |hands| == |states| && forall i :: 0 <= i < |states| ==> hands[i] == states[i].cards
  {
    seq(|states|, i requires 0 <= i < |states| => states[i].cards)
  }

  /** Hands that each grew by their own cards hold all of those cards more. */
  lemma {:induction false} HeldPointwise(before: seq<seq<Card>>, after: seq<seq<Card>>, drawn: seq<seq<Card>>)
    requires |before| == |after| == |drawn|
    requires forall i :: 0 <= i < |before| ==> after[i] == before[i] + drawn[i]
    ensures Held(after) == Held(before) + Held(drawn)
  {
    if before != [] {
      var m := |before| - 1;
      HeldPointwise(before[..m], after[..m], drawn[..m]);
    }
  }

  /** During the players' turns no card is lost or made: the table and the deck hold what they held. */
  lemma TurnsConserveCards(s0: seq<PState>, deck0: seq<Card>, tokens: seq<seq<string>>, ends: seq<Actions.TurnEnd>,
                           drawn: seq<seq<Card>>, states: seq<PState>, deck: seq<Card>)
    requires TurnsSoFar(s0, deck0, tokens, ends, drawn, states, deck)
    ensures Held(CardsOf(states)) + multiset(deck) == Held(CardsOf(s0)) + multiset(deck0)
  {
    HeldPointwise(CardsOf(s0), CardsOf(states), drawn);
  }

  // ---------------------------------------------------------------------
  // Closing the round: the dealer's hand, settlement, resets
  // ---------------------------------------------------------------------

  /** The dealer draws again while the visible score is below 17 (blackjack_logic.py:359). */
  predicate DealerMustHit(hand: seq<Card>) {
    HandScore(hand) < 17
  }

  /** The hole card is turned over: appended to the dealer's cards, which are then scored (blackjack_logic.py:352-353). */
  method RevealHole(dealer: Participant)
    requires dealer.holeCard.Some?
    modifies dealer
    ensures dealer.State() == AfterProcessTurn(old(dealer.State()).(cards := old(dealer.cards) + [old(dealer.holeCard).value]))
  {
    dealer.cards := dealer.cards + [dealer.holeCard.value];
    dealer.ProcessTurn();
  }

  datatype DealerEnd = DealerDone | ShoeExhausted

  /** Every card in `extra` was drawn while the dealer's hand scored below 17. */
  predicate HitsBelow17(cards: seq<Card>, extra: seq<Card>) {
    forall k :: 0 <= k < |extra| ==> DealerMustHit(cards + extra[..k])
  }

  lemma HitsExtend(cards: seq<Card>, extra: seq<Card>, d: seq<Card>)
    requires HitsBelow17(cards, extra) && DealerMustHit(cards + extra) && |d| == 1
    ensures HitsBelow17(cards, extra + d)
  {
    forall k | 0 <= k < |extra + d|
      ensures DealerMustHit(cards + (extra + d)[..k])
    {
      if k < |extra| {
        assert (extra + d)[..k] == extra[..k];
      } else {
        assert (extra + d)[..k] == extra;
      }
    }
  }

  /**
   * The dealer's forced hits (blackjack_logic.py:357-361): skipped when the
   * dealer is busted; otherwise one card at a time while the score is below
   * 17 and the dealer is not busted. On an empty deck `choice` raises: the
   * play stops with ShoeExhausted. `extra` are the cards drawn.
   */
  method DealerPlay(dealer: Participant, deck: Deck) returns (end: DealerEnd, ghost extra: seq<Card>)
    requires Processed(dealer.State())
    modifies dealer, deck`cards
    ensures dealer.State() == AfterProcessTurn(old(dealer.State()).(cards := old(dealer.cards) + extra))
    ensures multiset(deck.cards) + multiset(extra) == old(multiset(deck.cards))
    ensures extra != [] ==> !old(dealer.busted)
    ensures HitsBelow17(old(dealer.cards), extra)
    ensures end == DealerDone ==> old(dealer.busted) || !DealerMustHit(old(dealer.cards) + extra)
    ensures end == ShoeExhausted ==> !old(dealer.busted) && DealerMustHit(old(dealer.cards) + extra) && deck.cards == []
  {
    ghost var s0 := dealer.State();
    extra := [];
    ProcessedIsFixed(s0);
    assert s0.(cards := s0.cards + extra) == s0;
    if dealer.busted {
      return DealerDone, extra;
    }
    while dealer.score.value < 17 && !dealer.busted
      invariant dealer.State() == AfterProcessTurn(s0.(cards := s0.cards + extra))
      invariant multiset(deck.cards) + multiset(extra) == old(multiset(deck.cards))
      invariant HitsBelow17(s0.cards, extra)
      decreases |deck.cards|
    {
      if deck.cards == [] {
        return ShoeExhausted, extra;
      }
      ghost var d := DealerHit(dealer, deck, s0, extra);
      HitsExtend(s0.cards, extra, d);
      extra := extra + d;
    }
    end := DealerDone;
  }

  /** One forced hit: draw a card and score the hand again. */
  method DealerHit(dealer: Participant, deck: Deck, ghost s0: PState, ghost extra: seq<Card>) returns (ghost d: seq<Card>)
    requires deck.cards != []
    requires dealer.State() == AfterProcessTurn(s0.(cards := s0.cards + extra))
    requires !Busted(s0.cards + extra)
    modifies dealer, deck`cards
    ensures |d| == 1 && |deck.cards| < old(|deck.cards|)
    ensures dealer.State() == AfterProcessTurn(s0.(cards := s0.cards + (extra + d)))
    ensures multiset(deck.cards) + multiset(d) == old(multiset(deck.cards))
  {
    ghost var hand := s0.cards + extra;
    d := Hit(dealer, deck, 1);
    dealer.ProcessTurn();
    Reprocess(s0.(cards := hand), d);
    assert hand + d == s0.cards + (extra + d);
  }

  /** Scoring after a draw from a hand that was not bust is scoring the grown hand once. */
  lemma Reprocess(x: PState, d: seq<Card>)
    requires !Busted(x.cards)
    ensures AfterProcessTurn(AfterProcessTurn(x).(cards := x.cards + d)) == AfterProcessTurn(x.(cards := x.cards + d))
  {
  }

  /**
   * Settlement of a player still in (blackjack_logic.py:364-378): against a
   * busted dealer every such player wins; otherwise a higher score wins, a
   * lower one loses, and a tie is a push through player_reset.
   */
  function Settle(s: PState, dealerScore: int, dealerBusted: bool): PState
    requires s.score.Some?
  {
    if dealerBusted then AfterWin(s)
    else if s.score.value > dealerScore then AfterWin(s)
    else if s.score.value < dealerScore then AfterLose(s)
    else AfterReset(s)
  }

  /** A player's record at the end of the round: settled if still in, then reset (blackjack_logic.py:380-381). */
  function Final(s: PState, dealerScore: int, dealerBusted: bool): PState
    requires !s.busted ==> s.score.Some?
  {
    AfterReset(if s.busted then s else Settle(s, dealerScore, dealerBusted))
  }

  method SettleOne(p: Participant, dealerScore: int, dealerBusted: bool)
    requires p.score.Some?
    modifies p
    ensures p.State() == Settle(old(p.State()), dealerScore, dealerBusted)
  {
    if dealerBusted {
      p.PlayerWin();
    } else if p.score.value > dealerScore {
      p.PlayerWin();
    } else if p.score.value < dealerScore {
      p.PlayerLose();
    } else {
      p.PlayerReset();
    }
  }

  /**
   * The settlement loop over the players still in. It walks the seats and
   * skips busted players: the same calls, in the same order, as walking
   * the list of players still in, since settling a player changes no
   * other player's flags.
   */
  method SettleAll(players: seq<Participant>, dealerScore: int, dealerBusted: bool)
    requires Distinct(players)
    requires forall i :: 0 <= i < |players| && !players[i].busted ==> players[i].score.Some?
    modifies set p | p in players
    ensures forall i :: 0 <= i < |players| ==>
              players[i].State() == (if old(players[i].busted) then old(players[i].State())
                                       else Settle(old(players[i].State()), dealerScore, dealerBusted))
  {
    ghost var s0 := StatesOf(players);
    for i := 0 to |players|
      invariant forall j :: 0 <= j < i ==>
                  players[j].State() == (if s0[j].busted then s0[j] else Settle(s0[j], dealerScore, dealerBusted))
      invariant forall j :: i <= j < |players| ==> players[j].State() == s0[j]
    {
      if !players[i].busted {
        SettleOne(players[i], dealerScore, dealerBusted);
      }
    }
  }

  method ResetAll(players: seq<Participant>)
    requires Distinct(players)
    modifies set p | p in players
    ensures forall i :: 0 <= i < |players| ==> players[i].State() == AfterReset(old(players[i].State()))
  {
    for i := 0 to |players|
      invariant forall j :: 0 <= j < i ==> players[j].State() == AfterReset(old(players[j].State()))
      invariant forall j :: i <= j < |players| ==> players[j].State() == old(players[j].State())
    {
      players[i].PlayerReset();
    }
  }

  /** The dealer's busted flag once the round's hand is `hand`. */
  function DealerBustedWith(s: PState, hand: seq<Card>): bool {
    s.busted || Busted(hand)
  }

  /**
   * The dealer's turn (blackjack_logic.py:350-361): the hole card is turned
   * over and the dealer draws to 17. `dealerHand` is the dealer's final hand.
   */
  method DealerTurn(dealer: Participant, deck: Deck) returns (end: DealerEnd, ghost dealerHand: seq<Card>)
    requires dealer.holeCard.Some?
    modifies dealer, deck`cards
    ensures |old(dealer.cards)| < |dealerHand| && dealerHand[..|old(dealer.cards)| + 1] == old(dealer.cards) + [old(dealer.holeCard).value]
    ensures multiset(deck.cards) + multiset(dealerHand[|old(dealer.cards)| + 1..]) == old(multiset(deck.cards))
    ensures dealer.State() == AfterProcessTurn(old(dealer.State()).(cards := dealerHand))
    ensures HitsBelow17(old(dealer.cards) + [old(dealer.holeCard).value], dealerHand[|old(dealer.cards)| + 1..])
    ensures end == DealerDone ==> DealerBustedWith(old(dealer.State()), dealerHand) || !DealerMustHit(dealerHand)
    ensures end == ShoeExhausted ==> DealerMustHit(dealerHand) && deck.cards == []
  {
    ghost var s0 := dealer.State();
    ghost var revealed := s0.cards + [s0.holeCard.value];
    RevealHole(dealer);
    ProcessTurnProcesses(s0.(cards := revealed));
    ghost var extra;
    end, extra := DealerPlay(dealer, deck);
    dealerHand := revealed + extra;
    assert dealerHand[..|s0.cards| + 1] == revealed && dealerHand[|s0.cards| + 1..] == extra;
    DealerHand(s0, revealed, extra);
  }

  /** Settlement and the end-of-round resets of every player (blackjack_logic.py:363-381). */
  method SettleAndReset(players: seq<Participant>, dealerScore: int, dealerBusted: bool)
    requires Distinct(players)
    requires forall i :: 0 <= i < |players| && !players[i].busted ==> players[i].score.Some?
    modifies set p | p in players
    ensures forall i :: 0 <= i < |players| ==> players[i].State() == Final(old(players[i].State()), dealerScore, dealerBusted)
  {
    SettleAll(players, dealerScore, dealerBusted);
    ResetAll(players);
  }

  /**
   * Closing a round (blackjack_logic.py:350-383): the dealer's turn, then
   * every player still in is settled against the dealer and every player
   * and the dealer are reset. With the deck run dry during the dealer's
   * draws the round stops with ShoeExhausted before any settlement.
   */
  method CloseRound(players: seq<Participant>, dealer: Participant, deck: Deck) returns (end: DealerEnd, ghost dealerHand: seq<Card>)
    requires Distinct(players) && dealer !in players
    requires dealer.holeCard.Some?
    requires forall i :: 0 <= i < |players| && !players[i].busted ==> players[i].score.Some?
    modifies (set p | p in players), dealer, deck`cards
    ensures |old(dealer.cards)| < |dealerHand| && dealerHand[..|old(dealer.cards)| + 1] == old(dealer.cards) + [old(dealer.holeCard).value]
    ensures multiset(deck.cards) + multiset(dealerHand[|old(dealer.cards)| + 1..]) == old(multiset(deck.cards))
    ensures multiset(dealerHand) + multiset(deck.cards) ==
            multiset(old(dealer.cards)) + multiset{old(dealer.holeCard).value} + old(multiset(deck.cards))
    ensures HitsBelow17(old(dealer.cards) + [old(dealer.holeCard).value], dealerHand[|old(dealer.cards)| + 1..])
    ensures end == DealerDone ==> DealerBustedWith(old(dealer.State()), dealerHand) || !DealerMustHit(dealerHand)
    ensures end == ShoeExhausted ==> DealerMustHit(dealerHand)
    ensures end == DealerDone ==>
              forall i :: 0 <= i < |players| ==>
                players[i].State() == Final(old(players[i].State()), HandScore(dealerHand), DealerBustedWith(old(dealer.State()), dealerHand))
    ensures end == DealerDone ==>
              dealer.State() == AfterDealerReset(AfterProcessTurn(old(dealer.State()).(cards := dealerHand)))
    ensures end == ShoeExhausted ==>
              deck.cards == [] && forall i :: 0 <= i < |players| ==> players[i].State() == old(players[i].State())
  {
    end, dealerHand := DealerTurn(dealer, deck);
    ghost var n := |old(dealer.cards)|;
    HandJoins(old(dealer.cards), old(dealer.holeCard).value, dealerHand[n + 1..], dealerHand, old(deck.cards), deck.cards);
    if end == ShoeExhausted {
      return;
    }
    ghost var s0 := old(dealer.State());
    ProcessTurnProcesses(s0.(cards := dealerHand));
    SettleAndReset(players, dealer.score.value, dealer.busted);
    dealer.DealerReset();
  }

  /** The dealer's hand after the reveal and the draws is scored as one hand. */
  lemma DealerHand(s0: PState, revealed: seq<Card>, extra: seq<Card>)
    requires extra != [] ==> !AfterProcessTurn(s0.(cards := revealed)).busted
    ensures AfterProcessTurn(AfterProcessTurn(s0.(cards := revealed)).(cards := revealed + extra))
            == AfterProcessTurn(s0.(cards := revealed + extra))
  {
    if extra == [] {
      assert revealed + extra == revealed;
      ProcessTurnProcesses(s0.(cards := revealed));
      ProcessTurnIdempotent(s0.(cards := revealed));
    } else {
      Reprocess(s0.(cards := revealed), extra);
    }
  }

  /**
   * Settlement in money (blackjack_logic.py:363-381): a player still in
   * gains the bet against a busted dealer or with the higher score, loses
   * it with the lower score, and on a tie keeps both money and the bet on
   * the record. Every player leaves the round with no cards, no score and
   * no flags.
   */
  lemma SettlementPays(s: PState, dealerScore: int, dealerBusted: bool)
    requires !s.busted && s.score.Some?
    ensures RoundCleared(Final(s, dealerScore, dealerBusted))
    ensures dealerBusted || s.score.value > dealerScore ==>
              Final(s, dealerScore, dealerBusted).money == s.money.Plus(s.bet) && Final(s, dealerScore, dealerBusted).bet == 0
    ensures !dealerBusted && s.score.value < dealerScore ==>
              Final(s, dealerScore, dealerBusted).money == s.money.Minus(s.bet) && Final(s, dealerScore, dealerBusted).bet == 0
    ensures !dealerBusted && s.score.value == dealerScore ==>
              Final(s, dealerScore, dealerBusted).money == s.money && Final(s, dealerScore, dealerBusted).bet == s.bet
  {
  }

  /** A busted player is not settled again: the bust already took the bet. */
  lemma BustedPlayerNotSettled(s: PState, dealerScore: int, dealerBusted: bool)
    requires s.busted
    ensures RoundCleared(Final(s, dealerScore, dealerBusted))
    ensures Final(s, dealerScore, dealerBusted).money == s.money && Final(s, dealerScore, dealerBusted).bet == s.bet
  {
  }

  /** The outcome does not depend on the dealer's score once the dealer is busted. */
  lemma DealerBustPaysEveryone(s: PState, score1: int, score2: int)
    requires !s.busted && s.score.Some?
    ensures Final(s, score1, true) == Final(s, score2, true)
    ensures Final(s, score1, true).money == s.money.Plus(s.bet)
  {
  }

  /**
   * A player processed after a busting draw has already paid: with a
   * finite balance the round costs exactly the bet, whatever the dealer
   * does.
   */
  lemma BustCostsTheBet(s: PState, dealerScore: int, dealerBusted: bool)
    requires !s.busted && Busted(s.cards) && s.money.Amount?
    ensures var p := AfterProcessTurn(s);
            Final(p, dealerScore, dealerBusted).money == Amount(s.money.value - s.bet)
  {
  }

  /** The dealer stops drawing at 17 or more, or on going bust: a finished dealer hand that is not bust scores 17 to 21. */
  lemma DealerStandsOnSeventeen(s0: PState, hand: seq<Card>)
    requires !DealerBustedWith(s0, hand) && !DealerMustHit(hand)
    ensures 17 <= HandScore(hand) <= 21
  {
  }

  // ---------------------------------------------------------------------
  // One whole round
  // ---------------------------------------------------------------------

  /** A record after the opening is up to date with its hand. */
  lemma OpenedIsProcessed(s: PState, amount: int, first: Card, second: Card)
    ensures Processed(Opened(s, amount, first, second))
    ensures Opened(s, amount, first, second).cards == s.cards + [first, second]
  {
    ProcessTurnProcesses(s.(bet := ClampBet(amount, s.money), cards := s.cards + [first, second]));
  }

  /**
   * The round up to the dealer's turn: the opening, then the turns of the
   * players still in, the k-th of them on `tokens[k]`. `afterDeal` are the
   * players' records after the opening and `afterTurns` after the turns;
   * `cut` tells that a turn did not end standing. Every record is up to
   * date with its hand throughout.
   */
  method OpenAndPlay(players: seq<Participant>, dealer: Participant, deck: Deck, bets: seq<int>, tokens: seq<seq<string>>)
      returns (cut: bool, ghost draws: seq<Card>, ghost afterDeal: seq<PState>, ghost turnDraws: seq<seq<Card>>,
               ghost afterTurns: seq<PState>)
    requires |bets| == |players| && |tokens| == |players| && Distinct(players) && dealer !in players
    requires 2 * |players| + 2 <= |deck.cards|
    modifies (set p | p in players), dealer, deck`cards
    ensures |draws| == 2 * |players| + 2 && |afterDeal| == |afterTurns| == |players|
    ensures forall i :: 0 <= i < |players| ==>
              afterDeal[i] == Opened(old(players[i].State()), bets[i], draws[i], draws[|players| + 1 + i])
    ensures dealer.State() ==
              AfterProcessTurn(old(dealer.State()).(cards := old(dealer.cards) + [draws[|players|]],
                                                    holeCard := Some(draws[2 * |players| + 1])))
    ensures StatesOf(players) == afterTurns
    ensures forall i :: 0 <= i < |players| ==> TurnSettled(afterDeal[i], afterTurns[i])
    ensures TurnsPlayed(afterDeal, tokens, turnDraws, afterTurns)
    ensures cut <==> !AllStood(afterDeal, afterTurns)
    ensures Held(CardsOf(afterTurns)) + multiset(dealer.cards) + multiset{draws[2 * |players| + 1]} + multiset(deck.cards) ==
            Held(CardsOf(old(StatesOf(players)))) + multiset(old(dealer.cards)) + old(multiset(deck.cards))
  {
    ghost var before := StatesOf(players);
    var remaining;
    remaining, draws := OpenRound(players, dealer, deck, bets);
    afterDeal := StatesOf(players);
    ghost var deck1, dealt := deck.cards, dealer.cards;
    forall i | 0 <= i < |players|
      ensures Processed(afterDeal[i])
    {
      OpenedIsProcessed(old(players[i].State()), bets[i], draws[i], draws[|players| + 1 + i]);
    }
    var prefix := tokens[..|remaining|];
    cut, turnDraws, afterTurns := RemainingTurns(players, remaining, deck, prefix);
    TurnsPlayedPrefix(afterDeal, tokens, prefix, turnDraws, afterTurns);
    assert dealer.cards == dealt;
    ghost var total := Held(CardsOf(before)) + multiset(old(dealer.cards)) + old(multiset(deck.cards));
    assert Held(CardsOf(afterDeal)) + multiset(dealt) + multiset{draws[2 * |players| + 1]} + multiset(deck1) == total;
    assert Held(CardsOf(afterTurns)) + multiset(deck.cards) == Held(CardsOf(afterDeal)) + multiset(deck1);
    MovedAgain(Held(CardsOf(afterDeal)), Held(CardsOf(afterTurns)), multiset(dealt), multiset{draws[2 * |players| + 1]},
               multiset(deck1), multiset(deck.cards), total);
  }

  /** Turns played on the first entries of `tokens` are played on `tokens`. */
  lemma TurnsPlayedPrefix(before: seq<PState>, tokens: seq<seq<string>>, prefix: seq<seq<string>>, drawn: seq<seq<Card>>,
                          after: seq<PState>)
    requires |prefix| <= |tokens| && prefix == tokens[..|prefix|]
    requires TurnsPlayed(before, prefix, drawn, after)
    ensures TurnsPlayed(before, tokens, drawn, after)
  {
    assert forall k :: 0 <= k < |prefix| ==> prefix[k] == tokens[k];
  }

  /** Cards moved from the deck to the hands, after an earlier move that kept the table: the table still keeps them. */
  lemma MovedAgain(held1: multiset<Card>, held2: multiset<Card>, dealt: multiset<Card>, hole: multiset<Card>,
                   deck1: multiset<Card>, deck2: multiset<Card>, total: multiset<Card>)
    requires held1 + dealt + hole + deck1 == total
    requires held2 + deck2 == held1 + deck1
    ensures held2 + dealt + hole + deck2 == total
  {
    calc {
      held2 + dealt + hole + deck2;
      (held2 + deck2) + dealt + hole;
      (held1 + deck1) + dealt + hole;
      held1 + dealt + hole + deck1;
    }
  }

  /** The opening deal moves cards from the deck to the players, the upcard and the hole card, and nowhere else. */
  lemma DealConserved(before: seq<PState>, after: seq<PState>, draws: seq<Card>, dealerCards: seq<Card>,
                      deck0: seq<Card>, deck1: seq<Card>)
    requires |after| == |before| && |draws| == 2 * |before| + 2
    requires forall i :: 0 <= i < |before| ==> after[i].cards == before[i].cards + [draws[i], draws[|before| + 1 + i]]
    requires multiset(deck1) + multiset(draws) == multiset(deck0)
    ensures Held(CardsOf(after)) + multiset(dealerCards + [draws[|before|]]) + multiset{draws[2 * |before| + 1]} + multiset(deck1) ==
            Held(CardsOf(before)) + multiset(dealerCards) + multiset(deck0)
  {
    assert DealtInOrder(CardsOf(before), CardsOf(after), draws);
    TableConserved(CardsOf(before), CardsOf(after), dealerCards, deck0, deck1, draws);
  }

  /**
   * The seats still in, as indices in seat order: the positions of the
   * list of players still in (blackjack_logic.py:325) among all players.
   */
  function InPlay(states: seq<PState>): (order: seq<nat>)
    ensures |order| <= |states|
    ensures forall k :: 0 <= k < |order| ==> order[k] < |states| && !states[order[k]].busted
    ensures forall k, l :: 0 <= k < l < |order| ==> order[k] < order[l]
  {
    if states == [] then []
    else
      var m := |states| - 1;
      InPlay(states[..m]) + (if states[m].busted then [] else [m])
  }

  /** Every seat whose player has not busted is among the seats still in. */
  lemma {:induction false} InPlayCovers(states: seq<PState>, i: nat)
    requires i < |states| && !states[i].busted
    ensures i in InPlay(states)
  {
    var m := |states| - 1;
    if i < m {
      InPlayCovers(states[..m], i);
      assert states[..m][i] == states[i];
    }
  }

  /** The list of players still in holds, in order, the players at the seats InPlay names. */
  lemma {:induction false} UnbustedOrder(players: seq<Participant>)
    ensures |Unbusted(players)| == |InPlay(StatesOf(players))|
    ensures forall k :: 0 <= k < |Unbusted(players)| ==> Unbusted(players)[k] == players[InPlay(StatesOf(players))[k]]
  {
    if players != [] {
      var m := |players| - 1;
      var front, states := players[..m], StatesOf(players);
      UnbustedOrder(front);
      assert StatesOf(front) == states[..m];
      var u, order := Unbusted(front), InPlay(states[..m]);
      assert states[m].busted == players[m].busted;
      var all, allOrder := Unbusted(players), InPlay(states);
      assert all == u + (if players[m].busted then [] else [players[m]]);
      assert allOrder == order + (if states[m].busted then [] else [m]);
      assert |u| == |order| && |all| == |allOrder|;
      forall k | 0 <= k < |u|
        ensures all[k] == players[allOrder[k]]
      {
        assert all[k] == u[k] == front[order[k]];
        assert order[k] < m;
        assert front[order[k]] == players[order[k]];
        assert allOrder[k] == order[k];
      }
    }
  }

  /**
   * The hands at the seats `order` grew by the cards in `drawn`, one entry
   * per seat, and every other hand is unchanged: the table holds exactly
   * the drawn cards more.
   */
  lemma {:induction false} HeldThroughOrder(before: seq<seq<Card>>, after: seq<seq<Card>>, order: seq<nat>, drawn: seq<seq<Card>>)
    requires |before| == |after| && |order| == |drawn|
    requires forall k :: 0 <= k < |order| ==> order[k] < |before|
    requires forall k, l :: 0 <= k < l < |order| ==> order[k] < order[l]
    requires forall k :: 0 <= k < |order| ==> after[order[k]] == before[order[k]] + drawn[k]
    requires forall i :: 0 <= i < |before| && i !in order ==> after[i] == before[i]
    ensures Held(after) == Held(before) + Held(drawn)
    decreases |before|, 1
  {
    if order == [] {
      assert after == before;
    } else if |before| - 1 in order {
      HeldThroughLastGrown(before, after, order, drawn);
    } else {
      HeldThroughLastKept(before, after, order, drawn);
    }
  }

  /** HeldThroughOrder when the last hand is one of those that grew. */
  lemma {:induction false} HeldThroughLastGrown(before: seq<seq<Card>>, after: seq<seq<Card>>, order: seq<nat>, drawn: seq<seq<Card>>)
    requires |before| == |after| && |order| == |drawn|
    requires forall k :: 0 <= k < |order| ==> order[k] < |before|
    requires forall k, l :: 0 <= k < l < |order| ==> order[k] < order[l]
    requires forall k :: 0 <= k < |order| ==> after[order[k]] == before[order[k]] + drawn[k]
    requires forall i :: 0 <= i < |before| && i !in order ==> after[i] == before[i]
    requires |before| - 1 in order
    ensures Held(after) == Held(before) + Held(drawn)
    decreases |before|, 0
  {
    var m := |before| - 1;
    var b, a := before[..m], after[..m];
    assert Held(before) == Held(b) + multiset(before[m]);
    assert Held(after) == Held(a) + multiset(after[m]);
    var n := |order| - 1;
    forall l | 0 <= l < |order|
      ensures order[l] <= order[n]
    {
      assert l < n ==> order[l] < order[n];
    }
    var j :| 0 <= j < |order| && order[j] == m;
    assert order[j] <= order[n] < |before|;
    var o, d := order[..n], drawn[..n];
    forall k | 0 <= k < |o|
      ensures o[k] < m && a[o[k]] == b[o[k]] + d[k]
    {
      assert o[k] == order[k] < order[n];
    }
    forall i | 0 <= i < m && i !in o
      ensures a[i] == b[i]
    {
      assert i !in order by {
        assert forall k :: 0 <= k < n ==> order[k] == o[k];
      }
    }
    HeldThroughOrder(b, a, o, d);
    assert Held(drawn) == Held(d) + multiset(drawn[n]);
  }

  /** HeldThroughOrder when the last hand is unchanged. */
  lemma {:induction false} HeldThroughLastKept(before: seq<seq<Card>>, after: seq<seq<Card>>, order: seq<nat>, drawn: seq<seq<Card>>)
    requires |before| == |after| && |order| == |drawn|
    requires forall k :: 0 <= k < |order| ==> order[k] < |before|
    requires forall k, l :: 0 <= k < l < |order| ==> order[k] < order[l]
    requires forall k :: 0 <= k < |order| ==> after[order[k]] == before[order[k]] + drawn[k]
    requires forall i :: 0 <= i < |before| && i !in order ==> after[i] == before[i]
    requires order != [] && |before| - 1 !in order
    ensures Held(after) == Held(before) + Held(drawn)
    decreases |before|, 0
  {
    var n := |order| - 1;
    assert order[n] < |before|;
    var m := |before| - 1;
    var b, a := before[..m], after[..m];
    assert Held(before) == Held(b) + multiset(before[m]);
    assert Held(after) == Held(a) + multiset(after[m]);
    assert order[n] < m by {
      assert order[n] != m;
    }
    forall k | 0 <= k < |order|
      ensures order[k] < m && a[order[k]] == b[order[k]] + drawn[k]
    {
      assert k < n ==> order[k] < order[n];
    }
    HeldThroughOrder(b, a, order, drawn);
  }

  /**
   * The turns of the players still in, from the records `before`: the k-th
   * player still in played on `tokens[k]` and drew `drawn[k]`.
   */
  ghost predicate TurnsPlayed(before: seq<PState>, tokens: seq<seq<string>>, drawn: seq<seq<Card>>, after: seq<PState>) {
    && |after| == |before| && |InPlay(before)| == |drawn| <= |tokens|
    && forall k :: 0 <= k < |drawn| ==>
         Actions.TurnPlayed(before[InPlay(before)[k]], tokens[k], drawn[k], after[InPlay(before)[k]])
  }

  /** Every player still in ended the turn standing. */
  predicate AllStood(before: seq<PState>, after: seq<PState>) {
    && |after| == |before|
    && forall k :: 0 <= k < |InPlay(before)| ==> after[InPlay(before)[k]].stand
  }

  /** A player's record across the turns: still up to date, the hand only grown, a busted record untouched. */
  predicate TurnSettled(before: PState, after: PState) {
    Processed(after) && before.cards <= after.cards && (before.busted ==> after == before)
  }

  /**
   * The turns of the players still in, seen from the whole table: the k-th
   * player still in plays on `tokens[k]` and draws `drawn[k]`; `cut` tells
   * that someone still in did not end standing. No card is lost or made.
   */
  method RemainingTurns(players: seq<Participant>, remaining: seq<Participant>, deck: Deck, tokens: seq<seq<string>>)
      returns (cut: bool, ghost drawn: seq<seq<Card>>, ghost afterTurns: seq<PState>)
    requires remaining == Unbusted(players) && Distinct(players) && |tokens| == |remaining|
    requires forall i :: 0 <= i < |players| ==> Processed(players[i].State())
    modifies (set p | p in remaining), deck`cards
    ensures StatesOf(players) == afterTurns
    ensures forall i :: 0 <= i < |players| ==> TurnSettled(old(players[i].State()), afterTurns[i])
    ensures TurnsPlayed(old(StatesOf(players)), tokens, drawn, afterTurns)
    ensures cut <==> !AllStood(old(StatesOf(players)), afterTurns)
    ensures Held(CardsOf(afterTurns)) + multiset(deck.cards) == Held(CardsOf(old(StatesOf(players)))) + old(multiset(deck.cards))
  {
    ghost var before := StatesOf(players);
    ghost var s0 := StatesOf(remaining);
    ghost var order := InPlay(before);
    UnbustedOrder(players);
    StatesAtSeats(players, remaining, order);
    NotAtSeats(players, remaining, order);
    var ends;
    ends, drawn := PlayersTurns(remaining, deck, tokens);
    afterTurns := StatesOf(players);
    ghost var states := StatesOf(remaining);
    StatesAtSeats(players, remaining, order);
    forall i | 0 <= i < |players| && i !in order
      ensures afterTurns[i] == before[i]
    {
      assert players[i] !in set p | p in remaining;
    }
    cut := ends != [] && ends[|ends| - 1] != Actions.Stood;
    SettledAtSeats(before, afterTurns, order, s0, states, tokens, ends, drawn, old(deck.cards), deck.cards);
    TurnsAtSeats(before, afterTurns, order, s0, states, tokens, ends, drawn, old(deck.cards), deck.cards);
  }

  /** The players still in, listed in seat order, have the records at their seats. */
  lemma StatesAtSeats(players: seq<Participant>, remaining: seq<Participant>, order: seq<nat>)
    requires |remaining| == |order| && forall k :: 0 <= k < |order| ==> order[k] < |players| && remaining[k] == players[order[k]]
    ensures forall k :: 0 <= k < |order| ==> StatesOf(remaining)[k] == StatesOf(players)[order[k]]
  {
  }

  /** With no player seated twice, the player at a seat outside `order` is not among those still in. */
  lemma NotAtSeats(players: seq<Participant>, remaining: seq<Participant>, order: seq<nat>)
    requires Distinct(players)
    requires |remaining| == |order| && forall k :: 0 <= k < |order| ==> order[k] < |players| && remaining[k] == players[order[k]]
    ensures forall i :: 0 <= i < |players| && i !in order ==> players[i] !in remaining
  {
    forall i, k | 0 <= i < |players| && i !in order && 0 <= k < |remaining|
      ensures remaining[k] != players[i]
    {
      assert order[k] in order;
    }
  }

  /** Across the turns every record stays up to date: a player still in only draws, a busted one is untouched. */
  lemma SettledAtSeats(before: seq<PState>, after: seq<PState>, order: seq<nat>, s0: seq<PState>, states: seq<PState>,
                       tokens: seq<seq<string>>, ends: seq<Actions.TurnEnd>, drawn: seq<seq<Card>>, deck0: seq<Card>, deck: seq<Card>)
    requires order == InPlay(before) && |after| == |before| && |order| == |s0|
    requires forall i :: 0 <= i < |before| ==> Processed(before[i])
    requires TurnsSoFar(s0, deck0, tokens, ends, drawn, states, deck)
    requires forall k :: 0 <= k < |order| ==> s0[k] == before[order[k]] && states[k] == after[order[k]]
    requires forall i :: 0 <= i < |before| && i !in order ==> after[i] == before[i]
    ensures forall i :: 0 <= i < |before| ==> TurnSettled(before[i], after[i])
  {
    forall i | 0 <= i < |before|
      ensures TurnSettled(before[i], after[i])
    {
      if i in order {
        var k :| 0 <= k < |order| && order[k] == i;
        assert TurnKept(s0[k], states[k]);
      }
    }
  }

  /**
   * The turns of PlayersTurns, read at the seats `order` of the players
   * still in: each seat's record is that player's replay, the turns were
   * cut exactly when someone did not end standing, and the cards drawn
   * moved from the deck to the hands.
   */
  lemma TurnsAtSeats(before: seq<PState>, after: seq<PState>, order: seq<nat>, s0: seq<PState>, states: seq<PState>,
                     tokens: seq<seq<string>>, ends: seq<Actions.TurnEnd>, drawn: seq<seq<Card>>, deck0: seq<Card>, deck: seq<Card>)
    requires order == InPlay(before) && |after| == |before| && |order| == |s0|
    requires TurnsSoFar(s0, deck0, tokens, ends, drawn, states, deck)
    requires |ends| < |s0| ==> ends != [] && ends[|ends| - 1] != Actions.Stood
    requires forall k :: 0 <= k < |order| ==> s0[k] == before[order[k]] && states[k] == after[order[k]]
    requires forall i :: 0 <= i < |before| && i !in order ==> after[i] == before[i]
    ensures TurnsPlayed(before, tokens, drawn, after)
    ensures (ends != [] && ends[|ends| - 1] != Actions.Stood) <==> !AllStood(before, after)
    ensures Held(CardsOf(after)) + multiset(deck) == Held(CardsOf(before)) + multiset(deck0)
  {
    StoodAtSeats(before, after, order, states, ends);
    HeldAtSeats(before, after, order, s0, states, drawn, deck0, deck);
    PlayedAtSeats(before, after, order, s0, states, tokens, drawn);
  }

  /** The turns were cut exactly when a player still in did not end standing. */
  lemma StoodAtSeats(before: seq<PState>, after: seq<PState>, order: seq<nat>, states: seq<PState>, ends: seq<Actions.TurnEnd>)
    requires order == InPlay(before) && |after| == |before| && |order| == |states| && |ends| <= |states|
    requires forall i :: 0 <= i < |ends| ==> (states[i].stand <==> ends[i] == Actions.Stood)
    requires forall i :: 0 <= i < |ends| - 1 ==> ends[i] == Actions.Stood
    requires |ends| < |states| ==> ends != [] && ends[|ends| - 1] != Actions.Stood
    requires forall k :: 0 <= k < |order| ==> states[k] == after[order[k]]
    ensures (ends != [] && ends[|ends| - 1] != Actions.Stood) <==> !AllStood(before, after)
  {
    if ends != [] && ends[|ends| - 1] != Actions.Stood {
      assert !after[order[|ends| - 1]].stand;
    } else {
      assert |ends| == |states|;
      forall k | 0 <= k < |order|
        ensures after[order[k]].stand
      {
        assert states[k].stand;
      }
    }
  }

  /** The cards the players still in drew left the deck for their hands at their seats. */
  lemma HeldAtSeats(before: seq<PState>, after: seq<PState>, order: seq<nat>, s0: seq<PState>, states: seq<PState>,
                    drawn: seq<seq<Card>>, deck0: seq<Card>, deck: seq<Card>)
    requires order == InPlay(before) && |after| == |before| && |order| == |s0| == |states| == |drawn|
    requires forall k :: 0 <= k < |order| ==> states[k].cards == s0[k].cards + drawn[k]
    requires multiset(deck) + Held(drawn) == multiset(deck0)
    requires forall k :: 0 <= k < |order| ==> s0[k] == before[order[k]] && states[k] == after[order[k]]
    requires forall i :: 0 <= i < |before| && i !in order ==> after[i] == before[i]
    ensures Held(CardsOf(after)) + multiset(deck) == Held(CardsOf(before)) + multiset(deck0)
  {
    var hb, ha := CardsOf(before), CardsOf(after);
    forall k | 0 <= k < |order|
      ensures ha[order[k]] == hb[order[k]] + drawn[k]
    {
      assert states[k].cards == s0[k].cards + drawn[k];
    }
    HeldThroughOrder(hb, ha, order, drawn);
  }

  /** Each seat of a player still in holds the replay of that player's tokens. */
  lemma PlayedAtSeats(before: seq<PState>, after: seq<PState>, order: seq<nat>, s0: seq<PState>, states: seq<PState>,
                      tokens: seq<seq<string>>, drawn: seq<seq<Card>>)
    requires order == InPlay(before) && |after| == |before| && |order| == |s0| == |states| == |drawn| == |tokens|
    requires forall k :: 0 <= k < |order| ==> Actions.TurnPlayed(s0[k], tokens[k], drawn[k], states[k])
    requires forall k :: 0 <= k < |order| ==> s0[k] == before[order[k]] && states[k] == after[order[k]]
    ensures TurnsPlayed(before, tokens, drawn, after)
  {
  }

  /** How a round ends: settled, or cut off in the players' turns or in the dealer's draws. */
  datatype RoundEnd = Settled | TurnsCut | DealerCut

  /** The dealer's record after the opening: upcard and hole card dealt, upcard scored. */
  function DealtDealer(s: PState, upcard: Card, hole: Card): PState {
    AfterProcessTurn(s.(cards := s.cards + [upcard], holeCard := Some(hole)))
  }

  /**
   * One round of the console game (blackjack_logic.py:304-385), with the
   * bets and the players' typed actions as inputs. The k-th player still in
   * after the deal plays on `tokens[k]` and draws `turnDraws[k]`. A round
   * whose players' turns end without everyone standing stops there
   * (TurnsCut); one whose deck runs dry during the dealer's draws stops
   * before settlement (DealerCut). A settled round ends with every player's
   * record at Final(afterTurns[i], ...) and the dealer reset. `dealerHand`
   * is the dealer's hand with the hole card turned over and every card the
   * dealer drew; no card of the round is lost or made.
   */
  method PlayRound(players: seq<Participant>, dealer: Participant, deck: Deck, bets: seq<int>, tokens: seq<seq<string>>)
      returns (end: RoundEnd, ghost draws: seq<Card>, ghost afterDeal: seq<PState>, ghost turnDraws: seq<seq<Card>>,
               ghost afterTurns: seq<PState>, ghost dealerDealt: PState, ghost dealerHand: seq<Card>)
    requires |bets| == |players| && |tokens| == |players| && Distinct(players) && dealer !in players
    requires 2 * |players| + 2 <= |deck.cards|
    modifies (set p | p in players), dealer, deck`cards
    ensures |draws| == 2 * |players| + 2 && |afterDeal| == |afterTurns| == |players|
    ensures forall i :: 0 <= i < |players| ==>
              afterDeal[i] == Opened(old(players[i].State()), bets[i], draws[i], draws[|players| + 1 + i])
    ensures forall i :: 0 <= i < |players| ==> TurnSettled(afterDeal[i], afterTurns[i]) && afterTurns[i].score.Some?
    ensures TurnsPlayed(afterDeal, tokens, turnDraws, afterTurns)
    ensures end == TurnsCut <==> !AllStood(afterDeal, afterTurns)
    ensures dealerDealt == DealtDealer(old(dealer.State()), draws[|players|], draws[2 * |players| + 1])
    ensures |dealerDealt.cards| < |dealerHand| && dealerHand[..|dealerDealt.cards| + 1] == dealerDealt.cards + [draws[2 * |players| + 1]]
    ensures end == TurnsCut ==> |dealerHand| == |dealerDealt.cards| + 1
    ensures end != TurnsCut ==> HitsBelow17(dealerDealt.cards + [draws[2 * |players| + 1]], dealerHand[|dealerDealt.cards| + 1..])
    ensures Held(CardsOf(afterTurns)) + multiset(dealerHand) + multiset(deck.cards) ==
            Held(CardsOf(old(StatesOf(players)))) + multiset(old(dealer.cards)) + old(multiset(deck.cards))
    ensures end != Settled ==> StatesOf(players) == afterTurns
    ensures end == DealerCut ==> deck.cards == [] && DealerMustHit(dealerHand)
    ensures end == Settled ==>
              && (DealerBustedWith(dealerDealt, dealerHand) || !DealerMustHit(dealerHand))
              && (forall i :: 0 <= i < |players| ==>
                    players[i].State() == Final(afterTurns[i], HandScore(dealerHand), DealerBustedWith(dealerDealt, dealerHand)))
              && dealer.State() == AfterDealerReset(AfterProcessTurn(dealerDealt.(cards := dealerHand)))
  {
    ghost var total := Held(CardsOf(StatesOf(players))) + multiset(dealer.cards) + multiset(deck.cards);
    var cut;
    cut, draws, afterDeal, turnDraws, afterTurns := OpenAndPlay(players, dealer, deck, bets, tokens);
    dealerDealt := dealer.State();
    ghost var held, hole, deck1 := Held(CardsOf(afterTurns)), draws[2 * |players| + 1], deck.cards;
    end, dealerHand := FinishRound(players, dealer, deck, cut, afterTurns, dealerDealt);
    HandTakesDraws(held, multiset(dealerDealt.cards), multiset{hole}, multiset(dealerHand), multiset(deck1), multiset(deck.cards), total);
  }

  /**
   * The round after the players' turns: cut short, it stops with the
   * hole card still face down (`dealerHand` is then the dealer's cards
   * with the hole card); otherwise CloseRound.
   */
  method FinishRound(players: seq<Participant>, dealer: Participant, deck: Deck, cut: bool,
                     ghost afterTurns: seq<PState>, ghost dealt: PState)
      returns (end: RoundEnd, ghost dealerHand: seq<Card>)
    requires Distinct(players) && dealer !in players
    requires StatesOf(players) == afterTurns && dealer.State() == dealt && dealt.holeCard.Some?
    requires forall i :: 0 <= i < |players| ==> afterTurns[i].score.Some?
    modifies (set p | p in players), dealer, deck`cards
    ensures end == TurnsCut <==> cut
    ensures |dealt.cards| < |dealerHand| && dealerHand[..|dealt.cards| + 1] == dealt.cards + [dealt.holeCard.value]
    ensures end == TurnsCut ==> |dealerHand| == |dealt.cards| + 1
    ensures end != TurnsCut ==> HitsBelow17(dealt.cards + [dealt.holeCard.value], dealerHand[|dealt.cards| + 1..])
    ensures multiset(dealerHand) + multiset(deck.cards) ==
            multiset(dealt.cards) + multiset{dealt.holeCard.value} + old(multiset(deck.cards))
    ensures end != Settled ==> StatesOf(players) == afterTurns
    ensures end == DealerCut ==> deck.cards == [] && DealerMustHit(dealerHand)
    ensures end == Settled ==>
              && (DealerBustedWith(dealt, dealerHand) || !DealerMustHit(dealerHand))
              && (forall i :: 0 <= i < |players| ==>
                    players[i].State() == Final(afterTurns[i], HandScore(dealerHand), DealerBustedWith(dealt, dealerHand)))
              && dealer.State() == AfterDealerReset(AfterProcessTurn(dealt.(cards := dealerHand)))
  {
    if cut {
      dealerHand := dealer.cards + [dealer.holeCard.value];
      assert dealerHand[..|dealer.cards| + 1] == dealerHand;
      HandJoins(dealer.cards, dealer.holeCard.value, [], dealerHand, deck.cards, deck.cards);
      return TurnsCut, dealerHand;
    }
    var dealerEnd;
    dealerEnd, dealerHand := CloseRound(players, dealer, deck);
    end := if dealerEnd == DealerDone then Settled else DealerCut;
    if end == DealerCut {
      assert StatesOf(players) == afterTurns;
    }
  }

  /** The hole card and the dealer's draws join the dealer's hand, which holds what the dealer had and what left the deck. */
  lemma HandJoins(dealt: seq<Card>, hole: Card, extra: seq<Card>, hand: seq<Card>, deck1: seq<Card>, deck2: seq<Card>)
    requires hand == dealt + [hole] + extra
    requires multiset(deck2) + multiset(extra) == multiset(deck1)
    ensures multiset(hand) + multiset(deck2) == multiset(dealt) + multiset{hole} + multiset(deck1)
  {
    calc {
      multiset(hand);
      multiset(dealt + [hole]) + multiset(extra);
      multiset(dealt) + multiset{hole} + multiset(extra);
    }
  }

  /** The dealer's hand takes the dealer's cards and those from the deck: the table still keeps every card. */
  lemma HandTakesDraws(held: multiset<Card>, dealt: multiset<Card>, hole: multiset<Card>, hand: multiset<Card>,
                       deck1: multiset<Card>, deck2: multiset<Card>, total: multiset<Card>)
    requires held + dealt + hole + deck1 == total
    requires hand + deck2 == dealt + hole + deck1
    ensures held + hand + deck2 == total
  {
    calc {
      held + hand + deck2;
      held + (hand + deck2);
      held + (dealt + hole + deck1);
      held + dealt + hole + deck1;
    }
  }
}
