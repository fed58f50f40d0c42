/**
 * The participant record of the Blackjack rules engine and its transitions
 * (blackjack_logic.py:161-189 and :230-301). A player or the dealer is a
 * record whose fields the engine updates in place: here a class, whose
 * methods are specified by the functions After* on the value PState.
 */
module Participants {
  import opened Wrappers
  import opened Cards
  import opened Hand

  /**
   * A balance. The dealer's is `math.inf`: adding or subtracting a finite
   * bet leaves it unlimited, and it covers any amount.
   */
  datatype Money = Amount(value: int) | Unlimited {
    function Plus(x: int): Money {
      if Unlimited? then Unlimited else Amount(value + x)
    }

    function Minus(x: int): Money {
      if Unlimited? then Unlimited else Amount(value - x)
    }

    predicate Covers(x: int) {
      Unlimited? || value >= x
    }
  }

  /** The fields of a participant record (`name` never changes and is left out). */
  datatype PState = PState(
    money: Money,
    bet: int,
    cards: seq<Card>,
    score: Option<int>,
    stand: bool,
    busted: bool,
    holeCard: Option<Card>)

  /** player_bust: busted and standing, the bet is lost; cards and score stay. */
  function AfterBust(s: PState): PState {
    s.(busted := true, stand := true, money := s.money.Minus(s.bet), bet := 0)
  }

  /** player_win: the bet is won, and the round fields are cleared. */
  function AfterWin(s: PState): PState {
    s.(busted := false, stand := false, money := s.money.Plus(s.bet), bet := 0, score := Some(0), cards := [])
  }

  /** player_lose: the bet is lost, and the round fields are cleared. */
  function AfterLose(s: PState): PState {
    s.(busted := false, stand := false, money := s.money.Minus(s.bet), bet := 0, score := Some(0), cards := [])
  }

  /** player_reset: flags, score and cards cleared; money and bet untouched. */
  function AfterReset(s: PState): PState {
    s.(busted := false, stand := false, score := None, cards := [])
  }

  /** dealer_reset: as player_reset, and the hole card is gone. */
  function AfterDealerReset(s: PState): PState {
    s.(busted := false, stand := false, score := None, holeCard := None, cards := [])
  }

  /** process_turn: score the visible cards, and go bust when the score passes 21. */
  function AfterProcessTurn(s: PState): PState {
    var scored := s.(score := Some(HandScore(s.cards)));
    if Busted(s.cards) then AfterBust(scored) else scored
  }

  /**
   * A participant whose record is up to date with its cards: the score is
   * that of the visible cards, and a busting hand has been settled as a
   * bust (standing, bet gone).
   */
  predicate Processed(s: PState) {
    && s.score == Some(HandScore(s.cards))
    && (Busted(s.cards) ==> s.busted && s.stand && s.bet == 0)
  }

  /** A busted participant can take no further action. */
  predicate BustedStands(s: PState) {
    s.busted ==> s.stand
  }

  /** What the reset transitions leave: no cards, no score, no flags. */
  predicate RoundCleared(s: PState) {
    !s.busted && !s.stand && s.score == None && s.cards == []
  }

  // ---------------------------------------------------------------------
  // Properties of the transitions
  // ---------------------------------------------------------------------

  /** process_turn brings the record up to date, keeps the cards and never unbusts. */
  lemma ProcessTurnProcesses(s: PState)
    ensures Processed(AfterProcessTurn(s))
    ensures AfterProcessTurn(s).cards == s.cards
    ensures AfterProcessTurn(s).busted <==> s.busted || Busted(s.cards)
    ensures BustedStands(s) ==> BustedStands(AfterProcessTurn(s))
  {
  }

  /** A record that is up to date is left alone by process_turn. */
  lemma ProcessedIsFixed(s: PState)
    requires Processed(s)
    ensures AfterProcessTurn(s) == s
  {
    if Busted(s.cards) {
      assert s.money.Minus(0) == s.money;
    }
  }

  /** "Safe to use anywhere and twice": a second process_turn changes nothing. */
  lemma ProcessTurnIdempotent(s: PState)
    ensures AfterProcessTurn(AfterProcessTurn(s)) == AfterProcessTurn(s)
  {
    ProcessTurnProcesses(s);
    ProcessedIsFixed(AfterProcessTurn(s));
  }

  /** A bust keeps the hand and its score, and takes exactly the bet from a finite balance. */
  lemma BustKeepsHand(s: PState)
    requires s.money.Amount?
    ensures AfterBust(s).cards == s.cards && AfterBust(s).score == s.score
    ensures AfterBust(s).money.value == s.money.value - s.bet && AfterBust(s).bet == 0
    ensures BustedStands(AfterBust(s))
  {
  }

  /** Every reset leaves a cleared record; a reset of a reset changes nothing. */
  lemma ResetsClear(s: PState)
    ensures RoundCleared(AfterReset(s)) && RoundCleared(AfterDealerReset(s))
    ensures AfterReset(AfterReset(s)) == AfterReset(s)
    ensures AfterReset(s).money == s.money && AfterReset(s).bet == s.bet
    ensures AfterDealerReset(s).holeCard == None
  {
  }

  /** Winning and losing move the bet in opposite directions and both zero it. */
  lemma WinLoseSymmetric(s: PState)
    requires s.money.Amount?
    ensures AfterWin(s).money.value - s.money.value == s.money.value - AfterLose(s).money.value == s.bet
    ensures AfterWin(s).bet == 0 && AfterLose(s).bet == 0
    ensures AfterWin(s).cards == [] && AfterLose(s).cards == []
  {
  }

  /** The dealer's unlimited balance survives a bust whatever the bet. */
  lemma DealerMoneyUnlimited(s: PState)
    requires s.money == Unlimited
    ensures AfterProcessTurn(s).money == Unlimited
  {
  }

  // ---------------------------------------------------------------------
  // The record itself
  // ---------------------------------------------------------------------

  class Participant {
    const name: string
    var money: Money
    var bet: int
    var cards: seq<Card>
    var score: Option<int>
    var stand: bool
    var busted: bool
    /** Used by the dealer only; a player's is always None. */
    var holeCard: Option<Card>

    function State(): PState
      reads this
    {
      PState(money, bet, cards, score, stand, busted, holeCard)
    }

    /** The record seat_player builds; its `bet: None` is 0 here. */
    constructor Player(name: string, budget: int)
      ensures this.name == name
      ensures State() == PState(Amount(budget), 0, [], None, false, false, None)
    {
      this.name := name;
      money := Amount(budget);
      bet := 0;
      cards := [];
      score := None;
      stand := false;
      busted := false;
      holeCard := None;
    }

    /** The record seat_dealer builds: unlimited money, score 0, no hole card. */
    constructor Dealer(name: string)
      ensures this.name == name
      ensures State() == PState(Unlimited, 0, [], Some(0), false, false, None)
    {
      this.name := name;
      money := Unlimited;
      bet := 0;
      cards := [];
      score := Some(0);
      stand := false;
      busted := false;
      holeCard := None;
    }

    method PlayerBust()
      modifies this
      ensures State() == AfterBust(old(State()))
    {
      busted := true;
      stand := true;
      money := money.Minus(bet);
      bet := 0;
    }

    method PlayerWin()
      modifies this
      ensures State() == AfterWin(old(State()))
    {
      busted := false;
      stand := false;
      money := money.Plus(bet);
      bet := 0;
      score := Some(0);
      cards := [];
    }

    method PlayerLose()
      modifies this
      ensures State() == AfterLose(old(State()))
    {
      busted := false;
      stand := false;
      money := money.Minus(bet);
      bet := 0;
      score := Some(0);
      cards := [];
    }

    method PlayerReset()
      modifies this
      ensures State() == AfterReset(old(State()))
    {
      busted := false;
      stand := false;
      score := None;
      cards := [];
    }

    method DealerReset()
      modifies this
      ensures State() == AfterDealerReset(old(State()))
    {
      busted := false;
      stand := false;
      score := None;
      holeCard := None;
      cards := [];
    }

    /** process_turn: evaluate the hand with check_hand, record the score, bust if over 21. */
    method ProcessTurn()
      modifies this
      ensures State() == AfterProcessTurn(old(State()))
    {
      var handScore, handBusted := CheckHand(cards);
      score := Some(handScore);
      if handBusted {
        PlayerBust();
      }
    }
  }
}
