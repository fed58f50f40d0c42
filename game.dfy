/**
 * The rules-bearing parts of the graphical game (main.py): handing out card
 * slots on the table, clearing them between rounds, the dealer's draw
 * decisions, and the final classification of a round. The graphical game
 * drives them through a ScheduleSeq of actions; here an action is named by
 * a GameAction value.
 */
module Game {
  import opened Wrappers
  import opened Cards
  import opened Hand
  import opened Participants
  import opened Scheduler

  // ---------------------------------------------------------------------
  // Card slots
  // ---------------------------------------------------------------------

  /** The first slot whose `occupied` flag is 0, if any. */
  function FirstFree(flags: seq<int>): (r: Option<nat>)
    ensures r.None? <==> forall j :: 0 <= j < |flags| ==> flags[j] != 0
    ensures r.Some? ==> r.value < |flags| && flags[r.value] == 0 && forall j :: 0 <= j < r.value ==> flags[j] != 0
  {
    if flags == [] then None
    else if flags[0] == 0 then Some(0)
    else match FirstFree(flags[1..])
      case None => None
      case Some(i) => Some(i + 1)
  }

  /** The flags after a slot is handed out. */
  function Occupy(flags: seq<int>): (r: seq<int>)
    ensures |r| == |flags|
  {
    match FirstFree(flags)
    case None => flags
    case Some(i) => flags[i := 1]
  }

  /**
   * get_next_slot (main.py:415-419): marks the first free slot occupied and
   * returns its index; with every slot occupied nothing changes and there
   * is no index (the function falls off its end).
   */
  method GetNextSlot(slots: array<int>) returns (r: Option<nat>)
    modifies slots
    ensures r == FirstFree(old(slots[..]))
    ensures slots[..] == Occupy(old(slots[..]))
  {
    for index := 0 to slots.Length
      invariant forall j :: 0 <= j < index ==> slots[j] != 0
      invariant slots[..] == old(slots[..])
    {
      if slots[index] == 0 {
        slots[index] := 1;
        return Some(index);
      }
    }
    return None;
  }

  /** A slot once handed out is not handed out again before a reset; slots go out left to right. */
  lemma SlotsGoOutInOrder(flags: seq<int>)
    requires FirstFree(flags).Some?
    ensures var i := FirstFree(flags).value;
            FirstFree(Occupy(flags)).Some? ==> FirstFree(Occupy(flags)).value > i
    ensures |Occupy(flags)| == |flags|
  {
    var i := FirstFree(flags).value;
    var after := Occupy(flags);
    assert after == flags[i := 1];
    forall j | 0 <= j <= i
      ensures after[j] != 0
    {
    }
  }

  /** Handing out slots one after the other fills exactly as many of the first slots. */
  function OccupyTimes(flags: seq<int>, n: nat): (r: seq<int>)
    ensures |r| == |flags|
  {
    if n == 0 then flags else Occupy(OccupyTimes(flags, n - 1))
  }

  /** The first `k` slots are occupied and the rest free. */
  predicate FilledUpTo(flags: seq<int>, k: nat) {
    forall j :: 0 <= j < |flags| ==> flags[j] == (if j < k then 1 else 0)
  }

  /** One call on a row filled up to `k` hands out slot `k`. */
  lemma OccupyNext(flags: seq<int>, k: nat)
    requires FilledUpTo(flags, k) && k < |flags|
    ensures FirstFree(flags) == Some(k)
    ensures FilledUpTo(Occupy(flags), k + 1)
  {
    assert flags[k] == 0;
    assert Occupy(flags) == flags[k := 1];
  }

  /** From a cleared row, the k-th call hands out slot k, and the first k + 1 slots are then occupied. */
  lemma {:induction false} ClearedRowFillsInOrder(flags: seq<int>, k: nat)
    requires forall j :: 0 <= j < |flags| ==> flags[j] == 0
    requires k < |flags|
    ensures FirstFree(OccupyTimes(flags, k)) == Some(k)
    ensures FilledUpTo(OccupyTimes(flags, k + 1), k + 1)
  {
    if k == 0 {
      assert FilledUpTo(flags, 0);
      OccupyNext(flags, 0);
    } else {
      ClearedRowFillsInOrder(flags, k - 1);
      assert OccupyTimes(flags, (k - 1) + 1) == OccupyTimes(flags, k);
      OccupyNext(OccupyTimes(flags, k), k);
    }
  }

  /** Clears every flag of a row (main.py:662-668, and the initial set-up). */
  method ClearSlots(slots: array<int>)
    modifies slots
    ensures forall j :: 0 <= j < slots.Length ==> slots[j] == 0
  {
    for i := 0 to slots.Length
      invariant forall j :: 0 <= j < i ==> slots[j] == 0
    {
      slots[i] := 0;
    }
  }

  /** reset_round's slot loops: the player's row, then the dealer's row. */
  method ResetRoundSlots(playerSlots: array<int>, dealerSlots: array<int>)
    modifies playerSlots, dealerSlots
    ensures forall j :: 0 <= j < playerSlots.Length ==> playerSlots[j] == 0
    ensures forall j :: 0 <= j < dealerSlots.Length ==> dealerSlots[j] == 0
  {
    ClearSlots(playerSlots);
    ClearSlots(dealerSlots);
  }

  // ---------------------------------------------------------------------
  // The final classification (final_seq)
  // ---------------------------------------------------------------------

  datatype Resolution = NoResolution | Won | Lost | Tied

  /**
   * final_seq's classification (main.py:557-564). Python's `and` binds
   * tighter than `or`: won is `p > d or (not pb and db)`, lost is
   * `p < d or (pb and not db)`, tested in that order.
   */
  function FinalResolution(playerScore: int, playerBusted: bool, dealerScore: int, dealerBusted: bool): Resolution {
    if playerScore > dealerScore || (!playerBusted && dealerBusted) then Won
    else if playerScore < dealerScore || (playerBusted && !dealerBusted) then Lost
    else Tied
  }

  /** A tie needs equal scores and equal busted flags. */
  lemma TiedExactly(ps: int, pb: bool, ds: int, db: bool)
    ensures FinalResolution(ps, pb, ds, db) == Tied <==> ps == ds && pb == db
    ensures FinalResolution(ps, pb, ds, db) != NoResolution
  {
  }

  /**
   * Swapping the two sides swaps won and lost, except that a higher score
   * is tested before the flags, so a busted side with the higher score wins.
   */
  lemma ScoreComparedBeforeFlags(ps: int, ds: int, db: bool)
    requires ps > ds
    ensures FinalResolution(ps, true, ds, db) == Won
  {
  }

  /**
   * The console round's settlement of a player still in (blackjack_logic.py:363-378),
   * as a classification.
   */
  function ConsoleResolution(playerScore: int, dealerScore: int, dealerBusted: bool): Resolution {
    if dealerBusted then Won
    else if playerScore > dealerScore then Won
    else if playerScore < dealerScore then Lost
    else Tied
  }

  /** For a player who has not busted the graphical game and the console round agree. */
  lemma AgreesWithConsole(ps: int, ds: int, db: bool)
    ensures FinalResolution(ps, false, ds, db) == ConsoleResolution(ps, ds, db)
  {
  }

  // ---------------------------------------------------------------------
  // The dealer's draws: console round against the graphical game
  // ---------------------------------------------------------------------

  /**
   * The console dealer's hand after the forced hits (blackjack_logic.py:357-361),
   * taking the draws in order from `draws`; it stops on running out of them.
   */
  function ConsoleDealerHand(hand: seq<Card>, draws: seq<Card>): seq<Card>
    decreases |draws|
  {
    if HandScore(hand) >= 17 || draws == [] then hand
    else ConsoleDealerHand(hand + [draws[0]], draws[1..])
  }

  /**
   * The graphical dealer (main.py:520-553): already ahead of the player it
   * stands at once; otherwise it draws one card (dealer_hit_loop) and then
   * keeps drawing while below 17 (the_check).
   */
  function GuiDealerHand(hand: seq<Card>, playerScore: int, draws: seq<Card>): seq<Card> {
    if HandScore(hand) > playerScore || draws == [] then hand
    else ConsoleDealerHand(hand + [draws[0]], draws[1..])
  }

  /** The console dealer only adds cards, each drawn while the hand was below 17, and stops at 17 or more. */
  lemma {:induction false} ConsoleDealerDraws(hand: seq<Card>, draws: seq<Card>)
    ensures var r := ConsoleDealerHand(hand, draws);
            && |hand| <= |r| <= |hand| + |draws|
            && r == hand + draws[..|r| - |hand|]
            && (|r| < |hand| + |draws| ==> HandScore(r) >= 17)
            && (forall k :: |hand| <= k < |r| ==> HandScore(r[..k]) < 17)
    decreases |draws|
  {
    if HandScore(hand) >= 17 || draws == [] {
    } else {
      var h := hand + [draws[0]];
      ConsoleDealerDraws(h, draws[1..]);
      var r := ConsoleDealerHand(h, draws[1..]);
      assert r == h + draws[1..][..|r| - |h|];
      assert draws[..|r| - |hand|] == [draws[0]] + draws[1..][..|r| - |h|];
      forall k | |hand| <= k < |r|
        ensures HandScore(r[..k]) < 17
      {
        if k == |hand| {
          assert r[..k] == hand;
        }
      }
    }
  }

  /**
   * The dealer's turn in the console round computes ConsoleDealerHand: a
   * sequence of draws each made below 17 and ending at 17 or more is what
   * the function takes from any longer supply of cards.
   */
  lemma {:induction false} ConsoleDealerHandOfTurn(hand: seq<Card>, extra: seq<Card>, rest: seq<Card>)
    requires forall k :: 0 <= k < |extra| ==> HandScore(hand + extra[..k]) < 17
    requires HandScore(hand + extra) >= 17
    ensures ConsoleDealerHand(hand, extra + rest) == hand + extra
    decreases |extra|
  {
    if extra == [] {
      assert hand + extra == hand;
    } else {
      assert extra[..0] == [];
      assert hand + extra[..0] == hand;
      var h := hand + [extra[0]];
      assert (extra + rest)[0] == extra[0] && (extra + rest)[1..] == extra[1..] + rest;
      forall k | 0 <= k < |extra[1..]|
        ensures HandScore(h + extra[1..][..k]) < 17
      {
        assert h + extra[1..][..k] == hand + extra[..k + 1];
      }
      assert h + extra[1..] == hand + extra;
      ConsoleDealerHandOfTurn(h, extra[1..], rest);
    }
  }

  /** Already ahead, the graphical dealer stands even below 17, where the console dealer would draw. */
  lemma GuiStandsWhenAhead(hand: seq<Card>, playerScore: int, draws: seq<Card>)
    requires HandScore(hand) > playerScore
    ensures GuiDealerHand(hand, playerScore, draws) == hand
  {
  }

  /** Behind or level and below 17, both dealers draw the same cards. */
  lemma GuiAgreesBelowSeventeen(hand: seq<Card>, playerScore: int, draws: seq<Card>)
    requires HandScore(hand) <= playerScore && HandScore(hand) < 17
    ensures GuiDealerHand(hand, playerScore, draws) == ConsoleDealerHand(hand, draws)
  {
  }

  /** Behind or level at 17 or more, the graphical dealer still draws a card; the console dealer stands. */
  lemma GuiDrawsOnceBehind(hand: seq<Card>, playerScore: int, draws: seq<Card>)
    requires 17 <= HandScore(hand) <= playerScore && draws != []
    ensures ConsoleDealerHand(hand, draws) == hand
    ensures |GuiDealerHand(hand, playerScore, draws)| > |hand|
  {
    ConsoleDealerDraws(hand + [draws[0]], draws[1..]);
  }

  // ---------------------------------------------------------------------
  // The game object and its scheduled actions
  // ---------------------------------------------------------------------

  /** The callbacks the graphical round puts on its ticker. */
  datatype GameAction =
    | DoNothing | FinalSeq | DealerHitLoop | TheCheck | PrintDealer
    | HitDealer | ProcessDealer | AnimateHit | UpdateDealerScore
    | RefreshDeck | ResetRound

  /** stand_sequence (main.py:536-540): straight to the final sequence when the dealer is ahead, else a hit. */
  function StandActions(dealerScore: int, playerScore: int): seq<(GameAction, real)> {
    if dealerScore > playerScore then [(DoNothing, 0.9), (FinalSeq, 0.0)]
    else [(DealerHitLoop, 0.0)]
  }

  /** the_check (main.py:542-548): another hit below 17, else the final sequence. */
  function CheckActions(dealerScore: int): seq<(GameAction, real)> {
    if dealerScore < 17 then [(DealerHitLoop, 0.0), (PrintDealer, 0.0)]
    else [(DoNothing, 0.9), (FinalSeq, 0.0)]
  }

  /** dealer_hit_loop (main.py:550-553) with do_hit_dealer (main.py:698-708): one draw, then the check. */
  function HitLoopActions(): seq<(GameAction, real)> {
    [(HitDealer, 0.0), (ProcessDealer, 0.0), (AnimateHit, 0.4), (UpdateDealerScore, 0.0),
     (DoNothing, 0.2), (TheCheck, 0.0)]
  }

  /** final_seq's follow-up (main.py:566-567). */
  function FinalActions(): seq<(GameAction, real)> {
    [(RefreshDeck, 0.0), (ResetRound, 0.0)]
  }

  /**
   * Which way each decision leads: the final sequence exactly when the
   * dealer stands, another hit exactly when it draws; every hit is
   * followed by a check; the final sequence ends the round.
   */
  lemma DecisionsLead(dealerScore: int, playerScore: int)
    ensures FinalSeq in SpawnedIds(StandActions(dealerScore, playerScore)) <==> dealerScore > playerScore
    ensures DealerHitLoop in SpawnedIds(StandActions(dealerScore, playerScore)) <==> dealerScore <= playerScore
    ensures FinalSeq in SpawnedIds(CheckActions(dealerScore)) <==> dealerScore >= 17
    ensures DealerHitLoop in SpawnedIds(CheckActions(dealerScore)) <==> dealerScore < 17
    ensures SpawnedIds(HitLoopActions()) == [HitDealer, ProcessDealer, AnimateHit, UpdateDealerScore, DoNothing, TheCheck]
    ensures DealerHitLoop !in SpawnedIds(FinalActions()) && FinalSeq !in SpawnedIds(FinalActions())
  {
  }

  /** A win is paid, a loss taken; a tie leaves the record as it is. */
  function Resolved(s: PState, r: Resolution): PState {
    match r
    case Won => AfterWin(s)
    case Lost => AfterLose(s)
    case _ => s
  }

  /** The game object's round state (main.py:420-430); graphics and timers are not part of it. */
  class GameBlackjack {
    var ticker: ScheduleSeq<GameAction>
    var player: Participant?
    var dealer: Participant?
    var resolution: Resolution

    ghost predicate Valid()
      reads this, ticker, ticker.sequence
    {
      ticker.Valid()
    }

    constructor ()
      ensures Valid() && fresh(ticker) && ticker.Queue() == []
      ensures player == null && dealer == null && resolution == NoResolution
    {
      ticker := new ScheduleSeq();
      player := null;
      dealer := null;
      resolution := NoResolution;
    }

    /** stand_sequence: enqueues StandActions for the current scores. */
    method StandSequence()
      requires Valid() && player != null && dealer != null
      requires player.score.Some? && dealer.score.Some?
      modifies ticker
      ensures Valid()
      ensures ticker.Queue() == old(ticker.Queue()) + FreshAll(StandActions(dealer.score.value, player.score.value))
    {
      ticker.AddAll(StandActions(dealer.score.value, player.score.value));
    }

    /** the_check: enqueues CheckActions for the dealer's score. */
    method TheCheck()
      requires Valid() && dealer != null && dealer.score.Some?
      modifies ticker
      ensures Valid()
      ensures ticker.Queue() == old(ticker.Queue()) + FreshAll(CheckActions(dealer.score.value))
    {
      ticker.AddAll(CheckActions(dealer.score.value));
    }

    /** dealer_hit_loop: takes the dealer's next card slot and enqueues one hit and the check. */
    method DealerHitLoop(dealerSlots: array<int>) returns (slot: Option<nat>)
      requires Valid()
      modifies ticker, dealerSlots
      ensures Valid()
      ensures slot == FirstFree(old(dealerSlots[..])) && dealerSlots[..] == Occupy(old(dealerSlots[..]))
      ensures ticker.Queue() == old(ticker.Queue()) + FreshAll(HitLoopActions())
    {
      slot := GetNextSlot(dealerSlots);
      ticker.AddAll(HitLoopActions());
    }

    /** final_seq: classify, pay a win or take a loss (a tie changes nothing), then refresh and reset. */
    method FinalSeq()
      requires Valid() && player != null && dealer != null
      requires player.score.Some? && dealer.score.Some?
      modifies this, player, ticker
      ensures Valid()
      ensures ticker == old(ticker) && player == old(player) && dealer == old(dealer)
      ensures resolution == FinalResolution(old(player.score.value), old(player.busted), old(dealer.score.value), old(dealer.busted))
      ensures player.State() == Resolved(old(player.State()), resolution)
      ensures ticker.Queue() == old(ticker.Queue()) + FreshAll(FinalActions())
    {
      Resolve();
      ticker.AddAll(FinalActions());
    }

    /** The classification and its effect on the player's record. */
    method Resolve()
      requires player != null && dealer != null
      requires player.score.Some? && dealer.score.Some?
      modifies this`resolution, player
      ensures resolution == FinalResolution(old(player.score.value), old(player.busted), old(dealer.score.value), old(dealer.busted))
      ensures player.State() == Resolved(old(player.State()), resolution)
    {
      resolution := FinalResolution(player.score.value, player.busted, dealer.score.value, dealer.busted);
      if resolution == Won {
        player.PlayerWin();
      } else if resolution == Lost {
        player.PlayerLose();
      }
    }
  }
}
