/**
 * The action resolver of the Blackjack rules engine, run_action_player
 * (blackjack_logic.py:192-222), and a player's turn, the console loop that
 * feeds it one token after another until the player stands
 * (blackjack_logic.py:343-345). Tokens are inputs here: the console reading
 * them is not modelled.
 */
module Actions {
  import opened Wrappers
  import opened Cards
  import opened Hand
  import opened Participants
  import Dealing

  datatype Action = Hit | Stand | DoubleDown | Split

  /** The tokens run_action_player accepts: a digit or a lower-case name per action. */
  const MappedActions: map<string, Action> :=
    map["1" := Hit, "hit" := Hit,
        "2" := Stand, "stand" := Stand,
        "3" := DoubleDown, "double down" := DoubleDown,
        "4" := Split, "split" := Split]

  /** `casefold` on ASCII text: upper-case letters become lower-case. */
  function Fold(t: string): (r: string)
    ensures |r| == |t|
    ensures forall i :: 0 <= i < |t| ==> r[i] == if 'A' <= t[i] <= 'Z' then (t[i] as int + 32) as char else t[i]
  {
    if t == [] then [] else Fold(t[..|t| - 1]) + [FoldChar(t[|t| - 1])]
  }

  function FoldChar(c: char): char {
    if 'A' <= c <= 'Z' then (c as int + 32) as char else c
  }

  /** Text without upper-case letters is left as it is by `casefold`. */
  lemma FoldKeepsLowerCase(t: string)
    requires forall i :: 0 <= i < |t| ==> !('A' <= t[i] <= 'Z')
    ensures Fold(t) == t
  {
  }

  /** Every accepted token is already case-folded, so the lookup after `casefold` cannot miss. */
  lemma KeysAreFolded(t: string)
    requires t in MappedActions
    ensures Fold(t) == t
  {
    KeysAreLowerCase(t);
    FoldKeepsLowerCase(t);
  }

  lemma KeysAreLowerCase(t: string)
    requires t in MappedActions
    ensures forall i :: 0 <= i < |t| ==> !('A' <= t[i] <= 'Z')
  {
    assert t in {"1", "hit", "2", "stand", "3", "double down", "4", "split"};
  }

  /**
   * The token's action: membership is tested on the token as given and the
   * lookup uses its case-folded form, as at blackjack_logic.py:202-203.
   */
  function ParseAction(token: string): (r: Option<Action>)
    ensures r.None? <==> token !in MappedActions
  {
    if token in MappedActions then
      KeysAreFolded(token);
      Some(MappedActions[Fold(token)])
    else
      None
  }

  /** Each action has exactly its digit and its name as tokens. */
  lemma TokensOfEachAction(token: string)
    ensures ParseAction(token) == Some(Hit) <==> token == "1" || token == "hit"
    ensures ParseAction(token) == Some(Stand) <==> token == "2" || token == "stand"
    ensures ParseAction(token) == Some(DoubleDown) <==> token == "3" || token == "double down"
    ensures ParseAction(token) == Some(Split) <==> token == "4" || token == "split"
  {
    ParseIsLookup(token);
  }

  /** With the keys already folded, parsing is a plain lookup of the token. */
  lemma ParseIsLookup(token: string)
    ensures ParseAction(token) == if token in MappedActions then Some(MappedActions[token]) else None
  {
    if token in MappedActions {
      KeysAreFolded(token);
    }
  }

  /** The membership test comes before `casefold`: upper-case spellings are not mapped. */
  lemma UpperCaseRejected()
    ensures ParseAction("HIT") == None && ParseAction("Stand") == None
    ensures Fold("HIT") == "hit"
  {
    assert "HIT" !in MappedActions && "Stand" !in MappedActions;
  }

  /** Double down is allowed when the balance covers twice the bet (blackjack_logic.py:215). */
  predicate CanDoubleDown(s: PState) {
    s.money.Covers(s.bet * 2)
  }

  /** How many cards the action takes from the deck. */
  function CardsNeeded(a: Action, s: PState): (n: nat)
    ensures n <= 1
  {
    match a
    case Hit => 1
    case DoubleDown => if CanDoubleDown(s) then 1 else 0
    case _ => 0
  }

  /**
   * The record after a mapped action, `drawn` being the card the action
   * takes, if any: the branch of the action, then process_turn, which every
   * mapped action reaches. Split has no branch and only reaches process_turn.
   */
  function AfterAction(a: Action, s: PState, drawn: seq<Card>): PState
    requires |drawn| == CardsNeeded(a, s)
  {
    match a
    case Hit => AfterProcessTurn(s.(cards := s.cards + drawn))
    case Stand => AfterProcessTurn(s.(stand := true))
    case DoubleDown =>
      if CanDoubleDown(s) then AfterProcessTurn(s.(cards := s.cards + drawn, bet := s.bet * 2, stand := true))
      else AfterProcessTurn(s)
    case Split => AfterProcessTurn(s)
  }

  // ---------------------------------------------------------------------
  // Properties of the actions
  // ---------------------------------------------------------------------

  /** Every mapped action leaves the record processed, and never clears a bust. */
  lemma ActionLeavesProcessed(a: Action, s: PState, drawn: seq<Card>)
    requires |drawn| == CardsNeeded(a, s)
    ensures Processed(AfterAction(a, s, drawn))
    ensures s.busted ==> AfterAction(a, s, drawn).busted
    ensures BustedStands(s) ==> BustedStands(AfterAction(a, s, drawn))
  {
    match a
    case Hit => ProcessTurnProcesses(s.(cards := s.cards + drawn));
    case Stand => ProcessTurnProcesses(s.(stand := true));
    case DoubleDown =>
      if CanDoubleDown(s) {
        ProcessTurnProcesses(s.(cards := s.cards + drawn, bet := s.bet * 2, stand := true));
      } else {
        ProcessTurnProcesses(s);
      }
    case Split => ProcessTurnProcesses(s);
  }

  /**
   * A hit adds exactly the drawn card to the hand and scores the new hand.
   * Without a bust the money, the bet and the flags stay; a bust goes
   * through player_bust, which takes the bet from the money.
   */
  lemma HitAddsOneCard(s: PState, c: Card)
    ensures AfterAction(Hit, s, [c]).cards == s.cards + [c]
    ensures AfterAction(Hit, s, [c]).score == Some(HandScore(s.cards + [c]))
    ensures AfterAction(Hit, s, [c]).stand <==> s.stand || Busted(s.cards + [c])
    ensures !Busted(s.cards + [c]) ==>
              && AfterAction(Hit, s, [c]).money == s.money
              && AfterAction(Hit, s, [c]).bet == s.bet
              && AfterAction(Hit, s, [c]).busted == s.busted
    ensures Busted(s.cards + [c]) ==>
              && AfterAction(Hit, s, [c]).money == s.money.Minus(s.bet)
              && AfterAction(Hit, s, [c]).bet == 0
              && AfterAction(Hit, s, [c]).busted
  {
  }

  /** Standing moves no card and ends the turn. */
  lemma StandMovesNoCards(s: PState)
    ensures AfterAction(Stand, s, []).cards == s.cards
    ensures AfterAction(Stand, s, []).stand
  {
  }

  /** An allowed double down takes one card, doubles the bet unless the hand busts, and ends the turn. */
  lemma DoubleDownAccepted(s: PState, c: Card)
    requires CanDoubleDown(s)
    ensures AfterAction(DoubleDown, s, [c]).cards == s.cards + [c]
    ensures AfterAction(DoubleDown, s, [c]).stand
    ensures !Busted(s.cards + [c]) ==> AfterAction(DoubleDown, s, [c]).bet == s.bet * 2
    ensures Busted(s.cards + [c]) && s.money.Amount? ==>
              AfterAction(DoubleDown, s, [c]).money == Amount(s.money.value - s.bet * 2)
  {
  }

  /** A double down the balance does not cover leaves cards, bet and money as they were. */
  lemma DoubleDownRejected(s: PState)
    requires !CanDoubleDown(s)
    ensures AfterAction(DoubleDown, s, []) == AfterProcessTurn(s)
    ensures AfterAction(DoubleDown, s, []).cards == s.cards
    ensures Processed(s) ==> AfterAction(DoubleDown, s, []) == s
  {
    if Processed(s) {
      ProcessedIsFixed(s);
    }
  }

  /** Split is not implemented: it only re-processes the record, so on a processed record it is a no-op. */
  lemma SplitIsNoOp(s: PState)
    requires Processed(s)
    ensures AfterAction(Split, s, []) == s
  {
    ProcessedIsFixed(s);
  }

  // ---------------------------------------------------------------------
  // run_action_player
  // ---------------------------------------------------------------------

  datatype ActionResult = NotMapped | Done

  /**
   * run_action_player: an unmapped token changes nothing; a mapped one
   * updates the record as AfterAction says, drawing its card from the deck.
   * The deck must hold the card the action takes (`choice` raises on an
   * empty deck).
   */
  method RunActionPlayer(token: string, p: Participant, deck: Dealing.Deck) returns (result: ActionResult, ghost drawn: seq<Card>)
    requires ParseAction(token).Some? ==> CardsNeeded(ParseAction(token).value, p.State()) <= |deck.cards|
    modifies p, deck`cards
    ensures result == NotMapped <==> ParseAction(token).None?
    ensures result == NotMapped ==> p.State() == old(p.State()) && deck.cards == old(deck.cards) && drawn == []
    ensures result == Done ==>
              && |drawn| == CardsNeeded(ParseAction(token).value, old(p.State()))
              && p.State() == AfterAction(ParseAction(token).value, old(p.State()), drawn)
    ensures |deck.cards| == old(|deck.cards|) - |drawn|
    ensures multiset(deck.cards) + multiset(drawn) == old(multiset(deck.cards))
  {
    var parsed := ParseAction(token);
    if parsed.None? {
      return NotMapped, [];
    }
    var action := parsed.value;
    drawn := [];
    match action {
      case Hit =>
        drawn := Dealing.Hit(p, deck, 1);
      case Stand =>
        p.stand := true;
      case DoubleDown =>
        if p.money.Covers(p.bet * 2) {
          drawn := Dealing.Hit(p, deck, 1);
          p.bet := p.bet * 2;
          p.stand := true;
        }
      case Split =>
    }
    p.ProcessTurn();
    result := Done;
  }

  // ---------------------------------------------------------------------
  // A player's turn
  // ---------------------------------------------------------------------

  /** How many cards feeding `token` to run_action_player takes. */
  function StepDraws(token: string, s: PState): (n: nat)
    ensures n <= 1
  {
    match ParseAction(token)
    case None => 0
    case Some(a) => CardsNeeded(a, s)
  }

  /** The record after feeding `token` to run_action_player. */
  function Step(token: string, s: PState, drawn: seq<Card>): PState
    requires |drawn| == StepDraws(token, s)
  {
    match ParseAction(token)
    case None => s
    case Some(a) => AfterAction(a, s, drawn)
  }

  /** A step only appends what it draws to the hand, keeps a processed record processed and keeps a bust standing. */
  lemma StepKeeps(token: string, s: PState, drawn: seq<Card>)
    requires |drawn| == StepDraws(token, s)
    ensures Step(token, s, drawn).cards == s.cards + drawn
    ensures Processed(s) ==> Processed(Step(token, s, drawn))
    ensures BustedStands(s) ==> BustedStands(Step(token, s, drawn))
  {
    match ParseAction(token)
    case None =>
      assert s.cards + drawn == s.cards;
    case Some(a) =>
      ActionLeavesProcessed(a, s, drawn);
      if a.Stand? || a.Split? || (a.DoubleDown? && !CanDoubleDown(s)) {
        assert s.cards + drawn == s.cards;
      }
  }

  /** The cards of several draws, in order. */
  function Concat(draws: seq<seq<Card>>): seq<Card> {
    if draws == [] then [] else Concat(draws[..|draws| - 1]) + draws[|draws| - 1]
  }

  /**
   * `trace` and `draws` are a run of the turn loop on the first |draws|
   * tokens: the player was not standing before any step, and each record
   * follows from the one before by the step with the cards it drew.
   */
  predicate Replayed(tokens: seq<string>, trace: seq<PState>, draws: seq<seq<Card>>) {
    && |draws| <= |tokens| && |trace| == |draws| + 1
    && forall k :: 0 <= k < |draws| ==> StepTaken(tokens[k], trace[k], draws[k], trace[k + 1])
  }

  /** `after` follows from `before`, a record not yet standing, by feeding `token` and drawing `drawn`. */
  predicate StepTaken(token: string, before: PState, drawn: seq<Card>, after: PState) {
    && !before.stand
    && |drawn| == StepDraws(token, before)
    && after == Step(token, before, drawn)
  }

  lemma ReplayExtends(tokens: seq<string>, trace: seq<PState>, draws: seq<seq<Card>>, next: PState, drawn: seq<Card>)
    requires Replayed(tokens, trace, draws) && |draws| < |tokens|
    requires StepTaken(tokens[|draws|], trace[|draws|], drawn, next)
    ensures Replayed(tokens, trace + [next], draws + [drawn])
  {
    var n := |draws|;
    forall k | 0 <= k < n + 1
      ensures StepTaken(tokens[k], (trace + [next])[k], (draws + [drawn])[k], (trace + [next])[k + 1])
    {
      if k < n {
        assert (trace + [next])[k] == trace[k] && (trace + [next])[k + 1] == trace[k + 1];
        assert (draws + [drawn])[k] == draws[k];
      }
    }
  }

  /**
   * A turn so far: starting from the record `s0` and the deck `deck0`,
   * the steps in `trace`/`draws` led to the record `s` and the deck `deck`;
   * the hand grew by exactly the drawn cards, which left the deck, and the
   * record stayed processed and a bust stayed standing.
   */
  predicate TurnSoFar(s0: PState, deck0: seq<Card>, tokens: seq<string>,
                      trace: seq<PState>, draws: seq<seq<Card>>, s: PState, deck: seq<Card>) {
    && Replayed(tokens, trace, draws)
    && trace[0] == s0 && trace[|draws|] == s
    && s.cards == s0.cards + Concat(draws)
    && multiset(deck) + multiset(Concat(draws)) == multiset(deck0)
    && (Processed(s0) ==> Processed(s))
    && (BustedStands(s0) ==> BustedStands(s))
  }

  /**
   * A turn seen from outside: from the record `s0`, some steps of the turn
   * loop on the first tokens, drawing the cards `d` in order, led to `s`.
   * No step at all (the player not yet asked) is a turn played too.
   */
  ghost predicate TurnPlayed(s0: PState, tokens: seq<string>, d: seq<Card>, s: PState) {
    && s.cards == s0.cards + d
    && exists trace, draws :: Replayed(tokens, trace, draws) && trace[0] == s0 && trace[|draws|] == s && Concat(draws) == d
  }

  /** A player not yet asked has played no step. */
  lemma NotYetPlayed(s: PState, tokens: seq<string>)
    ensures TurnPlayed(s, tokens, [], s)
  {
    assert s.cards + [] == s.cards;
    assert Replayed(tokens, [s], []) && [s][0] == s && Concat([]) == [];
  }

  /**
   * The replay is run_action_player on the tokens in order: a player who
   * is not standing and types "stand" first has played exactly that step,
   * and the turn is over.
   */
  lemma StandEndsTurn(s0: PState, tokens: seq<string>, d: seq<Card>, s: PState)
    requires tokens != [] && tokens[0] == "stand" && !s0.stand
    requires TurnPlayed(s0, tokens, d, s) && s.stand
    ensures s == AfterAction(Stand, s0, []) && d == []
  {
    var trace: seq<PState>, draws: seq<seq<Card>> :| Replayed(tokens, trace, draws) && trace[0] == s0 && trace[|draws|] == s && Concat(draws) == d;
    assert |draws| != 0;
    assert StepTaken(tokens[0], trace[0], draws[0], trace[1]);
    assert ParseAction("stand") == Some(Stand) by { ParseIsLookup("stand"); }
    StandMovesNoCards(s0);
    assert trace[1].stand;
    assert |draws| > 1 ==> StepTaken(tokens[1], trace[1], draws[1], trace[2]);
    assert draws == [draws[0]] && draws[..0] == [];
  }

  datatype TurnEnd = Stood | OutOfTokens | ShoeEmpty

  /**
   * The loop `while not player["stand"]` of the console round, fed with
   * `tokens`: each token is run through run_action_player until the player
   * stands. The turn ends early when the tokens run out, or when the next
   * action needs a card and the deck is empty (where `choice` would raise).
   * `trace` holds the record before each step and after the last,
   * `draws` the cards each step took.
   */
  method PlayerTurn(p: Participant, deck: Dealing.Deck, tokens: seq<string>)
      returns (end: TurnEnd, used: nat, ghost trace: seq<PState>, ghost draws: seq<seq<Card>>)
    modifies p, deck`cards
    ensures used == |draws| && TurnSoFar(old(p.State()), old(deck.cards), tokens, trace, draws, p.State(), deck.cards)
    ensures end == Stood <==> p.stand
    ensures end == OutOfTokens ==> used == |tokens|
    ensures end == ShoeEmpty ==> used < |tokens| && StepDraws(tokens[used], p.State()) > |deck.cards|
  {
    used, trace, draws := 0, [p.State()], [];
    while !p.stand
      invariant used == |draws| && TurnSoFar(old(p.State()), old(deck.cards), tokens, trace, draws, p.State(), deck.cards)
      decreases |tokens| - used
    {
      if used == |tokens| {
        return OutOfTokens, used, trace, draws;
      }
      if StepDraws(tokens[used], p.State()) > |deck.cards| {
        return ShoeEmpty, used, trace, draws;
      }
      trace, draws := TurnPass(tokens, used, p, deck, old(p.State()), old(deck.cards), trace, draws);
      used := used + 1;
    }
    end := Stood;
  }

  /** One pass of the loop, with the bookkeeping of the turn so far. */
  method TurnPass(tokens: seq<string>, i: nat, p: Participant, deck: Dealing.Deck, ghost s0: PState, ghost deck0: seq<Card>,
                  ghost trace: seq<PState>, ghost draws: seq<seq<Card>>)
      returns (ghost trace': seq<PState>, ghost draws': seq<seq<Card>>)
    requires TurnSoFar(s0, deck0, tokens, trace, draws, p.State(), deck.cards)
    requires i == |draws| < |tokens| && !p.stand
    requires StepDraws(tokens[i], p.State()) <= |deck.cards|
    modifies p, deck`cards
    ensures |draws'| == |draws| + 1
    ensures TurnSoFar(s0, deck0, tokens, trace', draws', p.State(), deck.cards)
  {
    ghost var before, deckBefore := p.State(), deck.cards;
    var drawn := TurnStep(tokens[i], p, deck);
    SoFarExtends(s0, deck0, tokens, trace, draws, before, deckBefore, drawn, p.State(), deck.cards);
    trace', draws' := trace + [p.State()], draws + [drawn];
  }

  lemma SoFarExtends(s0: PState, deck0: seq<Card>, tokens: seq<string>, trace: seq<PState>, draws: seq<seq<Card>>,
                     s: PState, deck: seq<Card>, drawn: seq<Card>, s': PState, deck': seq<Card>)
    requires TurnSoFar(s0, deck0, tokens, trace, draws, s, deck) && |draws| < |tokens|
    requires StepTaken(tokens[|draws|], s, drawn, s')
    requires multiset(deck') + multiset(drawn) == multiset(deck)
    ensures TurnSoFar(s0, deck0, tokens, trace + [s'], draws + [drawn], s', deck')
  {
    StepKeeps(tokens[|draws|], s, drawn);
    TurnGrows(draws, drawn);
    ReplayExtends(tokens, trace, draws, s', drawn);
    assert (trace + [s'])[0] == s0 && (trace + [s'])[|draws| + 1] == s';
    assert s'.cards == s0.cards + Concat(draws + [drawn]);
    calc {
      multiset(deck') + multiset(Concat(draws + [drawn]));
      multiset(deck') + (multiset(Concat(draws)) + multiset(drawn));
      (multiset(deck') + multiset(drawn)) + multiset(Concat(draws));
      multiset(deck0);
    }
  }

  /** One pass of the turn loop: run_action_player on the next token, whatever its result. */
  method TurnStep(token: string, p: Participant, deck: Dealing.Deck) returns (ghost drawn: seq<Card>)
    requires StepDraws(token, p.State()) <= |deck.cards|
    modifies p, deck`cards
    ensures |drawn| == StepDraws(token, old(p.State()))
    ensures p.State() == Step(token, old(p.State()), drawn)
    ensures multiset(deck.cards) + multiset(drawn) == old(multiset(deck.cards))
  {
    var _, d := RunActionPlayer(token, p, deck);
    drawn := d;
  }

  lemma TurnGrows(draws: seq<seq<Card>>, drawn: seq<Card>)
    ensures Concat(draws + [drawn]) == Concat(draws) + drawn
    ensures multiset(Concat(draws + [drawn])) == multiset(Concat(draws)) + multiset(drawn)
  {
    assert (draws + [drawn])[..|draws|] == draws;
  }
}
