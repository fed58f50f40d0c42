# Blackjack engine, game-side rules and action scheduler — a Dafny model

This project models the rules core of a small Blackjack game:

- the engine in `blackjack_logic.py`:
  - hand scoring, dealing from the deck and the participant records with their transitions;
  - the player action resolver;
  - the round played by the console driver, without its prompts: bet clamping, the deal, dropping busted players, the players' turns, the hole-card reveal, the dealer's forced hits, settlement and the final resets;
- the rule pieces of the 3D front end in `main.py`:
  - the first-free card-slot allocator and the slot resets;
  - the dealer's continue/stop decisions;
  - the end-of-round won/lost/tied classification;
- the timed FIFO action queue `ScheduleSeq` in `painting_on_water/simple_scheduler.py`.

Modules, one file each:

- `wrappers.dfy` — `Option`.
- `cards.dfy` (`Cards`):
  - ranks, suits and cards;
  - the rank text of card names and its parsing (`card[:-1]`);
  - `ORIGIN_DECK` and the 1× / 8× shoe;
  - first-occurrence removal, which models `list.remove`.
- `hand.dfy` (`Hand`): `check_hand` as a closed-form function `HandScore`, the source's two loops as the method `CheckHand` proved equal to it, and the scoring lemmas.
- `participants.dfy` (`Participants`):
  - the participant record as the class `Participant`;
  - its state as the value `PState`;
  - every transition (`player_bust`, `player_win`, `player_lose`, `player_reset`, `dealer_reset`, `process_turn`) as a function on `PState`, a method that applies it in place, and lemmas about them.
- `dealing.dfy` (`Dealing`): the deck as a mutable `Deck`, `hit`, `initial_deal` and the multiset conservation of cards.
- `actions.dfy` (`Actions`): the action token map, `run_action_player`, and one player's turn as a sequence of tokens.
- `round.dfy` (`Round`): the console round, phase by phase and composed as `PlayRound`.
- `table.dfy` (`Table`): the engine object with its players, dealer and deck; `seat_player`, `seat_dealer` and `refresh_deck`.
- `game.dfy` (`Game`): the `main.py` rules and the game object's scheduled decisions.
- `scheduler.dfy` (`Scheduler`): `SAction` and `ScheduleSeq`, with the pure queue transition `AfterUpdate` that `ScheduleSeq.Update` is proved against.

Two behaviours of the code that the model keeps as written:

- **A draw can lower the score.** A soft hand drops when a card is added: ace and nine score 20, and adding a five gives 15 (`Hand.SoftHandCanDrop`).
- **`ORIGIN_DECK` names score 0.** The names in `ORIGIN_DECK` end in a suit symbol and a space. `check_hand` strips only the last character, which leaves no recognised rank, so such a card scores 0 (`Cards.OriginNameUnrecognized`, `Hand.UnrecognizedHandScoresZero`). The rest of the model treats a card as its (rank, suit) value.

## Model

| member | source | states |
|---|---|---|
| Hand.CheckHand | blackjack_logic.py:103-124 | the two loops compute exactly HandScore of the hand (each ace counted as 1, then +10 for each ace while that stays ≤ 21), and busted holds iff the score exceeds 21 |
| Hand.NoAceScore | blackjack_logic.py:109-117 | without aces the score is the sum of the non-ace card points (10 for J/Q/K, face value otherwise) |
| Hand.AcesScore | blackjack_logic.py:110-124 | with k ≥ 1 aces and non-ace sum S the score is S+k+10 when that is ≤ 21, else S+k |
| Hand.BestAceCount | blackjack_logic.py:119-122 | the score is the hard total plus 10 for some number of aces, and it is the largest such value not over 21 when one exists |
| Hand.UnrecognizedHandScoresZero | blackjack_logic.py:111-116 | cards whose rank is not recognised contribute neither points nor aces |
| Hand.AceAceNine | blackjack_logic.py:119-122 | A, A, 9 scores 21 |
| Hand.ScoreIgnoresOrder | blackjack_logic.py:108-122 | two hands holding the same cards in any order (equal multisets) have the same score and are busted alike |
| Hand.CountsOfCards | blackjack_logic.py:108-117 | two hands holding the same cards in any order have the same non-ace sum and the same number of aces |
| Hand.TwoCardsNeverBust | blackjack_logic.py:103-124 | no two-card hand is busted |
| Hand.OneCardScore | blackjack_logic.py:103-124 | a single card scores at most 11 |
| Hand.SoftHandCanDrop | blackjack_logic.py:119-122 | adding a card can lower the score (A,9 = 20; A,9,5 = 15) |
| Hand.HardTotalIsLowSum | blackjack_logic.py:108-117 | the first loop's total with aces as 1 equals the per-card sum of low values |
| Hand.HardTotalGrows | blackjack_logic.py:108-117 | adding a card adds its low value to the hard total |
| Cards.ParseRank | blackjack_logic.py:111-116 | a text is recognised iff it is the text of some rank, and then it parses back to that rank |
| Cards.ParseRankText | blackjack_logic.py:85-86 | every rank's text parses back to the rank |
| Cards.GameNameRank | blackjack_logic.py:110 | stripping the suit letter from a game card name such as "QH" or "10H" gives its rank back |
| Cards.OriginNameUnrecognized | blackjack_logic.py:85-92 | a name built as in ORIGIN_DECK has no recognised rank once its last character is stripped |
| Cards.RanksAreTheRecognisedRanks | blackjack_logic.py:85 | the rank list is exactly the recognised ranks |
| Cards.OriginDeckContents | blackjack_logic.py:85-92 | ORIGIN_DECK has 52 cards, each standard card exactly once and nothing else |
| Cards.ShoeContents | blackjack_logic.py:387-388 | refresh_deck's shoe has 416 cards with 8 copies of each in the modern variant, else 52 with 1 copy |
| Cards.RemoveFirst | blackjack_logic.py:130 | list.remove takes out the first occurrence and keeps the rest in order |
| Cards.RemoveFirstCount | blackjack_logic.py:130 | removal shortens the deck by one and lowers that card's count by one |
| Participants.Participant.Player | blackjack_logic.py:161-172 | seat_player's record: the budget, bet 0, no cards, no score, not standing, not busted, no hole card |
| Participants.Participant.Dealer | blackjack_logic.py:175-189 | seat_dealer's record: unlimited money, bet 0, no cards, score 0, no hole card |
| Participants.Participant.PlayerBust | blackjack_logic.py:230-239 | the new state is AfterBust of the old: busted and standing, money less the bet, bet 0, cards and score kept |
| Participants.Participant.PlayerWin | blackjack_logic.py:244-255 | the new state is AfterWin of the old: money plus the bet, bet 0, score set to 0 (`Some(0)`), cards emptied, stand and busted cleared |
| Participants.Participant.PlayerLose | blackjack_logic.py:258-268 | the new state is AfterLose of the old: money less the bet, bet 0, score set to 0 (`Some(0)`), cards emptied, stand and busted cleared |
| Participants.Participant.PlayerReset | blackjack_logic.py:271-278 | the new state is AfterReset of the old: money and bet kept; cards emptied, no score (`None`), stand and busted cleared |
| Participants.Participant.DealerReset | blackjack_logic.py:281-289 | the new state is AfterDealerReset of the old: as a player reset and also the hole card cleared |
| Participants.Participant.ProcessTurn | blackjack_logic.py:291-301 | the new state is AfterProcessTurn of the old: the score is the hand's score, and a bust goes through player_bust |
| Participants.ProcessTurnProcesses | blackjack_logic.py:291-301 | process_turn keeps the cards, leaves the record processed, and busted holds afterwards iff it did before or the hand exceeds 21 |
| Participants.ProcessTurnIdempotent | blackjack_logic.py:291-292 | process_turn twice gives the same state as once |
| Participants.ProcessedIsFixed | blackjack_logic.py:291-301 | a state already processed is left unchanged |
| Participants.BustKeepsHand | blackjack_logic.py:230-239 | a bust keeps the cards and the score and charges exactly the bet |
| Participants.ResetsClear | blackjack_logic.py:271-289 | both resets leave no cards, no score, no stand and no bust, with money and bet kept; the dealer reset also leaves no hole card; a second player reset changes nothing |
| Participants.WinLoseSymmetric | blackjack_logic.py:244-268 | a win adds exactly the bet and a loss takes exactly the bet |
| Participants.DealerMoneyUnlimited | blackjack_logic.py:291-301 | the dealer's unlimited money stays unlimited through process_turn |
| Dealing.DrawOne | blackjack_logic.py:129-131 | the drawn card was in the deck and the deck loses its first occurrence of it, one card fewer |
| Dealing.Hit | blackjack_logic.py:126-133 | n draws shrink the deck by n and append exactly the drawn cards to the hand; deck plus drawn cards is the old deck as a multiset |
| Dealing.DealEach | blackjack_logic.py:145-152 | in one pass every player gains exactly one card, in seat order, drawn from the deck |
| Dealing.InitialDeal | blackjack_logic.py:136-158 | every player gains two cards and the dealer one in the order players, upcard, players, hole card; the hole card is set and not added to the hand; the deck shrinks by 2·players+2; deck plus drawn cards is the old deck; when no hole card was left from before, hands, hole card and deck keep the same multiset |
| Dealing.DealOrder | blackjack_logic.py:145-158 | the draws split into first pass, upcard, second pass and hole card as dealt |
| Dealing.TableConserved | blackjack_logic.py:145-158 | hands plus hole card plus deck after the deal equal hands plus deck before it |
| Dealing.HeldGrowsBy | blackjack_logic.py:145-152 | after two passes the cards held grow by exactly the two passes' draws |
| Actions.ParseAction | blackjack_logic.py:196-205 | a token is refused iff it is not a key of the action map, and otherwise gives its mapped action |
| Actions.TokensOfEachAction | blackjack_logic.py:196-200 | "1"/"hit" give hit, "2"/"stand" stand, "3"/"double down" double down, "4"/"split" split, and nothing else |
| Actions.KeysAreFolded | blackjack_logic.py:196-205 | every key is unchanged by casefold, so folding after the membership test cannot change the lookup |
| Actions.UpperCaseRejected | blackjack_logic.py:202-205 | "HIT" and "Stand" are refused because membership is tested before folding |
| Actions.ActionLeavesProcessed | blackjack_logic.py:207-221 | every mapped action ends in a processed state (score is the hand's score) |
| Actions.HitAddsOneCard | blackjack_logic.py:207-209 | a hit appends exactly the drawn card and rescores the hand; without a bust money, bet and busted are kept; on a bust the bet is taken from the money, the bet becomes 0 and the player is busted and standing |
| Actions.StandMovesNoCards | blackjack_logic.py:211-213 | stand sets stand and moves no cards |
| Actions.DoubleDownAccepted | blackjack_logic.py:215-219 | with money ≥ twice the bet a double down adds one card, doubles the bet and stands |
| Actions.DoubleDownRejected | blackjack_logic.py:215-221 | without the money a double down changes only what process_turn changes |
| Actions.SplitIsNoOp | blackjack_logic.py:220-222 | split on a processed record changes nothing |
| Actions.RunActionPlayer | blackjack_logic.py:192-222 | an unmapped token changes nothing and reports "not_mapped"; a mapped one applies AfterAction with the drawn cards taken from the deck, conserving the multiset |
| Actions.PlayerTurn | blackjack_logic.py:333-345 | one player's turn replays the tokens with Step until stand, the tokens or the deck run out; the state is the replay of the tokens used and the deck lost exactly the cards drawn |
| Actions.StandEndsTurn | blackjack_logic.py:343-345 | a turn whose first token is "stand" and that ends standing is the single stand step: no card is drawn |
| Actions.StepKeeps | blackjack_logic.py:207-221 | each step appends its drawn cards to the hand and leaves the state processed |
| Round.ClampBet | blackjack_logic.py:315 | the bet is the amount when 0 ≤ amount ≤ money, else 0; never negative, never more than the money |
| Round.PlaceBets | blackjack_logic.py:308-316 | every player's bet is the clamped amount, nothing else changes |
| Round.ProcessAll | blackjack_logic.py:322-323 | every player's state is process_turn of the old one |
| Round.Unbusted | blackjack_logic.py:325 | every remaining player is a seated player who has not busted, there are no more of them than players, and no one appears twice |
| Round.UnbustedCovers | blackjack_logic.py:325 | every seated player who has not busted is among the remaining players |
| Round.InPlay | blackjack_logic.py:325 | the seats still in are the seats of non-busted players, in increasing seat order |
| Round.InPlayCovers | blackjack_logic.py:325 | every seat whose player has not busted is among the seats still in |
| Round.UnbustedOrder | blackjack_logic.py:325 | the k-th remaining player is the player at the k-th seat still in |
| Round.OpenRound | blackjack_logic.py:308-329 | bets clamped, deal done, every player in Opened state, the dealer's upcard processed and hole card set, the remaining players are the unbusted ones, cards conserved |
| Round.BetAndDeal | blackjack_logic.py:308-319 | bets placed then the initial deal, with the deal's draws and conservation |
| Round.NoBustOnTheDeal | blackjack_logic.py:319-325 | nobody busts on two cards, so every player remains after the deal |
| Round.OpenedIsProcessed | blackjack_logic.py:319-323 | a freshly dealt player is processed |
| Round.PlayersTurns | blackjack_logic.py:333-345 | the i-th remaining player's record is the replay of its own tokens from its old record, with exactly the cards it drew appended; the phase goes on only while turns end standing; the deck lost exactly the cards drawn |
| Round.TurnOf | blackjack_logic.py:343-345 | a player's record after the turn is the replay of the tokens, the hand grows by the cards that left the deck, and it ends standing iff the turn ends `Stood` |
| Round.TurnsConserveCards | blackjack_logic.py:333-345 | held cards plus deck are the same multiset before and after the turns |
| Round.RevealHole | blackjack_logic.py:352-353 | the hole card is appended to the dealer's hand and the dealer processed |
| Round.DealerPlay | blackjack_logic.py:357-361 | the dealer draws only while below 17 and not busted; on a normal exit the score is ≥ 17 or busted; the state is process_turn of the hand plus the draws, taken from the deck |
| Round.DealerTurn | blackjack_logic.py:350-361 | the dealer's final hand is the hand, the hole card and the forced draws; its state is process_turn of that hand |
| Round.DealerStandsOnSeventeen | blackjack_logic.py:357-361 | a non-busted dealer that stopped drawing holds 17 to 21 |
| Round.SettleOne | blackjack_logic.py:363-378 | a player's state becomes Settle: win on a dealer bust or a higher score, lose on a lower score, push on equal |
| Round.SettleAll | blackjack_logic.py:363-378 | remaining players are settled, busted ones untouched |
| Round.ResetAll | blackjack_logic.py:380-381 | every player's state is player_reset of the old one |
| Round.SettleAndReset | blackjack_logic.py:363-381 | every player ends in Final: settled if not busted, then reset |
| Round.CloseRound | blackjack_logic.py:350-383 | the dealer's hand is the upcard hand, the hole card and draws made only while below 17 and not busted; with the dealer done the dealer is busted or at 17 or more, every player ends in Final against that hand and the dealer is reset; with the shoe exhausted the dealer still had to draw, the deck is empty and players are untouched; the dealer's hand and the deck hold the same cards as before |
| Round.SettlementPays | blackjack_logic.py:363-381 | the final record is cleared and its money is the old plus the bet on a win, minus it on a loss, unchanged on a push |
| Round.BustedPlayerNotSettled | blackjack_logic.py:347-381 | a busted player's final record only resets; the bust charge stands |
| Round.DealerBustPaysEveryone | blackjack_logic.py:374-378 | when the dealer busts the scores do not matter and every remaining player wins |
| Round.BustCostsTheBet | blackjack_logic.py:230-239 | a processed bust costs the bet exactly |
| Round.OpenAndPlay | blackjack_logic.py:308-345 | players dealt as Opened; the k-th player still in after the deal plays the replay of `tokens[k]`; the turns are cut iff someone still in did not end standing; hands, dealer's cards, hole card and deck hold the same cards as before |
| Round.RemainingTurns | blackjack_logic.py:333-347 | the player at the k-th seat still in ends at the replay of `tokens[k]` with the drawn cards appended; busted players are untouched; cut iff someone still in did not end standing; hands plus deck hold the same cards |
| Round.HeldThroughOrder | blackjack_logic.py:333-345 | when only the hands at the given seats grow, each by its own draws, the cards held grow by exactly those draws |
| Round.FinishRound | blackjack_logic.py:347-383 | a cut round stops with the hole card still down; otherwise the dealer draws only below 17 and the round settles or stops on an empty shoe as in CloseRound; the dealer's hand and the deck hold the same cards as before |
| Round.PlayRound | blackjack_logic.py:304-385 | the whole round: players dealt as Opened; the k-th player still in plays the replay of `tokens[k]`; cut iff someone still in did not end standing; the dealer draws only below 17 and stops busted or at 17 or more; a settled round ends every player in Final against the dealer's hand and resets the dealer; hands, dealer's hand and deck hold the cards of the hands, the dealer and the deck before the round |
| Table.BlackjackTable.SeatPlayer | blackjack_logic.py:161-172 | a fresh record with the budget is appended to the players and the seats stay distinct |
| Table.BlackjackTable.SeatDealer | blackjack_logic.py:175-189 | a fresh unlimited dealer record becomes the dealer |
| Table.BlackjackTable.RefreshDeck | blackjack_logic.py:387-388 | the deck becomes the 1× or 8× shoe |
| Game.FirstFree | main.py:415-419 | None iff every slot is occupied; otherwise the smallest free index, with all earlier slots occupied |
| Game.GetNextSlot | main.py:415-419 | returns FirstFree of the old flags and occupies exactly that slot; with none free nothing changes |
| Game.SlotsGoOutInOrder | main.py:415-419 | after taking a slot every slot up to it is occupied and the next free one lies beyond it |
| Game.ClearedRowFillsInOrder | main.py:415-419 | on a cleared row the k-th request gets slot k |
| Game.ResetRoundSlots | main.py:662-668 | every player slot and every dealer slot is free afterwards |
| Game.TiedExactly | main.py:557-564 | final_seq reports a tie iff scores and bust flags are both equal |
| Game.ScoreComparedBeforeFlags | main.py:557-559 | because `and` binds tighter than `or`, a busted player with the higher score is reported won |
| Game.AgreesWithConsole | main.py:557-564 | for a player who has not busted, final_seq's classification agrees with the console settlement |
| Game.ConsoleDealerHandOfTurn | blackjack_logic.py:357-361 | the console dealer's draws as a function of the shoe agree with the dealer loop's draws |
| Game.GuiStandsWhenAhead | main.py:536-540 | the front end's dealer stands when ahead of the player, even below 17 |
| Game.GuiAgreesBelowSeventeen | main.py:536-548 | when never ahead, the front end's dealer draws as the console dealer does below 17 |
| Game.GuiDrawsOnceBehind | main.py:536-548 | behind the player at 17 or more, the front end's dealer still draws one card where the console dealer would stand |
| Game.DecisionsLead | main.py:536-553 | stand_sequence leads to the final sequence iff the dealer is ahead and to a hit otherwise; the_check leads to a hit iff the dealer is below 17 |
| Game.GameBlackjack.StandSequence | main.py:520-540 | enqueues StandActions for the current scores |
| Game.GameBlackjack.TheCheck | main.py:542-548 | enqueues CheckActions for the dealer's score |
| Game.GameBlackjack.DealerHitLoop | main.py:550-553 | takes the dealer's next card slot and enqueues one hit followed by the check |
| Game.GameBlackjack.FinalSeq | main.py:555-567 | the resolution is FinalResolution of the scores and flags; a win pays and a loss charges the player, a tie changes nothing; refresh and reset are enqueued |
| Scheduler.SAction.ProcessAction | painting_on_water/simple_scheduler.py:15-20 | the first call starts the action with endtime = game time + duration; a started action is unchanged |
| Scheduler.StartAtOnce | painting_on_water/simple_scheduler.py:15-20 | starting is idempotent and sets the end time exactly once |
| Scheduler.ScheduleSeq.AddAction | painting_on_water/simple_scheduler.py:29-30 | the queue gains exactly one fresh action at the end; earlier entries unchanged |
| Scheduler.ScheduleSeq.Update | painting_on_water/simple_scheduler.py:32-45 | game time advances by dt and the queue becomes AfterUpdate of the old one |
| Scheduler.EmptyUpdate | painting_on_water/simple_scheduler.py:33-36 | an update on an empty queue leaves it empty |
| Scheduler.UpdateTouchesOnlyFront | painting_on_water/simple_scheduler.py:39-45 | an update changes only the front entry (its action kept) or removes it, and never removes more than that one entry |
| Scheduler.PopExactlyAtEndtime | painting_on_water/simple_scheduler.py:40-44 | the front is removed exactly when the game time reaches its end time after starting |
| Scheduler.ZeroDurationPopsAtOnce | painting_on_water/simple_scheduler.py:40-44 | a fresh zero-duration action starts and is removed in the same update |
| Scheduler.UpdateKeepsOnlyFrontStarted | painting_on_water/simple_scheduler.py:32-45 | if at most the front entry is started before an update, the same holds after it |
| Scheduler.StartsFollowAdds | painting_on_water/simple_scheduler.py:29-45 | actions start in the order they were added |

## Left out

- Randomness: `choice` in `hit` is modelled as taking any card in the deck (the choice is the caller's), and the shuffles are not modelled; the order of the deck carries no meaning.
- Console input and output of the round (`vinput`, `print`): the bet amounts and the action tokens are parameters, one token per prompt.
- Bets are integers where the source reads floats; the dealer's `math.inf` money is `Unlimited`; a `None` bet from `seat_player` is 0.
- `main_game_logic` is not part of this model: it calls `seat_player` with an extra argument and uses an undefined `new_dealer`, so it cannot run.
- The split branch after `return` in `run_action_player` is unreachable and not modelled; split is a no-op apart from `process_turn`.
- Table.BlackjackTable.RefreshDeck: the traditional variant assigns `ORIGIN_DECK` itself, so later removals mutate the module-level list; the model gives the deck a fresh copy and does not model that aliasing.
- Drawing from an empty deck raises in the source. The deal (Dealing.InitialDeal, Round.OpenRound, Round.BetAndDeal, Round.OpenAndPlay, Round.PlayRound) requires at least 2·players+2 cards in the deck and does not model that error. Later draws stop and report it: `ShoeEmpty` during a player's turn (the round then ends `TurnsCut`), `ShoeExhausted` in the dealer's turn (`DealerCut` for the round).
- Dealing.InitialDeal: card conservation is promised only when no hole card is left from before; `initial_deal` overwrites a leftover hole card, which then leaves the table.
- Round.PlayRound: the players' phase stops at the first player whose tokens run out before standing (`TurnsCut`); the console would wait for more input.
- Round.PlayRound: the card count does not include a hole card left over from an earlier round; `initial_deal` overwrites it.
- Comparisons with a missing score (`None`) would raise in Python; the settlement and `final_seq` require the scores to be present.
- `casefold` is modelled for ASCII letters only.
- Game time: `game_time`, `duration` and `endtime` are Python floats; the model uses `real`, so the rounding of `game_time + duration` and of the accumulated `time.dt` is not modelled.
- Scheduler.ScheduleSeq.Update: the callback's effects are modelled only as the actions it enqueues on the same queue (a parameter); other side effects of callbacks are not part of the model.
- The front end's slot records hold positions and other keys; only the `occupied` flag is modelled.
- Everything graphical or timed in `main.py` (animations, `invoke` delays, widgets, camera, asset and JSON loading) and the other files of the repository (cards, entities, cameras, shaders, scenes, easing and lookup tables) are not part of this model.
- The front end re-seats its dealer record between rounds; the game object's dealer and player are fields set by the caller.
