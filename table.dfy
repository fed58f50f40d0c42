/**
 * The engine object itself (blackjack_logic.py:97-101, :161-189, :387-388):
 * the seated players, the dealer and the deck it deals from.
 */
module Table {
  import opened Wrappers
  import opened Cards
  import opened Participants

  class BlackjackTable {
    var players: seq<Participant>
    /** None until a dealer is seated. */
    var dealer: Option<Participant>
    var deck: seq<Card>

    /** Every seat holds its own record, and the dealer is not one of the players. */
    predicate SeatsDistinct()
      reads this
    {
      Distinct(players) && (dealer.Some? ==> dealer.value !in players)
    }

    constructor ()
      ensures players == [] && dealer == None && deck == []
      ensures SeatsDistinct()
    {
      players := [];
      dealer := None;
      deck := [];
    }

    /** seat_player: a new record with the budget, no bet, no cards, no score, appended to the players. */
    method SeatPlayer(name: string, budget: int) returns (p: Participant)
      modifies this
      ensures fresh(p) && p.name == name
      ensures p.State() == PState(Amount(budget), 0, [], None, false, false, None)
      ensures players == old(players) + [p]
      ensures dealer == old(dealer) && deck == old(deck)
      ensures old(SeatsDistinct()) ==> SeatsDistinct()
    {
      p := new Participant.Player(name, budget);
      players := players + [p];
    }

    /** seat_dealer: a new dealer record with unlimited money and a score of 0 replaces the dealer. */
    method SeatDealer(name: string) returns (d: Participant)
      modifies this
      ensures fresh(d) && d.name == name
      ensures d.State() == PState(Unlimited, 0, [], Some(0), false, false, None)
      ensures dealer == Some(d)
      ensures players == old(players) && deck == old(deck)
      ensures old(Distinct(players)) ==> SeatsDistinct()
    {
      d := new Participant.Dealer(name);
      dealer := Some(d);
    }

    /** refresh_deck: a single deck of 52, or eight of them in the modern variant. */
    method RefreshDeck(modernVariant: bool)
      modifies this
      ensures deck == Shoe(modernVariant)
      ensures players == old(players) && dealer == old(dealer)
    {
      deck := Shoe(modernVariant);
    }
  }
}
