/**
 * The hand evaluator, BlackjackLogic.check_hand (blackjack_logic.py:103-124):
 * number cards count their face value, J/Q/K count ten, every ace counts
 * one, and then ten more for an ace whenever that keeps the total at or
 * below 21.
 */
module Hand {
  import opened Cards

  /** What a card adds before the aces are counted: nothing for an ace or an unrecognised rank. */
  function CardPoints(c: Card): nat {
    match c.rank
    case Pip(n) => n
    case Jack => 10
    case Queen => 10
    case King => 10
    case Ace => 0
    case Unrecognized => 0
  }

  /** The sum over the non-ace cards. */
  function NonAceSum(hand: seq<Card>): nat {
    if hand == [] then 0 else NonAceSum(hand[..|hand| - 1]) + CardPoints(hand[|hand| - 1])
  }

  function AceCount(hand: seq<Card>): nat {
    if hand == [] then 0 else AceCount(hand[..|hand| - 1]) + (if hand[|hand| - 1].rank == Ace then 1 else 0)
  }

  /** The hard total: every ace counted as one. */
  function HardTotal(hand: seq<Card>): nat {
    NonAceSum(hand) + AceCount(hand)
  }

  /** The score check_hand reports: one ace promoted to eleven when the total stays at most 21. */
  function HandScore(hand: seq<Card>): nat {
    if AceCount(hand) > 0 && HardTotal(hand) + 10 <= 21 then HardTotal(hand) + 10 else HardTotal(hand)
  }

  /** `busted` of check_hand. */
  predicate Busted(hand: seq<Card>) {
    HandScore(hand) > 21
  }

  /**
   * check_hand as the source computes it: one pass over the cards with the
   * two accumulators, then one promotion attempt per ace. The hand is a
   * value, so it cannot be changed.
   */
  method CheckHand(hand: seq<Card>) returns (score: int, busted: bool)
    ensures score == HandScore(hand)
    ensures busted <==> score > 21
  {
    score := 0;
    var aceCount := 0;
    for i := 0 to |hand|
      invariant score == NonAceSum(hand[..i])
      invariant aceCount == AceCount(hand[..i])
    {
      assert hand[..i + 1][..i] == hand[..i];
      var rank := hand[i].rank;
      if rank == Jack || rank == Queen || rank == King {
        score := score + 10;
      } else if rank == Ace {
        aceCount := aceCount + 1;
      } else if rank.Pip? {
        score := score + rank.n;
      }
    }
    assert hand[..|hand|] == hand;
    var low := score + aceCount;
    score := low;
    for k := 0 to aceCount
      invariant score == if k > 0 && low + 10 <= 21 then low + 10 else low
    {
      if score + 10 <= 21 {
        score := score + 10;
      }
    }
    busted := score > 21;
  }

  // ---------------------------------------------------------------------
  // What the score means
  // ---------------------------------------------------------------------

  /** The value of a card when every ace counts one: the baseline of check_hand. */
  function LowValue(c: Card): nat {
    if c.rank == Ace then 1 else CardPoints(c)
  }

  function LowSum(hand: seq<Card>): nat {
    if hand == [] then 0 else LowValue(hand[0]) + LowSum(hand[1..])
  }

  lemma {:induction false} NonAceSumAppend(a: seq<Card>, b: seq<Card>)
    ensures NonAceSum(a + b) == NonAceSum(a) + NonAceSum(b)
    ensures AceCount(a + b) == AceCount(a) + AceCount(b)
  {
    if b != [] {
      var b' := b[..|b| - 1];
      assert (a + b)[..|a + b| - 1] == a + b';
      NonAceSumAppend(a, b');
    } else {
      assert a + b == a;
    }
  }

  /** The hard total is the sum of the cards with every ace counted as one. */
  lemma {:induction false} HardTotalIsLowSum(hand: seq<Card>)
    ensures HardTotal(hand) == LowSum(hand)
  {
    if hand != [] {
      HardTotalIsLowSum(hand[1..]);
      assert hand == [hand[0]] + hand[1..];
      NonAceSumAppend([hand[0]], hand[1..]);
      assert [hand[0]][..0] == [];
    }
  }

  /**
   * The score is the best way to count the aces: it is the hard total plus
   * ten for some number of aces counted as eleven, no other way to count
   * them gives a larger total at most 21, and a busted score is the hard
   * total (every way of counting the aces busts).
   */
  lemma BestAceCount(hand: seq<Card>)
    ensures exists j :: 0 <= j <= AceCount(hand) && HandScore(hand) == HardTotal(hand) + 10 * j
    ensures forall j :: 0 <= j <= AceCount(hand) && HardTotal(hand) + 10 * j <= 21 ==>
                          HardTotal(hand) + 10 * j <= HandScore(hand)
    ensures Busted(hand) ==> HandScore(hand) == HardTotal(hand)
  {
    var low := HardTotal(hand);
    if AceCount(hand) > 0 && low + 10 <= 21 {
      assert HandScore(hand) == low + 10 * 1;
    } else {
      assert HandScore(hand) == low + 10 * 0;
    }
  }

  /** Without aces the score is the plain sum of the card values. */
  lemma NoAceScore(hand: seq<Card>)
    requires AceCount(hand) == 0
    ensures HandScore(hand) == NonAceSum(hand)
    ensures Busted(hand) <==> NonAceSum(hand) > 21
  {
  }

  /**
   * With k >= 1 aces and non-ace sum S the score is S + k + 10 when that is
   * at most 21, and S + k otherwise.
   */
  lemma AcesScore(hand: seq<Card>)
    requires AceCount(hand) >= 1
    ensures var s, k := NonAceSum(hand), AceCount(hand);
            HandScore(hand) == if s + k + 10 <= 21 then s + k + 10 else s + k
  {
  }

  /**
   * A hand whose every rank is unrecognised scores 0 and never busts; with
   * OriginNameUnrecognized this is what every hand of ORIGIN_DECK names scores.
   */
  lemma {:induction false} UnrecognizedHandScoresZero(hand: seq<Card>)
    requires forall i :: 0 <= i < |hand| ==> hand[i].rank == Unrecognized
    ensures NonAceSum(hand) == 0 && AceCount(hand) == 0
    ensures HandScore(hand) == 0 && !Busted(hand)
  {
    if hand != [] {
      UnrecognizedHandScoresZero(hand[..|hand| - 1]);
    }
  }

  /** Two aces and a nine: one ace counts eleven, the other one. */
  lemma AceAceNine(s1: Suit, s2: Suit, s3: Suit)
    ensures HandScore([Card(Ace, s1), Card(Ace, s2), Card(Pip(9), s3)]) == 21
  {
    ThreeCards(Card(Ace, s1), Card(Ace, s2), Card(Pip(9), s3));
  }

  /** The hand is read as a multiset of cards: any two orderings of the same cards score the same. */
  lemma ScoreIgnoresOrder(h1: seq<Card>, h2: seq<Card>)
    requires multiset(h1) == multiset(h2)
    ensures HandScore(h1) == HandScore(h2)
    ensures Busted(h1) <==> Busted(h2)
  {
    CountsOfCards(h1, h2);
  }

  /** Both accumulators of check_hand depend only on which cards the hand holds. */
  lemma {:induction false} CountsOfCards(h1: seq<Card>, h2: seq<Card>)
    requires multiset(h1) == multiset(h2)
    ensures NonAceSum(h1) == NonAceSum(h2) && AceCount(h1) == AceCount(h2)
    decreases |h1|
  {
    if h1 == [] {
      assert |h2| == |multiset(h2)| == 0;
    } else {
      var m := |h1| - 1;
      var x := h1[m];
      assert h1 == h1[..m] + [x];
      assert x in multiset(h2);
      var i :| 0 <= i < |h2| && h2[i] == x;
      var rest := h2[..i] + h2[i + 1..];
      assert h2 == h2[..i] + ([x] + h2[i + 1..]);
      calc {
        multiset(rest);
        multiset(h2[..i]) + multiset(h2[i + 1..]);
        multiset(h2) - multiset{x};
        multiset(h1) - multiset{x};
        multiset(h1[..m]);
      }
      CountsOfCards(h1[..m], rest);
      NonAceSumAppend(h2[..i], [x] + h2[i + 1..]);
      NonAceSumAppend([x], h2[i + 1..]);
      NonAceSumAppend(h2[..i], h2[i + 1..]);
      OneCard(x);
    }
  }

  /** Two cards never bust: the largest totals are 20 (two tens) and 12 (two aces). */
  lemma TwoCardsNeverBust(c1: Card, c2: Card)
    ensures HandScore([c1, c2]) <= 21
  {
    TwoCards(c1, c2);
  }

  /** One card never busts: the dealer's partial total is at most 11. */
  lemma OneCardScore(c: Card)
    ensures HandScore([c]) <= 11
  {
    OneCard(c);
  }

  /**
   * A draw can lower the score: ace and nine make 20, and a five more makes
   * 15, because the ace falls back to one. The dealer loop therefore ends
   * because the shoe shrinks, not because the score grows.
   */
  lemma SoftHandCanDrop(s1: Suit, s2: Suit, s3: Suit)
    ensures HandScore([Card(Ace, s1), Card(Pip(9), s2)]) == 20
    ensures HandScore([Card(Ace, s1), Card(Pip(9), s2), Card(Pip(5), s3)]) == 15
  {
    TwoCards(Card(Ace, s1), Card(Pip(9), s2));
    ThreeCards(Card(Ace, s1), Card(Pip(9), s2), Card(Pip(5), s3));
  }

  lemma OneCard(c: Card)
    ensures NonAceSum([c]) == CardPoints(c)
    ensures AceCount([c]) == if c.rank == Ace then 1 else 0
  {
    assert [c][..0] == [];
  }

  lemma TwoCards(c1: Card, c2: Card)
    ensures NonAceSum([c1, c2]) == CardPoints(c1) + CardPoints(c2)
    ensures AceCount([c1, c2]) == AceCount([c1]) + AceCount([c2])
  {
    OneCard(c1);
    OneCard(c2);
    assert [c1, c2] == [c1] + [c2];
    NonAceSumAppend([c1], [c2]);
  }

  lemma ThreeCards(c1: Card, c2: Card, c3: Card)
    ensures NonAceSum([c1, c2, c3]) == CardPoints(c1) + CardPoints(c2) + CardPoints(c3)
    ensures AceCount([c1, c2, c3]) == AceCount([c1]) + AceCount([c2]) + AceCount([c3])
  {
    TwoCards(c1, c2);
    OneCard(c3);
    assert [c1, c2, c3] == [c1, c2] + [c3];
    NonAceSumAppend([c1, c2], [c3]);
  }

  /** The hard total never decreases when a card is added. */
  lemma HardTotalGrows(hand: seq<Card>, c: Card)
    ensures HardTotal(hand + [c]) == HardTotal(hand) + LowValue(c)
  {
    assert (hand + [c])[..|hand|] == hand;
  }
}
