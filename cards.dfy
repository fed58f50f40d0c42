/**
 * Cards, their names and the shoe of the Blackjack rules engine
 * (blackjack_logic.py:85-92 for the rank and suit lists and ORIGIN_DECK,
 * :110-116 for how a card name is turned into a rank, :387-388 for the shoe).
 */
module Cards {

  /** The value printed on a number card. */
  type PipValue = n: int | 2 <= n <= 10 witness 2

  /**
   * A rank as the hand evaluator sees it: one of the thirteen ranks of
   * RANKS, or `Unrecognized` for a rank text that none of the lists
   * NUMBER_CARDS, FACE_CARDS and ACE contains.
   */
  datatype Rank = Pip(n: PipValue) | Jack | Queen | King | Ace | Unrecognized

  /** The four suits of SUITS; a suit never affects a score. */
  datatype Suit = Spades | Clubs | Hearts | Diamonds

  datatype Card = Card(rank: Rank, suit: Suit)

  /** RANKS: the number cards, then the face cards, then the ace. */
  const Ranks: seq<Rank> :=
    [Pip(2), Pip(3), Pip(4), Pip(5), Pip(6), Pip(7), Pip(8), Pip(9), Pip(10),
     Jack, Queen, King, Ace]

  const Suits: seq<Suit> := [Spades, Clubs, Hearts, Diamonds]

  /** A card of the canonical 52-card set. */
  predicate IsStandard(c: Card) {
    c.rank != Unrecognized
  }

  // ---------------------------------------------------------------------
  // Rank texts and card names
  // ---------------------------------------------------------------------

  /** The text of a rank as it appears in NUMBER_CARDS, FACE_CARDS and ACE. */
  function RankText(r: Rank): string
    requires r != Unrecognized
  {
    match r
    case Pip(n) => if n == 10 then "10" else [('0' as int + n) as char]
    case Jack => "J"
    case Queen => "Q"
    case King => "K"
    case Ace => "A"
  }

  /**
   * The membership tests of check_hand: the rank whose text is `t`, or
   * `Unrecognized` when no list holds `t`.
   */
  function ParseRank(t: string): (r: Rank)
    ensures r != Unrecognized ==> RankText(r) == t
    ensures r == Unrecognized <==> forall q: Rank :: q != Unrecognized ==> RankText(q) != t
  {
    if t == "J" then Jack
    else if t == "Q" then Queen
    else if t == "K" then King
    else if t == "A" then Ace
    else if t == "10" then Pip(10)
    else if |t| == 1 && '2' <= t[0] <= '9' then Pip(t[0] as int - '0' as int)
    else Unrecognized
  }

  /** Parsing the text of a recognised rank gives that rank back. */
  lemma ParseRankText(r: Rank)
    requires r != Unrecognized
    ensures ParseRank(RankText(r)) == r
  {
    if r.Pip? && r.n != 10 {
      var t := RankText(r);
      assert |t| == 1 && t[0] == ('0' as int + r.n) as char;
    }
  }

  /** `card[:-1]`: the name without its last character (an empty name stays empty). */
  function StripLast(name: string): string {
    if |name| == 0 then name else name[..|name| - 1]
  }

  /** The rank check_hand reads from a card name. */
  function RankOfName(name: string): Rank {
    ParseRank(StripLast(name))
  }

  /**
   * The 3D game names a card by its rank text followed by one suit letter
   * ("QH", "10H"); stripping the last character recovers the rank.
   */
  lemma GameNameRank(r: Rank, suitLetter: char)
    requires r != Unrecognized
    ensures RankOfName(RankText(r) + [suitLetter]) == r
  {
    assert StripLast(RankText(r) + [suitLetter]) == RankText(r);
    ParseRankText(r);
  }

  /** The suit texts of SUITS: a suit symbol followed by the emoji variation selector. */
  function SuitText(s: Suit): string {
    match s
    case Spades => "\U{2660}\U{FE0F}"
    case Clubs => "\U{2663}\U{FE0F}"
    case Hearts => "\U{2665}\U{FE0F}"
    case Diamonds => "\U{2666}\U{FE0F}"
  }

  /** The name ORIGIN_DECK gives a card: rank, space, suit, space. */
  function OriginName(c: Card): string
    requires IsStandard(c)
  {
    RankText(c.rank) + " " + SuitText(c.suit) + " "
  }

  /**
   * Stripping one character from an ORIGIN_DECK name leaves the rank, a
   * space and the suit, which no rank list contains: every card of the
   * console deck is read as an unrecognised rank.
   */
  lemma OriginNameUnrecognized(c: Card)
    requires IsStandard(c)
    ensures RankOfName(OriginName(c)) == Unrecognized
  {
    var stripped := StripLast(OriginName(c));
    assert stripped == RankText(c.rank) + " " + SuitText(c.suit);
    assert |stripped| >= 4;
  }

  // ---------------------------------------------------------------------
  // ORIGIN_DECK and the shoe
  // ---------------------------------------------------------------------

  /** The four cards of one rank, in the order of SUITS. */
  function SuitsOf(r: Rank): seq<Card> {
    [Card(r, Spades), Card(r, Clubs), Card(r, Hearts), Card(r, Diamonds)]
  }

  /** One card per rank of `rs` and suit, rank by rank. */
  function DeckOf(rs: seq<Rank>): seq<Card> {
    if rs == [] then [] else SuitsOf(rs[0]) + DeckOf(rs[1..])
  }

  /** ORIGIN_DECK: every rank of RANKS with every suit of SUITS. */
  function OriginDeck(): seq<Card> {
    DeckOf(Ranks)
  }

  /** `deck * n`: n copies of a deck, one after the other. */
  function Repeat<T>(deck: seq<T>, n: nat): seq<T> {
    if n == 0 then [] else Repeat(deck, n - 1) + deck
  }

  /** The shoe refresh_deck builds: one ORIGIN_DECK, or eight for the modern variant. */
  function Shoe(modernVariant: bool): seq<Card> {
    Repeat(OriginDeck(), if modernVariant then 8 else 1)
  }

  predicate Distinct<T(==)>(s: seq<T>) {
    forall i, j :: 0 <= i < j < |s| ==> s[i] != s[j]
  }

  lemma SuitsOfCount(r: Rank, c: Card)
    ensures multiset(SuitsOf(r))[c] == if c.rank == r then 1 else 0
  {
    var m := multiset(SuitsOf(r));
    assert m == multiset{Card(r, Spades), Card(r, Clubs), Card(r, Hearts), Card(r, Diamonds)};
    if c.rank == r {
      match c.suit
      case Spades =>
      case Clubs =>
      case Hearts =>
      case Diamonds =>
    }
  }

  lemma {:induction false} DeckOfCount(rs: seq<Rank>, c: Card)
    requires Distinct(rs)
    ensures |DeckOf(rs)| == 4 * |rs|
    ensures multiset(DeckOf(rs))[c] == if c.rank in rs then 1 else 0
  {
    if rs != [] {
      var tail := rs[1..];
      DistinctTail(rs);
      DeckOfCount(tail, c);
      SuitsOfCount(rs[0], c);
      assert DeckOf(rs) == SuitsOf(rs[0]) + DeckOf(tail);
      assert multiset(DeckOf(rs)) == multiset(SuitsOf(rs[0])) + multiset(DeckOf(tail));
      InSplit(rs, c.rank);
    }
  }

  /** The tail of a list without duplicates has none and lacks the head. */
  lemma DistinctTail<T>(s: seq<T>)
    requires s != [] && Distinct(s)
    ensures Distinct(s[1..]) && s[0] !in s[1..]
  {
    var tail := s[1..];
    forall i, j | 0 <= i < j < |tail| ensures tail[i] != tail[j] {
      assert tail[i] == s[i + 1] && tail[j] == s[j + 1];
    }
    forall k | 0 <= k < |tail| ensures tail[k] != s[0] {
      assert tail[k] == s[k + 1];
    }
  }

  lemma InSplit<T>(s: seq<T>, x: T)
    requires s != []
    ensures x in s <==> x == s[0] || x in s[1..]
  {
    assert s == [s[0]] + s[1..];
  }

  lemma RanksAreTheRecognisedRanks(r: Rank)
    ensures r in Ranks <==> r != Unrecognized
  {
    if r.Pip? {
      var n := r.n;
      assert n == 2 || n == 3 || n == 4 || n == 5 || n == 6 || n == 7 || n == 8 || n == 9 || n == 10;
      assert Ranks[n - 2] == r;
    }
  }

  /** ORIGIN_DECK holds 52 cards: each recognised (rank, suit) pair exactly once. */
  lemma OriginDeckContents(c: Card)
    ensures |OriginDeck()| == 52
    ensures multiset(OriginDeck())[c] == if IsStandard(c) then 1 else 0
  {
    assert Distinct(Ranks);
    DeckOfCount(Ranks, c);
    RanksAreTheRecognisedRanks(c.rank);
  }

  lemma {:induction false} RepeatCount<T>(deck: seq<T>, n: nat, x: T)
    ensures |Repeat(deck, n)| == n * |deck|
    ensures multiset(Repeat(deck, n))[x] == n * multiset(deck)[x]
  {
    if n > 0 {
      var prev := Repeat(deck, n - 1);
      RepeatCount(deck, n - 1, x);
      assert Repeat(deck, n) == prev + deck;
      assert multiset(prev + deck) == multiset(prev) + multiset(deck);
      MulSucc(n - 1, |deck|);
      MulSucc(n - 1, multiset(deck)[x]);
    }
  }

  lemma MulSucc(a: nat, b: nat)
    ensures a * b + b == (a + 1) * b
  {
  }

  /**
   * The shoe of refresh_deck holds N = 1 (traditional) or N = 8 (modern)
   * copies of each recognised card and nothing else: 52 or 416 cards.
   */
  lemma ShoeContents(modernVariant: bool, c: Card)
    ensures |Shoe(modernVariant)| == if modernVariant then 416 else 52
    ensures multiset(Shoe(modernVariant))[c] ==
              if !IsStandard(c) then 0 else if modernVariant then 8 else 1
  {
    OriginDeckContents(c);
    RepeatCount(OriginDeck(), if modernVariant then 8 else 1, c);
  }

  // ---------------------------------------------------------------------
  // list.remove
  // ---------------------------------------------------------------------

  /** The position of the first occurrence of `x`. */
  function IndexOf<T(==)>(s: seq<T>, x: T): (i: nat)
    requires x in s
    ensures i < |s| && s[i] == x && x !in s[..i]
  {
    if s[0] == x then 0
    else
      var j := IndexOf(s[1..], x);
      assert s[..j + 1] == [s[0]] + s[1..][..j];
      j + 1
  }

  /** `s.remove(x)`: the list without the first occurrence of `x`. */
  function RemoveFirst<T(==)>(s: seq<T>, x: T): (r: seq<T>)
    requires x in s
    ensures r == s[..IndexOf(s, x)] + s[IndexOf(s, x) + 1..]
  {
    if s[0] == x then
      s[1..]
    else
      var tail := s[1..];
      var rest := RemoveFirst(tail, x);
      var j := IndexOf(tail, x);
      assert IndexOf(s, x) == j + 1;
      assert s[..j + 1] == [s[0]] + tail[..j];
      assert s[j + 2..] == tail[j + 1..];
      [s[0]] + rest
  }

  /** Removing a card takes exactly one copy of it out of the multiset. */
  lemma RemoveFirstCount<T>(s: seq<T>, x: T)
    requires x in s
    ensures |RemoveFirst(s, x)| == |s| - 1
    ensures multiset(RemoveFirst(s, x)) == multiset(s) - multiset{x}
  {
    var i := IndexOf(s, x);
    var r := RemoveFirst(s, x);
    assert r == s[..i] + s[i + 1..];
    assert s == s[..i] + ([x] + s[i + 1..]);
    assert multiset(s) == multiset(s[..i]) + multiset{x} + multiset(s[i + 1..]);
  }
}
