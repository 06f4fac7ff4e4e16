/**
 * Cards of the 24-card 66 deck and the point table `CARD_VALUES`.
 * Ranks in the order the source lists them (9, J, Q, K, 10, A), suits in the
 * order H, D, C, S.
 */
module Cards {

  datatype Rank = Nine | Jack | Queen | King | Ten | Ace
  datatype Suit = Hearts | Diamonds | Clubs | Spades
  datatype Card = Card(rank: Rank, suit: Suit)

  /** The rank order of the source's `ranks` list. */
  const Ranks: seq<Rank> := [Nine, Jack, Queen, King, Ten, Ace]
  /** The suit order of the source's `suits` list. */
  const Suits: seq<Suit> := [Hearts, Diamonds, Clubs, Spades]

  /** Position of a rank in `Ranks`. */
  function RankIndex(r: Rank): (k: nat)
    ensures k < |Ranks|
  {
    match r
    case Nine => 0
    case Jack => 1
    case Queen => 2
    case King => 3
    case Ten => 4
    case Ace => 5
  }

  /** `RankIndex` inverts `Ranks`. */
  lemma RankAtIndex(k: nat)
    requires k < |Ranks|
    ensures RankIndex(Ranks[k]) == k
  {
  }

  /** Position of a suit in `Suits`. */
  function SuitIndex(s: Suit): (k: nat)
    ensures k < |Suits| && Suits[k] == s
  {
    match s
    case Hearts => 0
    case Diamonds => 1
    case Clubs => 2
    case Spades => 3
  }

  /** `CARD_VALUES[rank]`. */
  function Value(r: Rank): nat
  {
    match r
    case Nine => 0
    case Jack => 2
    case Queen => 3
    case King => 4
    case Ten => 10
    case Ace => 11
  }

  /** `CARD_VALUES[card[0]]`. */
  function CardValue(c: Card): nat
  {
    Value(c.rank)
  }

  /** The table itself, entry by entry, and its range. */
  lemma ValueTable(r: Rank)
    ensures Value(Nine) == 0 && Value(Jack) == 2 && Value(Queen) == 3
    ensures Value(King) == 4 && Value(Ten) == 10 && Value(Ace) == 11
    ensures Value(r) <= 11
  {
  }

  /** Values strictly increase along the rank order, in both directions. */
  lemma ValueOrderMatchesRankOrder(a: Rank, b: Rank)
    ensures RankIndex(a) < RankIndex(b) <==> Value(a) < Value(b)
  {
  }

  /** So two cards of equal value have equal rank. */
  lemma EqualValueEqualRank(a: Card, b: Card)
    ensures CardValue(a) == CardValue(b) <==> a.rank == b.rank
  {
    ValueOrderMatchesRankOrder(a.rank, b.rank);
    ValueOrderMatchesRankOrder(b.rank, a.rank);
  }

  /** One trick holds two cards and is worth at most 22 points (two aces). */
  lemma TrickWorthAtMost22(a: Card, b: Card)
    ensures CardValue(a) + CardValue(b) <= 22
    ensures CardValue(Card(Ace, Hearts)) + CardValue(Card(Ace, Spades)) == 22
  {
    ValueTable(a.rank);
    ValueTable(b.rank);
  }

  /** The six cards of one suit, in rank order. */
  function SuitCards(s: Suit): (cs: seq<Card>)
    ensures |cs| == 6
    ensures forall k :: 0 <= k < 6 ==> cs[k] == Card(Ranks[k], s)
  {
    [Card(Nine, s), Card(Jack, s), Card(Queen, s), Card(King, s), Card(Ten, s), Card(Ace, s)]
  }

  /** The deck as built: `[(rank, suit) for suit in suits for rank in ranks]`. */
  function FullDeck(): (d: seq<Card>)
  {
    SuitCards(Hearts) + SuitCards(Diamonds) + SuitCards(Clubs) + SuitCards(Spades)
  }

  /** Position of a card in the freshly built deck. */
  function DeckIndex(c: Card): nat
  {
    6 * SuitIndex(c.suit) + RankIndex(c.rank)
  }

  /** `SuitIndex` inverts `Suits`. */
  lemma SuitAtIndex(k: nat)
    requires k < |Suits|
    ensures SuitIndex(Suits[k]) == k
  {
  }

  /** Position `k` of the fresh deck holds rank `k % 6` of suit `k / 6`. */
  lemma DeckAt(k: nat)
    requires k < 24
    ensures |FullDeck()| == 24
    ensures FullDeck()[k] == Card(Ranks[k % 6], Suits[k / 6])
  {
    var d, q, r := FullDeck(), k / 6, k % 6;
    assert k == 6 * q + r && r < 6;
    if q == 0 {
      assert d[k] == SuitCards(Hearts)[r];
    } else if q == 1 {
      assert d[k] == SuitCards(Diamonds)[r];
    } else if q == 2 {
      assert d[k] == SuitCards(Clubs)[r];
    } else {
      assert d[k] == SuitCards(Spades)[r];
    }
  }

  /** `DeckIndex` names the position a card of the fresh deck sits at. */
  lemma DeckIndexAt(k: nat)
    requires k < 24
    ensures DeckIndex(FullDeck()[k]) == k
  {
    DeckAt(k);
    RankAtIndex(k % 6);
    SuitAtIndex(k / 6);
  }

  /** Every card sits in the fresh deck at its `DeckIndex`. */
  lemma CardAtDeckIndex(c: Card)
    ensures DeckIndex(c) < 24 && FullDeck()[DeckIndex(c)] == c
  {
    var k := DeckIndex(c);
    assert k / 6 == SuitIndex(c.suit) && k % 6 == RankIndex(c.rank);
    DeckAt(k);
  }

  /** The fresh deck has 24 cards, each card exactly once, suit-major and rank-minor. */
  lemma FullDeckLayout()
    ensures |FullDeck()| == 24
    ensures forall k :: 0 <= k < 24 ==> FullDeck()[k] == Card(Ranks[k % 6], Suits[k / 6])
    ensures forall c: Card :: DeckIndex(c) < 24 && FullDeck()[DeckIndex(c)] == c
    ensures forall i, j :: 0 <= i < j < 24 ==> FullDeck()[i] != FullDeck()[j]
  {
    DeckAt(0);
    forall k | 0 <= k < 24 ensures FullDeck()[k] == Card(Ranks[k % 6], Suits[k / 6]) {
      DeckAt(k);
    }
    forall c: Card ensures DeckIndex(c) < 24 && FullDeck()[DeckIndex(c)] == c {
      CardAtDeckIndex(c);
    }
    FullDeckDistinct();
  }

  lemma FullDeckDistinct()
    ensures |FullDeck()| == 24
    ensures forall i, j :: 0 <= i < j < |FullDeck()| ==> FullDeck()[i] != FullDeck()[j]
  {
    DeckAt(0);
    forall i, j | 0 <= i < j < 24 ensures FullDeck()[i] != FullDeck()[j] {
      DeckIndexAt(i);
      DeckIndexAt(j);
    }
  }

  /** Every card is in the fresh deck exactly once. */
  lemma FullDeckIsEveryCardOnce(c: Card)
    ensures multiset(FullDeck())[c] == 1
  {
    FullDeckDistinct();
    CardAtDeckIndex(c);
    CountDistinct(FullDeck(), c);
  }

  /** In a list without repeats each element is counted once. */
  lemma {:induction false} CountDistinct<T>(s: seq<T>, x: T)
    requires forall i, j :: 0 <= i < j < |s| ==> s[i] != s[j]
    ensures multiset(s)[x] == if x in s then 1 else 0
  {
    if s != [] {
      var rest := s[1..];
      assert s == [s[0]] + rest;
      assert forall i, j :: 0 <= i < j < |rest| ==> rest[i] == s[i + 1] && rest[j] == s[j + 1];
      CountDistinct(rest, x);
      if x == s[0] {
        assert forall i :: 0 <= i < |rest| ==> rest[i] == s[i + 1];
        assert x !in rest;
      }
    }
  }

  /** Sum of `CARD_VALUES` over a list of cards. */
  function SumValues(cs: seq<Card>): nat
  {
    if cs == [] then 0 else CardValue(cs[0]) + SumValues(cs[1..])
  }

  lemma {:induction false} SumValuesAppend(a: seq<Card>, b: seq<Card>)
    ensures SumValues(a + b) == SumValues(a) + SumValues(b)
  {
    if a == [] {
      assert a + b == b;
    } else {
      assert (a + b)[1..] == a[1..] + b;
      SumValuesAppend(a[1..], b);
    }
  }

  /** Each suit is worth 30 points. */
  lemma SuitWorth30(s: Suit)
    ensures SumValues(SuitCards(s)) == 30
  {
    var cs := SuitCards(s);
    assert cs[1..][1..][1..][1..][1..][1..] == [];
  }

  /** The whole deck is worth 120 points, 30 per suit. */
  lemma DeckWorth120()
    ensures SumValues(FullDeck()) == 120
  {
    var h, d, c, s := SuitCards(Hearts), SuitCards(Diamonds), SuitCards(Clubs), SuitCards(Spades);
    SuitWorth30(Hearts); SuitWorth30(Diamonds); SuitWorth30(Clubs); SuitWorth30(Spades);
    SumValuesAppend(h, d);
    SumValuesAppend(h + d, c);
    SumValuesAppend(h + d + c, s);
  }
}
