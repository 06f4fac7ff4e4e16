/**
 * The follow rule and the beat test of the AI strategies: `get_valid_moves`
 * (inlined, with the same branches, in `JustRandom.play` and
 * `TrickBasedGreedy.play`) and `TrickBasedGreedy.card_wins`.
 */
module Rules {
  import opened Wrappers
  import opened Cards

  /** `[c for c in hand if c[1] == s]`. */
  function OfSuit(hand: seq<Card>, s: Suit): (r: seq<Card>)
    ensures |r| <= |hand|
  {
    if hand == [] then [] else (if hand[0].suit == s then [hand[0]] else []) + OfSuit(hand[1..], s)
  }

  /** `OfSuit` keeps exactly the cards of suit `s`, and is empty exactly when `any` is false. */
  lemma OfSuitMembers(hand: seq<Card>, s: Suit)
    ensures forall c :: c in OfSuit(hand, s) <==> c in hand && c.suit == s
    ensures multiset(OfSuit(hand, s)) <= multiset(hand)
    ensures OfSuit(hand, s) != [] <==> HasSuit(hand, s)
  {
    forall c ensures c in OfSuit(hand, s) <==> c in hand && c.suit == s {
      OfSuitMember(hand, s, c);
    }
    OfSuitSub(hand, s);
    if OfSuit(hand, s) != [] {
      assert OfSuit(hand, s)[0] in OfSuit(hand, s);
    }
  }

  lemma {:induction false} OfSuitMember(hand: seq<Card>, s: Suit, c: Card)
    ensures c in OfSuit(hand, s) <==> c in hand && c.suit == s
  {
    if hand != [] {
      OfSuitMember(hand[1..], s, c);
      assert hand == [hand[0]] + hand[1..];
    }
  }

  lemma {:induction false} OfSuitSub(hand: seq<Card>, s: Suit)
    ensures multiset(OfSuit(hand, s)) <= multiset(hand)
  {
    if hand != [] {
      var head := if hand[0].suit == s then [hand[0]] else [];
      OfSuitSub(hand[1..], s);
      assert hand == [hand[0]] + hand[1..];
      assert OfSuit(hand, s) == head + OfSuit(hand[1..], s);
      SubsetSum(multiset(head), multiset(OfSuit(hand[1..], s)), multiset([hand[0]]), multiset(hand[1..]));
    }
  }

  lemma SubsetSum<T>(a: multiset<T>, b: multiset<T>, c: multiset<T>, d: multiset<T>)
    requires a <= c && b <= d
    ensures a + b <= c + d
  {
  }

  /** `any(card[1] == s for card in hand)`. */
  predicate HasSuit(hand: seq<Card>, s: Suit)
  {
    exists c :: c in hand && c.suit == s
  }

  /**
   * The rule `get_valid_moves` implements, card by card: with no led suit any
   * card; otherwise a card of the led suit, or a trump when the hand has no
   * led-suit card, or anything when it has neither.
   */
  predicate LegalResponse(c: Card, hand: seq<Card>, allowed: Option<Suit>, trump: Suit)
  {
    || allowed.None?
    || c.suit == allowed.value
    || (!HasSuit(hand, allowed.value) && c.suit == trump)
    || (!HasSuit(hand, allowed.value) && !HasSuit(hand, trump))
  }

  /** `Expectiminimax.get_valid_moves(hand, allowed_suit, trump_suit)`. */
  function ValidMoves(hand: seq<Card>, allowed: Option<Suit>, trump: Suit): (r: seq<Card>)
    ensures |r| <= |hand|
  {
    if allowed.Some? && OfSuit(hand, allowed.value) != [] then OfSuit(hand, allowed.value)
    else if allowed.Some? && OfSuit(hand, trump) != [] then OfSuit(hand, trump)
    else hand
  }

  /**
   * The legal moves are cards of the hand, none missing that the rule allows,
   * and there is at least one whenever the hand is non-empty.
   */
  lemma ValidMovesMeaning(hand: seq<Card>, allowed: Option<Suit>, trump: Suit)
    ensures multiset(ValidMoves(hand, allowed, trump)) <= multiset(hand)
    ensures |hand| > 0 ==> |ValidMoves(hand, allowed, trump)| > 0
    ensures forall c :: c in ValidMoves(hand, allowed, trump) <==> c in hand && LegalResponse(c, hand, allowed, trump)
  {
    ValidMovesCases(hand, allowed, trump);
    if allowed.Some? {
      OfSuitMembers(hand, allowed.value);
      OfSuitMembers(hand, trump);
    }
  }

  /** The three outcomes of `get_valid_moves`, each in hand order. */
  lemma ValidMovesCases(hand: seq<Card>, allowed: Option<Suit>, trump: Suit)
    ensures allowed.None? ==> ValidMoves(hand, allowed, trump) == hand
    ensures allowed.Some? && HasSuit(hand, allowed.value) ==>
      ValidMoves(hand, allowed, trump) == OfSuit(hand, allowed.value)
    ensures allowed.Some? && !HasSuit(hand, allowed.value) && HasSuit(hand, trump) ==>
      ValidMoves(hand, allowed, trump) == OfSuit(hand, trump)
    ensures allowed.Some? && !HasSuit(hand, allowed.value) && !HasSuit(hand, trump) ==>
      ValidMoves(hand, allowed, trump) == hand
  {
    if allowed.Some? {
      OfSuitMembers(hand, allowed.value);
      OfSuitMembers(hand, trump);
    }
  }

  /** `TrickBasedGreedy.card_wins(card, leader_card, trump_suit, lead_suit)`. */
  function CardWins(card: Card, leader: Card, trump: Suit, leadSuit: Suit): bool
  {
    if card.suit == trump && leader.suit != trump then true
    else if leader.suit == trump && card.suit != trump then false
    else if card.suit != leadSuit then false
    else CardValue(card) > CardValue(leader)
  }

  /** What `card_wins` decides, rule by rule. */
  lemma CardWinsRules(card: Card, leader: Card, trump: Suit, leadSuit: Suit)
    ensures card.suit == trump && leader.suit != trump ==> CardWins(card, leader, trump, leadSuit)
    ensures leader.suit == trump && card.suit != trump ==> !CardWins(card, leader, trump, leadSuit)
    ensures card.suit != trump && card.suit != leadSuit ==> !CardWins(card, leader, trump, leadSuit)
    ensures (card.suit == trump <==> leader.suit == trump) && card.suit == leadSuit ==>
      (CardWins(card, leader, trump, leadSuit) <==> CardValue(card) > CardValue(leader))
    ensures CardWins(card, leader, trump, leadSuit) ==> card.suit == trump || card.suit == leadSuit
  {
  }
}
