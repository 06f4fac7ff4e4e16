/**
 * What `Expectiminimax` computes. The state edits (`simulate_move`,
 * `simulate_player_move`, the award and draw steps of
 * `resolve_trick_with_chance`) work on a `copy.deepcopy` of the state, so
 * they are functions from one state value to another and the caller's
 * state is never touched. The value of a search node is a function too;
 * the methods of module `Search` run the source's loops and are proved to
 * return these values.
 *
 * `random.sample` is an oracle: `Rng` maps the position of a node in the
 * search tree to the picks that the sampler at that node consumes.
 */
module SearchSpec {
  import opened Wrappers
  import opened Cards
  import opened Lists
  import opened Rules
  import opened AIStates
  import opened ExtReals

  /** The random choices made at each position of the search tree. */
  type Rng = seq<nat> -> seq<nat>

  // ---------------------------------------------------------------------------
  // simulate_move, simulate_player_move
  // ---------------------------------------------------------------------------

  /** `simulate_move(state, card, is_ai_turn)`. */
  function SimulateMove(s: AIState, card: Card, isAiTurn: bool): (t: AIState)
  {
    if isAiTurn then
      var t := s.(opponentHand := RemoveFirst(s.opponentHand, card), opponentPlayed := Some(card));
      if s.playerPlayed.None? then t.(allowedSuit := Some(card.suit), leaderCard := Some(card), currentLeader := Opponent)
      else t
    else
      var t := s.(playerHand := RemoveFirst(s.playerHand, card), playerPlayed := Some(card),
                  playerKnownCards := RemoveFirst(s.playerKnownCards, card));
      if s.opponentPlayed.None? then t.(allowedSuit := Some(card.suit), leaderCard := Some(card), currentLeader := Player)
      else t
  }

  /** `simulate_player_move(state, card, sampled_hand)`: the human's hand is replaced by the sample first. */
  function SimulatePlayerMove(s: AIState, card: Card, sampled: seq<Card>): (t: AIState)
  {
    var t := s.(playerHand := RemoveFirst(sampled, card), playerKnownCards := RemoveFirst(s.playerKnownCards, card),
                playerPlayed := Some(card));
    if s.opponentPlayed.None? then t.(allowedSuit := Some(card.suit), leaderCard := Some(card), currentLeader := Player)
    else t
  }

  /**
   * The AI's move: one copy of the card leaves its hand and is its played
   * card; when the human has not played yet the card leads the trick;
   * everything else, the points in particular, is as before.
   */
  lemma SimulateAiMove(s: AIState, card: Card)
    ensures var t := SimulateMove(s, card, true);
      && multiset(t.opponentHand) == multiset(s.opponentHand) - multiset{card}
      && t.opponentPlayed == Some(card)
      && (card in s.opponentHand ==> |t.opponentHand| == |s.opponentHand| - 1)
      && (s.playerPlayed.None? ==>
            t.allowedSuit == Some(card.suit) && t.leaderCard == Some(card) && t.currentLeader == Opponent)
      && (s.playerPlayed.Some? ==>
            t.allowedSuit == s.allowedSuit && t.leaderCard == s.leaderCard && t.currentLeader == s.currentLeader)
      && t.playerHand == s.playerHand && t.playerPlayed == s.playerPlayed
      && t.playerKnownCards == s.playerKnownCards && t.remainingDeck == s.remainingDeck
      && t.trumpCard == s.trumpCard && t.trumpSuit == s.trumpSuit
      && Evaluate(t) == Evaluate(s)
  {
    RemoveFirstMeaning(s.opponentHand, card);
  }

  /**
   * The human's move on a sampled hand: one copy of the card leaves the
   * sample and the known cards and becomes the human's played card; when
   * the AI has not played yet the card leads the trick.
   */
  lemma SimulatePlayerMoveMeaning(s: AIState, card: Card, sampled: seq<Card>)
    ensures var t := SimulatePlayerMove(s, card, sampled);
      && multiset(t.playerHand) == multiset(sampled) - multiset{card}
      && multiset(t.playerKnownCards) == multiset(s.playerKnownCards) - multiset{card}
      && t.playerPlayed == Some(card)
      && (s.opponentPlayed.None? ==>
            t.allowedSuit == Some(card.suit) && t.leaderCard == Some(card) && t.currentLeader == Player)
      && (s.opponentPlayed.Some? ==>
            t.allowedSuit == s.allowedSuit && t.leaderCard == s.leaderCard && t.currentLeader == s.currentLeader)
      && t.opponentHand == s.opponentHand && t.opponentPlayed == s.opponentPlayed
      && t.remainingDeck == s.remainingDeck && t.trumpCard == s.trumpCard
      && Evaluate(t) == Evaluate(s)
  {
    RemoveFirstMeaning(sampled, card);
    RemoveFirstMeaning(s.playerKnownCards, card);
  }

  /** On the human's real hand, `simulate_player_move` is `simulate_move` for the human. */
  lemma PlayerMoveOnOwnHand(s: AIState, card: Card)
    ensures SimulatePlayerMove(s, card, s.playerHand) == SimulateMove(s, card, false)
  {
  }

  /** A move of a card held into an empty slot keeps every card of the state where it was counted. */
  lemma SimulateMoveKeepsCards(s: AIState, card: Card, isAiTurn: bool)
    requires isAiTurn ==> card in s.opponentHand && s.opponentPlayed.None?
    requires !isAiTurn ==> card in s.playerHand && s.playerPlayed.None?
    ensures StateCards(SimulateMove(s, card, isAiTurn)) == StateCards(s)
  {
    var t := SimulateMove(s, card, isAiTurn);
    if isAiTurn {
      AiMoveKeepsTable(s, card);
    } else {
      PlayerMoveKeepsTable(s, card);
    }
    assert t.remainingDeck == s.remainingDeck && t.trumpCard == s.trumpCard;
  }

  lemma AiMoveKeepsTable(s: AIState, card: Card)
    requires card in s.opponentHand && s.opponentPlayed.None?
    ensures TableCards(SimulateMove(s, card, true)) == TableCards(s)
  {
    var t := SimulateMove(s, card, true);
    var rest := RemoveFirst(s.opponentHand, card);
    RemoveFirstBag(s.opponentHand, card);
    assert t.opponentHand == rest && t.playerHand == s.playerHand && t.playerPlayed == s.playerPlayed;
    assert TableCards(t) == multiset(s.playerHand) + multiset(rest) + OptBag(s.playerPlayed) + multiset{card};
    assert TableCards(s) == multiset(s.playerHand) + multiset(s.opponentHand) + OptBag(s.playerPlayed) + multiset{};
    IntoSlot(multiset(s.playerHand), multiset(rest), OptBag(s.playerPlayed), multiset{card}, multiset(s.opponentHand));
  }

  lemma PlayerMoveKeepsTable(s: AIState, card: Card)
    requires card in s.playerHand && s.playerPlayed.None?
    ensures TableCards(SimulateMove(s, card, false)) == TableCards(s)
  {
    var t := SimulateMove(s, card, false);
    var rest := RemoveFirst(s.playerHand, card);
    RemoveFirstBag(s.playerHand, card);
    assert t.playerHand == rest && t.opponentHand == s.opponentHand && t.opponentPlayed == s.opponentPlayed;
    assert TableCards(t) == multiset(rest) + multiset(s.opponentHand) + multiset{card} + OptBag(s.opponentPlayed);
    assert TableCards(s) == multiset(s.playerHand) + multiset(s.opponentHand) + multiset{} + OptBag(s.opponentPlayed);
    IntoSlotFirst(multiset(rest), multiset(s.opponentHand), multiset{card}, OptBag(s.opponentPlayed), multiset(s.playerHand));
  }

  /** A card moved from the second hand into its play slot leaves the table unchanged. */
  lemma IntoSlot<T>(a: multiset<T>, rest: multiset<T>, p: multiset<T>, moved: multiset<T>, hand: multiset<T>)
    requires rest + moved == hand
    ensures a + rest + p + moved == a + hand + p + multiset{}
  {
  }

  /** A card moved from the first hand into its play slot leaves the table unchanged. */
  lemma IntoSlotFirst<T>(rest: multiset<T>, b: multiset<T>, moved: multiset<T>, q: multiset<T>, hand: multiset<T>)
    requires rest + moved == hand
    ensures rest + b + moved + q == hand + b + multiset{} + q
  {
  }

  // ---------------------------------------------------------------------------
  // sample_possible_player_hand
  // ---------------------------------------------------------------------------

  /** A card the AI can place: its own hand, the trump card, a played card, the stock, a known card of the human. */
  predicate IsKnown(s: AIState, c: Card)
  {
    || c in s.opponentHand
    || s.trumpCard == Some(c)
    || s.playerPlayed == Some(c)
    || s.opponentPlayed == Some(c)
    || c in s.remainingDeck
    || c in s.playerKnownCards
  }

  /** `[card for card in cards if card not in known]`. */
  function Unknown(s: AIState, cards: seq<Card>): (r: seq<Card>)
  {
    if cards == [] then []
    else
      var last := cards[|cards| - 1];
      Unknown(s, cards[..|cards| - 1]) + (if IsKnown(s, last) then [] else [last])
  }

  /** The unknown pool: the cards of the full deck, in deck order, that the AI cannot place. */
  function UnknownPool(s: AIState): seq<Card>
  {
    Unknown(s, FullDeck())
  }

  lemma {:induction false} UnknownMembers(s: AIState, cards: seq<Card>)
    ensures forall c :: c in Unknown(s, cards) <==> c in cards && !IsKnown(s, c)
    ensures multiset(Unknown(s, cards)) <= multiset(cards)
  {
    if cards != [] {
      var init := cards[..|cards| - 1];
      UnknownMembers(s, init);
      assert cards == init + [cards[|cards| - 1]];
    }
  }

  /**
   * The pool holds every card the AI cannot place, each once, and none of
   * the AI's hand, the stock, the trump card or the played cards.
   */
  lemma UnknownPoolMeaning(s: AIState)
    ensures forall c :: c in UnknownPool(s) <==> !IsKnown(s, c)
    ensures forall c :: multiset(UnknownPool(s))[c] <= 1
  {
    UnknownMembers(s, FullDeck());
    forall c ensures c in FullDeck() && multiset(UnknownPool(s))[c] <= 1 {
      FullDeckIsEveryCardOnce(c);
    }
  }

  /** The position the next pick selects among `n` cards. */
  function Pick(picks: seq<nat>, n: nat): (p: nat)
    requires n > 0
    ensures p < n
    ensures picks != [] && picks[0] < n ==> p == picks[0]
  {
    (if picks == [] then 0 else picks[0]) % n
  }

  /**
   * `random.sample(pool, k)`: `k` draws without replacement, the `i`-th
   * taking position `picks[i] % n` of the `n` cards not drawn yet (a
   * missing pick counts as 0).
   */
  function RandomSample(pool: seq<Card>, k: nat, picks: seq<nat>): (r: seq<Card>)
    requires k <= |pool|
    decreases k
  {
    if k == 0 then []
    else
      var p := Pick(picks, |pool|);
      [pool[p]] + RandomSample(RemoveAt(pool, p), k - 1, if picks == [] then [] else picks[1..])
  }

  /** A sample has `k` cards, each drawn from the pool, none more often than the pool holds it. */
  lemma {:induction false} RandomSampleMeaning(pool: seq<Card>, k: nat, picks: seq<nat>)
    requires k <= |pool|
    ensures |RandomSample(pool, k, picks)| == k
    ensures multiset(RandomSample(pool, k, picks)) <= multiset(pool)
    decreases k
  {
    if k > 0 {
      var p := Pick(picks, |pool|);
      RandomSampleMeaning(RemoveAt(pool, p), k - 1, if picks == [] then [] else picks[1..]);
    }
  }

  /** The picks that make `random.sample` draw the cards `xs` in order: each position of the next card among those left. */
  function PicksFor(pool: seq<Card>, xs: seq<Card>): seq<nat>
    decreases |xs|
  {
    if xs == [] then []
    else
      var p := IndexOf(pool, xs[0]);
      if p < |pool| then [p] + PicksFor(RemoveAt(pool, p), xs[1..]) else []
  }

  /**
   * Every outcome of `random.sample(pool, k)` is reachable: any `k` cards
   * drawn from the pool without replacement, in any order, are the sample
   * of some list of picks, namely `PicksFor(pool, xs)`.
   */
  lemma {:induction false} EverySampleReachable(pool: seq<Card>, xs: seq<Card>)
    requires multiset(xs) <= multiset(pool)
    ensures |xs| <= |pool|
    ensures RandomSample(pool, |xs|, PicksFor(pool, xs)) == xs
    decreases |xs|
  {
    if xs != [] {
      var p := IndexOf(pool, xs[0]);
      RestOfSample(pool, xs);
      var rest := RemoveAt(pool, p);
      var tail := PicksFor(rest, xs[1..]);
      assert PicksFor(pool, xs) == [p] + tail;
      EverySampleReachable(rest, xs[1..]);
      SampleStep(pool, p, tail, |xs|);
      calc {
        RandomSample(pool, |xs|, PicksFor(pool, xs));
        [pool[p]] + RandomSample(rest, |xs| - 1, tail);
        [xs[0]] + xs[1..];
        xs;
      }
    }
  }

  /** Once the first card is drawn, the rest of the sample comes from what is left. */
  lemma RestOfSample(pool: seq<Card>, xs: seq<Card>)
    requires xs != [] && multiset(xs) <= multiset(pool)
    ensures IndexOf(pool, xs[0]) < |pool| && pool[IndexOf(pool, xs[0])] == xs[0]
    ensures multiset(xs[1..]) <= multiset(RemoveAt(pool, IndexOf(pool, xs[0])))
  {
    assert multiset{xs[0]} + multiset(xs[1..]) <= multiset(pool) by {
      assert xs == [xs[0]] + xs[1..];
      assert multiset(xs) == multiset{xs[0]} + multiset(xs[1..]);
    }
    PeelSubMultiset(multiset(xs[1..]), multiset(pool), xs[0]);
    assert xs[0] in pool;
    var p := IndexOf(pool, xs[0]);
    assert multiset(RemoveAt(pool, p)) == multiset(pool) - multiset{xs[0]};
  }

  lemma PeelSubMultiset(a: multiset<Card>, b: multiset<Card>, x: Card)
    requires multiset{x} + a <= b
    ensures x in b && a <= b - multiset{x}
  {
  }

  /** The first pick `p` draws `pool[p]` and leaves the rest of the picks to the rest of the pool. */
  lemma SampleStep(pool: seq<Card>, p: nat, tail: seq<nat>, k: nat)
    requires p < |pool| && 0 < k <= |pool|
    ensures RandomSample(pool, k, [p] + tail) == [pool[p]] + RandomSample(RemoveAt(pool, p), k - 1, tail)
  {
    assert ([p] + tail)[1..] == tail;
  }

  /** What `sample_possible_player_hand` appends to the known cards: a sample when it can, else the whole pool. */
  function Extra(unknown: seq<Card>, needed: int, picks: seq<nat>): seq<Card>
  {
    if needed > 0 && |unknown| >= needed then RandomSample(unknown, needed, picks) else unknown
  }

  /** `sample_possible_player_hand(state, hand_size)` with the sampler's picks. */
  function SampledHand(s: AIState, handSize: int, picks: seq<nat>): seq<Card>
  {
    s.playerKnownCards + Extra(UnknownPool(s), handSize - |s.playerKnownCards|, picks)
  }

  lemma ExtraMeaning(unknown: seq<Card>, needed: int, picks: seq<nat>)
    ensures multiset(Extra(unknown, needed, picks)) <= multiset(unknown)
    ensures 0 < needed <= |unknown| ==> |Extra(unknown, needed, picks)| == needed
    ensures !(0 < needed <= |unknown|) ==> Extra(unknown, needed, picks) == unknown
  {
    if 0 < needed <= |unknown| {
      RandomSampleMeaning(unknown, needed, picks);
    }
  }

  /** Cards drawn from the pool are distinct and unknown to the AI. */
  lemma FromPool(s: AIState, e: seq<Card>)
    requires multiset(e) <= multiset(UnknownPool(s))
    ensures forall c :: c in e ==> !IsKnown(s, c)
    ensures forall c :: multiset(e)[c] <= 1
  {
    UnknownPoolMeaning(s);
    forall c | c in e ensures !IsKnown(s, c) {
      assert c in multiset(e);
    }
    forall c ensures multiset(e)[c] <= 1 {
      assert multiset(e)[c] <= multiset(UnknownPool(s))[c];
    }
  }

  /**
   * The sampled hand is the known cards followed by distinct pool cards:
   * the rest of the hand exactly when the pool is large enough and cards
   * are missing, otherwise the whole pool.
   */
  lemma SampledHandMeaning(s: AIState, handSize: int, picks: seq<nat>)
    ensures var known := s.playerKnownCards;
      var unknown := UnknownPool(s);
      var needed := handSize - |known|;
      var e := Extra(unknown, needed, picks);
      && SampledHand(s, handSize, picks) == known + e
      && multiset(e) <= multiset(unknown)
      && (forall c :: c in e ==> !IsKnown(s, c))
      && (forall c :: multiset(e)[c] <= 1)
      && (0 < needed <= |unknown| ==> |SampledHand(s, handSize, picks)| == handSize)
      && (!(0 < needed <= |unknown|) ==> e == unknown)
  {
    var known, unknown := s.playerKnownCards, UnknownPool(s);
    var needed := handSize - |known|;
    var e := Extra(unknown, needed, picks);
    assert SampledHand(s, handSize, picks) == known + e;
    ExtraMeaning(unknown, needed, picks);
    FromPool(s, e);
    SampleCount(known, e, needed, |unknown|, handSize);
  }

  lemma SampleCount(known: seq<Card>, e: seq<Card>, needed: int, poolSize: nat, handSize: int)
    requires needed == handSize - |known|
    requires 0 < needed <= poolSize ==> |e| == needed
    ensures 0 < needed <= poolSize ==> |known + e| == handSize
  {
  }

  /** When no card is missing, every pool card is still appended, so the sample outgrows `hand_size`. */
  lemma SampledHandOvershoots(s: AIState, handSize: int, picks: seq<nat>)
    requires handSize <= |s.playerKnownCards| && UnknownPool(s) != []
    ensures |SampledHand(s, handSize, picks)| > handSize
  {
  }

  // ---------------------------------------------------------------------------
  // resolve_trick_with_chance: winner and points
  // ---------------------------------------------------------------------------

  /** The winner rule of `resolve_trick_with_chance`. */
  function AiTrickWinner(p: Card, o: Card, trump: Suit, leader: Role): Role
  {
    if p.suit == trump && o.suit != trump then Player
    else if o.suit == trump && p.suit != trump then Opponent
    else if p.suit == o.suit then (if CardValue(p) >= CardValue(o) then Player else Opponent)
    else leader
  }

  /** The winner rule, case by case. */
  lemma AiTrickWinnerRules(p: Card, o: Card, trump: Suit, leader: Role)
    ensures p.suit == trump && o.suit != trump ==> AiTrickWinner(p, o, trump, leader) == Player
    ensures o.suit == trump && p.suit != trump ==> AiTrickWinner(p, o, trump, leader) == Opponent
    ensures p.suit == o.suit ==>
      (AiTrickWinner(p, o, trump, leader) == Player <==> CardValue(p) >= CardValue(o))
    ensures p.suit != o.suit && p.suit != trump && o.suit != trump ==>
      AiTrickWinner(p, o, trump, leader) == leader
  {
  }

  /** The trick's points go to the winner, the slots are cleared and the winner leads. */
  function Award(s: AIState, w: Role): (t: AIState)
    requires TrickComplete(s)
  {
    var points := CardValue(s.playerPlayed.value) + CardValue(s.opponentPlayed.value);
    var t := s.(playerPlayed := None, opponentPlayed := None, allowedSuit := None, leaderCard := None,
                currentLeader := w);
    if w == Player then t.(playerRoundPoints := s.playerRoundPoints + points)
    else t.(opponentRoundPoints := s.opponentRoundPoints + points)
  }

  /** What is left after the trick is taken: only the winner's points, the slots and the leader change. */
  lemma AwardMeaning(s: AIState, w: Role)
    requires TrickComplete(s)
    ensures var t := Award(s, w);
      var points := CardValue(s.playerPlayed.value) + CardValue(s.opponentPlayed.value);
      && t.playerRoundPoints == s.playerRoundPoints + (if w == Player then points else 0)
      && t.opponentRoundPoints == s.opponentRoundPoints + (if w == Opponent then points else 0)
      && t.playerPlayed.None? && t.opponentPlayed.None? && t.allowedSuit.None? && t.leaderCard.None?
      && t.currentLeader == w
      && t.playerHand == s.playerHand && t.opponentHand == s.opponentHand
      && t.remainingDeck == s.remainingDeck && t.trumpCard == s.trumpCard
      && StateCards(t) + multiset{s.playerPlayed.value, s.opponentPlayed.value} == StateCards(s)
      && -22 <= Evaluate(t) - Evaluate(s) <= 22
  {
    TrickWorthAtMost22(s.playerPlayed.value, s.opponentPlayed.value);
  }

  /** Playing a card changes no points. */
  lemma MovesKeepScore(s: AIState, card: Card, hand: seq<Card>)
    ensures Evaluate(SimulateMove(s, card, true)) == Evaluate(s)
    ensures Evaluate(SimulateMove(s, card, false)) == Evaluate(s)
    ensures Evaluate(SimulatePlayerMove(s, card, hand)) == Evaluate(s)
  {
  }

  /** Drawing cards changes no points. */
  lemma DrawsKeepScore(t: AIState, w: Role, i: nat, j: nat)
    requires i < |t.remainingDeck| && j < |t.remainingDeck|
    ensures Evaluate(DrawOutcome(t, w, i, j)) == Evaluate(t)
    ensures |t.remainingDeck| == 1 ==> Evaluate(DrawLast(t, w)) == Evaluate(t)
  {
  }

  /** Taking a trick moves the score difference by at most 22. */
  lemma AwardNear(s: AIState, w: Role)
    requires TrickComplete(s)
    ensures Near(Evaluate(Award(s, w)) as real, Evaluate(s), 22)
  {
    TrickWorthAtMost22(s.playerPlayed.value, s.opponentPlayed.value);
  }

  // ---------------------------------------------------------------------------
  // resolve_trick_with_chance: draw enumeration
  // ---------------------------------------------------------------------------

  /** The pairs `(i, j)` with `j < m` and `j != i`, in order of `j`. */
  function Row(n: nat, i: nat, m: nat): seq<(nat, nat)>
  {
    if m == 0 then [] else Row(n, i, m - 1) + (if m - 1 == i then [] else [(i, m - 1)])
  }

  /** `for i in range(k): for j in range(n): if i != j`: the pairs of the first `k` rows. */
  function Pairs(n: nat, k: nat): seq<(nat, nat)>
  {
    if k == 0 then [] else Pairs(n, k - 1) + Row(n, k - 1, n)
  }

  /** All ordered pairs of distinct stock positions, in the order the nested loops visit them. */
  function DrawPairs(n: nat): seq<(nat, nat)>
  {
    Pairs(n, n)
  }

  lemma RowMeaning(n: nat, i: nat, m: nat)
    requires i < n && m <= n
    ensures |Row(n, i, m)| == if i < m then m - 1 else m
    ensures forall p: (nat, nat) :: p in Row(n, i, m) <==> p.0 == i && p.1 < m && p.1 != i
  {
    RowLength(n, i, m);
    forall p: (nat, nat) ensures p in Row(n, i, m) <==> p.0 == i && p.1 < m && p.1 != i {
      RowMember(n, i, m, p.0, p.1);
    }
  }

  lemma {:induction false} RowLength(n: nat, i: nat, m: nat)
    requires i < n && m <= n
    ensures |Row(n, i, m)| == if i < m then m - 1 else m
  {
    if m > 0 {
      RowLength(n, i, m - 1);
    }
  }

  lemma {:induction false} RowMember(n: nat, i: nat, m: nat, a: nat, b: nat)
    ensures (a, b) in Row(n, i, m) <==> a == i && b < m && b != i
  {
    if m > 0 {
      RowMember(n, i, m - 1, a, b);
      InAppend(Row(n, i, m - 1), if m - 1 == i then [] else [(i, m - 1)], (a, b));
    }
  }

  lemma PairsMeaning(n: nat, k: nat)
    requires k <= n
    ensures |Pairs(n, k)| == k * (n - 1)
    ensures forall p: (nat, nat) :: p in Pairs(n, k) <==> p.0 < k && p.1 < n && p.0 != p.1
  {
    PairsLength(n, k);
    forall p: (nat, nat) ensures p in Pairs(n, k) <==> p.0 < k && p.1 < n && p.0 != p.1 {
      PairsMember(n, k, p.0, p.1);
    }
  }

  lemma {:induction false} PairsLength(n: nat, k: nat)
    requires k <= n
    ensures |Pairs(n, k)| == k * (n - 1)
  {
    if k > 0 {
      PairsLength(n, k - 1);
      RowLength(n, k - 1, n);
      MulStep(k, n - 1);
    }
  }

  lemma PairsMember(n: nat, k: nat, a: nat, b: nat)
    ensures (a, b) in Pairs(n, k) <==> a < k && b < n && a != b
  {
    if (a, b) in Pairs(n, k) {
      PairsOnly(n, k, a, b);
    }
    if a < k && b < n && a != b {
      PairsAll(n, k, a, b);
    }
  }

  lemma PairsOnly(n: nat, k: nat, a: nat, b: nat)
    requires (a, b) in Pairs(n, k)
    ensures a < k && b < n && a != b
  {
    PairsBelow(n, k);
  }

  /** Every pair of the first `k` rows has its row below `k`, its column below `n` and the two apart. */
  predicate AllBelow(ps: seq<(nat, nat)>, k: nat, n: nat)
  {
    forall q :: 0 <= q < |ps| ==> ps[q].0 < k && ps[q].1 < n && ps[q].0 != ps[q].1
  }

  lemma {:induction false} PairsBelow(n: nat, k: nat)
    ensures AllBelow(Pairs(n, k), k, n)
  {
    if k > 0 {
      PairsBelow(n, k - 1);
      RowBelow(n, k - 1, n);
      BelowAppend(Pairs(n, k - 1), Row(n, k - 1, n), k - 1, k, n);
    }
  }

  lemma {:induction false} RowBelow(n: nat, i: nat, m: nat)
    requires m <= n
    ensures AllBelow(Row(n, i, m), i + 1, n)
  {
    if m > 0 {
      RowBelow(n, i, m - 1);
      BelowAppend(Row(n, i, m - 1), if m - 1 == i then [] else [(i, m - 1)], i + 1, i + 1, n);
    }
  }

  lemma BelowAppend(xs: seq<(nat, nat)>, ys: seq<(nat, nat)>, j: nat, k: nat, n: nat)
    requires j <= k && AllBelow(xs, j, n)
    requires AllBelow(ys, k, n)
    ensures AllBelow(xs + ys, k, n)
  {
  }

  lemma {:induction false} PairsAll(n: nat, k: nat, a: nat, b: nat)
    requires a < k && b < n && a != b
    ensures (a, b) in Pairs(n, k)
  {
    PairsStep(n, k, a, b);
    if a < k - 1 {
      PairsAll(n, k - 1, a, b);
    }
  }

  /** A pair is among the first `k` rows when it is among the first `k - 1` or in row `k - 1`. */
  lemma PairsStep(n: nat, k: nat, a: nat, b: nat)
    requires k > 0
    ensures (a, b) in Pairs(n, k) <==> (a, b) in Pairs(n, k - 1) || (a == k - 1 && b < n && b != k - 1)
  {
    InAppend(Pairs(n, k - 1), Row(n, k - 1, n), (a, b));
    RowMember(n, k - 1, n, a, b);
  }

  lemma InAppend<T>(xs: seq<T>, ys: seq<T>, x: T)
    ensures x in xs + ys <==> x in xs || x in ys
  {
  }

  lemma MulStep(k: nat, m: nat)
    requires k > 0
    ensures k * m == (k - 1) * m + m
  {
  }

  /** There are `n * (n - 1)` outcomes, exactly the ordered pairs of distinct positions. */
  lemma DrawPairsMeaning(n: nat)
    ensures |DrawPairs(n)| == n * (n - 1)
    ensures forall p: (nat, nat) :: p in DrawPairs(n) <==> p.0 < n && p.1 < n && p.0 != p.1
    ensures n >= 2 ==> |DrawPairs(n)| >= 2
  {
    PairsMeaning(n, n);
    if n >= 2 {
      assert n * (n - 1) >= 2 * 1;
    }
  }

  /** `Pairs(n, k) + Row(n, k, m)` is where the nested loops stand; it is a prefix of all pairs. */
  lemma {:induction false} PairsPrefix(n: nat, k: nat, m: nat)
    requires k < n && m <= n
    ensures Pairs(n, k) + Row(n, k, m) <= DrawPairs(n)
  {
    RowPrefix(n, k, m, n);
    PairsGrow(n, k + 1, n);
  }

  lemma {:induction false} RowPrefix(n: nat, i: nat, m: nat, m': nat)
    requires m <= m'
    ensures Row(n, i, m) <= Row(n, i, m')
    decreases m' - m
  {
    if m < m' {
      RowPrefix(n, i, m, m' - 1);
    }
  }

  lemma {:induction false} PairsGrow(n: nat, k: nat, k': nat)
    requires k <= k'
    ensures Pairs(n, k) <= Pairs(n, k')
    decreases k' - k
  {
    if k < k' {
      PairsGrow(n, k, k' - 1);
    }
  }

  /** One outcome: the winner draws `deck[i]` and the loser `deck[j]`. */
  function DrawOutcome(t: AIState, w: Role, i: nat, j: nat): AIState
    requires i < |t.remainingDeck| && j < |t.remainingDeck|
  {
    var deck := t.remainingDeck;
    var rest := RemoveFirst(RemoveFirst(deck, deck[i]), deck[j]);
    if w == Player then t.(remainingDeck := rest, playerHand := t.playerHand + [deck[i]], opponentHand := t.opponentHand + [deck[j]])
    else t.(remainingDeck := rest, opponentHand := t.opponentHand + [deck[i]], playerHand := t.playerHand + [deck[j]])
  }

  /** The last stock card goes to the winner alone. */
  function DrawLast(t: AIState, w: Role): AIState
    requires |t.remainingDeck| == 1
  {
    var card := t.remainingDeck[0];
    var rest := RemoveFirst(t.remainingDeck, card);
    if w == Player then t.(remainingDeck := rest, playerHand := t.playerHand + [card])
    else t.(remainingDeck := rest, opponentHand := t.opponentHand + [card])
  }

  /**
   * A draw outcome takes both cards out of the stock, gives `deck[i]` to the
   * winner and `deck[j]` to the loser, and keeps the points and the leader.
   */
  lemma DrawOutcomeMeaning(t: AIState, w: Role, i: nat, j: nat)
    requires i < |t.remainingDeck| && j < |t.remainingDeck| && i != j
    ensures var u := DrawOutcome(t, w, i, j);
      var deck := t.remainingDeck;
      && multiset(u.remainingDeck) == multiset(deck) - multiset{deck[i], deck[j]}
      && multiset{deck[i], deck[j]} <= multiset(deck)
      && |u.remainingDeck| == |deck| - 2
      && (w == Player ==> u.playerHand == t.playerHand + [deck[i]] && u.opponentHand == t.opponentHand + [deck[j]])
      && (w == Opponent ==> u.opponentHand == t.opponentHand + [deck[i]] && u.playerHand == t.playerHand + [deck[j]])
      && Evaluate(u) == Evaluate(t) && u.currentLeader == t.currentLeader
  {
    var deck := t.remainingDeck;
    var rest := RemoveFirst(RemoveFirst(deck, deck[i]), deck[j]);
    RemoveTwo(deck, i, j);
    var u := DrawOutcome(t, w, i, j);
    if w == Player {
      assert u == t.(remainingDeck := rest, playerHand := t.playerHand + [deck[i]], opponentHand := t.opponentHand + [deck[j]]);
    } else {
      assert u == t.(remainingDeck := rest, opponentHand := t.opponentHand + [deck[i]], playerHand := t.playerHand + [deck[j]]);
    }
  }

  /** A draw outcome keeps every card of the state. */
  lemma DrawOutcomeKeepsCards(t: AIState, w: Role, i: nat, j: nat)
    requires i < |t.remainingDeck| && j < |t.remainingDeck| && i != j
    ensures StateCards(DrawOutcome(t, w, i, j)) == StateCards(t)
  {
    var deck := t.remainingDeck;
    DrawOutcomeMeaning(t, w, i, j);
    var u := DrawOutcome(t, w, i, j);
    assert u.playerPlayed == t.playerPlayed && u.opponentPlayed == t.opponentPlayed && u.trumpCard == t.trumpCard;
    if w == Player {
      MovedCards(t, u, deck[i], deck[j]);
    } else {
      MovedCards(t, u, deck[j], deck[i]);
    }
  }

  /** Moving two stock cards into the hands keeps every card of the state. */
  lemma MovedCards(t: AIState, u: AIState, a: Card, b: Card)
    requires multiset{a, b} <= multiset(t.remainingDeck)
    requires multiset(u.remainingDeck) == multiset(t.remainingDeck) - multiset{a, b}
    requires u.playerHand == t.playerHand + [a] && u.opponentHand == t.opponentHand + [b]
    requires u.playerPlayed == t.playerPlayed && u.opponentPlayed == t.opponentPlayed && u.trumpCard == t.trumpCard
    ensures StateCards(u) == StateCards(t)
  {
    assert multiset(u.playerHand) == multiset(t.playerHand) + multiset{a};
    assert multiset(u.opponentHand) == multiset(t.opponentHand) + multiset{b};
    assert multiset{a, b} == multiset{a} + multiset{b};
    AddTwo(multiset(t.playerHand), multiset(t.opponentHand), OptBag(t.playerPlayed), OptBag(t.opponentPlayed),
           multiset{a}, multiset{b});
    assert TableCards(u) == TableCards(t) + multiset{a, b};
    PutBack(TableCards(t), multiset{a, b}, multiset(t.remainingDeck), OptBag(t.trumpCard));
  }

  lemma AddTwo<T>(p: multiset<T>, o: multiset<T>, pp: multiset<T>, op: multiset<T>, a: multiset<T>, b: multiset<T>)
    ensures (p + a) + (o + b) + pp + op == (p + o + pp + op) + (a + b)
  {
  }

  /** Cards taken out of one bag and added to another leave the union unchanged. */
  lemma PutBack<T>(table: multiset<T>, moved: multiset<T>, stock: multiset<T>, rest: multiset<T>)
    requires moved <= stock
    ensures (table + moved) + (stock - moved) + rest == table + stock + rest
  {
  }

  /** With one stock card the winner takes it and the stock is empty. */
  lemma DrawLastMeaning(t: AIState, w: Role)
    requires |t.remainingDeck| == 1
    ensures var u := DrawLast(t, w);
      var card := t.remainingDeck[0];
      && u.remainingDeck == []
      && (w == Player ==> u.playerHand == t.playerHand + [card] && u.opponentHand == t.opponentHand)
      && (w == Opponent ==> u.opponentHand == t.opponentHand + [card] && u.playerHand == t.playerHand)
      && StateCards(u) == StateCards(t)
      && Evaluate(u) == Evaluate(t) && u.currentLeader == t.currentLeader
  {
    var card := t.remainingDeck[0];
    var u := DrawLast(t, w);
    assert t.remainingDeck == [card];
    assert u.remainingDeck == [];
    DrawLastKeepsCards(t, w);
  }

  lemma DrawLastKeepsCards(t: AIState, w: Role)
    requires |t.remainingDeck| == 1
    ensures StateCards(DrawLast(t, w)) == StateCards(t)
  {
    var card := t.remainingDeck[0];
    var u := DrawLast(t, w);
    assert t.remainingDeck == [card] && u.remainingDeck == [];
    var p, o, pp, op := multiset(t.playerHand), multiset(t.opponentHand), OptBag(t.playerPlayed), OptBag(t.opponentPlayed);
    var c, tr := multiset{card}, OptBag(t.trumpCard);
    if w == Player {
      assert multiset(u.playerHand) == p + c;
      assert TableCards(u) == (p + c) + o + pp + op;
      OneIntoHands(p, o, pp, op, c, tr, true);
    } else {
      assert multiset(u.opponentHand) == o + c;
      assert TableCards(u) == p + (o + c) + pp + op;
      OneIntoHands(p, o, pp, op, c, tr, false);
    }
    assert multiset(u.remainingDeck) == multiset{} && multiset(t.remainingDeck) == c;
  }

  /** A stock card moved into a hand leaves the union of all places unchanged. */
  lemma OneIntoHands<T>(p: multiset<T>, o: multiset<T>, pp: multiset<T>, op: multiset<T>, c: multiset<T>,
                        tr: multiset<T>, first: bool)
    ensures first ==> (p + c) + o + pp + op + multiset{} + tr == p + o + pp + op + c + tr
    ensures !first ==> p + (o + c) + pp + op + multiset{} + tr == p + o + pp + op + c + tr
  {
  }

  // ---------------------------------------------------------------------------
  // expectiminimax
  // ---------------------------------------------------------------------------

  /** `expectiminimax(state, depth, is_ai_turn)` at search-tree position `path`. */
  function Emm(s: AIState, depth: nat, aiTurn: bool, samples: int, rng: Rng, path: seq<nat>): real
    decreases depth, 5, 0
  {
    if depth == 0 || IsTerminal(s) then Evaluate(s) as real
    else if TrickComplete(s) then ResolveValue(s, depth, samples, rng, path)
    else if aiTurn then
      var moves := ValidMoves(s.opponentHand, s.allowedSuit, s.trumpSuit);
      if moves == [] then Evaluate(s) as real
      else MaxList(AiMoveValues(s, moves, depth, samples, rng, path, |moves|))
    else
      var values := SampleValues(s, depth, samples, rng, path, if samples > 0 then samples else 0);
      if values == [] then Evaluate(s) as real else Mean(values)
  }

  /** The values of the AI's first `n` moves. */
  function AiMoveValues(s: AIState, moves: seq<Card>, depth: nat, samples: int, rng: Rng, path: seq<nat>, n: nat)
    : (r: seq<real>)
    requires depth >= 1 && n <= |moves|
    ensures |r| == n
    decreases depth, 1, n
  {
    if n == 0 then []
    else
      AiMoveValues(s, moves, depth, samples, rng, path, n - 1)
      + [Emm(SimulateMove(s, moves[n - 1], true), depth - 1, false, samples, rng, path + [n - 1])]
  }

  /** One more AI move: its value is appended. */
  lemma AiMoveValuesNext(s: AIState, moves: seq<Card>, depth: nat, samples: int, rng: Rng, path: seq<nat>, i: nat)
    requires depth >= 1 && i < |moves|
    ensures AiMoveValues(s, moves, depth, samples, rng, path, i + 1)
            == AiMoveValues(s, moves, depth, samples, rng, path, i)
               + [Emm(SimulateMove(s, moves[i], true), depth - 1, false, samples, rng, path + [i])]
  {
  }

  /** The value of sample `t` at a node where the human moves: the human's best reply to the AI. */
  function SampleValue(s: AIState, depth: nat, samples: int, rng: Rng, path: seq<nat>, t: nat): real
    requires depth >= 1
    decreases depth, 2, 0
  {
    var hand := SampledHand(s, |s.playerHand|, rng(path + [t]));
    var moves := ValidMoves(hand, s.allowedSuit, s.trumpSuit);
    if moves == [] then Evaluate(s) as real
    else MinList(PlayerMoveValues(s, hand, moves, depth, samples, rng, path + [t], |moves|))
  }

  /** The values of the first `n` samples. */
  function SampleValues(s: AIState, depth: nat, samples: int, rng: Rng, path: seq<nat>, n: nat): (r: seq<real>)
    requires depth >= 1
    ensures |r| == n
    decreases depth, 3, n
  {
    if n == 0 then [] else SampleValues(s, depth, samples, rng, path, n - 1) + [SampleValue(s, depth, samples, rng, path, n - 1)]
  }

  /** The values of the human's first `n` moves from a sampled hand. */
  function PlayerMoveValues(s: AIState, hand: seq<Card>, moves: seq<Card>, depth: nat, samples: int, rng: Rng,
                            path: seq<nat>, n: nat): (r: seq<real>)
    requires depth >= 1 && n <= |moves|
    ensures |r| == n
    decreases depth, 1, n
  {
    if n == 0 then []
    else
      PlayerMoveValues(s, hand, moves, depth, samples, rng, path, n - 1)
      + [Emm(SimulatePlayerMove(s, moves[n - 1], hand), depth - 1, true, samples, rng, path + [n - 1])]
  }

  /** One more move of the human: its value is appended. */
  lemma PlayerMoveValuesNext(s: AIState, hand: seq<Card>, moves: seq<Card>, depth: nat, samples: int, rng: Rng,
                             path: seq<nat>, i: nat)
    requires depth >= 1 && i < |moves|
    ensures PlayerMoveValues(s, hand, moves, depth, samples, rng, path, i + 1)
            == PlayerMoveValues(s, hand, moves, depth, samples, rng, path, i)
               + [Emm(SimulatePlayerMove(s, moves[i], hand), depth - 1, true, samples, rng, path + [i])]
  {
  }

  /** `resolve_trick_with_chance(state, depth, ...)`. */
  function ResolveValue(s: AIState, depth: nat, samples: int, rng: Rng, path: seq<nat>): real
    requires TrickComplete(s) && depth >= 1
    decreases depth, 4, 0
  {
    var w := AiTrickWinner(s.playerPlayed.value, s.opponentPlayed.value, s.trumpSuit, s.currentLeader);
    var t := Award(s, w);
    var n := |t.remainingDeck|;
    if n == 0 then Emm(t, depth - 1, w == Opponent, samples, rng, path)
    else if n == 1 then Emm(DrawLast(t, w), depth - 1, w == Opponent, samples, rng, path)
    else
      var outcomes := DrawValues(t, w, depth, samples, rng, path, n);
      if outcomes == [] then Evaluate(t) as real else Mean(outcomes)
  }

  /** `for i in range(k): for j in range(n): if i != j`: the values of the outcomes of the first `k` rows. */
  function DrawValues(t: AIState, w: Role, depth: nat, samples: int, rng: Rng, path: seq<nat>, k: nat)
    : seq<real>
    requires depth >= 1 && k <= |t.remainingDeck|
    decreases depth, 2, k
  {
    if k == 0 then []
    else DrawValues(t, w, depth, samples, rng, path, k - 1) + RowValues(t, w, k - 1, depth, samples, rng, path, |t.remainingDeck|)
  }

  /** `for j in range(m): if i != j`: the values of the outcomes of the first `m` columns of row `i`. */
  function RowValues(t: AIState, w: Role, i: nat, depth: nat, samples: int, rng: Rng, path: seq<nat>, m: nat)
    : seq<real>
    requires depth >= 1 && i < |t.remainingDeck| && m <= |t.remainingDeck|
    decreases depth, 1, m
  {
    if m == 0 then []
    else
      RowValues(t, w, i, depth, samples, rng, path, m - 1)
      + (if m - 1 == i then [] else [DrawValue(t, w, i, m - 1, depth, samples, rng, path)])
  }

  /** There is one value per pair the nested loops visit: `RowValues` follows `Row` and `DrawValues` follows `Pairs`. */
  lemma {:induction false} DrawValuesCount(t: AIState, w: Role, depth: nat, samples: int, rng: Rng, path: seq<nat>, k: nat)
    requires depth >= 1 && k <= |t.remainingDeck|
    ensures |DrawValues(t, w, depth, samples, rng, path, k)| == |Pairs(|t.remainingDeck|, k)|
  {
    if k > 0 {
      var n := |t.remainingDeck|;
      DrawValuesCount(t, w, depth, samples, rng, path, k - 1);
      RowValuesCount(t, w, k - 1, depth, samples, rng, path, n);
      assert DrawValues(t, w, depth, samples, rng, path, k)
             == DrawValues(t, w, depth, samples, rng, path, k - 1) + RowValues(t, w, k - 1, depth, samples, rng, path, n);
      assert Pairs(n, k) == Pairs(n, k - 1) + Row(n, k - 1, n);
    }
  }

  lemma {:induction false} RowValuesCount(t: AIState, w: Role, i: nat, depth: nat, samples: int, rng: Rng, path: seq<nat>,
                                          m: nat)
    requires depth >= 1 && i < |t.remainingDeck| && m <= |t.remainingDeck|
    ensures |RowValues(t, w, i, depth, samples, rng, path, m)| == |Row(|t.remainingDeck|, i, m)|
  {
    if m > 0 {
      RowValuesCount(t, w, i, depth, samples, rng, path, m - 1);
    }
  }

  /** One more column of row `i`: its value is appended unless it is the diagonal `j == i`. */
  lemma RowValuesNext(t: AIState, w: Role, i: nat, depth: nat, samples: int, rng: Rng, path: seq<nat>, j: nat)
    requires depth >= 1 && i < |t.remainingDeck| && j < |t.remainingDeck|
    ensures RowValues(t, w, i, depth, samples, rng, path, j + 1)
            == RowValues(t, w, i, depth, samples, rng, path, j)
               + (if j == i then [] else [DrawValue(t, w, i, j, depth, samples, rng, path)])
  {
  }

  /**
   * The value of one draw outcome: the winner of the trick draws `deck[i]`,
   * the loser `deck[j]`, and the winner leads the search one level down.
   */
  function DrawValue(t: AIState, w: Role, i: nat, j: nat, depth: nat, samples: int, rng: Rng, path: seq<nat>): real
    requires depth >= 1 && i < |t.remainingDeck| && j < |t.remainingDeck|
    decreases depth, 0, 0
  {
    Emm(DrawOutcome(t, w, i, j), depth - 1, w == Opponent, samples, rng, DrawPath(path, i, j))
  }

  /** The search-tree position of the outcome where `deck[i]` and `deck[j]` are drawn. */
  function DrawPath(path: seq<nat>, i: nat, j: nat): seq<nat>
  {
    path + [i, j]
  }

  // ---------------------------------------------------------------------------
  // Bounds
  // ---------------------------------------------------------------------------

  /** `x` lies within `d` of `e`. */
  predicate Near(x: real, e: int, d: nat)
  {
    (e - d) as real <= x <= (e + d) as real
  }

  predicate AllNear(xs: seq<real>, e: int, d: nat)
  {
    forall i :: 0 <= i < |xs| ==> Near(xs[i], e, d)
  }

  /** Joining two lists near `e` gives a list near `e`. */
  lemma AllNearAppend(xs: seq<real>, ys: seq<real>, e: int, d: nat)
    requires AllNear(xs, e, d) && AllNear(ys, e, d)
    ensures AllNear(xs + ys, e, d)
  {
    assert forall i :: 0 <= i < |ys| ==> (xs + ys)[|xs| + i] == ys[i];
  }

  /** Appending a value near `e` keeps a list near `e`, with the looser of the two distances. */
  lemma AllNearSnoc(xs: seq<real>, x: real, e: int, d: nat, d': nat)
    requires d <= d' && AllNear(xs, e, d') && Near(x, e, d)
    ensures AllNear(xs + [x], e, d')
  {
    assert forall i :: 0 <= i < |xs| ==> (xs + [x])[i] == xs[i];
  }

  lemma NearExtremes(xs: seq<real>, e: int, d: nat)
    requires xs != [] && AllNear(xs, e, d)
    ensures Near(MaxList(xs), e, d) && Near(MinList(xs), e, d) && Near(Mean(xs), e, d)
  {
    MaxListIsMaximum(xs);
    MinListIsMinimum(xs);
    MeanBetween(xs, (e - d) as real, (e + d) as real);
  }

  /**
   * A search value never strays from the current score difference by more
   * than 22 points per level left: each level settles at most one trick,
   * and a trick is worth at most 22.
   */
  lemma {:induction false} EmmNear(s: AIState, depth: nat, aiTurn: bool, samples: int, rng: Rng, path: seq<nat>)
    ensures Near(Emm(s, depth, aiTurn, samples, rng, path), Evaluate(s), 22 * depth)
    decreases depth, 5, 0
  {
    if depth == 0 || IsTerminal(s) {
    } else if TrickComplete(s) {
      ResolveNear(s, depth, samples, rng, path);
    } else if aiTurn {
      var moves := ValidMoves(s.opponentHand, s.allowedSuit, s.trumpSuit);
      if moves != [] {
        AiMoveValuesNear(s, moves, depth, samples, rng, path, |moves|);
        NearExtremes(AiMoveValues(s, moves, depth, samples, rng, path, |moves|), Evaluate(s), 22 * depth);
      }
    } else {
      var n := if samples > 0 then samples else 0;
      var values := SampleValues(s, depth, samples, rng, path, n);
      if values != [] {
        SampleValuesNear(s, depth, samples, rng, path, n);
        NearExtremes(values, Evaluate(s), 22 * depth);
      }
    }
  }

  lemma {:induction false} AiMoveValuesNear(s: AIState, moves: seq<Card>, depth: nat, samples: int, rng: Rng,
                                            path: seq<nat>, n: nat)
    requires depth >= 1 && n <= |moves|
    ensures AllNear(AiMoveValues(s, moves, depth, samples, rng, path, n), Evaluate(s), 22 * depth)
    decreases depth, 1, n
  {
    if n > 0 {
      AiMoveValuesNear(s, moves, depth, samples, rng, path, n - 1);
      var x := Emm(SimulateMove(s, moves[n - 1], true), depth - 1, false, samples, rng, path + [n - 1]);
      AiChildNear(s, moves[n - 1], depth, samples, rng, path + [n - 1]);
      AllNearSnoc(AiMoveValues(s, moves, depth, samples, rng, path, n - 1), x, Evaluate(s), 22 * (depth - 1), 22 * depth);
    }
  }

  lemma AiChildNear(s: AIState, card: Card, depth: nat, samples: int, rng: Rng, path: seq<nat>)
    requires depth >= 1
    ensures Near(Emm(SimulateMove(s, card, true), depth - 1, false, samples, rng, path), Evaluate(s), 22 * (depth - 1))
    decreases depth, 0, 0
  {
    EmmNear(SimulateMove(s, card, true), depth - 1, false, samples, rng, path);
    MovesKeepScore(s, card, []);
  }

  lemma PlayerChildNear(s: AIState, card: Card, hand: seq<Card>, depth: nat, samples: int, rng: Rng, path: seq<nat>)
    requires depth >= 1
    ensures Near(Emm(SimulatePlayerMove(s, card, hand), depth - 1, true, samples, rng, path), Evaluate(s), 22 * (depth - 1))
    decreases depth, 0, 0
  {
    EmmNear(SimulatePlayerMove(s, card, hand), depth - 1, true, samples, rng, path);
    MovesKeepScore(s, card, hand);
  }

  lemma OutcomeChildNear(t: AIState, w: Role, i: nat, j: nat, depth: nat, samples: int, rng: Rng, path: seq<nat>)
    requires depth >= 1 && i < |t.remainingDeck| && j < |t.remainingDeck|
    ensures Near(DrawValue(t, w, i, j, depth, samples, rng, path), Evaluate(t), 22 * (depth - 1))
    decreases depth, 0, 0
  {
    EmmNear(DrawOutcome(t, w, i, j), depth - 1, w == Opponent, samples, rng, DrawPath(path, i, j));
    DrawsKeepScore(t, w, i, j);
  }

  lemma {:induction false} SampleValueNear(s: AIState, depth: nat, samples: int, rng: Rng, path: seq<nat>, t: nat)
    requires depth >= 1
    ensures Near(SampleValue(s, depth, samples, rng, path, t), Evaluate(s), 22 * depth)
    decreases depth, 2, 0
  {
    var hand := SampledHand(s, |s.playerHand|, rng(path + [t]));
    var moves := ValidMoves(hand, s.allowedSuit, s.trumpSuit);
    if moves != [] {
      PlayerMoveValuesNear(s, hand, moves, depth, samples, rng, path + [t], |moves|);
      NearExtremes(PlayerMoveValues(s, hand, moves, depth, samples, rng, path + [t], |moves|), Evaluate(s), 22 * depth);
    }
  }

  lemma {:induction false} SampleValuesNear(s: AIState, depth: nat, samples: int, rng: Rng, path: seq<nat>, n: nat)
    requires depth >= 1
    ensures AllNear(SampleValues(s, depth, samples, rng, path, n), Evaluate(s), 22 * depth)
    decreases depth, 3, n
  {
    if n > 0 {
      SampleValuesNear(s, depth, samples, rng, path, n - 1);
      SampleStepNear(s, depth, samples, rng, path, n);
    }
  }

  lemma SampleStepNear(s: AIState, depth: nat, samples: int, rng: Rng, path: seq<nat>, n: nat)
    requires depth >= 1 && n > 0
    requires AllNear(SampleValues(s, depth, samples, rng, path, n - 1), Evaluate(s), 22 * depth)
    ensures AllNear(SampleValues(s, depth, samples, rng, path, n), Evaluate(s), 22 * depth)
    decreases depth, 2, 1
  {
    var prev := SampleValues(s, depth, samples, rng, path, n - 1);
    var x := SampleValue(s, depth, samples, rng, path, n - 1);
    SampleValueNear(s, depth, samples, rng, path, n - 1);
    AllNearSnoc(prev, x, Evaluate(s), 22 * depth, 22 * depth);
  }

  lemma {:induction false} PlayerMoveValuesNear(s: AIState, hand: seq<Card>, moves: seq<Card>, depth: nat, samples: int,
                                                rng: Rng, path: seq<nat>, n: nat)
    requires depth >= 1 && n <= |moves|
    ensures AllNear(PlayerMoveValues(s, hand, moves, depth, samples, rng, path, n), Evaluate(s), 22 * depth)
    decreases depth, 1, n
  {
    if n > 0 {
      PlayerMoveValuesNear(s, hand, moves, depth, samples, rng, path, n - 1);
      PlayerStepNear(s, hand, moves, depth, samples, rng, path, n);
    }
  }

  lemma PlayerStepNear(s: AIState, hand: seq<Card>, moves: seq<Card>, depth: nat, samples: int, rng: Rng,
                       path: seq<nat>, n: nat)
    requires depth >= 1 && 0 < n <= |moves|
    requires AllNear(PlayerMoveValues(s, hand, moves, depth, samples, rng, path, n - 1), Evaluate(s), 22 * depth)
    ensures AllNear(PlayerMoveValues(s, hand, moves, depth, samples, rng, path, n), Evaluate(s), 22 * depth)
    decreases depth, 0, 1
  {
    var prev := PlayerMoveValues(s, hand, moves, depth, samples, rng, path, n - 1);
    var x := Emm(SimulatePlayerMove(s, moves[n - 1], hand), depth - 1, true, samples, rng, path + [n - 1]);
    PlayerChildNear(s, moves[n - 1], hand, depth, samples, rng, path + [n - 1]);
    AllNearSnoc(prev, x, Evaluate(s), 22 * (depth - 1), 22 * depth);
  }

  lemma {:induction false} ResolveNear(s: AIState, depth: nat, samples: int, rng: Rng, path: seq<nat>)
    requires TrickComplete(s) && depth >= 1
    ensures Near(ResolveValue(s, depth, samples, rng, path), Evaluate(s), 22 * depth)
    decreases depth, 4, 0
  {
    var w := AiTrickWinner(s.playerPlayed.value, s.opponentPlayed.value, s.trumpSuit, s.currentLeader);
    var t := Award(s, w);
    AwardNear(s, w);
    var n := |t.remainingDeck|;
    if n == 0 {
      EmmNear(t, depth - 1, w == Opponent, samples, rng, path);
    } else if n == 1 {
      DrawsKeepScore(t, w, 0, 0);
      EmmNear(DrawLast(t, w), depth - 1, w == Opponent, samples, rng, path);
    } else {
      var outcomes := DrawValues(t, w, depth, samples, rng, path, n);
      if outcomes != [] {
        DrawValuesNear(t, w, depth, samples, rng, path, n);
        NearExtremes(outcomes, Evaluate(t), 22 * (depth - 1));
      }
    }
  }

  lemma {:induction false} DrawValuesNear(t: AIState, w: Role, depth: nat, samples: int, rng: Rng, path: seq<nat>, k: nat)
    requires depth >= 1 && k <= |t.remainingDeck|
    ensures AllNear(DrawValues(t, w, depth, samples, rng, path, k), Evaluate(t), 22 * (depth - 1))
    decreases depth, 2, k
  {
    if k > 0 {
      DrawValuesNear(t, w, depth, samples, rng, path, k - 1);
      RowValuesNear(t, w, k - 1, depth, samples, rng, path, |t.remainingDeck|);
      AllNearAppend(DrawValues(t, w, depth, samples, rng, path, k - 1),
                    RowValues(t, w, k - 1, depth, samples, rng, path, |t.remainingDeck|), Evaluate(t), 22 * (depth - 1));
    }
  }

  lemma {:induction false} RowValuesNear(t: AIState, w: Role, i: nat, depth: nat, samples: int, rng: Rng,
                                         path: seq<nat>, m: nat)
    requires depth >= 1 && i < |t.remainingDeck| && m <= |t.remainingDeck|
    ensures AllNear(RowValues(t, w, i, depth, samples, rng, path, m), Evaluate(t), 22 * (depth - 1))
    decreases depth, 1, m
  {
    if m > 0 {
      RowValuesNear(t, w, i, depth, samples, rng, path, m - 1);
      if m - 1 != i {
        RowStepNear(t, w, i, depth, samples, rng, path, m);
      }
    }
  }

  lemma RowStepNear(t: AIState, w: Role, i: nat, depth: nat, samples: int, rng: Rng, path: seq<nat>, m: nat)
    requires depth >= 1 && i < |t.remainingDeck| && 0 < m <= |t.remainingDeck| && m - 1 != i
    requires AllNear(RowValues(t, w, i, depth, samples, rng, path, m - 1), Evaluate(t), 22 * (depth - 1))
    ensures AllNear(RowValues(t, w, i, depth, samples, rng, path, m), Evaluate(t), 22 * (depth - 1))
    decreases depth, 0, 1
  {
    OutcomeChildNear(t, w, i, m - 1, depth, samples, rng, path);
    var prev := RowValues(t, w, i, depth, samples, rng, path, m - 1);
    var x := DrawValue(t, w, i, m - 1, depth, samples, rng, path);
    var d := 22 * (depth - 1);
    AllNearSnoc(prev, x, Evaluate(t), d, d);
  }
}
