/**
 * The round engine's rules from gameplay.py that are decisions rather than
 * updates: who wins a trick, which card the human may follow with, when a
 * marriage counts, how a finished round turns into game points, the
 * computer's move as the engine asks for it, and the shuffled deck.
 */
module RoundRules {
  import opened Wrappers
  import opened Cards
  import opened Lists
  import opened Rules
  import opened Strategies

  /** The engine's two sides, `"player"` (the human) and `"computer"`. */
  datatype Side = Human | Computer

  function Other(s: Side): Side
  {
    if s == Human then Computer else Human
  }

  /** The card a side has put into the trick. */
  function CardOf(side: Side, playerCard: Card, computerCard: Card): Card
  {
    if side == Human then playerCard else computerCard
  }

  // ---------------------------------------------------------------------------
  // determine_trick_winner
  // ---------------------------------------------------------------------------

  /**
   * `determine_trick_winner(player_card, computer_card)` with `leader` as
   * `current_leader`: trump against non-trump wins, then a follower off the
   * led suit loses, then the higher value wins with equal values going to
   * the leader.
   */
  function TrickWinner(leader: Side, playerCard: Card, computerCard: Card, trump: Suit): Side
  {
    var leaderCard := CardOf(leader, playerCard, computerCard);
    var followerCard := CardOf(Other(leader), playerCard, computerCard);
    if leaderCard.suit == trump && followerCard.suit != trump then leader
    else if followerCard.suit == trump && leaderCard.suit != trump then Other(leader)
    else if followerCard.suit != leaderCard.suit then leader
    else if CardValue(leaderCard) >= CardValue(followerCard) then leader
    else Other(leader)
  }

  /** The trick rules, stated by whose card is the trump or the higher one. */
  lemma TrickWinnerRules(leader: Side, playerCard: Card, computerCard: Card, trump: Suit)
    ensures playerCard.suit == trump && computerCard.suit != trump ==>
      TrickWinner(leader, playerCard, computerCard, trump) == Human
    ensures computerCard.suit == trump && playerCard.suit != trump ==>
      TrickWinner(leader, playerCard, computerCard, trump) == Computer
    ensures (playerCard.suit == trump <==> computerCard.suit == trump) && playerCard.suit != computerCard.suit ==>
      TrickWinner(leader, playerCard, computerCard, trump) == leader
    ensures playerCard.suit == computerCard.suit ==>
      var l, f := CardOf(leader, playerCard, computerCard), CardOf(Other(leader), playerCard, computerCard);
      (TrickWinner(leader, playerCard, computerCard, trump) == leader <==> CardValue(l) >= CardValue(f))
  {
  }

  /**
   * The engine's rule and the AI's `card_wins` agree: the follower takes the
   * trick exactly when its card beats the leader's card on the led suit.
   */
  lemma TrickWinnerIsCardWins(leader: Side, playerCard: Card, computerCard: Card, trump: Suit)
    ensures var l, f := CardOf(leader, playerCard, computerCard), CardOf(Other(leader), playerCard, computerCard);
      TrickWinner(leader, playerCard, computerCard, trump) == Other(leader) <==> CardWins(f, l, trump, l.suit)
  {
  }

  // ---------------------------------------------------------------------------
  // The human's follow rule in handle_event
  // ---------------------------------------------------------------------------

  /** `allowed_suit`: the suit the computer led, in the second phase only. */
  function AllowedSuit(firstPhase: bool, leader: Side, computerPlayed: Option<Card>): (r: Option<Suit>)
    ensures r.Some? <==> !firstPhase && leader == Computer && computerPlayed.Some?
    ensures r.Some? ==> r.value == computerPlayed.value.suit
  {
    if !firstPhase && leader == Computer && computerPlayed.Some? then Some(computerPlayed.value.suit) else None
  }

  /** `valid_move` for the clicked card `c` of `hand`. */
  predicate HumanMoveValid(hand: seq<Card>, c: Card, firstPhase: bool, allowed: Option<Suit>, trump: Suit)
  {
    if firstPhase || allowed.None? then true
    else
      var follow := HasSuit(hand, allowed.value);
      var hasTrump := HasSuit(hand, trump);
      if follow && hasTrump then c.suit == allowed.value || c.suit == trump
      else if follow then c.suit == allowed.value
      else if hasTrump then c.suit == trump
      else true
  }

  /**
   * The human's rule is the AI's `get_valid_moves` rule with one more
   * freedom: a trump may always be played, even by a hand that holds the
   * led suit.
   */
  lemma HumanRuleIsAiRuleOrTrump(hand: seq<Card>, c: Card, allowed: Option<Suit>, trump: Suit)
    requires c in hand
    ensures HumanMoveValid(hand, c, false, allowed, trump) <==>
      LegalResponse(c, hand, allowed, trump) || (allowed.Some? && c.suit == trump)
  {
  }

  /** So every move the AI's filter returns is open to the human too, and a hand with a card always has a move. */
  lemma HumanCanAlwaysMove(hand: seq<Card>, firstPhase: bool, allowed: Option<Suit>, trump: Suit)
    ensures forall c :: c in ValidMoves(hand, allowed, trump) ==> HumanMoveValid(hand, c, firstPhase, allowed, trump)
    ensures hand != [] ==> exists c :: c in hand && HumanMoveValid(hand, c, firstPhase, allowed, trump)
  {
    ValidMovesMeaning(hand, allowed, trump);
    forall c | c in ValidMoves(hand, allowed, trump)
      ensures HumanMoveValid(hand, c, firstPhase, allowed, trump)
    {
      HumanRuleIsAiRuleOrTrump(hand, c, allowed, trump);
    }
    if hand != [] {
      var c := ValidMoves(hand, allowed, trump)[0];
      assert c in ValidMoves(hand, allowed, trump);
    }
  }

  // ---------------------------------------------------------------------------
  // Marriages
  // ---------------------------------------------------------------------------

  /** `40 if suit == self.trump_suit else 20`. */
  function MarriageBonus(s: Suit, trump: Suit): (points: nat)
    ensures points == 40 || points == 20
    ensures points == 40 <==> s == trump
  {
    if s == trump then 40 else 20
  }

  /** A marriage in suit `s` can be announced: not yet announced, and both its king and queen are held. */
  predicate MarriageAvailable(hand: seq<Card>, announced: set<Suit>, s: Suit)
  {
    s !in announced && Card(King, s) in hand && Card(Queen, s) in hand
  }

  /** The outcome of a card clicked while a human marriage is pending. */
  datatype MarriageCheck = Cancelled | Announced(selected: Card, partner: Card, points: nat)

  /**
   * The checks of gameplay.py:398-430 on the clicked card `selected`: it must
   * be a king or a queen, of a suit not yet announced, with its partner in
   * the hand.
   */
  function HumanMarriage(hand: seq<Card>, selected: Card, announced: set<Suit>, trump: Suit): MarriageCheck
  {
    if selected.rank != King && selected.rank != Queen then Cancelled
    else if selected.suit in announced then Cancelled
    else
      var partner := Card(if selected.rank == King then Queen else King, selected.suit);
      if partner !in hand then Cancelled
      else Announced(selected, partner, MarriageBonus(selected.suit, trump))
  }

  /**
   * A clicked king or queen counts exactly when its suit's marriage is
   * available; the announced pair is that king and queen, worth 40 in trumps
   * and 20 otherwise.
   */
  lemma HumanMarriageRules(hand: seq<Card>, selected: Card, announced: set<Suit>, trump: Suit)
    requires selected in hand
    ensures var m := HumanMarriage(hand, selected, announced, trump);
      && (m.Announced? <==>
           (selected.rank == King || selected.rank == Queen) && MarriageAvailable(hand, announced, selected.suit))
      && (m.Announced? ==>
           && m.selected == selected && m.partner.suit == selected.suit
           && {m.selected.rank, m.partner.rank} == {King, Queen}
           && m.points == MarriageBonus(selected.suit, trump))
  {
  }

  /** The computer's search of gameplay.py:519-524: the first available suit from position `k` of H, D, C, S. */
  function FirstMarriage(hand: seq<Card>, announced: set<Suit>, k: nat): Option<Suit>
    decreases |Suits| - k
  {
    if k >= |Suits| then None
    else if MarriageAvailable(hand, announced, Suits[k]) then Some(Suits[k])
    else FirstMarriage(hand, announced, k + 1)
  }

  /** The computer announces the first available marriage in suit order, and none only when none is available. */
  lemma FirstMarriageMeaning(hand: seq<Card>, announced: set<Suit>)
    ensures FirstMarriage(hand, announced, 0).None? <==> forall s: Suit :: !MarriageAvailable(hand, announced, s)
    ensures FirstMarriage(hand, announced, 0).Some? ==>
      var found := FirstMarriage(hand, announced, 0).value;
      MarriageAvailable(hand, announced, found)
      && forall s: Suit :: SuitIndex(s) < SuitIndex(found) ==> !MarriageAvailable(hand, announced, s)
  {
    FirstMarriageFrom(hand, announced, 0);
  }

  lemma {:induction false} FirstMarriageFrom(hand: seq<Card>, announced: set<Suit>, k: nat)
    requires k <= |Suits|
    ensures var r := FirstMarriage(hand, announced, k);
      && (r.None? <==> forall s: Suit :: k <= SuitIndex(s) ==> !MarriageAvailable(hand, announced, s))
      && (r.Some? ==>
           && k <= SuitIndex(r.value) && MarriageAvailable(hand, announced, r.value)
           && forall s: Suit :: k <= SuitIndex(s) < SuitIndex(r.value) ==> !MarriageAvailable(hand, announced, s))
    decreases |Suits| - k
  {
    if k < |Suits| {
      FirstMarriageFrom(hand, announced, k + 1);
      SuitAtIndex(k);
    }
  }

  // ---------------------------------------------------------------------------
  // check_round_end
  // ---------------------------------------------------------------------------

  /** The winner of a finished round and the game points it earns. */
  datatype RoundResult = RoundResult(winner: Option<Side>, gamePoints: nat)

  /** The scoring of gameplay.py:697-723, from the round points and trick counts. */
  function RoundScore(playerPoints: int, computerPoints: int, playerTricks: nat, computerTricks: nat): RoundResult
  {
    if playerPoints >= 66 || computerPoints >= 66 then
      var humanWins := playerPoints > computerPoints;
      var loserPoints := if humanWins then computerPoints else playerPoints;
      var loserTricks := if humanWins then computerTricks else playerTricks;
      RoundResult(Some(if humanWins then Human else Computer),
                  if loserTricks == 0 then 3 else if loserPoints < 33 then 2 else 1)
    else if playerPoints > computerPoints then RoundResult(Some(Human), 1)
    else if computerPoints > playerPoints then RoundResult(Some(Computer), 1)
    else RoundResult(None, 1)
  }

  /**
   * The human wins a round exactly with strictly more points, a round ends
   * without a winner only in a tie below 66 (a tie at 66 or more goes to the
   * computer), a winner at 66 earns 3 against a loser without a trick, else
   * 2 against a loser under 33, else 1, and a round below 66 is worth 1.
   */
  lemma RoundScoreRules(playerPoints: int, computerPoints: int, playerTricks: nat, computerTricks: nat)
    ensures var r := RoundScore(playerPoints, computerPoints, playerTricks, computerTricks);
      && 1 <= r.gamePoints <= 3
      && (r.winner == Some(Human) <==> playerPoints > computerPoints)
      && (r.winner == None <==> playerPoints == computerPoints && playerPoints < 66)
      && (playerPoints < 66 && computerPoints < 66 ==> r.gamePoints == 1)
      && (r.gamePoints > 1 ==> playerPoints >= 66 || computerPoints >= 66)
    ensures playerPoints >= 66 || computerPoints >= 66 ==>
      var r := RoundScore(playerPoints, computerPoints, playerTricks, computerTricks);
      var loserPoints, loserTricks :=
        if r.winner == Some(Human) then computerPoints else playerPoints,
        if r.winner == Some(Human) then computerTricks else playerTricks;
      r.winner.Some?
      && (r.gamePoints == 3 <==> loserTricks == 0)
      && (r.gamePoints == 2 <==> loserTricks > 0 && loserPoints < 33)
  {
  }

  /**
   * The game points a finished round adds to the human and to the computer:
   * a human who closed the game without reaching 66 hands the computer 1
   * point as a penalty; otherwise the round's winner scores.
   */
  function RoundAward(closed: bool, playerPoints: int, computerPoints: int, playerTricks: nat, computerTricks: nat)
    : (award: (nat, nat))
  {
    if closed && playerPoints < 66 then (0, 1)
    else
      var r := RoundScore(playerPoints, computerPoints, playerTricks, computerTricks);
      if r.winner == Some(Human) then (r.gamePoints, 0)
      else if r.winner == Some(Computer) then (0, r.gamePoints)
      else (0, 0)
  }

  /** At most one side scores, at most 3 points, the closing penalty is 1 for the computer only, and a tie scores nothing. */
  lemma RoundAwardRules(closed: bool, playerPoints: int, computerPoints: int, playerTricks: nat, computerTricks: nat)
    ensures var a := RoundAward(closed, playerPoints, computerPoints, playerTricks, computerTricks);
      && (a.0 == 0 || a.1 == 0)
      && a.0 + a.1 <= 3
      && (closed && playerPoints < 66 ==> a == (0, 1))
      && (!(closed && playerPoints < 66) ==>
           && (a.0 > 0 <==> playerPoints > computerPoints)
           && (a == (0, 0) <==> playerPoints == computerPoints && playerPoints < 66)
           && (a.0 + a.1 == RoundScore(playerPoints, computerPoints, playerTricks, computerTricks).gamePoints
               || a == (0, 0)))
  {
    RoundScoreRules(playerPoints, computerPoints, playerTricks, computerTricks);
  }

  /** `self.player_game_points >= 11 or self.computer_game_points >= 11`. */
  predicate MatchOver(playerGamePoints: int, computerGamePoints: int)
  {
    playerGamePoints >= 11 || computerGamePoints >= 11
  }

  // ---------------------------------------------------------------------------
  // The computer's move inside the engine
  // ---------------------------------------------------------------------------

  /**
   * `self.opponent.play(state, self.computer_hand)` exactly as the engine
   * makes it: `JustRandom` reads `allowed_suit` from the engine's state
   * dictionary, which has no such key, so it chooses among all the cards;
   * and neither `player_lead` nor `computer_lead` takes the card out of
   * `computer_hand`.
   */
  function ComputerMoveAsWritten(hand: seq<Card>, trump: Suit, pick: nat): (Option<Card>, seq<Card>)
  {
    (JustRandomPlay(None, trump, hand, pick), hand)
  }

  /** As written, the played card stays in the hand: it is in two places and the hand never shrinks. */
  lemma ComputerMoveAsWrittenKeepsCard(hand: seq<Card>, trump: Suit, pick: nat)
    requires hand != []
    ensures var (played, rest) := ComputerMoveAsWritten(hand, trump, pick);
      && played.Some? && played.value in rest && |rest| == |hand|
      && multiset(rest) + OptBag(played) != multiset(hand)
  {
    var (played, rest) := ComputerMoveAsWritten(hand, trump, pick);
    assert played.Some?;
    assert (multiset(rest) + OptBag(played))[played.value] == multiset(hand)[played.value] + 1;
  }

  /** The computer's move with the played card taken out of its hand, as the human's is. */
  function ComputerMove(hand: seq<Card>, trump: Suit, pick: nat): (Option<Card>, seq<Card>)
  {
    var played := JustRandomPlay(None, trump, hand, pick);
    (played, if played.Some? then RemoveFirst(hand, played.value) else hand)
  }

  /** The corrected move: a card of the hand leaves it for the play slot, and no card is made or lost. */
  lemma ComputerMoveConserves(hand: seq<Card>, trump: Suit, pick: nat)
    ensures var (played, rest) := ComputerMove(hand, trump, pick);
      && (played.None? <==> hand == [])
      && (played.Some? ==> played.value in hand && |rest| == |hand| - 1)
      && multiset(rest) + OptBag(played) == multiset(hand)
  {
    var (played, rest) := ComputerMove(hand, trump, pick);
    if played.Some? {
      ValidMovesMeaning(hand, None, trump);
      ValidMovesCases(hand, None, trump);
      RemoveFirstMeaning(hand, played.value);
      RemoveFirstBag(hand, played.value);
    }
  }

  // ---------------------------------------------------------------------------
  // random.shuffle
  // ---------------------------------------------------------------------------

  /**
   * The order `random.shuffle` leaves a list in, told by the random choices
   * `picks`: each pick, modulo the cards left, selects the next card (a
   * missing pick counts as 0).
   */
  function Shuffled<T>(s: seq<T>, picks: seq<nat>): seq<T>
    decreases |s|
  {
    if s == [] then []
    else
      var k := (if picks == [] then 0 else picks[0]) % |s|;
      [s[k]] + Shuffled(RemoveAt(s, k), if picks == [] then [] else picks[1..])
  }

  /** Shuffling permutes: the same cards, as many of each. */
  lemma {:induction false} ShuffledPermutes<T>(s: seq<T>, picks: seq<nat>)
    ensures multiset(Shuffled(s, picks)) == multiset(s)
    decreases |s|
  {
    if s != [] {
      var k := (if picks == [] then 0 else picks[0]) % |s|;
      var rest := if picks == [] then [] else picks[1..];
      var t := RemoveAt(s, k);
      ShuffledPermutes(t, rest);
      assert Shuffled(s, picks) == [s[k]] + Shuffled(t, rest);
      assert multiset(Shuffled(s, picks)) == multiset{s[k]} + multiset(t);
      assert s[k] in multiset(s);
    }
  }

  /** Shuffling keeps the number of cards. */
  lemma {:induction false} ShuffledLength<T>(s: seq<T>, picks: seq<nat>)
    ensures |Shuffled(s, picks)| == |s|
    decreases |s|
  {
    if s != [] {
      var k := (if picks == [] then 0 else picks[0]) % |s|;
      ShuffledLength(RemoveAt(s, k), if picks == [] then [] else picks[1..]);
    }
  }

  /** A shuffled fresh deck holds every card exactly once. */
  lemma ShuffledDeck(picks: seq<nat>)
    ensures |Shuffled(FullDeck(), picks)| == 24
    ensures multiset(Shuffled(FullDeck(), picks)) == multiset(FullDeck())
  {
    ShuffledPermutes(FullDeck(), picks);
    ShuffledLength(FullDeck(), picks);
    DeckAt(0);
  }
}
