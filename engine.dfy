/**
 * The state of one game of gameplay.py (class `GamePlay`) as a value, and
 * one step function per engine method. The class in round.dfy updates its
 * fields in place; each of its methods is specified by the step function
 * here, and the card-conservation and scoring facts are proved about
 * these functions.
 */
module Engine {
  import opened Wrappers
  import opened Cards
  import opened Lists
  import opened Rules
  import opened Strategies
  import opened RoundRules

  /**
   * What the engine keeps for one side in its `player_*` and `computer_*`
   * fields: the hand, the card in the current trick, the won cards, round
   * points, tricks, game points and the suits whose marriage it announced.
   */
  datatype SideState = SideState(
    hand: seq<Card>,
    played: Option<Card>,
    wonCards: seq<Card>,
    roundPoints: nat,
    tricks: nat,
    gamePoints: nat,
    marriages: set<Suit>)

  /**
   * The fields of `GamePlay` the rules read or write. `marriageTime` is 0
   * where the source holds `None`; it is only read while an announcement is
   * shown, and every announcement sets it.
   */
  datatype EngineState = EngineState(
    deck: seq<Card>,
    trumpCard: Option<Card>,
    trumpSuit: Suit,
    human: SideState,
    computer: SideState,
    trickReady: bool,
    firstPhase: bool,
    currentLeader: Side,
    marriagePending: bool,
    marriageAnnouncement: Option<(Card, Card)>,
    marriageTime: int,
    gameClosed: bool,
    gameOver: bool)

  /** The cards one side holds: hand, play slot and won pile. */
  function SideCards(st: SideState): multiset<Card>
  {
    multiset(st.hand) + OptBag(st.played) + multiset(st.wonCards)
  }

  /** Every card the engine holds anywhere: stock, trump slot, and both sides. */
  function AllCards(e: EngineState): multiset<Card>
  {
    multiset(e.deck) + OptBag(e.trumpCard) + SideCards(e.human) + SideCards(e.computer)
  }

  /** Every card of the deck is somewhere, exactly once, and the face-up card is a trump. */
  ghost predicate Consistent(e: EngineState)
  {
    EveryCardOnce(AllCards(e)) && TrumpShown(e)
  }

  /** Each of the 24 cards is counted exactly once. */
  ghost predicate EveryCardOnce(m: multiset<Card>)
  {
    forall c: Card :: m[c] == 1
  }

  /** Holding every card exactly once is holding the fresh deck's cards. */
  lemma EveryCardOnceIsFullDeck(m: multiset<Card>)
    ensures EveryCardOnce(m) <==> m == multiset(FullDeck())
  {
    forall c: Card ensures multiset(FullDeck())[c] == 1 {
      FullDeckIsEveryCardOnce(c);
    }
    if EveryCardOnce(m) {
      assert forall c: Card :: m[c] == multiset(FullDeck())[c];
    }
  }

  /** The face-up card under the stock, if any, is a trump. */
  predicate TrumpShown(e: EngineState)
  {
    e.trumpCard.Some? ==> e.trumpCard.value.suit == e.trumpSuit
  }

  function SideOf(e: EngineState, side: Side): SideState
  {
    if side == Human then e.human else e.computer
  }

  // ---------------------------------------------------------------------------
  // Dealing: __init__ and reset_round
  // ---------------------------------------------------------------------------

  /** A side at the start of a round: the dealt hand, its game points, and nothing else. */
  function NewRoundSide(hand: seq<Card>, gamePoints: nat): SideState
  {
    SideState(hand, None, [], 0, 0, gamePoints, {})
  }

  /**
   * The deal of gameplay.py:747-771 from the shuffled deck `d`: the top
   * (last) three cards to the human, the next three to the computer, three
   * more to each, then the next card face up as trump; the other eleven
   * stay as the stock. Round state is reset and the game points given are
   * kept.
   */
  function DealFrom(d: seq<Card>, humanPoints: nat, computerPoints: nat, gameOver: bool): EngineState
    requires |d| == 24
  {
    EngineState(
      d[..11], Some(d[11]), d[11].suit,
      NewRoundSide([d[23], d[22], d[21]] + [d[17], d[16], d[15]], humanPoints),
      NewRoundSide([d[20], d[19], d[18]] + [d[14], d[13], d[12]], computerPoints),
      false, true, Human, false, None, 0, false, gameOver)
  }

  /** The deck `random.shuffle` leaves when its random choices are `picks`. */
  function ShuffledFreshDeck(picks: seq<nat>): (d: seq<Card>)
    ensures |d| == 24
  {
    ShuffledDeck(picks);
    Shuffled(FullDeck(), picks)
  }

  /** `reset_round`: a fresh deck shuffled by `picks` and dealt; game points are kept. */
  function NewRound(e: EngineState, picks: seq<nat>): EngineState
  {
    DealFrom(ShuffledFreshDeck(picks), e.human.gamePoints, e.computer.gamePoints, e.gameOver)
  }

  /** `GamePlay.__init__`: the first round, with no game points yet. */
  function Initial(picks: seq<nat>): EngineState
  {
    DealFrom(ShuffledFreshDeck(picks), 0, 0, false)
  }

  /** The deal hands out the deck: six cards to each side, one face-up trump and eleven in the stock. */
  lemma DealConserves(d: seq<Card>, humanPoints: nat, computerPoints: nat, gameOver: bool)
    requires |d| == 24
    ensures var e := DealFrom(d, humanPoints, computerPoints, gameOver);
      && AllCards(e) == multiset(d)
      && |e.human.hand| == 6 && |e.computer.hand| == 6 && |e.deck| == 11
      && e.trumpCard == Some(d[11]) && e.trumpSuit == d[11].suit
  {
    DealBag(d, DealFrom(d, humanPoints, computerPoints, gameOver));
  }

  /** The dealt cards, the trump card and the stock are the cards of `d`. */
  lemma DealBag(d: seq<Card>, e: EngineState)
    requires |d| == 24
    requires e == DealFrom(d, e.human.gamePoints, e.computer.gamePoints, e.gameOver)
    ensures AllCards(e) == multiset(d)
  {
    assert d == d[..11] + [d[11]] + d[12..15] + d[15..18] + d[18..21] + d[21..24];
    ReversedThree(d[12..15]);
    ReversedThree(d[15..18]);
    ReversedThree(d[18..21]);
    ReversedThree(d[21..24]);
  }

  /** Three cards popped one by one are the same three cards. */
  lemma ReversedThree(s: seq<Card>)
    requires |s| == 3
    ensures multiset([s[2], s[1], s[0]]) == multiset(s)
  {
    assert s == [s[0], s[1], s[2]];
  }

  /**
   * A new round holds every card of the deck exactly once, deals six cards
   * to each side and eleven to the stock, starts in the first phase with the
   * human to lead, and keeps both sides' game points.
   */
  lemma NewRoundDeals(e: EngineState, picks: seq<nat>)
    ensures var n := NewRound(e, picks);
      && AllCards(n) == multiset(FullDeck()) && Consistent(n)
      && |n.human.hand| == 6 && |n.computer.hand| == 6 && |n.deck| == 11
      && n.human.gamePoints == e.human.gamePoints && n.computer.gamePoints == e.computer.gamePoints
      && n.human.roundPoints == 0 && n.computer.roundPoints == 0 && n.human.tricks == 0 && n.computer.tricks == 0
      && n.firstPhase && n.currentLeader == Human && !n.trickReady && !n.gameClosed && n.gameOver == e.gameOver
  {
    ShuffledDeck(picks);
    DealConserves(ShuffledFreshDeck(picks), e.human.gamePoints, e.computer.gamePoints, e.gameOver);
    EveryCardOnceIsFullDeck(multiset(FullDeck()));
  }

  /** The first round is dealt the same way, with no game points. */
  lemma InitialDeals(picks: seq<nat>)
    ensures var n := Initial(picks);
      && AllCards(n) == multiset(FullDeck()) && Consistent(n)
      && |n.human.hand| == 6 && |n.computer.hand| == 6 && |n.deck| == 11
      && n.human.gamePoints == 0 && n.computer.gamePoints == 0 && !n.gameOver
      && n.trumpCard.Some? && n.human.played.None? && n.computer.played.None?
      && !n.trickReady && n.currentLeader == Human
  {
    ShuffledDeck(picks);
    DealConserves(ShuffledFreshDeck(picks), 0, 0, false);
    EveryCardOnceIsFullDeck(multiset(FullDeck()));
  }

  // ---------------------------------------------------------------------------
  // Buttons: close_game, switch_trump, announce_marriage
  // ---------------------------------------------------------------------------

  /** `close_game`: drawing stops and the human is marked as having closed. */
  function CloseGame(e: EngineState): EngineState
  {
    e.(firstPhase := false, gameClosed := true)
  }

  /** `announce_marriage`: only the leading human may start one; the next clicked card is the selection. */
  function AnnounceMarriage(e: EngineState): EngineState
  {
    if e.currentLeader != Human then e else e.(marriagePending := true)
  }

  /**
   * `switch_trump`, corrected: the leading human who holds the nine of
   * trumps exchanges it for the face-up trump card. As written the source
   * exchanges even when no trump card is left on the table
   * (`SwitchTrumpAsWritten`); here there is then nothing to exchange.
   */
  function SwitchTrump(e: EngineState): EngineState
  {
    var nine := Card(Nine, e.trumpSuit);
    if e.currentLeader != Human || nine !in e.human.hand || e.trumpCard.None? then e
    else e.(human := e.human.(hand := RemoveFirst(e.human.hand, nine) + [e.trumpCard.value]), trumpCard := Some(nine))
  }

  /**
   * `switch_trump` as written, on a hand that can hold `None`: the nine
   * leaves the hand and whatever is in the trump slot joins it.
   */
  function SwitchTrumpAsWritten(hand: seq<Card>, trumpCard: Option<Card>, nine: Card): seq<Option<Card>>
  {
    if nine in hand then Lifted(RemoveFirst(hand, nine)) + [trumpCard] else Lifted(hand)
  }

  /** Each card of a hand as a present value. */
  function Lifted(hand: seq<Card>): (r: seq<Option<Card>>)
    ensures |r| == |hand| && forall k :: 0 <= k < |hand| ==> r[k] == Some(hand[k])
  {
    if hand == [] then [] else [Some(hand[0])] + Lifted(hand[1..])
  }

  /** Once the trump card has been drawn, switching as written puts `None` into the human's hand. */
  lemma SwitchTrumpAsWrittenPutsNone(hand: seq<Card>, nine: Card)
    requires nine in hand
    ensures None in SwitchTrumpAsWritten(hand, None, nine)
    ensures |SwitchTrumpAsWritten(hand, None, nine)| == |hand|
  {
    RemoveFirstMeaning(hand, nine);
    var r := SwitchTrumpAsWritten(hand, None, nine);
    assert r[|r| - 1] == None;
  }

  /** Closing ends the first phase and marks the round closed; no card moves and no score changes. */
  lemma CloseGameRules(e: EngineState)
    ensures var c := CloseGame(e);
      && !c.firstPhase && c.gameClosed
      && c.human == e.human && c.computer == e.computer && c.deck == e.deck && c.trumpCard == e.trumpCard
      && c.currentLeader == e.currentLeader && c.trickReady == e.trickReady
  {
  }

  /** A marriage can be started exactly when the human leads; nothing else changes. */
  lemma AnnounceMarriageRules(e: EngineState)
    ensures var a := AnnounceMarriage(e);
      && a.marriagePending == (e.marriagePending || e.currentLeader == Human)
      && a == e.(marriagePending := a.marriagePending)
  {
  }

  /**
   * Switching happens exactly when the human leads, holds the nine of
   * trumps and a trump card is face up; then the nine is face up, the
   * first nine leaves the hand and the old trump card is appended at its
   * end, and nothing else changes (the trump suit included).
   */
  lemma SwitchTrumpRules(e: EngineState)
    ensures var s := SwitchTrump(e);
      var nine := Card(Nine, e.trumpSuit);
      var switched := e.currentLeader == Human && nine in e.human.hand && e.trumpCard.Some?;
      && |s.human.hand| == |e.human.hand|
      && (switched ==>
           && s.trumpCard == Some(nine)
           && s.human.hand == RemoveFirst(e.human.hand, nine) + [e.trumpCard.value]
           && multiset(s.human.hand) == multiset(e.human.hand) - multiset{nine} + multiset{e.trumpCard.value}
           && s.trumpSuit == e.trumpSuit
           && s.human == e.human.(hand := s.human.hand)
           && s == e.(human := s.human, trumpCard := s.trumpCard))
      && (!switched ==> s == e)
  {
    var nine := Card(Nine, e.trumpSuit);
    if e.currentLeader == Human && nine in e.human.hand && e.trumpCard.Some? {
      RemoveFirstMeaning(e.human.hand, nine);
    }
  }

  /** Switching moves no card in or out of the game, and the face-up card stays a trump. */
  lemma SwitchTrumpConserves(e: EngineState)
    ensures AllCards(SwitchTrump(e)) == AllCards(e)
    ensures Consistent(e) ==> Consistent(SwitchTrump(e))
  {
    var s := SwitchTrump(e);
    var nine := Card(Nine, e.trumpSuit);
    if s != e {
      SwappedCard(e.human, nine, e.trumpCard.value);
      BagSwap(multiset(e.deck), SideCards(e.human), SideCards(s.human), SideCards(e.computer),
              multiset{nine}, multiset{e.trumpCard.value});
    }
  }

  /** Swapping a card of the hand for another changes the side's cards by exactly that swap. */
  lemma SwappedCard(st: SideState, out: Card, into: Card)
    requires out in st.hand
    ensures SideCards(st.(hand := RemoveFirst(st.hand, out) + [into])) + multiset{out} == SideCards(st) + multiset{into}
  {
    RemoveFirstBag(st.hand, out);
  }

  /** Multiset bookkeeping of a swap between the table and one side's cards. */
  lemma BagSwap<T>(deck: multiset<T>, side: multiset<T>, side': multiset<T>, other: multiset<T>,
                   out: multiset<T>, into: multiset<T>)
    requires side' + out == side + into
    ensures deck + out + side' + other == deck + into + side + other
  {
    forall x ensures (deck + out + side' + other)[x] == (deck + into + side + other)[x] {
      assert (side' + out)[x] == (side + into)[x];
    }
  }

  // ---------------------------------------------------------------------------
  // draw_cards
  // ---------------------------------------------------------------------------

  /** The stock, the trump slot and the two sides of one draw, the winner's side first. */
  datatype DrawTable = DrawTable(deck: seq<Card>, trumpCard: Option<Card>, winner: SideState, loser: SideState)

  /** The cards of a draw table. */
  function TableCards(t: DrawTable): multiset<Card>
  {
    multiset(t.deck) + OptBag(t.trumpCard) + SideCards(t.winner) + SideCards(t.loser)
  }

  /**
   * The body of `draw_cards` for a non-empty stock: the winner takes the
   * top (last) card; if that was the last one the loser takes the face-up
   * trump and the winner scores 10, otherwise the loser takes the next one.
   */
  function DrawFrom(t: DrawTable): DrawTable
    requires t.deck != []
  {
    var n, w, l := |t.deck|, t.winner, t.loser;
    var w1 := w.(hand := w.hand + [t.deck[n - 1]]);
    if n == 1 && t.trumpCard.Some? then
      DrawTable([], None, w1.(roundPoints := w1.roundPoints + 10), l.(hand := l.hand + [t.trumpCard.value]))
    else if n >= 2 then
      DrawTable(t.deck[..n - 2], t.trumpCard, w1, l.(hand := l.hand + [t.deck[n - 2]]))
    else
      DrawTable([], t.trumpCard, w1, l)
  }

  /** The engine state with `mine` as `side`'s cards and `theirs` as the other side's. */
  function WithSides(e: EngineState, side: Side, mine: SideState, theirs: SideState): EngineState
  {
    if side == Human then e.(human := mine, computer := theirs) else e.(human := theirs, computer := mine)
  }

  /** The stock, the trump slot and the two sides, `side` first. */
  function TableOf(e: EngineState, side: Side): DrawTable
  {
    DrawTable(e.deck, e.trumpCard, SideOf(e, side), SideOf(e, Other(side)))
  }

  /** The engine state with the table `t` put back, `side` holding `t.winner`, and the phase flag `first`. */
  function Restore(e: EngineState, side: Side, t: DrawTable, first: bool): EngineState
  {
    WithSides(e, side, t.winner, t.loser).(deck := t.deck, trumpCard := t.trumpCard, firstPhase := first)
  }

  /**
   * `draw_cards(winner)`: with a non-empty stock the winner and then the
   * loser draw (`DrawFrom`); once the stock is empty the first phase is over.
   */
  function Draw(e: EngineState, winner: Side): EngineState
  {
    if e.deck == [] then e.(firstPhase := false)
    else
      var t := DrawFrom(TableOf(e, winner));
      Restore(e, winner, t, t.deck != [] && e.firstPhase)
  }

  /**
   * Who draws what: the winner draws first and takes the top card, the
   * loser the next one or, when the stock runs out, the face-up trump (and
   * the winner then scores 10); only hands, the stock, the trump slot and
   * that bonus change.
   */
  lemma DrawFromRules(t: DrawTable)
    requires t.deck != []
    ensures var d, n, w, l := DrawFrom(t), |t.deck|, t.winner, t.loser;
      && (n >= 2 ==>
           && d.winner.hand == w.hand + [t.deck[n - 1]] && d.loser.hand == l.hand + [t.deck[n - 2]]
           && d.deck == t.deck[..n - 2] && d.trumpCard == t.trumpCard && d.winner.roundPoints == w.roundPoints)
      && (n == 1 && t.trumpCard.Some? ==>
           && d.winner.hand == w.hand + [t.deck[0]] && d.loser.hand == l.hand + [t.trumpCard.value]
           && d.deck == [] && d.trumpCard == None && d.winner.roundPoints == w.roundPoints + 10)
      && (n == 1 && t.trumpCard.None? ==>
           && d.winner.hand == w.hand + [t.deck[0]] && d.loser.hand == l.hand
           && d.deck == [] && d.trumpCard == None && d.winner.roundPoints == w.roundPoints)
      && d.winner == w.(hand := d.winner.hand, roundPoints := d.winner.roundPoints)
      && d.loser == l.(hand := d.loser.hand)
  {
  }

  /** Drawing moves cards from the stock and the trump slot into the hands and makes or loses none. */
  lemma DrawFromConserves(t: DrawTable)
    requires t.deck != []
    ensures TableCards(DrawFrom(t)) == TableCards(t)
  {
    if |t.deck| >= 2 {
      DrawTwoConserves(t);
    } else {
      DrawLastConserves(t);
    }
  }

  /** From a stock of two or more, the top two cards go to the two hands. */
  lemma DrawTwoConserves(t: DrawTable)
    requires |t.deck| >= 2
    ensures TableCards(DrawFrom(t)) == TableCards(t)
  {
    var n, d := |t.deck|, DrawFrom(t);
    var top, next := t.deck[n - 1], t.deck[n - 2];
    assert t.deck == t.deck[..n - 2] + [next] + [top];
    DrawnCard(t.winner, top);
    DrawnCard(t.loser, next);
    BagMoves(multiset(t.deck), OptBag(t.trumpCard), SideCards(t.winner), SideCards(t.loser),
             multiset(d.deck), OptBag(d.trumpCard), SideCards(d.winner), SideCards(d.loser), multiset{top}, multiset{next});
  }

  /** The last card of the stock goes to the winner and the face-up trump, if any, to the loser. */
  lemma DrawLastConserves(t: DrawTable)
    requires |t.deck| == 1
    ensures TableCards(DrawFrom(t)) == TableCards(t)
  {
    if t.trumpCard.Some? {
      DrawLastWithTrump(t);
    } else {
      DrawLastWithoutTrump(t);
    }
  }

  /** The last card goes to the winner and the face-up trump to the loser. */
  lemma DrawLastWithTrump(t: DrawTable)
    requires |t.deck| == 1 && t.trumpCard.Some?
    ensures TableCards(DrawFrom(t)) == TableCards(t)
  {
    var d, top := DrawFrom(t), t.deck[0];
    assert t.deck == [top];
    DrawnCard(t.winner, top);
    DrawnCard(t.loser, t.trumpCard.value);
    BagMoves(multiset(t.deck), OptBag(t.trumpCard), SideCards(t.winner), SideCards(t.loser),
             multiset(d.deck), OptBag(d.trumpCard), SideCards(d.winner), SideCards(d.loser), multiset{top}, OptBag(t.trumpCard));
  }

  /** The last card goes to the winner; with no face-up trump the loser draws nothing. */
  lemma DrawLastWithoutTrump(t: DrawTable)
    requires |t.deck| == 1 && t.trumpCard.None?
    ensures TableCards(DrawFrom(t)) == TableCards(t)
  {
    var d, top := DrawFrom(t), t.deck[0];
    assert t.deck == [top];
    DrawnCard(t.winner, top);
    BagMoves(multiset(t.deck), OptBag(t.trumpCard), SideCards(t.winner), SideCards(t.loser),
             multiset(d.deck), OptBag(d.trumpCard), SideCards(d.winner), SideCards(d.loser), multiset{top}, multiset{});
  }

  /** A card drawn into a hand joins that side's cards. */
  lemma DrawnCard(st: SideState, c: Card)
    ensures SideCards(st.(hand := st.hand + [c])) == SideCards(st) + multiset{c}
  {
  }

  /** Multiset bookkeeping of a draw: `a` moves from the table to one side, `b` to the other. */
  lemma BagMoves<T>(deck: multiset<T>, trump: multiset<T>, w: multiset<T>, l: multiset<T>,
                    deck': multiset<T>, trump': multiset<T>, w': multiset<T>, l': multiset<T>,
                    a: multiset<T>, b: multiset<T>)
    requires deck + trump == deck' + trump' + a + b
    requires w' == w + a && l' == l + b
    ensures deck' + trump' + w' + l' == deck + trump + w + l
  {
    forall x ensures (deck' + trump' + w' + l')[x] == (deck + trump + w + l)[x] {
      assert (deck + trump)[x] == (deck' + trump' + a + b)[x];
    }
  }

  /** The table of a state holds the state's cards. */
  lemma TableOfCards(e: EngineState, side: Side)
    ensures AllCards(e) == TableCards(TableOf(e, side))
  {
    if side == Computer {
      BagCommute(multiset(e.deck) + OptBag(e.trumpCard), SideCards(e.human), SideCards(e.computer));
    }
  }

  /** Putting a table back puts its cards back. */
  lemma RestoreCards(e: EngineState, side: Side, t: DrawTable, first: bool)
    ensures AllCards(Restore(e, side, t, first)) == TableCards(t)
  {
    if side == Computer {
      BagCommute(multiset(t.deck) + OptBag(t.trumpCard), SideCards(t.loser), SideCards(t.winner));
    }
  }

  /** The two sides' cards can be counted in either order. */
  lemma BagCommute<T>(table: multiset<T>, a: multiset<T>, b: multiset<T>)
    ensures table + a + b == table + b + a
  {
    forall x ensures (table + a + b)[x] == (table + b + a)[x] {
    }
  }

  /** `draw_cards` changes only the hands, the stock, the trump slot, the winner's points and the phase. */
  lemma DrawRules(e: EngineState, winner: Side)
    ensures var d := Draw(e, winner);
      && d.firstPhase == (e.firstPhase && d.deck != [])
      && (e.deck == [] ==> d == e.(firstPhase := false))
      && (e.deck != [] ==>
           var t := DrawFrom(TableOf(e, winner));
           && SideOf(d, winner) == t.winner && SideOf(d, Other(winner)) == t.loser
           && d.deck == t.deck && d.trumpCard == t.trumpCard)
      && d == e.(deck := d.deck, trumpCard := d.trumpCard, human := d.human, computer := d.computer, firstPhase := d.firstPhase)
  {
    if e.deck != [] {
      var t := DrawFrom(TableOf(e, winner));
      RestoreRules(e, winner, t, t.deck != [] && e.firstPhase);
    }
  }

  /** Putting a table back sets exactly the stock, the trump slot, both sides and the phase. */
  lemma RestoreRules(e: EngineState, side: Side, t: DrawTable, first: bool)
    ensures var r := Restore(e, side, t, first);
      && SideOf(r, side) == t.winner && SideOf(r, Other(side)) == t.loser
      && r == e.(deck := t.deck, trumpCard := t.trumpCard, human := r.human, computer := r.computer, firstPhase := first)
  {
  }

  /** Drawing keeps every card in the game. */
  lemma DrawConserves(e: EngineState, winner: Side)
    ensures AllCards(Draw(e, winner)) == AllCards(e)
  {
    if e.deck != [] {
      var t := TableOf(e, winner);
      var t' := DrawFrom(t);
      DrawFromConserves(t);
      TableOfCards(e, winner);
      RestoreCards(e, winner, t', t'.deck != [] && e.firstPhase);
    }
  }

  /** After a draw the face-up card, if one is left, is still a trump. */
  lemma DrawKeepsTrump(e: EngineState, winner: Side)
    ensures TrumpShown(e) ==> TrumpShown(Draw(e, winner))
  {
    if e.deck != [] {
      var t := TableOf(e, winner);
      DrawFromTrump(t);
      assert Draw(e, winner).trumpCard == DrawFrom(t).trumpCard;
    }
  }

  /** Drawing fills hands only: the play slots, the won piles, the trick counts and the turn stay. */
  lemma DrawKeepsSlots(e: EngineState, winner: Side)
    ensures var d := Draw(e, winner);
      && d.human.played == e.human.played && d.computer.played == e.computer.played
      && d.human.wonCards == e.human.wonCards && d.computer.wonCards == e.computer.wonCards
      && d.human.tricks == e.human.tricks && d.computer.tricks == e.computer.tricks
      && d.trickReady == e.trickReady && d.currentLeader == e.currentLeader
  {
    DrawRules(e, winner);
    if e.deck != [] {
      DrawFromRules(TableOf(e, winner));
    }
  }

  /** A draw empties the trump slot or leaves it as it was. */
  lemma DrawFromTrump(t: DrawTable)
    requires t.deck != []
    ensures DrawFrom(t).trumpCard == None || DrawFrom(t).trumpCard == t.trumpCard
  {
  }

  /** A step that keeps every card and leaves a trump (or nothing) face up keeps the state consistent. */
  lemma KeepsConsistent(e: EngineState, e': EngineState)
    requires AllCards(e') == AllCards(e)
    requires TrumpShown(e) ==> TrumpShown(e')
    ensures Consistent(e) ==> Consistent(e')
  {
  }

  /** `side`'s cards are `mine`, the other side's `theirs`; the stock and trump slot are the state's. */
  lemma WithSidesCards(e: EngineState, side: Side, mine: SideState, theirs: SideState)
    ensures AllCards(WithSides(e, side, mine, theirs)) == multiset(e.deck) + OptBag(e.trumpCard) + SideCards(mine) + SideCards(theirs)
  {
    if side == Computer {
      BagCommute(multiset(e.deck) + OptBag(e.trumpCard), SideCards(theirs), SideCards(mine));
    }
  }

  // ---------------------------------------------------------------------------
  // resolve_trick: scoring the trick
  // ---------------------------------------------------------------------------

  /** The points a trick is worth: the values of its two cards. */
  function TrickPoints(pc: Card, cc: Card): nat
  {
    CardValue(pc) + CardValue(cc)
  }

  /**
   * The first part of `resolve_trick`, for a trick with both cards on the
   * table: the winner (`determine_trick_winner`) scores both cards' values,
   * one more trick and both cards in its won pile; it leads next; both play
   * slots are emptied.
   */
  function Settle(e: EngineState): EngineState
    requires e.human.played.Some? && e.computer.played.Some?
  {
    var winner := TrickWinner(e.currentLeader, e.human.played.value, e.computer.played.value, e.trumpSuit);
    WithSides(e.(currentLeader := winner, trickReady := false), winner,
              WonTrick(SideOf(e, winner), e.human.played.value, e.computer.played.value),
              SideOf(e, Other(winner)).(played := None))
  }

  /** The side that wins a trick of `pc` and `cc`: its slot emptied, the points, the trick and both cards won. */
  function WonTrick(w: SideState, pc: Card, cc: Card): SideState
  {
    w.(played := None, roundPoints := w.roundPoints + TrickPoints(pc, cc), tricks := w.tricks + 1,
       wonCards := w.wonCards + [pc, cc])
  }

  /**
   * The winner of a settled trick is the `determine_trick_winner` side; it
   * gains exactly the trick's points, one trick and the two cards and leads
   * next; the loser only gives up its played card; stock, trump and phase
   * stay.
   */
  lemma SettleRules(e: EngineState)
    requires e.human.played.Some? && e.computer.played.Some?
    ensures var s, pc, cc := Settle(e), e.human.played.value, e.computer.played.value;
      var winner := TrickWinner(e.currentLeader, pc, cc, e.trumpSuit);
      var w, l := SideOf(e, winner), SideOf(e, Other(winner));
      && s.currentLeader == winner && !s.trickReady
      && SideOf(s, winner) == w.(played := None, roundPoints := w.roundPoints + TrickPoints(pc, cc), tricks := w.tricks + 1,
                                 wonCards := w.wonCards + [pc, cc])
      && SideOf(s, Other(winner)) == l.(played := None)
      && s.human.roundPoints + s.computer.roundPoints == e.human.roundPoints + e.computer.roundPoints + TrickPoints(pc, cc)
      && s == e.(currentLeader := winner, trickReady := false, human := s.human, computer := s.computer)
  {
  }

  /** After settling, both play slots are empty, the trick is over and the hands and the table are as they were. */
  lemma SettleEmpties(e: EngineState)
    requires e.human.played.Some? && e.computer.played.Some?
    ensures var s := Settle(e);
      && s.human.played.None? && s.computer.played.None? && !s.trickReady
      && s.human.hand == e.human.hand && s.computer.hand == e.computer.hand
      && s.trumpCard == e.trumpCard && s.trumpSuit == e.trumpSuit && s.deck == e.deck && s.firstPhase == e.firstPhase
      && s.currentLeader == TrickWinner(e.currentLeader, e.human.played.value, e.computer.played.value, e.trumpSuit)
  {
    var pc, cc := e.human.played.value, e.computer.played.value;
    var winner := TrickWinner(e.currentLeader, pc, cc, e.trumpSuit);
    WithSidesFrame(e.(currentLeader := winner, trickReady := false), winner,
                   WonTrick(SideOf(e, winner), pc, cc), SideOf(e, Other(winner)).(played := None));
  }

  /** Setting both sides changes the two sides and nothing else. */
  lemma WithSidesFrame(e: EngineState, side: Side, mine: SideState, theirs: SideState)
    ensures var r := WithSides(e, side, mine, theirs);
      && SideOf(r, side) == mine && SideOf(r, Other(side)) == theirs
      && r == e.(human := r.human, computer := r.computer)
  {
  }

  /** Settling a trick moves the two played cards to the winner's pile and makes or loses none. */
  lemma SettleConserves(e: EngineState)
    requires e.human.played.Some? && e.computer.played.Some?
    ensures AllCards(Settle(e)) == AllCards(e)
  {
    var pc, cc := e.human.played.value, e.computer.played.value;
    var winner := TrickWinner(e.currentLeader, pc, cc, e.trumpSuit);
    var w, l := SideOf(e, winner), SideOf(e, Other(winner));
    TableOfCards(e, winner);
    WithSidesCards(e.(currentLeader := winner, trickReady := false), winner, WonTrick(w, pc, cc), l.(played := None));
    TrickCards(w, l, pc, cc);
    BagReplace(multiset(e.deck) + OptBag(e.trumpCard), SideCards(w), SideCards(l),
               SideCards(WonTrick(w, pc, cc)), SideCards(l.(played := None)));
  }

  /** The two played cards leave the play slots, whichever side played which, for the winner's won pile. */
  lemma TrickCards(w: SideState, l: SideState, pc: Card, cc: Card)
    requires (w.played == Some(pc) && l.played == Some(cc)) || (w.played == Some(cc) && l.played == Some(pc))
    ensures SideCards(WonTrick(w, pc, cc)) + SideCards(l.(played := None)) == SideCards(w) + SideCards(l)
  {
    var won := w.wonCards + [pc, cc];
    assert multiset(won) == multiset(w.wonCards) + multiset{pc, cc};
    if w.played == Some(pc) {
      PlayedToPile(w, l, pc, cc, won);
    } else {
      PlayedToPile(w, l, cc, pc, won);
    }
  }

  /** Cards a (the winner's) and b (the loser's) leave the play slots and join the winner's pile. */
  lemma PlayedToPile(w: SideState, l: SideState, a: Card, b: Card, won: seq<Card>)
    requires w.played == Some(a) && l.played == Some(b)
    requires multiset(won) == multiset(w.wonCards) + multiset{a, b}
    ensures SideCards(w.(played := None, wonCards := won)) + SideCards(l.(played := None))
         == SideCards(w) + SideCards(l)
  {
    var hw, hl := multiset(w.hand), multiset(l.hand);
    var pw, pl := multiset(w.wonCards), multiset(l.wonCards);
    assert SideCards(w) == hw + multiset{a} + pw;
    assert SideCards(l) == hl + multiset{b} + pl;
    assert SideCards(w.(played := None, wonCards := won)) == hw + multiset{} + (pw + multiset{a, b});
    assert SideCards(l.(played := None)) == hl + multiset{} + pl;
    forall x ensures (hw + multiset{} + (pw + multiset{a, b}) + (hl + multiset{} + pl))[x]
                  == (hw + multiset{a} + pw + (hl + multiset{b} + pl))[x] {
    }
  }

  /** Multiset bookkeeping: replacing two parts by two others with the same sum keeps the total. */
  lemma BagReplace<T>(table: multiset<T>, a: multiset<T>, b: multiset<T>, a': multiset<T>, b': multiset<T>)
    requires a' + b' == a + b
    ensures table + a' + b' == table + a + b
  {
    forall x ensures (table + a' + b')[x] == (table + a + b)[x] {
      assert (a' + b')[x] == (a + b)[x];
    }
  }
}
