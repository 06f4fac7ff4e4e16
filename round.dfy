/**
 * The round engine of gameplay.py, class `GamePlay`, without its drawing,
 * messages and hit-testing: the fields the engine updates in place, and one
 * method per engine step. Each method leaves the engine in the state that
 * the step function of the same name in `Engine` or `Turns` computes from
 * the state before, so what is proved about those functions holds of the
 * class. The random choices (`random.shuffle`, the computer's
 * `random.choice`) and the clock (`pygame.time.get_ticks()`) are inputs;
 * calling `end_game_callback` is recorded in `gameOver`.
 */
module Round {
  import opened Wrappers
  import opened Cards
  import opened Lists
  import opened RoundRules
  import opened Engine
  import opened Turns

  /**
   * `[deck.pop() for _ in range(k)]`: the last `k` cards of `deck`, the top
   * card first, and what is left of the deck.
   */
  method PopCards(deck: seq<Card>, k: nat) returns (cards: seq<Card>, rest: seq<Card>)
    requires k <= |deck|
    ensures rest == deck[..|deck| - k]
    ensures |cards| == k && forall j :: 0 <= j < k ==> cards[j] == deck[|deck| - 1 - j]
  {
    cards, rest := [], deck;
    var i := 0;
    while i < k
      invariant i <= k
      invariant rest == deck[..|deck| - i]
      invariant |cards| == i && forall j :: 0 <= j < i ==> cards[j] == deck[|deck| - 1 - j]
    {
      cards, rest := cards + [rest[|rest| - 1]], rest[..|rest| - 1];
      i := i + 1;
    }
  }

  /** Popping three cards from the top of `deck` takes its last three, top first. */
  method PopThree(deck: seq<Card>) returns (cards: seq<Card>, rest: seq<Card>)
    requires 3 <= |deck|
    ensures var n := |deck|;
      cards == [deck[n - 1], deck[n - 2], deck[n - 3]] && rest == deck[..n - 3]
  {
    cards, rest := PopCards(deck, 3);
  }

  /**
   * The deal of gameplay.py:747-752 from the shuffled deck `d`: three cards
   * from the top to the human, three to the computer, three more to each;
   * the next card is the face-up trump and the rest is the stock.
   */
  method Deal(d: seq<Card>) returns (humanHand: seq<Card>, computerHand: seq<Card>, trump: Card, stock: seq<Card>)
    requires |d| == 24
    ensures humanHand == [d[23], d[22], d[21]] + [d[17], d[16], d[15]]
    ensures computerHand == [d[20], d[19], d[18]] + [d[14], d[13], d[12]]
    ensures trump == d[11] && stock == d[..11]
  {
    var cards, rest;
    humanHand, rest := PopThree(d);
    assert rest == d[..21];
    computerHand, rest := PopThree(rest);
    assert rest == d[..18];
    cards, rest := PopThree(rest);
    assert rest == d[..15];
    humanHand := humanHand + cards;
    cards, rest := PopThree(rest);
    assert rest == d[..12];
    computerHand := computerHand + cards;
    trump, stock := rest[11], rest[..11];
  }

  /** The deal of `d` is the state `e` with the dealt cards laid out, every round field reset and the game points kept. */
  lemma DealtState(d: seq<Card>, e: EngineState, humanHand: seq<Card>, computerHand: seq<Card>, trump: Card, stock: seq<Card>)
    requires |d| == 24
    requires humanHand == [d[23], d[22], d[21]] + [d[17], d[16], d[15]]
    requires computerHand == [d[20], d[19], d[18]] + [d[14], d[13], d[12]]
    requires trump == d[11] && stock == d[..11]
    ensures DealFrom(d, e.human.gamePoints, e.computer.gamePoints, e.gameOver)
         == e.(deck := stock, trumpCard := Some(trump), trumpSuit := trump.suit)
             .(human := NewRoundSide(humanHand, e.human.gamePoints), computer := NewRoundSide(computerHand, e.computer.gamePoints))
             .(trickReady := false, firstPhase := true, currentLeader := Human, gameClosed := false)
             .(marriagePending := false, marriageAnnouncement := None, marriageTime := 0)
  {
  }

  /**
   * One side of `draw_cards` for a non-empty stock: the winner takes the top
   * card; if that was the last one and the trump card is still face up, the
   * loser takes it and the winner scores 10; otherwise the loser takes the
   * next card, if there is one.
   */
  method DrawFromStock(t: DrawTable) returns (r: DrawTable)
    requires t.deck != []
    ensures r == DrawFrom(t)
  {
    var deck, trumpCard, w, l := t.deck, t.trumpCard, t.winner, t.loser;
    w := w.(hand := w.hand + [deck[|deck| - 1]]);
    deck := deck[..|deck| - 1];
    if deck == [] && trumpCard.Some? {
      l := l.(hand := l.hand + [trumpCard.value]);
      trumpCard := None;
      w := w.(roundPoints := w.roundPoints + 10);
    } else if deck != [] {
      l := l.(hand := l.hand + [deck[|deck| - 1]]);
      deck := deck[..|deck| - 1];
    }
    r := DrawTable(deck, trumpCard, w, l);
  }

  /**
   * The loop of gameplay.py:518-524: the first suit in the order H, D, C, S
   * whose marriage the computer has not announced and whose king and queen
   * it holds.
   */
  method FindMarriage(hand: seq<Card>, announced: set<Suit>) returns (found: Option<Suit>)
    ensures found == FirstMarriage(hand, announced, 0)
    ensures found.Some? ==> MarriageAvailable(hand, announced, found.value)
    ensures found.None? <==> forall s: Suit :: !MarriageAvailable(hand, announced, s)
  {
    FirstMarriageMeaning(hand, announced);
    var k := 0;
    while k < |Suits|
      invariant k <= |Suits|
      invariant FirstMarriage(hand, announced, 0) == FirstMarriage(hand, announced, k)
    {
      var suit := Suits[k];
      if suit !in announced && Card(King, suit) in hand && Card(Queen, suit) in hand {
        return Some(suit);
      }
      k := k + 1;
    }
    return None;
  }

  class GamePlay {
    var deck: seq<Card>
    var trumpCard: Option<Card>
    var trumpSuit: Suit
    var human: SideState
    var computer: SideState
    var trickReady: bool
    var firstPhase: bool
    var currentLeader: Side
    var marriagePending: bool
    var marriageAnnouncement: Option<(Card, Card)>
    var marriageTime: int
    var gameClosed: bool
    var gameOver: bool

    /** The engine's fields as one value. */
    function State(): EngineState
      reads this
    {
      EngineState(deck, trumpCard, trumpSuit, human, computer, trickReady, firstPhase, currentLeader,
                  marriagePending, marriageAnnouncement, marriageTime, gameClosed, gameOver)
    }

    /** `GamePlay.__init__`: no game points yet, and a first round dealt from the shuffle `picks`. */
    constructor (picks: seq<nat>)
      ensures State() == Initial(picks)
    {
      human := NewRoundSide([], 0);
      computer := NewRoundSide([], 0);
      gameOver := false;
      new;
      DealRound(ShuffledFreshDeck(picks));
    }

    /** `reset_round`: a new round dealt from a fresh deck shuffled by `picks`; game points are kept. */
    method ResetRound(picks: seq<nat>)
      modifies this
      ensures State() == NewRound(old(State()), picks)
    {
      DealRound(ShuffledFreshDeck(picks));
    }

    /**
     * The deal shared by `__init__` and `reset_round` from the shuffled deck
     * `d`: three cards from the top to the human, three to the computer,
     * three more to each, the next card face up as trump (the deck still
     * holds twelve cards here, so the `None` branch is never taken), and
     * every round field reset.
     */
    method DealRound(d: seq<Card>)
      requires |d| == 24
      modifies this
      ensures State() == DealFrom(d, old(human.gamePoints), old(computer.gamePoints), old(gameOver))
    {
      var humanHand, computerHand, trump, stock := Deal(d);
      DealtState(d, State(), humanHand, computerHand, trump, stock);
      deck, trumpCard, trumpSuit := stock, Some(trump), trump.suit;
      LayHands(humanHand, computerHand);
      ResetTurn();
    }

    /** The dealt hands laid out, everything else of both sides reset but the game points. */
    method LayHands(humanHand: seq<Card>, computerHand: seq<Card>)
      modifies this
      ensures State() == old(State()).(human := NewRoundSide(humanHand, old(human.gamePoints)),
                                       computer := NewRoundSide(computerHand, old(computer.gamePoints)))
    {
      human, computer := NewRoundSide(humanHand, human.gamePoints), NewRoundSide(computerHand, computer.gamePoints);
    }

    /** The round flags of a new round, as `ResetTrick` and `ClearMarriage` leave them. */
    method ResetTurn()
      modifies this
      ensures State() == old(State()).(trickReady := false, firstPhase := true, currentLeader := Human, gameClosed := false)
                                      .(marriagePending := false, marriageAnnouncement := None, marriageTime := 0)
    {
      ResetTrick();
      ClearMarriage();
    }

    /** First phase, the human to lead, no trick on the table, not closed. */
    method ResetTrick()
      modifies this
      ensures State() == old(State()).(trickReady := false, firstPhase := true, currentLeader := Human, gameClosed := false)
    {
      trickReady, firstPhase, currentLeader := false, true, Human;
      gameClosed := false;
    }

    /** No marriage pending or on show. */
    method ClearMarriage()
      modifies this
      ensures State() == old(State()).(marriagePending := false, marriageAnnouncement := None, marriageTime := 0)
    {
      marriagePending, marriageAnnouncement, marriageTime := false, None, 0;
    }

    /** `close_game`: drawing stops and the human is marked as having closed. */
    method CloseGame()
      modifies this
      ensures State() == Engine.CloseGame(old(State()))
    {
      firstPhase := false;
      gameClosed := true;
    }

    /** `announce_marriage`: only the leading human may start one; the next clicked card is the selection. */
    method AnnounceMarriage()
      modifies this
      ensures State() == Engine.AnnounceMarriage(old(State()))
    {
      if currentLeader != Human {
        return;
      }
      marriagePending := true;
    }

    /**
     * `switch_trump`, corrected: the leading human who holds the nine of
     * trumps exchanges it for the face-up trump card, when there still is
     * one.
     */
    method SwitchTrump()
      modifies this
      ensures State() == Engine.SwitchTrump(old(State()))
    {
      if currentLeader != Human {
        return;
      }
      var nine := Card(Nine, trumpSuit);
      if nine in human.hand && trumpCard.Some? {
        human := human.(hand := RemoveFirst(human.hand, nine) + [trumpCard.value]);
        trumpCard := Some(nine);
      }
    }

    /**
     * `draw_cards(trick_winner)`: with cards in the stock the winner and
     * then the loser draw (`DrawFromStock`); once the stock is empty the
     * first phase is over.
     */
    method DrawCards(winner: Side)
      modifies this
      ensures State() == Draw(old(State()), winner)
    {
      if deck == [] {
        firstPhase := false;
        return;
      }
      var t := DrawFromStock(TableOf(State(), winner));
      SetSides(winner, t.winner, t.loser);
      deck, trumpCard := t.deck, t.trumpCard;
      if deck == [] {
        firstPhase := false;
      }
    }

    /** `side`'s cards become `mine` and the other side's `theirs`. */
    method SetSides(side: Side, mine: SideState, theirs: SideState)
      modifies this
      ensures State() == WithSides(old(State()), side, mine, theirs)
    {
      if side == Human {
        human, computer := mine, theirs;
      } else {
        human, computer := theirs, mine;
      }
    }

    /**
     * The scoring part of `resolve_trick` for a trick with both cards on
     * the table: the `determine_trick_winner` side leads next and scores
     * the trick (`WonTrick`: the two cards' values, one trick, both cards
     * kept); both play slots are emptied.
     */
    method SettleTrick()
      requires human.played.Some? && computer.played.Some?
      modifies this
      ensures State() == Settle(old(State()))
    {
      var pc, cc := human.played.value, computer.played.value;
      var winner := TrickWinner(currentLeader, pc, cc, trumpSuit);
      var w, l := SideOf(State(), winner), SideOf(State(), Other(winner));
      currentLeader, trickReady := winner, false;
      SetSides(winner, WonTrick(w, pc, cc), l.(played := None));
    }

    /**
     * `check_round_end`: nothing happens while a hand holds a card; then the
     * round's award (`RoundAward`) goes to the game points and the closed
     * flag is cleared, and either the match is over (`end_game_callback`)
     * or a new round is dealt from a deck shuffled by `picks`.
     */
    method CheckRoundEnd(picks: seq<nat>)
      modifies this
      ensures State() == Turns.CheckRoundEnd(old(State()), picks)
    {
      if |human.hand| > 0 || |computer.hand| > 0 {
        return;
      }
      ScoreRound();
      if MatchOver(human.gamePoints, computer.gamePoints) {
        gameOver := true;
      } else {
        ResetRound(picks);
      }
    }

    /** The finished round's award (`RoundAward`) goes to the game points, and the closed flag is cleared. */
    method ScoreRound()
      modifies this
      ensures State() == Scored(old(State()))
    {
      var award := RoundAward(gameClosed, human.roundPoints, computer.roundPoints, human.tricks, computer.tricks);
      human, computer, gameClosed :=
        human.(gamePoints := human.gamePoints + award.0), computer.(gamePoints := computer.gamePoints + award.1), false;
    }

    /**
     * `computer_lead`, corrected: the announcement bookkeeping
     * (`RecordExpired`, `AnnounceOwn`) and then, in every case, the lead
     * (`LeadCard`).
     */
    method ComputerLead(now: int, pick: nat)
      modifies this
      ensures State() == Turns.ComputerLead(old(State()), now, pick)
    {
      RecordExpired(now);
      AnnounceOwn(now);
      LeadCard(pick);
    }

    /** An announcement whose three seconds are over is recorded among the computer's suits and cleared. */
    method RecordExpired(now: int)
      modifies this
      ensures State() == Expire(old(State()), now)
    {
      if marriageAnnouncement.Some? && now - marriageTime >= MarriageShowMs {
        computer := computer.(marriages := computer.marriages + {marriageAnnouncement.value.0.suit});
        marriageAnnouncement := None;
      }
    }

    /** With no announcement up, the computer announces its first available marriage (`FindMarriage`) for its bonus. */
    method AnnounceOwn(now: int)
      modifies this
      ensures var m := ComputerMarriage(old(State()));
        State() == if m.Some? then Announce(old(State()), m.value, now) else old(State())
    {
      if marriageAnnouncement.None? {
        var found := FindMarriage(computer.hand, computer.marriages);
        if found.Some? {
          var suit := found.value;
          marriageAnnouncement, marriageTime := Some((Card(King, suit), Card(Queen, suit))), now;
          computer := computer.(roundPoints := computer.roundPoints + MarriageBonus(suit, trumpSuit));
        }
      }
    }

    /** The computer puts its move (`ComputerMove`) into the trick, out of its hand, and leads it. */
    method LeadCard(pick: nat)
      modifies this
      ensures State() == ComputerPlays(old(State()), pick)
    {
      var move := ComputerMove(computer.hand, trumpSuit, pick);
      computer := computer.(played := move.0, hand := move.1);
      currentLeader, trickReady := Computer, false;
    }

    /** `player_lead(i)`: the human leads card `i` and the computer answers with its move. */
    method PlayerLead(i: nat, pick: nat)
      requires i < |human.hand|
      modifies this
      ensures State() == Turns.PlayerLead(old(State()), i, pick)
    {
      human, trickReady := human.(played := Some(human.hand[i]), hand := RemoveAt(human.hand, i)), true;
      var move := ComputerMove(computer.hand, trumpSuit, pick);
      computer, currentLeader := computer.(played := move.0, hand := move.1), Human;
    }

    /** `player_follow(i)`: the human answers the computer's card with card `i`. */
    method PlayerFollow(i: nat)
      requires i < |human.hand|
      modifies this
      ensures State() == Turns.PlayerFollow(old(State()), i)
    {
      human := human.(played := Some(human.hand[i]), hand := RemoveAt(human.hand, i));
      trickReady := true;
    }

    /**
     * A click on the human's card `i` in `handle_event` (no card was hit
     * when `i` is past the hand): ignored while a trick waits for End
     * Trick; a pending marriage takes the card as its selection and is
     * announced or cancelled; a card the follow rule refuses is refused;
     * otherwise the human leads or follows with it.
     */
    method ClickCard(i: nat, now: int, pick: nat)
      modifies this
      ensures State() == Turns.ClickCard(old(State()), i, now, pick)
    {
      if trickReady || i >= |human.hand| {
        return;
      }
      if marriagePending {
        SelectMarriage(i, now);
        return;
      }
      var allowed := AllowedSuit(firstPhase, currentLeader, computer.played);
      if !HumanMoveValid(human.hand, human.hand[i], firstPhase, allowed, trumpSuit) {
        return;
      }
      if currentLeader == Human {
        PlayerLead(i, pick);
      } else {
        PlayerFollow(i);
      }
    }

    /**
     * A click on card `i` while a marriage is pending: announced, for its
     * points and from time `now`, when `HumanMarriage` accepts the card as
     * half of an unannounced marriage in the hand, and otherwise cancelled.
     */
    method SelectMarriage(i: nat, now: int)
      requires i < |human.hand|
      modifies this
      ensures State() == MarriageClick(old(State()), i, now)
    {
      var m := HumanMarriage(human.hand, human.hand[i], human.marriages, trumpSuit);
      if m.Cancelled? {
        marriagePending := false;
      } else {
        marriageAnnouncement, marriageTime, marriagePending := Some((m.selected, m.partner)), now, false;
        human := human.(marriages := human.marriages + {m.selected.suit}, roundPoints := human.roundPoints + m.points);
      }
    }

    /**
     * `resolve_trick`: an empty play slot raises `TypeError` in
     * `determine_trick_winner` before anything changes; otherwise the trick
     * is settled, the winner and then the loser draw while the first phase
     * lasts, the round may end, and a computer that is to lead leads.
     */
    method ResolveTrick(picks: seq<nat>, now: int, pick: nat) returns (outcome: Outcome)
      modifies this
      ensures (outcome, State()) == Turns.ResolveTrick(old(State()), picks, now, pick)
    {
      if human.played.None? || computer.played.None? {
        return Raised(TypeError);
      }
      SettleTrick();
      if firstPhase {
        DrawCards(currentLeader);
      }
      CheckRoundEnd(picks);
      if currentLeader == Computer {
        ComputerLead(now, pick);
      }
      return Done;
    }

    /** The End Trick button of `handle_event`: a ready trick is resolved, otherwise nothing happens. */
    method EndTrick(picks: seq<nat>, now: int, pick: nat) returns (outcome: Outcome)
      modifies this
      ensures (outcome, State()) == Turns.EndTrick(old(State()), picks, now, pick)
    {
      if !trickReady {
        return Done;
      }
      outcome := ResolveTrick(picks, now, pick);
    }
  }
}
