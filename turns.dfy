/**
 * The turns of gameplay.py as step functions on `EngineState`: the end of a
 * round (`check_round_end`), the computer's lead (`computer_lead`), the
 * human's card (`player_lead`, `player_follow` and the card click of
 * `handle_event`) and the end of a trick (`resolve_trick` behind the End
 * Trick button).
 */
module Turns {
  import opened Wrappers
  import opened Cards
  import opened Lists
  import opened RoundRules
  import opened Engine

  // ---------------------------------------------------------------------------
  // check_round_end
  // ---------------------------------------------------------------------------

  /** A round is over once both hands are empty. */
  predicate RoundOver(e: EngineState)
  {
    e.human.hand == [] && e.computer.hand == []
  }

  /** The finished round's award added to both sides' game points; the closed flag is cleared. */
  function Scored(e: EngineState): EngineState
  {
    var award := RoundAward(e.gameClosed, e.human.roundPoints, e.computer.roundPoints, e.human.tricks, e.computer.tricks);
    e.(human := e.human.(gamePoints := e.human.gamePoints + award.0),
       computer := e.computer.(gamePoints := e.computer.gamePoints + award.1),
       gameClosed := false)
  }

  /**
   * `check_round_end`: nothing happens while a hand holds a card; then the
   * round is scored, and either the match is over (`end_game_callback`,
   * here the `gameOver` flag) or a new round is dealt from a deck shuffled
   * by `picks` (`reset_round`).
   */
  function CheckRoundEnd(e: EngineState, picks: seq<nat>): EngineState
  {
    if !RoundOver(e) then e
    else
      var s := Scored(e);
      if MatchOver(s.human.gamePoints, s.computer.gamePoints) then s.(gameOver := true) else NewRound(s, picks)
  }

  /**
   * A round still in play is left alone. A finished one adds the round's
   * award (`RoundAward`) to the game points and clears the closed flag, and
   * the match is then over exactly when a side has 11.
   */
  lemma CheckRoundEndScores(e: EngineState, picks: seq<nat>)
    ensures !RoundOver(e) ==> CheckRoundEnd(e, picks) == e
    ensures RoundOver(e) ==>
      var r := CheckRoundEnd(e, picks);
      var award := RoundAward(e.gameClosed, e.human.roundPoints, e.computer.roundPoints, e.human.tricks, e.computer.tricks);
      var hg, cg := e.human.gamePoints + award.0, e.computer.gamePoints + award.1;
      && r.human.gamePoints == hg && r.computer.gamePoints == cg && !r.gameClosed
      && r.gameOver == (e.gameOver || MatchOver(hg, cg))
  {
    var s := Scored(e);
    if RoundOver(e) && !MatchOver(s.human.gamePoints, s.computer.gamePoints) {
      NewRoundDeals(s, picks);
    }
  }

  /** When the match is over the table stays as it is: only the game points and the two flags change. */
  lemma CheckRoundEndMatchOver(e: EngineState, picks: seq<nat>)
    requires RoundOver(e)
    requires var s := Scored(e); MatchOver(s.human.gamePoints, s.computer.gamePoints)
    ensures var r := CheckRoundEnd(e, picks);
      r == e.(human := e.human.(gamePoints := r.human.gamePoints), computer := e.computer.(gamePoints := r.computer.gamePoints),
              gameClosed := false, gameOver := true)
  {
  }

  /**
   * Otherwise a new round is dealt: all 24 cards, six to each hand and
   * eleven to the stock, no round points and no tricks, the human to lead
   * in the first phase.
   */
  lemma CheckRoundEndDeals(e: EngineState, picks: seq<nat>)
    requires RoundOver(e)
    requires var s := Scored(e); !MatchOver(s.human.gamePoints, s.computer.gamePoints)
    ensures var r := CheckRoundEnd(e, picks);
      && AllCards(r) == multiset(FullDeck())
      && |r.human.hand| == 6 && |r.computer.hand| == 6 && |r.deck| == 11
      && r.human.roundPoints == 0 && r.computer.roundPoints == 0 && r.human.tricks == 0 && r.computer.tricks == 0
      && r.firstPhase && r.currentLeader == Human && !r.trickReady && r.trumpCard.Some?
  {
    NewRoundDeals(Scored(e), picks);
  }

  /** Ending a round keeps the cards consistent, and empty play slots stay empty. */
  lemma CheckRoundEndConserves(e: EngineState, picks: seq<nat>)
    ensures Consistent(e) ==> Consistent(CheckRoundEnd(e, picks))
    ensures var r := CheckRoundEnd(e, picks);
      && (e.human.played.None? && e.computer.played.None? ==> r.human.played.None? && r.computer.played.None?)
      && (!e.trickReady ==> !r.trickReady)
  {
    var s := Scored(e);
    if RoundOver(e) && !MatchOver(s.human.gamePoints, s.computer.gamePoints) {
      NewRoundDeals(s, picks);
    } else {
      KeepsConsistent(e, CheckRoundEnd(e, picks));
    }
  }

  // ---------------------------------------------------------------------------
  // computer_lead
  // ---------------------------------------------------------------------------

  /** How long, in milliseconds, an announced marriage is shown. */
  const MarriageShowMs: int := 3000

  /** An announcement is still on display at time `now`. */
  predicate Showing(e: EngineState, now: int)
  {
    e.marriageAnnouncement.Some? && now - e.marriageTime < MarriageShowMs
  }

  /**
   * An announcement whose display is over is recorded among the computer's
   * announced suits (whichever side announced it) and cleared.
   */
  function Expire(e: EngineState, now: int): EngineState
  {
    if e.marriageAnnouncement.Some? && !Showing(e, now) then
      e.(computer := e.computer.(marriages := e.computer.marriages + {e.marriageAnnouncement.value.0.suit}),
         marriageAnnouncement := None)
    else e
  }

  /** The computer's marriage search: with no announcement up, the first available suit in H, D, C, S. */
  function ComputerMarriage(e: EngineState): Option<Suit>
  {
    if e.marriageAnnouncement.Some? then None else FirstMarriage(e.computer.hand, e.computer.marriages, 0)
  }

  /** The computer announces its marriage in suit `s`: king and queen shown from `now`, the bonus scored. */
  function Announce(e: EngineState, s: Suit, now: int): EngineState
  {
    e.(marriageAnnouncement := Some((Card(King, s), Card(Queen, s))), marriageTime := now,
       computer := e.computer.(roundPoints := e.computer.roundPoints + MarriageBonus(s, e.trumpSuit)))
  }

  /** The computer's side with its move played from its hand: the corrected `ComputerMove`, where the card leaves the hand. */
  function Answered(st: SideState, trump: Suit, pick: nat): SideState
  {
    var move := ComputerMove(st.hand, trump, pick);
    st.(played := move.0, hand := move.1)
  }

  /** The computer puts a card (`ComputerMove`) into the trick and leads it. */
  function ComputerPlays(e: EngineState, pick: nat): EngineState
  {
    e.(computer := Answered(e.computer, e.trumpSuit, pick), currentLeader := Computer, trickReady := false)
  }

  /**
   * The announcement bookkeeping at the start of `computer_lead`: an
   * expired announcement is recorded and cleared, then with none up the
   * computer announces its first available marriage.
   */
  function Bookkeeping(e: EngineState, now: int): EngineState
  {
    var x := Expire(e, now);
    var m := ComputerMarriage(x);
    if m.Some? then Announce(x, m.value, now) else x
  }

  /**
   * `computer_lead` with its two early returns as written: while an
   * announcement is shown it returns, and after announcing its own marriage
   * it returns too; only otherwise does the computer play a card. That play
   * itself is the corrected `ComputerPlays`, whose card leaves the hand.
   */
  function ComputerLeadAsWritten(e: EngineState, now: int, pick: nat): EngineState
  {
    if Showing(e, now) then e
    else
      var x := Expire(e, now);
      var m := ComputerMarriage(x);
      if m.Some? then Announce(x, m.value, now) else ComputerPlays(x, pick)
  }

  /**
   * `computer_lead`, corrected: the same announcement bookkeeping, after
   * which the computer leads a card in every case, since no later step
   * makes it lead.
   */
  function ComputerLead(e: EngineState, now: int, pick: nat): EngineState
  {
    ComputerPlays(Bookkeeping(e, now), pick)
  }

  /**
   * As written, a computer that is to lead while an announcement is shown,
   * or that can announce a marriage, leaves its play slot empty and the
   * turn unchanged.
   */
  lemma ComputerLeadAsWrittenStalls(e: EngineState, now: int, pick: nat)
    requires Showing(e, now) || ComputerMarriage(Expire(e, now)).Some?
    ensures var r := ComputerLeadAsWritten(e, now, pick);
      && r.computer.played == e.computer.played && r.computer.hand == e.computer.hand
      && r.currentLeader == e.currentLeader && r.trickReady == e.trickReady && r.human == e.human
  {
    if !Showing(e, now) {
      var x := Expire(e, now);
      ExpireFrame(e, now);
      AnnounceFrame(x, ComputerMarriage(x).value, now);
    }
  }

  /** The bookkeeping touches only the announcement, its time, and the computer's suits and points. */
  lemma BookkeepingFrame(e: EngineState, now: int)
    ensures var b := Bookkeeping(e, now);
      b == e.(computer := e.computer.(marriages := b.computer.marriages, roundPoints := b.computer.roundPoints),
              marriageAnnouncement := b.marriageAnnouncement, marriageTime := b.marriageTime)
  {
    var x := Expire(e, now);
    ExpireFrame(e, now);
    var m := ComputerMarriage(x);
    if m.Some? {
      AnnounceFrame(x, m.value, now);
    }
  }

  /** Expiring an announcement touches only the announcement and the computer's suits. */
  lemma ExpireFrame(e: EngineState, now: int)
    ensures var x := Expire(e, now);
      x == e.(computer := e.computer.(marriages := x.computer.marriages), marriageAnnouncement := x.marriageAnnouncement)
  {
  }

  /** Announcing touches only the announcement, its time and the computer's points. */
  lemma AnnounceFrame(e: EngineState, s: Suit, now: int)
    ensures var a := Announce(e, s, now);
      a == e.(computer := e.computer.(roundPoints := a.computer.roundPoints),
              marriageAnnouncement := a.marriageAnnouncement, marriageTime := a.marriageTime)
  {
  }

  /**
   * The marriage part of the computer's lead: nothing is announced while an
   * announcement is shown; an expired one is recorded and cleared; then the
   * first available suit in H, D, C, S order, if any, is announced for its
   * 20 or 40 points.
   */
  lemma ComputerLeadMarriage(e: EngineState, now: int, pick: nat)
    ensures var r, x := ComputerLead(e, now, pick), Expire(e, now);
      var m := ComputerMarriage(x);
      && (Showing(e, now) ==>
           && m.None? && r.marriageAnnouncement == e.marriageAnnouncement
           && r.computer.marriages == e.computer.marriages && r.computer.roundPoints == e.computer.roundPoints)
      && (e.marriageAnnouncement.Some? && !Showing(e, now) ==>
           r.computer.marriages == e.computer.marriages + {e.marriageAnnouncement.value.0.suit})
      && (e.marriageAnnouncement.None? ==> r.computer.marriages == e.computer.marriages)
      && (!Showing(e, now) ==> m == FirstMarriage(e.computer.hand, x.computer.marriages, 0))
      && (m.Some? ==>
           && MarriageAvailable(e.computer.hand, x.computer.marriages, m.value)
           && r.marriageAnnouncement == Some((Card(King, m.value), Card(Queen, m.value))) && r.marriageTime == now
           && r.computer.roundPoints == e.computer.roundPoints + MarriageBonus(m.value, e.trumpSuit))
      && (m.None? ==>
           && r.computer.roundPoints == e.computer.roundPoints && r.marriageTime == e.marriageTime
           && r.marriageAnnouncement == x.marriageAnnouncement)
  {
    var x := Expire(e, now);
    if ComputerMarriage(x).Some? {
      FirstMarriageMeaning(x.computer.hand, x.computer.marriages);
    }
  }

  /**
   * The card part: the computer always ends up leading, with a card of its
   * hand taken out of it whenever it holds one; the human, the table and
   * the other flags are untouched.
   */
  lemma ComputerLeadPlays(e: EngineState, now: int, pick: nat)
    ensures var r := ComputerLead(e, now, pick);
      && r.currentLeader == Computer && !r.trickReady
      && (r.computer.played.Some? <==> e.computer.hand != [])
      && (r.computer.played.Some? ==>
           && r.computer.played.value in e.computer.hand && |r.computer.hand| == |e.computer.hand| - 1
           && multiset(r.computer.hand) + multiset{r.computer.played.value} == multiset(e.computer.hand))
      && r.computer.wonCards == e.computer.wonCards && r.computer.tricks == e.computer.tricks
      && r == e.(computer := r.computer, currentLeader := Computer, trickReady := false,
                 marriageAnnouncement := r.marriageAnnouncement, marriageTime := r.marriageTime)
  {
    BookkeepingFrame(e, now);
    var b := Bookkeeping(e, now);
    AnsweredRules(b.computer, b.trumpSuit, pick);
  }

  /** The computer's lead, into an empty slot, makes or loses no card. */
  lemma ComputerLeadConserves(e: EngineState, now: int, pick: nat)
    requires e.computer.played.None?
    ensures AllCards(ComputerLead(e, now, pick)) == AllCards(e)
    ensures TrumpShown(ComputerLead(e, now, pick)) == TrumpShown(e)
  {
    BookkeepingFrame(e, now);
    var b := Bookkeeping(e, now);
    SlotFilled(b.computer, b.trumpSuit, pick);
  }

  /** A side playing its computer move into an empty slot keeps its cards. */
  lemma SlotFilled(st: SideState, trump: Suit, pick: nat)
    requires st.played.None?
    ensures SideCards(Answered(st, trump, pick)) == SideCards(st)
  {
    ComputerMoveConserves(st.hand, trump, pick);
  }

  /**
   * The computer's side once it has played its move: a card of its hand
   * leaves the hand for the play slot whenever it holds one; nothing else
   * of the side changes.
   */
  lemma AnsweredRules(st: SideState, trump: Suit, pick: nat)
    ensures var a := Answered(st, trump, pick);
      && (a.played.Some? <==> st.hand != [])
      && (a.played.Some? ==>
           && a.played.value in st.hand && |a.hand| == |st.hand| - 1
           && multiset(a.hand) + multiset{a.played.value} == multiset(st.hand))
      && (a.played.None? ==> a.hand == st.hand)
      && a == st.(played := a.played, hand := a.hand)
  {
    ComputerMoveConserves(st.hand, trump, pick);
  }

  // ---------------------------------------------------------------------------
  // player_lead, player_follow
  // ---------------------------------------------------------------------------

  /** The human's card `i` leaves the hand for the play slot and the trick waits for End Trick. */
  function HumanPlays(e: EngineState, i: nat): EngineState
    requires i < |e.human.hand|
  {
    e.(human := e.human.(played := Some(e.human.hand[i]), hand := RemoveAt(e.human.hand, i)), trickReady := true)
  }

  /** `player_lead(i)`: the human leads card `i` and the computer answers with its move. */
  function PlayerLead(e: EngineState, i: nat, pick: nat): EngineState
    requires i < |e.human.hand|
  {
    HumanPlays(e, i).(computer := Answered(e.computer, e.trumpSuit, pick), currentLeader := Human)
  }

  /** `player_follow(i)`: the human answers the computer's card with card `i`. */
  function PlayerFollow(e: EngineState, i: nat): EngineState
    requires i < |e.human.hand|
  {
    HumanPlays(e, i)
  }

  /**
   * The clicked card is the one played and the rest of the hand keeps its
   * order; when the human leads the computer answers with a card of its
   * hand whenever it holds one; the trick is then ready.
   */
  lemma PlayerTurnRules(e: EngineState, i: nat, pick: nat)
    requires i < |e.human.hand|
    ensures var r, c := PlayerLead(e, i, pick), e.human.hand[i];
      && r.human.played == Some(c) && r.trickReady && r.currentLeader == Human
      && |r.human.hand| == |e.human.hand| - 1
      && (forall k :: 0 <= k < i ==> r.human.hand[k] == e.human.hand[k])
      && (forall k :: i <= k < |r.human.hand| ==> r.human.hand[k] == e.human.hand[k + 1])
      && (r.computer.played.Some? <==> e.computer.hand != [])
      && (r.computer.played.Some? ==> r.computer.played.value in e.computer.hand && |r.computer.hand| == |e.computer.hand| - 1)
    ensures var r := PlayerFollow(e, i);
      && r.human.played == Some(e.human.hand[i]) && r.human.hand == RemoveAt(e.human.hand, i)
      && r.trickReady && r.computer == e.computer && r.currentLeader == e.currentLeader
  {
    AnsweredRules(e.computer, e.trumpSuit, pick);
  }

  /** The human's card moves from hand to slot; no card is made or lost. */
  lemma HumanPlaysConserves(e: EngineState, i: nat)
    requires i < |e.human.hand| && e.human.played.None?
    ensures AllCards(HumanPlays(e, i)) == AllCards(e)
  {
    var h := e.human;
    var h' := HumanPlays(e, i).human;
    assert SideCards(h') == SideCards(h) by {
      assert multiset(RemoveAt(h.hand, i)) + multiset{h.hand[i]} == multiset(h.hand);
    }
  }

  /** Leading, into two empty slots, makes or loses no card. */
  lemma PlayerLeadConserves(e: EngineState, i: nat, pick: nat)
    requires i < |e.human.hand| && e.human.played.None? && e.computer.played.None?
    ensures AllCards(PlayerLead(e, i, pick)) == AllCards(e)
  {
    HumanPlaysConserves(e, i);
    SlotFilled(e.computer, e.trumpSuit, pick);
  }

  // ---------------------------------------------------------------------------
  // handle_event: a click on card i of the human's hand
  // ---------------------------------------------------------------------------

  /** A click on card `i` while a marriage is pending: the checks of `HumanMarriage`, then announce or cancel. */
  function MarriageClick(e: EngineState, i: nat, now: int): EngineState
    requires i < |e.human.hand|
  {
    var m := HumanMarriage(e.human.hand, e.human.hand[i], e.human.marriages, e.trumpSuit);
    if m.Cancelled? then e.(marriagePending := false)
    else
      e.(marriageAnnouncement := Some((m.selected, m.partner)), marriageTime := now, marriagePending := false,
         human := e.human.(marriages := e.human.marriages + {m.selected.suit}, roundPoints := e.human.roundPoints + m.points))
  }

  /** The follow rule of gameplay.py:376-446 for card `i`, with the suit the computer led in the second phase. */
  predicate ClickValid(e: EngineState, i: nat)
    requires i < |e.human.hand|
  {
    HumanMoveValid(e.human.hand, e.human.hand[i], e.firstPhase,
                   AllowedSuit(e.firstPhase, e.currentLeader, e.computer.played), e.trumpSuit)
  }

  /**
   * A click on the human's card `i` (no card at all when `i` is past the
   * hand): ignored while a trick waits for End Trick; a pending marriage
   * takes the card as its selection; an invalid card is refused; otherwise
   * the human leads or follows with it.
   */
  function ClickCard(e: EngineState, i: nat, now: int, pick: nat): EngineState
  {
    if e.trickReady || i >= |e.human.hand| then e
    else if e.marriagePending then MarriageClick(e, i, now)
    else if !ClickValid(e, i) then e
    else if e.currentLeader == Human then PlayerLead(e, i, pick)
    else PlayerFollow(e, i)
  }

  /**
   * What a click does: nothing while a trick is ready or off the cards; a
   * pending marriage is settled (announced for its points exactly when
   * `HumanMarriage` accepts the card) and moves no card; a card the follow
   * rule refuses changes nothing; an allowed card is played.
   */
  lemma ClickCardRules(e: EngineState, i: nat, now: int, pick: nat)
    ensures var r := ClickCard(e, i, now, pick);
      && (e.trickReady || i >= |e.human.hand| ==> r == e)
      && (!e.trickReady && i < |e.human.hand| ==>
           var c := e.human.hand[i];
           && (e.marriagePending ==>
                var m := HumanMarriage(e.human.hand, c, e.human.marriages, e.trumpSuit);
                && !r.marriagePending && r.human.hand == e.human.hand && r.human.played == e.human.played
                && r.computer == e.computer && r.deck == e.deck && r.trickReady == e.trickReady
                && (m.Cancelled? ==> r == e.(marriagePending := false))
                && (m.Announced? ==>
                     && r.marriageAnnouncement == Some((c, m.partner)) && r.marriageTime == now
                     && r.human.marriages == e.human.marriages + {c.suit}
                     && r.human.roundPoints == e.human.roundPoints + m.points))
           && (!e.marriagePending && !ClickValid(e, i) ==> r == e)
           && (!e.marriagePending && ClickValid(e, i) ==>
                && r.trickReady && r.human.played == Some(c) && r.human.hand == RemoveAt(e.human.hand, i)
                && (e.currentLeader == Human ==> r == PlayerLead(e, i, pick))
                && (e.currentLeader == Computer ==> r.computer == e.computer)))
  {
  }

  /** A click plays at most the human's card (and the computer's answer) into empty slots, making or losing no card. */
  lemma ClickCardConserves(e: EngineState, i: nat, now: int, pick: nat)
    requires e.human.played.None? && (e.currentLeader == Human ==> e.computer.played.None?)
    ensures AllCards(ClickCard(e, i, now, pick)) == AllCards(e)
  {
    var r := ClickCard(e, i, now, pick);
    if e.trickReady || i >= |e.human.hand| {
      assert r == e;
    } else if e.marriagePending {
      assert r == MarriageClick(e, i, now);
      MarriageClickConserves(e, i, now);
    } else if !ClickValid(e, i) {
      assert r == e;
    } else if e.currentLeader == Human {
      assert r == PlayerLead(e, i, pick);
      PlayerLeadConserves(e, i, pick);
    } else {
      assert r == HumanPlays(e, i);
      HumanPlaysConserves(e, i);
    }
  }

  /** Settling a pending marriage touches only the announcement, the pending flag, and the human's suits and points. */
  lemma MarriageClickFrame(e: EngineState, i: nat, now: int)
    requires i < |e.human.hand|
    ensures var r := MarriageClick(e, i, now);
      r == e.(human := e.human.(marriages := r.human.marriages, roundPoints := r.human.roundPoints),
              marriagePending := false, marriageAnnouncement := r.marriageAnnouncement, marriageTime := r.marriageTime)
  {
  }

  /** Settling a pending marriage moves no card. */
  lemma MarriageClickConserves(e: EngineState, i: nat, now: int)
    requires i < |e.human.hand|
    ensures AllCards(MarriageClick(e, i, now)) == AllCards(e)
  {
    MarriageClickFrame(e, i, now);
  }

  /** A click leaves the face-up card and the trump suit alone. */
  lemma ClickCardKeepsTrump(e: EngineState, i: nat, now: int, pick: nat)
    ensures ClickCard(e, i, now, pick).trumpCard == e.trumpCard && ClickCard(e, i, now, pick).trumpSuit == e.trumpSuit
  {
  }

  // ---------------------------------------------------------------------------
  // resolve_trick and the End Trick button
  // ---------------------------------------------------------------------------

  /**
   * The part of `resolve_trick` after the winner is known, for a trick with
   * both cards on the table: the trick is settled, the winner and then the
   * loser draw while the first phase lasts, and the round may end.
   */
  function Collected(e: EngineState, picks: seq<nat>): EngineState
    requires e.human.played.Some? && e.computer.played.Some?
  {
    var s := Settle(e);
    CheckRoundEnd(if s.firstPhase then Draw(s, s.currentLeader) else s, picks)
  }

  /** The last line of `resolve_trick`: a computer that is to lead leads at once. */
  function NextLead(e: EngineState, now: int, pick: nat): EngineState
  {
    if e.currentLeader == Computer then ComputerLead(e, now, pick) else e
  }

  /**
   * `resolve_trick`: an empty play slot raises `TypeError` in
   * `determine_trick_winner` before anything changes; otherwise the trick
   * is collected and the next lead begins.
   */
  function ResolveTrick(e: EngineState, picks: seq<nat>, now: int, pick: nat): (Outcome, EngineState)
  {
    if e.human.played.None? || e.computer.played.None? then (Raised(TypeError), e)
    else (Done, NextLead(Collected(e, picks), now, pick))
  }

  /** The End Trick button: resolve a ready trick, otherwise nothing. */
  function EndTrick(e: EngineState, picks: seq<nat>, now: int, pick: nat): (Outcome, EngineState)
  {
    if e.trickReady then ResolveTrick(e, picks, now, pick) else (Done, e)
  }

  /**
   * Collecting a trick keeps the cards consistent, leaves both play slots
   * empty and the trick over, and the winner of the trick leads unless a
   * new round was dealt.
   */
  lemma CollectedConserves(e: EngineState, picks: seq<nat>)
    requires e.human.played.Some? && e.computer.played.Some?
    ensures Consistent(e) ==> Consistent(Collected(e, picks))
    ensures var c := Collected(e, picks);
      c.human.played.None? && c.computer.played.None? && !c.trickReady
  {
    var s := Settle(e);
    SettleConserves(e);
    SettleEmpties(e);
    var d := if s.firstPhase then Draw(s, s.currentLeader) else s;
    if s.firstPhase {
      DrawConserves(s, s.currentLeader);
      DrawKeepsTrump(s, s.currentLeader);
      DrawKeepsSlots(s, s.currentLeader);
    }
    KeepsConsistent(e, d);
    CheckRoundEndConserves(d, picks);
  }

  /** The next lead keeps the cards consistent and leaves the human's slot empty and the trick open. */
  lemma NextLeadConserves(e: EngineState, now: int, pick: nat)
    requires e.human.played.None? && e.computer.played.None? && !e.trickReady
    ensures Consistent(e) ==> Consistent(NextLead(e, now, pick))
    ensures var n := NextLead(e, now, pick);
      && n.human.played.None? && !n.trickReady
      && (n.currentLeader == Human ==> n.computer.played.None?)
  {
    if e.currentLeader == Computer {
      ComputerLeadConserves(e, now, pick);
      ComputerLeadPlays(e, now, pick);
      KeepsConsistent(e, NextLead(e, now, pick));
    }
  }

  /**
   * End Trick raises exactly when a slot of a ready trick is empty, and
   * then changes nothing; a resolved trick keeps the cards consistent and
   * leaves the human's slot empty, the trick open, and the computer's slot
   * empty unless the computer leads.
   */
  lemma EndTrickRules(e: EngineState, picks: seq<nat>, now: int, pick: nat)
    ensures var (outcome, r) := EndTrick(e, picks, now, pick);
      && (outcome.Raised? <==> e.trickReady && (e.human.played.None? || e.computer.played.None?))
      && (outcome.Raised? ==> outcome.error == TypeError && r == e)
      && (!e.trickReady ==> r == e)
      && (e.trickReady && outcome == Done ==>
           && r.human.played.None? && !r.trickReady
           && (r.currentLeader == Human ==> r.computer.played.None?))
    ensures Consistent(e) ==> Consistent(EndTrick(e, picks, now, pick).1)
  {
    if e.trickReady && e.human.played.Some? && e.computer.played.Some? {
      CollectedConserves(e, picks);
      NextLeadConserves(Collected(e, picks), now, pick);
    }
  }

  /**
   * The stall as the source plays it out: after a lead that returned
   * without a card, the human's next card is taken as a follow to an empty
   * trick, and End Trick then raises `TypeError`.
   */
  lemma StalledLeadRaises(e: EngineState, now: int, pick: nat, i: nat, later: int, pick': nat, picks: seq<nat>)
    requires e.currentLeader == Computer && !e.trickReady && e.computer.played.None? && e.human.played.None?
    requires !e.marriagePending && i < |e.human.hand|
    requires Showing(e, now) || ComputerMarriage(Expire(e, now)).Some?
    ensures var s := ComputerLeadAsWritten(e, now, pick);
      var c := ClickCard(s, i, later, pick');
      && c.trickReady && c.human.played == Some(e.human.hand[i])
      && EndTrick(c, picks, later, pick').0 == Raised(TypeError)
  {
    ComputerLeadAsWrittenStalls(e, now, pick);
    var s := ComputerLeadAsWritten(e, now, pick);
    assert !s.marriagePending;
    assert ClickValid(s, i);
  }
}
