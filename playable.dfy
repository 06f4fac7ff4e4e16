/**
 * The shape every state of a game keeps, from the first deal on, under
 * every step the human can take (a card click, End Trick, and the Close,
 * Switch and Marriage buttons): every card is somewhere exactly once, the
 * face-up trump card lies under a stock that is not yet empty, and whose
 * card lies on the table matches the turn and the hand sizes. In such a
 * state End Trick never raises.
 */
module Play {
  import opened Wrappers
  import opened Cards
  import opened Lists
  import opened RoundRules
  import opened Engine
  import opened Turns

  /** While cards are left in the stock, the face-up trump card lies under them. */
  predicate StockShape(e: EngineState)
  {
    e.deck != [] ==> e.trumpCard.Some?
  }

  /**
   * The play slots and hand sizes as the turn stands: a ready trick holds
   * both cards from hands of equal size; otherwise the human has not
   * played, and either the human leads into an empty table from a hand as
   * large as the computer's, or the computer has led from a hand one card
   * smaller, or it could not lead because both hands are empty.
   */
  predicate TurnShape(e: EngineState)
  {
    var h, c := |e.human.hand|, |e.computer.hand|;
    if e.trickReady then e.human.played.Some? && e.computer.played.Some? && h == c
    else
      && e.human.played.None?
      && if e.currentLeader == Human then e.computer.played.None? && h == c
         else if e.computer.played.Some? then h == c + 1
         else h == 0 && c == 0
  }

  /** The states a game can be in. */
  ghost predicate Playable(e: EngineState)
  {
    Consistent(e) && StockShape(e) && TurnShape(e)
  }

  /** The first deal is playable. */
  lemma InitialPlayable(picks: seq<nat>)
    ensures Playable(Initial(picks))
  {
    InitialDeals(picks);
  }

  /** Closing keeps a state playable. */
  lemma CloseGamePlayable(e: EngineState)
    requires Playable(e)
    ensures Playable(CloseGame(e))
  {
    KeepsConsistent(e, CloseGame(e));
  }

  /** Starting a marriage keeps a state playable. */
  lemma AnnounceMarriagePlayable(e: EngineState)
    requires Playable(e)
    ensures Playable(AnnounceMarriage(e))
  {
    KeepsConsistent(e, AnnounceMarriage(e));
  }

  /** Switching the nine of trumps keeps a state playable. */
  lemma SwitchTrumpPlayable(e: EngineState)
    requires Playable(e)
    ensures Playable(SwitchTrump(e))
  {
    SwitchTrumpConserves(e);
    SwitchTrumpRules(e);
  }

  /** A click keeps a state playable. */
  lemma ClickCardPlayable(e: EngineState, i: nat, now: int, pick: nat)
    requires Playable(e)
    ensures Playable(ClickCard(e, i, now, pick))
  {
    if !e.trickReady {
      ClickCardConsistent(e, i, now, pick);
    }
    ClickCardShape(e, i, now, pick);
  }

  /** A click keeps the stock and the table in shape. */
  lemma ClickCardShape(e: EngineState, i: nat, now: int, pick: nat)
    requires TurnShape(e) && StockShape(e)
    ensures TurnShape(ClickCard(e, i, now, pick)) && StockShape(ClickCard(e, i, now, pick))
  {
    var r := ClickCard(e, i, now, pick);
    if e.trickReady || i >= |e.human.hand| {
      assert r == e;
    } else if e.marriagePending {
      assert r == MarriageClick(e, i, now);
      MarriageClickShape(e, i, now);
    } else if !ClickValid(e, i) {
      assert r == e;
    } else if e.currentLeader == Human {
      assert r == PlayerLead(e, i, pick);
      LeadShape(e, i, pick);
    } else {
      assert r == PlayerFollow(e, i);
      FollowShape(e, i);
    }
  }

  /** A click on a card while no trick is ready moves no card out of the game and keeps the trump card. */
  lemma ClickCardConsistent(e: EngineState, i: nat, now: int, pick: nat)
    requires Playable(e) && !e.trickReady
    ensures Consistent(ClickCard(e, i, now, pick))
  {
    ClickCardConserves(e, i, now, pick);
    ClickCardKeepsTrump(e, i, now, pick);
    KeepsConsistent(e, ClickCard(e, i, now, pick));
  }

  /** Leading from a hand as large as the computer's leaves a ready trick with both cards and equal hands. */
  lemma LeadShape(e: EngineState, i: nat, pick: nat)
    requires TurnShape(e) && StockShape(e) && !e.trickReady && e.currentLeader == Human && i < |e.human.hand|
    ensures TurnShape(PlayerLead(e, i, pick)) && StockShape(PlayerLead(e, i, pick))
  {
    PlayerTurnRules(e, i, pick);
    AnsweredRules(e.computer, e.trumpSuit, pick);
  }

  /** Following the computer's card leaves a ready trick with both cards and equal hands. */
  lemma FollowShape(e: EngineState, i: nat)
    requires TurnShape(e) && StockShape(e) && !e.trickReady && e.currentLeader == Computer && i < |e.human.hand|
    ensures TurnShape(PlayerFollow(e, i)) && StockShape(PlayerFollow(e, i))
  {
  }

  /** Settling a pending marriage moves no card and keeps the turn. */
  lemma MarriageClickShape(e: EngineState, i: nat, now: int)
    requires TurnShape(e) && StockShape(e) && i < |e.human.hand|
    ensures TurnShape(MarriageClick(e, i, now)) && StockShape(MarriageClick(e, i, now))
  {
    MarriageClickFrame(e, i, now);
  }

  /** In a playable state End Trick never raises, and it keeps the state playable. */
  lemma EndTrickPlayable(e: EngineState, picks: seq<nat>, now: int, pick: nat)
    requires Playable(e)
    ensures EndTrick(e, picks, now, pick).0 == Done
    ensures Playable(EndTrick(e, picks, now, pick).1)
  {
    EndTrickRules(e, picks, now, pick);
    if e.trickReady {
      var c := Collected(e, picks);
      CollectedShape(e, picks);
      NextLeadShape(c, now, pick);
    }
  }

  /** Collecting a ready trick from equal hands leaves equal hands, empty slots and the stock's shape. */
  lemma CollectedShape(e: EngineState, picks: seq<nat>)
    requires e.human.played.Some? && e.computer.played.Some?
    requires |e.human.hand| == |e.computer.hand| && StockShape(e)
    ensures var c := Collected(e, picks);
      && StockShape(c) && |c.human.hand| == |c.computer.hand|
      && c.human.played.None? && c.computer.played.None? && !c.trickReady
  {
    var s := Settle(e);
    SettleEmpties(e);
    CollectedConserves(e, picks);
    var d := if s.firstPhase then Draw(s, s.currentLeader) else s;
    if s.firstPhase {
      DrawBalanced(s, s.currentLeader);
    }
    RoundEndShape(d, picks);
  }

  /** With the stock in shape, both hands draw one card each or neither draws. */
  lemma DrawBalanced(e: EngineState, winner: Side)
    requires StockShape(e) && |e.human.hand| == |e.computer.hand|
    ensures var d := Draw(e, winner);
      StockShape(d) && |d.human.hand| == |d.computer.hand|
  {
    DrawRules(e, winner);
    if e.deck != [] {
      DrawOneEach(e, winner);
    }
  }

  /** From a stock over the face-up trump card each side draws exactly one card, and a stock left over still lies on it. */
  lemma DrawOneEach(e: EngineState, winner: Side)
    requires e.deck != [] && e.trumpCard.Some?
    ensures var d := Draw(e, winner);
      && |SideOf(d, winner).hand| == |SideOf(e, winner).hand| + 1
      && |SideOf(d, Other(winner)).hand| == |SideOf(e, Other(winner)).hand| + 1
      && (d.deck != [] ==> d.trumpCard.Some?)
  {
    DrawRules(e, winner);
    DrawFromRules(TableOf(e, winner));
  }

  /** Ending a round from equal hands and an empty table keeps that shape, also in a new deal. */
  lemma RoundEndShape(e: EngineState, picks: seq<nat>)
    requires StockShape(e) && |e.human.hand| == |e.computer.hand|
    ensures var r := CheckRoundEnd(e, picks);
      StockShape(r) && |r.human.hand| == |r.computer.hand|
  {
    var s := Scored(e);
    if !RoundOver(e) {
      CheckRoundEndScores(e, picks);
    } else if MatchOver(s.human.gamePoints, s.computer.gamePoints) {
      CheckRoundEndMatchOver(e, picks);
    } else {
      CheckRoundEndDeals(e, picks);
    }
  }

  /** The next lead from equal hands and an empty table gives the turn its shape. */
  lemma NextLeadShape(e: EngineState, now: int, pick: nat)
    requires StockShape(e) && |e.human.hand| == |e.computer.hand|
    requires e.human.played.None? && e.computer.played.None? && !e.trickReady
    ensures TurnShape(NextLead(e, now, pick)) && StockShape(NextLead(e, now, pick))
  {
    if e.currentLeader == Computer {
      ComputerLeadPlays(e, now, pick);
    }
  }
}
