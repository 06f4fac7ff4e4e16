/**
 * The player objects of player.py. Both kinds carry the fields that
 * `Player.__init__` sets up; the hand is a `Hand` object because the
 * strategies receive `self.hand` by reference and may change it.
 */
module Players {
  import opened Wrappers
  import opened Cards
  import opened Lists
  import opened Rules
  import opened Hands
  import opened Strategies

  /** The ai.py strategy objects an `AIPlayer` can hold. */
  datatype Logic = JustRandom | TrickBasedGreedy

  /** The strategy that `AIPlayer.__init__` installs for a strategy name; any other name installs none. */
  function LogicFor(strategy: string): (l: Option<Logic>)
    ensures l == Some(JustRandom) <==> strategy == "JustRandom"
    ensures l == Some(TrickBasedGreedy) <==> strategy == "TrickBasedGreedy"
    ensures l.None? <==> strategy != "JustRandom" && strategy != "TrickBasedGreedy"
  {
    if strategy == "JustRandom" then Some(JustRandom)
    else if strategy == "TrickBasedGreedy" then Some(TrickBasedGreedy)
    else None
  }

  /**
   * Trading `trump9` for the face-up trump card keeps the hand's size and
   * changes its contents by exactly the two cards traded.
   */
  lemma SwapKeepsHandSize(hand: seq<Card>, currentTrump: Card, trump9: Card)
    requires trump9 in hand
    ensures |RemoveFirst(hand, trump9) + [currentTrump]| == |hand|
    ensures multiset(RemoveFirst(hand, trump9) + [currentTrump])
         == multiset(hand) - multiset{trump9} + multiset{currentTrump}
  {
    RemoveFirstMeaning(hand, trump9);
  }

  class HumanPlayer {
    var hand: Hand
    var playedCard: Option<Card>
    var wonCards: seq<Card>
    var roundPoints: int
    var tricks: int
    var marriagesAnnounced: set<Suit>
    var marriagePending: bool

    /** `Player.__init__`: an empty hand, nothing played, won or announced. */
    constructor ()
      ensures fresh(hand) && hand.cards == []
      ensures playedCard == None && wonCards == [] && roundPoints == 0 && tricks == 0
      ensures marriagesAnnounced == {} && !marriagePending
    {
      hand := new Hand();
      playedCard, wonCards, roundPoints, tricks := None, [], 0, 0;
      marriagesAnnounced, marriagePending := {}, false;
    }

    /**
     * `HumanPlayer.play_card(i)`: the card at Python index `i` leaves the
     * hand and becomes the played card. A bad index is caught: the result is
     * `None` and nothing changes.
     */
    method PlayCard(i: int) returns (r: Option<Card>)
      modifies hand, this`playedCard
      ensures PyIndex(|old(hand.cards)|, i).Some? ==>
        var k := PyIndex(|old(hand.cards)|, i).value;
        r == Some(old(hand.cards)[k]) && hand.cards == RemoveAt(old(hand.cards), k) && playedCard == r
      ensures PyIndex(|old(hand.cards)|, i).None? ==>
        r == None && hand.cards == old(hand.cards) && playedCard == old(playedCard)
    {
      r := hand.Pop(i);
      if r.Some? {
        playedCard := r;
      }
    }

    /**
     * `HumanPlayer.switch_trump`: with `trump9` in hand it is taken out and
     * the current trump card is put at the end of the hand; the result is
     * the card given up, or `None` without it.
     */
    method SwitchTrump(currentTrump: Card, trump9: Card) returns (r: Option<Card>)
      modifies hand
      ensures trump9 in old(hand.cards) ==>
        r == Some(trump9) && hand.cards == RemoveFirst(old(hand.cards), trump9) + [currentTrump]
      ensures trump9 !in old(hand.cards) ==> r == None && hand.cards == old(hand.cards)
      ensures |hand.cards| == |old(hand.cards)|
    {
      if trump9 in hand.cards {
        SwapKeepsHandSize(hand.cards, currentTrump, trump9);
        hand.Remove(trump9);
        hand.Append(currentTrump);
        r := Some(trump9);
      } else {
        r := None;
      }
    }
  }

  class AIPlayer {
    var hand: Hand
    var playedCard: Option<Card>
    var wonCards: seq<Card>
    var roundPoints: int
    var tricks: int
    var marriagesAnnounced: set<Suit>
    var marriagePending: bool
    var strategy: string
    var aiLogic: Option<Logic>

    /** `AIPlayer.__init__`: the fields of a new player and the strategy named by `strategy`. */
    constructor (strategy: string)
      ensures fresh(hand) && hand.cards == []
      ensures playedCard == None && wonCards == [] && roundPoints == 0 && tricks == 0
      ensures marriagesAnnounced == {} && !marriagePending
      ensures this.strategy == strategy && aiLogic == LogicFor(strategy)
    {
      hand := new Hand();
      playedCard, wonCards, roundPoints, tricks := None, [], 0, 0;
      marriagesAnnounced, marriagePending := {}, false;
      this.strategy := strategy;
      aiLogic := LogicFor(strategy);
    }

    /** `set_strategy_logic`. */
    method SetStrategyLogic(logic: Logic)
      modifies this`aiLogic
      ensures aiLogic == Some(logic)
    {
      aiLogic := Some(logic);
    }

    /**
     * `AIPlayer.play_card`: the strategy's move from the hand, recorded as
     * the played card. Without a strategy it raises `ValueError`; an
     * exception from the strategy leaves the hand and the played card as
     * they were.
     * `allowed`, `trump` and `leader` are the game state's `allowed_suit`,
     * `trump_suit` and `leader_card`; `pick` is the random choice.
     */
    method PlayCard(allowed: Option<Suit>, trump: Suit, leader: Option<Card>, pick: nat)
      returns (r: Result<Option<Card>>)
      modifies hand, this`playedCard
      ensures aiLogic.None? ==>
        r == Err(ValueError) && hand.cards == old(hand.cards) && playedCard == old(playedCard)
      ensures aiLogic == Some(JustRandom) ==>
        r == Ok(JustRandomPlay(allowed, trump, old(hand.cards), pick))
        && hand.cards == old(hand.cards) && playedCard == r.value
      ensures aiLogic == Some(TrickBasedGreedy) ==>
        (r.Err? <==> old(hand.cards) == [])
        && (r.Err? ==> && r.error == (if allowed.Some? then ValueError else IndexError)
                       && hand.cards == old(hand.cards) && playedCard == old(playedCard))
        && (r.Ok? ==> r.value.Some? && playedCard == r.value)
      ensures aiLogic == Some(TrickBasedGreedy) && allowed.Some? ==> hand.cards == old(hand.cards)
      ensures aiLogic == Some(TrickBasedGreedy) && r.Ok? && allowed.Some? ==>
        GreedyFollowChoice(r.value.value, old(hand.cards), allowed.value, trump, leader)
      ensures aiLogic == Some(TrickBasedGreedy) && r.Ok? && allowed.None? ==>
        && |old(hand.cards)| / 2 < |SortedByValue(old(hand.cards))|
        && r.value.value == SortedByValue(old(hand.cards))[|old(hand.cards)| / 2]
        && r.value.value in old(hand.cards) && hand.cards == RemoveFirst(old(hand.cards), r.value.value)
    {
      SortedByValueIsSortedPermutation(hand.cards);
      if aiLogic.None? {
        return Err(ValueError);
      }
      if aiLogic.value == JustRandom {
        var card := JustRandomPlay(allowed, trump, hand.cards, pick);
        playedCard := card;
        r := Ok(card);
      } else {
        var move := GreedyPlay(allowed, trump, leader, hand);
        if move.Err? {
          return Err(move.error);
        }
        playedCard := Some(move.value);
        r := Ok(Some(move.value));
      }
    }

    /** `AIPlayer.switch_trump`: the computer never trades for the trump card. */
    method SwitchTrump(currentTrump: Card, trump9: Card) returns (r: Option<Card>)
      ensures r == None
    {
      r := None;
    }
  }
}
