/**
 * The state record the AI strategies read: the keys `Expectiminimax` uses
 * (`player_hand`, `opponent_hand`, `player_played`, `opponent_played`,
 * `player_round_points`, `opponent_round_points`, `remaining_deck`,
 * `trump_card`, `trump_suit`, `current_leader`, `allowed_suit`,
 * `leader_card`, `player_known_cards`). The AI is the `opponent`; the human
 * is the `player`. A missing `player_known_cards` key behaves exactly like
 * an empty list in every use, so it is a list here.
 */
module AIStates {
  import opened Wrappers
  import opened Cards
  import opened Lists

  /** The two values of `current_leader` in the AI's dictionary. */
  datatype Role = Player | Opponent

  datatype AIState = AIState(
    playerHand: seq<Card>,
    opponentHand: seq<Card>,
    playerPlayed: Option<Card>,
    opponentPlayed: Option<Card>,
    playerRoundPoints: int,
    opponentRoundPoints: int,
    remainingDeck: seq<Card>,
    trumpCard: Option<Card>,
    trumpSuit: Suit,
    currentLeader: Role,
    allowedSuit: Option<Suit>,
    leaderCard: Option<Card>,
    playerKnownCards: seq<Card>)

  /** `Expectiminimax.evaluate`: the AI's round points minus the human's. */
  function Evaluate(s: AIState): int
  {
    s.opponentRoundPoints - s.playerRoundPoints
  }

  /** `Expectiminimax.is_terminal`: both hands are empty. */
  predicate IsTerminal(s: AIState)
  {
    |s.playerHand| == 0 && |s.opponentHand| == 0
  }

  /** Both play slots are filled, so the trick is complete. */
  predicate TrickComplete(s: AIState)
  {
    s.playerPlayed.Some? && s.opponentPlayed.Some?
  }

  /** Every card the state places somewhere: hands, play slots, stock and trump slot. */
  function StateCards(s: AIState): multiset<Card>
  {
    TableCards(s) + multiset(s.remainingDeck) + OptBag(s.trumpCard)
  }

  /** The cards in the two hands and the two play slots. */
  function TableCards(s: AIState): multiset<Card>
  {
    multiset(s.playerHand) + multiset(s.opponentHand) + OptBag(s.playerPlayed) + OptBag(s.opponentPlayed)
  }
}
