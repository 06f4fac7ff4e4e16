/**
 * The loops of `Expectiminimax`: `play`, `expectiminimax`,
 * `sample_possible_player_hand` and `resolve_trick_with_chance`. Each
 * method runs the source's loops and accumulators and is proved to return
 * the value that module `SearchSpec` defines for it.
 */
module Search {
  import opened Wrappers
  import opened Cards
  import opened Lists
  import opened Rules
  import opened AIStates
  import opened ExtReals
  import opened SearchSpec

  // ---------------------------------------------------------------------------
  // sample_possible_player_hand
  // ---------------------------------------------------------------------------

  /** The set `known` the sampler builds: the AI's hand, the trump card, the played cards, the stock and the human's known cards. */
  method KnownCards(s: AIState) returns (known: set<Card>)
    ensures forall c :: c in known <==> IsKnown(s, c)
  {
    known := AddAll({}, s.opponentHand);
    if s.trumpCard.Some? {
      known := known + {s.trumpCard.value};
    }
    if s.playerPlayed.Some? {
      known := known + {s.playerPlayed.value};
    }
    if s.opponentPlayed.Some? {
      known := known + {s.opponentPlayed.value};
    }
    known := AddAll(known, s.remainingDeck);
    known := AddAll(known, s.playerKnownCards);
  }

  /** `for card in cards: known.add(card)`. */
  method AddAll(known: set<Card>, cards: seq<Card>) returns (known': set<Card>)
    ensures forall c :: c in known' <==> c in known || c in cards
  {
    known' := known;
    for k := 0 to |cards|
      invariant forall c :: c in known' <==> c in known || c in cards[..k]
    {
      assert cards[..k + 1] == cards[..k] + [cards[k]];
      known' := known' + {cards[k]};
    }
    assert cards[..|cards|] == cards;
  }

  /**
   * `sample_possible_player_hand(state, hand_size)`: collect the cards the
   * AI can place into `known`, keep the full deck's other cards in deck
   * order, and append a random sample of them (or all of them) to the
   * human's known cards. `picks` are the choices of `random.sample`.
   */
  method SamplePossiblePlayerHand(s: AIState, handSize: int, picks: seq<nat>) returns (sampled: seq<Card>)
    ensures sampled == SampledHand(s, handSize, picks)
  {
    var fullDeck := FullDeck();
    var known := KnownCards(s);
    var unknown: seq<Card> := [];
    for k := 0 to |fullDeck|
      invariant unknown == Unknown(s, fullDeck[..k])
    {
      assert fullDeck[..k + 1][..k] == fullDeck[..k];
      if fullDeck[k] !in known {
        unknown := unknown + [fullDeck[k]];
      }
    }
    assert fullDeck[..|fullDeck|] == fullDeck;

    sampled := s.playerKnownCards;
    var needed := handSize - |sampled|;
    if needed > 0 && |unknown| >= needed {
      sampled := sampled + RandomSample(unknown, needed, picks);
    } else {
      sampled := sampled + unknown;
    }
  }

  // ---------------------------------------------------------------------------
  // expectiminimax
  // ---------------------------------------------------------------------------

  /** `expectiminimax(state, depth, is_ai_turn)` at search-tree position `path`. */
  method Expectiminimax(s: AIState, depth: nat, aiTurn: bool, samples: int, rng: Rng, path: seq<nat>)
    returns (v: real)
    ensures v == Emm(s, depth, aiTurn, samples, rng, path)
    decreases depth, 4
  {
    if depth == 0 || IsTerminal(s) {
      return Evaluate(s) as real;
    }
    if TrickComplete(s) {
      v := ResolveTrickWithChance(s, depth, samples, rng, path);
      return;
    }
    if aiTurn {
      var validMoves := ValidMoves(s.opponentHand, s.allowedSuit, s.trumpSuit);
      if validMoves == [] {
        return Evaluate(s) as real;
      }
      v := BestAiMove(s, validMoves, depth, samples, rng, path);
    } else {
      var sampleValues := SampleAll(s, depth, samples, rng, path);
      if sampleValues == [] {
        v := Evaluate(s) as real;
      } else {
        v := Mean(sampleValues);
      }
    }
  }

  /** The AI's loop: `best_value = max(best_value, value)` over its legal moves. */
  method BestAiMove(s: AIState, validMoves: seq<Card>, depth: nat, samples: int, rng: Rng, path: seq<nat>)
    returns (v: real)
    requires depth >= 1 && validMoves != []
    ensures v == MaxList(AiMoveValues(s, validMoves, depth, samples, rng, path, |validMoves|))
    decreases depth, 1
  {
    var bestValue := NegInf;
    for i := 0 to |validMoves|
      invariant bestValue == FoldMax(AiMoveValues(s, validMoves, depth, samples, rng, path, i))
    {
      var value := AiMoveValue(s, validMoves[i], depth, samples, rng, path, i);
      AiMoveValuesNext(s, validMoves, depth, samples, rng, path, i);
      FoldMaxSnoc(AiMoveValues(s, validMoves, depth, samples, rng, path, i), value);
      bestValue := ExtMax(bestValue, Fin(value));
    }
    ghost var values := AiMoveValues(s, validMoves, depth, samples, rng, path, |validMoves|);
    FoldMaxIsMaxList(values);
    v := bestValue.r;
  }

  /** The body of the AI's loop: simulate the move, search the human's reply one level down. */
  method AiMoveValue(s: AIState, move: Card, depth: nat, samples: int, rng: Rng, path: seq<nat>, i: nat)
    returns (value: real)
    requires depth >= 1
    ensures value == Emm(SimulateMove(s, move, true), depth - 1, false, samples, rng, path + [i])
    decreases depth, 0
  {
    var newState := SimulateMove(s, move, true);
    value := Expectiminimax(newState, depth - 1, false, samples, rng, path + [i]);
  }

  /** The human's turn: one value per sample, `range(n_player_samples)` of them. */
  method SampleAll(s: AIState, depth: nat, samples: int, rng: Rng, path: seq<nat>) returns (sampleValues: seq<real>)
    requires depth >= 1
    ensures sampleValues == SampleValues(s, depth, samples, rng, path, if samples > 0 then samples else 0)
    decreases depth, 3
  {
    var n := if samples > 0 then samples else 0;
    sampleValues := [];
    for t := 0 to n
      invariant sampleValues == SampleValues(s, depth, samples, rng, path, t)
    {
      var sampleValue := OneSample(s, depth, samples, rng, path, t);
      sampleValues := sampleValues + [sampleValue];
    }
  }

  /** One sample: draw a hand for the human and take the human's best (lowest) reply value. */
  method OneSample(s: AIState, depth: nat, samples: int, rng: Rng, path: seq<nat>, t: nat) returns (sampleValue: real)
    requires depth >= 1
    ensures sampleValue == SampleValue(s, depth, samples, rng, path, t)
    decreases depth, 2
  {
    var sampledHand := SamplePossiblePlayerHand(s, |s.playerHand|, rng(path + [t]));
    var validMoves := ValidMoves(sampledHand, s.allowedSuit, s.trumpSuit);
    if validMoves == [] {
      sampleValue := Evaluate(s) as real;
    } else {
      sampleValue := WorstPlayerMove(s, sampledHand, validMoves, depth, samples, rng, path + [t]);
    }
  }

  /** The human's loop: `sample_worst = min(sample_worst, value)` over the legal moves of the sample. */
  method WorstPlayerMove(s: AIState, hand: seq<Card>, validMoves: seq<Card>, depth: nat, samples: int, rng: Rng,
                         path: seq<nat>) returns (v: real)
    requires depth >= 1 && validMoves != []
    ensures v == MinList(PlayerMoveValues(s, hand, validMoves, depth, samples, rng, path, |validMoves|))
    decreases depth, 1
  {
    var sampleWorst := PosInf;
    for i := 0 to |validMoves|
      invariant sampleWorst == FoldMin(PlayerMoveValues(s, hand, validMoves, depth, samples, rng, path, i))
    {
      var value := PlayerMoveValue(s, hand, validMoves[i], depth, samples, rng, path, i);
      PlayerMoveValuesNext(s, hand, validMoves, depth, samples, rng, path, i);
      FoldMinSnoc(PlayerMoveValues(s, hand, validMoves, depth, samples, rng, path, i), value);
      sampleWorst := ExtMin(sampleWorst, Fin(value));
    }
    ghost var values := PlayerMoveValues(s, hand, validMoves, depth, samples, rng, path, |validMoves|);
    FoldMinIsMinList(values);
    v := sampleWorst.r;
  }

  /** The body of the human's loop: simulate the move on the sample, search the AI's reply one level down. */
  method PlayerMoveValue(s: AIState, hand: seq<Card>, move: Card, depth: nat, samples: int, rng: Rng, path: seq<nat>,
                         i: nat) returns (value: real)
    requires depth >= 1
    ensures value == Emm(SimulatePlayerMove(s, move, hand), depth - 1, true, samples, rng, path + [i])
    decreases depth, 0
  {
    var newState := SimulatePlayerMove(s, move, hand);
    value := Expectiminimax(newState, depth - 1, true, samples, rng, path + [i]);
  }

  // ---------------------------------------------------------------------------
  // resolve_trick_with_chance
  // ---------------------------------------------------------------------------

  /**
   * `resolve_trick_with_chance(state, depth, ...)`: award the trick, then
   * average over every ordered pair of distinct stock positions (the
   * winner draws the first, the loser the second), or hand the last stock
   * card to the winner, or go on without a draw.
   */
  method ResolveTrickWithChance(s: AIState, depth: nat, samples: int, rng: Rng, path: seq<nat>) returns (v: real)
    requires TrickComplete(s) && depth >= 1
    ensures v == ResolveValue(s, depth, samples, rng, path)
    decreases depth, 3
  {
    var winner := AiTrickWinner(s.playerPlayed.value, s.opponentPlayed.value, s.trumpSuit, s.currentLeader);
    var newState := Award(s, winner);
    var deck := newState.remainingDeck;
    var n := |deck|;
    if n == 0 {
      v := Expectiminimax(newState, depth - 1, winner == Opponent, samples, rng, path);
    } else if n == 1 {
      v := Expectiminimax(DrawLast(newState, winner), depth - 1, winner == Opponent, samples, rng, path);
    } else {
      var outcomes := DrawOutcomes(newState, winner, depth, samples, rng, path);
      if outcomes == [] {
        v := Evaluate(newState) as real;
      } else {
        v := Mean(outcomes);
      }
    }
  }

  /** The nested loops `for i in range(n): for j in range(n): if i != j`, collecting `outcomes`. */
  method DrawOutcomes(t: AIState, winner: Role, depth: nat, samples: int, rng: Rng, path: seq<nat>)
    returns (outcomes: seq<real>)
    requires depth >= 1
    ensures outcomes == DrawValues(t, winner, depth, samples, rng, path, |t.remainingDeck|)
    decreases depth, 2
  {
    var n := |t.remainingDeck|;
    outcomes := [];
    for i := 0 to n
      invariant outcomes == DrawValues(t, winner, depth, samples, rng, path, i)
    {
      outcomes := DrawRow(t, winner, i, depth, samples, rng, path, outcomes);
    }
  }

  /** The inner loop `for j in range(n): if i != j` of row `i`, appending to `prev`. */
  method DrawRow(t: AIState, winner: Role, i: nat, depth: nat, samples: int, rng: Rng, path: seq<nat>,
                 prev: seq<real>)
    returns (outcomes: seq<real>)
    requires depth >= 1 && i < |t.remainingDeck|
    ensures outcomes == prev + RowValues(t, winner, i, depth, samples, rng, path, |t.remainingDeck|)
    decreases depth, 1
  {
    var n := |t.remainingDeck|;
    outcomes := prev;
    for j := 0 to n
      invariant outcomes == prev + RowValues(t, winner, i, depth, samples, rng, path, j)
    {
      RowValuesNext(t, winner, i, depth, samples, rng, path, j);
      if i != j {
        var outcomeValue := OutcomeValue(t, winner, i, j, depth, samples, rng, path);
        SnocAssoc(prev, RowValues(t, winner, i, depth, samples, rng, path, j), outcomeValue);
        outcomes := outcomes + [outcomeValue];
      }
    }
  }

  lemma SnocAssoc<T>(xs: seq<T>, ys: seq<T>, y: T)
    ensures (xs + ys) + [y] == xs + (ys + [y])
  {
  }

  /** The loop body for one draw: copy the state, hand out `deck[i]` and `deck[j]`, search one level down. */
  method OutcomeValue(t: AIState, winner: Role, i: nat, j: nat, depth: nat, samples: int, rng: Rng, path: seq<nat>)
    returns (v: real)
    requires depth >= 1 && i < |t.remainingDeck| && j < |t.remainingDeck|
    ensures v == DrawValue(t, winner, i, j, depth, samples, rng, path)
    decreases depth, 0
  {
    var outcomeState := DrawOutcome(t, winner, i, j);
    var nextIsAi := winner == Opponent;
    v := Expectiminimax(outcomeState, depth - 1, nextIsAi, samples, rng, DrawPath(path, i, j));
  }

  // ---------------------------------------------------------------------------
  // play
  // ---------------------------------------------------------------------------

  /** The value `play` assigns to the AI's move `m`, the `i`-th legal move. */
  function RootValue(s: AIState, m: Card, maxDepth: nat, samples: int, rng: Rng, i: nat): real
    requires maxDepth >= 1
  {
    var newState := SimulateMove(s, m, true);
    if TrickComplete(newState) then ResolveValue(newState, maxDepth, samples, rng, [i])
    else Emm(newState, maxDepth - 1, false, samples, rng, [i])
  }

  /** The values of the first `n` legal moves at the root, in move order. */
  function RootValues(s: AIState, moves: seq<Card>, maxDepth: nat, samples: int, rng: Rng, n: nat): (xs: seq<real>)
    requires maxDepth >= 1 && n <= |moves|
    ensures |xs| == n
  {
    if n == 0 then []
    else RootValues(s, moves, maxDepth, samples, rng, n - 1) + [RootValue(s, moves[n - 1], maxDepth, samples, rng, n - 1)]
  }

  /** Position `k` of the root values is the value of the `k`-th move. */
  lemma {:induction false} RootValuesAt(s: AIState, moves: seq<Card>, maxDepth: nat, samples: int, rng: Rng, n: nat, k: nat)
    requires maxDepth >= 1 && k < n <= |moves|
    ensures RootValues(s, moves, maxDepth, samples, rng, n)[k] == RootValue(s, moves[k], maxDepth, samples, rng, k)
  {
    if k < n - 1 {
      RootValuesAt(s, moves, maxDepth, samples, rng, n - 1, k);
    }
  }

  /** `k` is the first position holding the largest value, the one a strict `>` update keeps. */
  predicate IsFirstArgMax(xs: seq<real>, k: nat)
  {
    && k < |xs|
    && (forall j :: 0 <= j < |xs| ==> xs[j] <= xs[k])
    && (forall j :: 0 <= j < k ==> xs[j] < xs[k])
  }

  /** `k` is the first position of the largest of the first `i` values. */
  predicate FirstArgMaxUpTo(xs: seq<real>, i: nat, k: nat)
  {
    && k < i <= |xs|
    && (forall j :: 0 <= j < i ==> xs[j] <= xs[k])
    && (forall j :: 0 <= j < k ==> xs[j] < xs[k])
  }

  /** One step of the strict `>` update: the best so far moves to `i` exactly when `xs[i]` is larger. */
  lemma ArgMaxStep(xs: seq<real>, i: nat, k: nat)
    requires i < |xs| && (i == 0 || FirstArgMaxUpTo(xs, i, k))
    ensures i == 0 || xs[k] < xs[i] ==> FirstArgMaxUpTo(xs, i + 1, i)
    ensures i > 0 && xs[i] <= xs[k] ==> FirstArgMaxUpTo(xs, i + 1, k)
  {
  }

  /** The body of `play`'s loop: simulate the move, then resolve the trick or search the human's reply. */
  method MoveValue(s: AIState, move: Card, maxDepth: nat, samples: int, rng: Rng, i: nat) returns (value: real)
    requires maxDepth >= 1
    ensures value == RootValue(s, move, maxDepth, samples, rng, i)
  {
    var newState := SimulateMove(s, move, true);
    if TrickComplete(newState) {
      value := ResolveTrickWithChance(newState, maxDepth, samples, rng, [i]);
    } else {
      value := Expectiminimax(newState, maxDepth - 1, false, samples, rng, [i]);
    }
  }

  /**
   * `Expectiminimax.play(game_state, hand)`: the first legal move of
   * greatest value; `random.choice` on the empty list of legal moves
   * raises `IndexError`.
   */
  method Play(s: AIState, hand: seq<Card>, maxDepth: nat, samples: int, rng: Rng) returns (r: Result<Card>)
    requires maxDepth >= 1
    ensures r.Err? <==> hand == []
    ensures r.Err? ==> r.error == IndexError
    ensures r.Ok? ==> exists k: nat ::
      && k < |ValidMoves(hand, s.allowedSuit, s.trumpSuit)|
      && r.value == ValidMoves(hand, s.allowedSuit, s.trumpSuit)[k]
      && IsFirstArgMax(RootValues(s, ValidMoves(hand, s.allowedSuit, s.trumpSuit), maxDepth, samples, rng,
                                  |ValidMoves(hand, s.allowedSuit, s.trumpSuit)|), k)
  {
    var validMoves := ValidMoves(hand, s.allowedSuit, s.trumpSuit);
    ValidMovesMeaning(hand, s.allowedSuit, s.trumpSuit);
    ghost var xs := RootValues(s, validMoves, maxDepth, samples, rng, |validMoves|);
    var bestMove: Option<Card> := None;
    var bestValue := NegInf;
    ghost var bi := 0;
    for i := 0 to |validMoves|
      invariant i == 0 ==> bestMove.None? && bestValue == NegInf
      invariant i > 0 ==> FirstArgMaxUpTo(xs, i, bi) && bestMove == Some(validMoves[bi]) && bestValue == Fin(xs[bi])
    {
      var move := validMoves[i];
      var value := MoveValue(s, move, maxDepth, samples, rng, i);
      RootValuesAt(s, validMoves, maxDepth, samples, rng, |validMoves|, i);
      ArgMaxStep(xs, i, bi);
      if Less(bestValue, Fin(value)) {
        bestValue := Fin(value);
        bestMove := Some(move);
        bi := i;
      }
    }
    if bestMove.Some? {
      r := Ok(bestMove.value);
    } else {
      r := Err(IndexError);
    }
  }
}
