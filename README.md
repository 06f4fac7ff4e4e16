# 66 (Santase) against the computer: rules engine, AI strategies and players

This project models the core of a two-player game of 66 (Santase), played by
a human against the computer:

- the card table (`constants.py`);
- the round engine `GamePlay` (`gameplay.py`), without pygame;
- the AI strategies `JustRandom`, `TrickBasedGreedy` and `Expectiminimax` (`ai.py`);
- the player objects (`player.py`).

Properties of the model are proved in Dafny.

Modules, in dependency order:

- `Wrappers`: `Option`, `Result` and the Python exceptions that can be raised (`ValueError`, `IndexError`, `TypeError`).
- `Cards`:
  - ranks 9, J, Q, K, 10, A and suits H, D, C, S;
  - `CARD_VALUES`;
  - the deck as `gameplay.py` builds it.
- `Lists`: Python list operations (`pop(i)`, `remove(x)`, Python's index rule).
- `Hands`: the hand as a mutable list object (class `Hand`). Strategies and players receive the same list by reference.
- `Rules`: `get_valid_moves` and `card_wins`.
- `Strategies`: `JustRandom.play` and `TrickBasedGreedy.play`.
  - Following is a loop proved against `WinningMoves`/`LosingMoves`.
  - Leading is a stable sort by value, proved to be a sorted permutation. It removes the median card from the caller's `Hand`.
- `AIStates`: the dictionary the AI reads, as its own record type (it has keys `get_game_state` does not produce).
- `ExtReals`: `float("-inf")` and `float("inf")` with `max`, `min` and the mean.
- `SearchSpec`: the `Expectiminimax` transitions as functions, and the search value `Emm` as a recursive specification.
  - The transitions are `simulate_move`, `simulate_player_move`, `sample_possible_player_hand`, and the award and draw steps of `resolve_trick_with_chance`.
  - `copy.deepcopy` makes these transitions value-to-value.
- `Search`:
  - the loops of `play`, `expectiminimax`, `sample_possible_player_hand` and `resolve_trick_with_chance`, as methods;
  - each method is proved equal to its `SearchSpec` value.
- `RoundRules`: the decisions of `gameplay.py`:
  - the trick winner;
  - the human's follow rule;
  - marriages;
  - round scoring;
  - the computer's move;
  - `random.shuffle`.
- `Engine`: the fields of `GamePlay` as the value `EngineState`.
  - It has one step function per engine method: deal, close, switch, announce, draw, settle.
  - It also proves card conservation and score facts about those steps.
- `Turns`: the turns as step functions: `check_round_end`, `computer_lead`, `player_lead`, `player_follow`, a card click in `handle_event`, `resolve_trick` and the End Trick button.
- `Play`: the invariant `Playable`. It holds from the first deal on:
  - every card is somewhere exactly once;
  - the face-up trump lies under a non-empty stock;
  - the slots and hand sizes match the turn.
  
  Every step the human can take preserves it, and in such a state End Trick never raises.
- `Round`: class `GamePlay`, whose fields are updated in place. Each method leaves exactly the state its step function computes: `State() == Step(old(State()), …)`.
- `Players`: `HumanPlayer` and `AIPlayer`, with `Player.__init__`'s fields.

Randomness and the clock are inputs:

- `random.shuffle` is a list of picks, and the deck is `Shuffled(FullDeck(), picks)`;
- `random.choice` is a pick taken modulo the length of the list;
- `random.sample` is `RandomSample` over a list of picks;
- the search's sampler reads its picks from an oracle `Rng`, keyed by the node's position in the search tree;
- `pygame.time.get_ticks()` is the parameter `now`;
- `end_game_callback()` sets a `gameOver` flag;
- a mouse click on the human's card is the card's index `i`.

`random.sample` draws without replacement. At each draw it takes position
`pick % remaining` of the cards not drawn yet.

`Engine.SideState` groups the engine's `player_*` and `computer_*` fields
per side. These are the hand, the play slot, the won cards, the round
points, the tricks, the game points and the announced suits.

A trick is worth at most 22 points (two aces: 11 + 11). This is `Cards.TrickWorthAtMost22`, with the witness.

Where the code disagrees with its comments or with other parts of the code, the model follows the code as written at the cited lines:

- `computer_lead`'s comment speaks of 5 seconds (gameplay.py:510), but the code waits 3000 ms (gameplay.py:506). The model uses 3000 ms (`Turns.MarriageShowMs`).

- `check_round_end` gives a tie at 66 or more to the computer (gameplay.py:699-706).
- `resolve_trick_with_chance` gives equal-value same-suit tricks to the human (ai.py:299-303). The engine gives them to the leader (gameplay.py:621-624).
- With one stock card, the AI's draw gives only the winner a card (ai.py:350-359). The engine also hands the loser the face-up trump (gameplay.py:636-640).
- The human's second-phase rule lets a hand that holds both the led suit and trumps play either (gameplay.py:439-440). `get_valid_moves` forces the led suit (ai.py:199-202).
- The engine's state dictionary has no `allowed_suit` key (gameplay.py:159-174). So the engine's `JustRandom` always chooses among all the computer's cards (`ComputerMove`).
- An expired announcement adds its suit to the **computer's** announced suits, whichever side announced it (gameplay.py:510-514).

## Model

| member | source | states |
|---|---|---|
| Cards.CardValue | constants.py:13-20 | `CARD_VALUES[card[0]]`; its table and order are `ValueTable`, `ValueOrderMatchesRankOrder` and `EqualValueEqualRank` |
| Cards.ValueTable | constants.py:13-20 | `CARD_VALUES` is 9→0, J→2, Q→3, K→4, 10→10, A→11, every value at most 11 |
| Cards.ValueOrderMatchesRankOrder | constants.py:13-20 | values strictly increase along the rank order 9, J, Q, K, 10, A (both directions) |
| Cards.EqualValueEqualRank | constants.py:13-20 | two cards have equal value exactly when they have equal rank |
| Cards.TrickWorthAtMost22 | constants.py:13-20 | a trick of two cards is worth at most 22, and two aces reach 22 |
| Cards.SuitWorth30 | constants.py:13-20 | the six cards of a suit are worth 30 |
| Cards.DeckWorth120 | gameplay.py:54 | the 24-card deck is worth 120 |
| Cards.SuitCards | gameplay.py:38-41 | a suit's six cards in the rank order of `ranks` |
| Cards.DeckAt | gameplay.py:54 | position k of the built deck is rank k % 6 of suit k / 6 (suit-major) |
| Cards.FullDeckLayout | gameplay.py:54 | the deck has 24 cards, suit-major, every card once, at its `DeckIndex` |
| Cards.FullDeckIsEveryCardOnce | gameplay.py:54 | every card occurs exactly once in the deck |
| Cards.CardAtDeckIndex | gameplay.py:54 | every card sits in the built deck at `DeckIndex` |
| Cards.SumValuesAppend | constants.py:13-20 | the value sum of a concatenation is the sum of the parts |
| Lists.IndexOf | gameplay.py:792 | the first position of `x`, or the length when `x` is absent; no earlier position holds `x` |
| Lists.RemoveAt | gameplay.py:470 | `list.pop(i)`: one shorter, order kept before and after `i`, exactly `s[i]` removed from the bag |
| Lists.RemoveFirstMeaning | ai.py:95 | `list.remove(x)` removes the first occurrence of a present `x` (one shorter); an absent `x` leaves the list |
| Lists.RemoveFirstBag | ai.py:95 | putting the removed card back restores the bag of the list |
| Lists.RemoveTwo | ai.py:334-335 | removing `deck[i]` then `deck[j]` (i ≠ j) takes both out, even for equal values |
| Lists.SecondSurvives | ai.py:334-335 | after `deck[i]` is removed, `deck[j]` is still there |
| Lists.PyIndex | player.py:49 | Python's index rule: `-n <= i < n` is valid, counted from the end when negative |
| Hands.Hand.constructor | player.py:9 | a new hand is the empty list |
| Hands.Hand.Pop | player.py:49 | `hand.pop(i)`: the card at Python index `i` is returned and removed; a bad index returns `None` and changes nothing |
| Hands.Hand.Remove | ai.py:95 | `hand.remove(c)` on a held card: the first copy leaves, one card fewer |
| Hands.Hand.Append | player.py:73 | `hand.append(c)` adds `c` at the end |
| Rules.OfSuitMembers | ai.py:200 | the suit filter keeps exactly the cards of that suit, is a sub-bag of the hand, and is empty exactly when `any(...)` is false |
| Rules.ValidMoves | ai.py:195-206 | the legal moves are never more than the hand |
| Rules.ValidMovesMeaning | ai.py:195-206 | the legal moves are a sub-bag of the hand, non-empty for a non-empty hand, and are exactly the held cards the follow rule allows |
| Rules.ValidMovesCases | ai.py:195-206 | no led suit: the whole hand; held led suit: exactly its cards in hand order; else the trumps if any, else the whole hand |
| Rules.CardWins | ai.py:99-114 | `card_wins`: whether the follower's card beats the leader's; its cases are `CardWinsRules` |
| Rules.CardWinsRules | ai.py:99-114 | trump beats a non-trump leader; a non-trump never beats a trump leader; an off-suit card never wins; otherwise only a strictly higher value wins |
| Strategies.JustRandomPlay | ai.py:15-39 | `None` exactly for an empty hand; otherwise a legal move |
| Strategies.JustRandomCanPickAnyValidMove | ai.py:37 | every legal move is chosen by some random pick |
| Strategies.Beats | ai.py:70-74 | `leader_card and card_wins(...)`: never true without a leader card; `WinningMovesMembers` and `NoWinnerAllLose` split the legal moves by it |
| Strategies.WinningMovesMembers | ai.py:66-74 | `winning_moves` holds exactly the legal moves that beat the leader's card |
| Strategies.NoWinnerAllLose | ai.py:66-74 | with no winning move, `losing_moves` is all the legal moves |
| Strategies.MaxByValue | ai.py:78 | `max(..., key=CARD_VALUES)`: the first card of greatest value |
| Strategies.MinByValue | ai.py:83 | `min(..., key=CARD_VALUES)`: the first card of least value |
| Strategies.SplitMoves | ai.py:67-74 | the loop builds exactly `WinningMoves` and `LosingMoves` |
| Strategies.GreedyFollowChoice | ai.py:58-86 | the greedy follow: a legal move; with a winning move, the first highest-value winner; otherwise the first lowest-value legal move |
| Strategies.GreedyFollow | ai.py:58-86 | the result is a legal move; with a winning move it is the first maximum-value winner, otherwise the first minimum-value legal move; an empty hand raises `ValueError` |
| Strategies.SortedByValue | ai.py:92 | `sorted(hand, key=CARD_VALUES)` as the rank groups in value order; see `SortedByValueIsSortedPermutation` and `SortedByValueIsStable` |
| Strategies.SortedByValueIsSortedPermutation | ai.py:92 | the stable sort by value is a permutation of the hand, ordered by value |
| Strategies.SortedByValueIsStable | ai.py:92 | the sort is stable: the cards of each rank, hence of each value, keep their hand order |
| Strategies.MedianLead | ai.py:92-94 | the led card is a median by value: at most `len // 2` cards are worth less, more than `len // 2` at most as much |
| Strategies.SortFromRanks | ai.py:92 | the sort's rank groups from position `k` hold only ranks at or after `k` |
| Strategies.SortFromPosition | ai.py:92 | a card of the sorted hand sits after the lower-ranked cards and among those ranked at or below it |
| Strategies.GreedyLead | ai.py:91-97 | leads the card at index `len(hand) // 2` of the value-sorted hand and removes exactly that card from the caller's hand; an empty hand raises `IndexError` |
| Strategies.GreedyPlay | ai.py:51-97 | following keeps the hand and plays the `GreedyFollowChoice` card (first best winner, else first lowest legal move); leading plays and removes the card at index `len // 2` of the value-sorted hand; it raises exactly on an empty hand, `ValueError` when following (`max`/`min` of an empty list), `IndexError` when leading, and the hand is then unchanged |
| ExtReals.FoldMaxIsMaxList | ai.py:163-171 | `best = -inf; best = max(best, v)` stays `-inf` only for no values, else is the maximum |
| ExtReals.FoldMinIsMinList | ai.py:182-186 | `worst = inf; worst = min(worst, v)` stays `inf` only for no values, else is the minimum |
| ExtReals.MaxListIsMaximum | ai.py:171 | the maximum is an element and no element exceeds it |
| ExtReals.MinListIsMinimum | ai.py:186 | the minimum is an element and no element is below it |
| ExtReals.MeanBetween | ai.py:191 | `sum(xs) / len(xs)` of values in `[lo, hi]` lies in `[lo, hi]` |
| ExtReals.SumBetween | ai.py:191 | a sum of `n` values in `[lo, hi]` lies in `[n*lo, n*hi]` |
| SearchSpec.SimulateAiMove | ai.py:208-220 | the AI's card leaves its hand (one copy) into its slot; into an empty trick it sets `allowed_suit`, `leader_card` and `current_leader`; all else and the score stay |
| SearchSpec.SimulatePlayerMove | ai.py:233-248 | `simulate_player_move`: the sample replaces the human's hand, then the card is played; see `SimulatePlayerMoveMeaning` and `PlayerMoveOnOwnHand` |
| SearchSpec.SimulatePlayerMoveMeaning | ai.py:233-248 | the human's hand becomes the sample minus the card, the card leaves the known cards and fills the slot; it leads an empty trick; the AI's side and the score stay |
| SearchSpec.PlayerMoveOnOwnHand | ai.py:221-248 | on the human's real hand, `simulate_player_move` is `simulate_move` for the human |
| SearchSpec.SimulateMoveKeepsCards | ai.py:208-231 | a held card moved into an empty slot keeps every card of the state |
| SearchSpec.UnknownMembers | ai.py:274 | the unknown list is the deck's cards the AI cannot place, a sub-bag of the deck |
| SearchSpec.UnknownPoolMeaning | ai.py:254-274 | the pool is exactly the cards outside the AI's hand, the stock, the trump slot, both slots and the known cards, each once |
| SearchSpec.RandomSampleMeaning | ai.py:279 | `random.sample(pool, k)` has `k` cards, a sub-bag of the pool |
| SearchSpec.EverySampleReachable | ai.py:279 | every sequence whose cards are a sub-bag of the pool, in any order, is what `random.sample` returns for the picks `PicksFor` builds |
| SearchSpec.ExtraMeaning | ai.py:277-281 | the appended cards are a sub-bag of the pool: `needed` of them when `0 < needed <= len(unknown)`, else the whole pool |
| SearchSpec.FromPool | ai.py:274-279 | cards drawn from the pool are distinct and unknown to the AI |
| SearchSpec.SampledHand | ai.py:250-283 | `sample_possible_player_hand`: the known cards, then cards drawn from the unknown pool; see `SampledHandMeaning` and `SampledHandOvershoots` |
| SearchSpec.SampledHandMeaning | ai.py:276-283 | the sample is the known cards followed by distinct pool cards; its size is `hand_size` exactly in the sampling case, else the whole pool is appended |
| SearchSpec.SampledHandOvershoots | ai.py:277-281 | with no card needed and a non-empty pool, the sample grows beyond `hand_size` |
| SearchSpec.AiTrickWinnerRules | ai.py:294-306 | exactly one trump wins for its side; same suit: the human wins exactly with value `>=`; different non-trump suits: the leader wins |
| SearchSpec.AwardMeaning | ai.py:308-320 | only the winner's points rise, by the two cards' values; the slots, `allowed_suit` and `leader_card` are cleared; the winner leads; hands and stock stay |
| AIStates.Evaluate | ai.py:371-376 | `evaluate`: the AI's round points minus the human's; `MovesKeepScore`, `DrawsKeepScore` and `AwardNear` bound how it moves |
| AIStates.IsTerminal | ai.py:365-369 | `is_terminal`: the search stops when both hands are empty; `Emm` returns `evaluate` there |
| SearchSpec.MovesKeepScore | ai.py:371-376 | playing a card leaves `evaluate` unchanged |
| SearchSpec.DrawsKeepScore | ai.py:331-357 | drawing leaves `evaluate` unchanged |
| SearchSpec.AwardNear | ai.py:308-315 | taking a trick moves `evaluate` by at most 22 |
| SearchSpec.DrawPairsMeaning | ai.py:326-330 | the nested loops visit `n*(n-1)` pairs, exactly the ordered pairs of distinct positions |
| SearchSpec.PairsMeaning | ai.py:327-330 | the first `k` rows hold `k*(n-1)` pairs: those with row below `k` and `i != j` |
| SearchSpec.RowMeaning | ai.py:328-330 | row `i` of the loops holds the pairs `(i, j)` with `j != i` |
| SearchSpec.DrawOutcomeMeaning | ai.py:331-342 | an outcome removes `deck[i]` and `deck[j]` (two fewer), gives `deck[i]` to the winner and `deck[j]` to the loser, and keeps the score and the leader |
| SearchSpec.DrawOutcomeKeepsCards | ai.py:331-342 | an outcome keeps every card of the state |
| SearchSpec.DrawLastMeaning | ai.py:350-359 | with one stock card only the winner draws it; the stock empties; the cards and the score are kept |
| SearchSpec.DrawValuesCount | ai.py:326-346 | one outcome value per pair the loops visit |
| SearchSpec.AiMoveValuesNext | ai.py:168-171 | each AI move appends the value of its simulated child one level down |
| SearchSpec.PlayerMoveValuesNext | ai.py:183-186 | each of the human's moves appends the value of its simulated child one level down |
| SearchSpec.RowValuesNext | ai.py:328-346 | each column of a row appends its outcome value, except the diagonal |
| SearchSpec.Emm | ai.py:154-193 | `expectiminimax`: max over AI moves, average over sampled human moves, chance at a full trick; its bound is `EmmNear` |
| SearchSpec.EmmNear | ai.py:154-193 | an `expectiminimax` value stays within `22 * depth` of the current `evaluate` |
| SearchSpec.ResolveValue | ai.py:285-363 | `resolve_trick_with_chance`: award the trick, then average over the draws; its bound is `ResolveNear` |
| SearchSpec.ResolveNear | ai.py:285-363 | a `resolve_trick_with_chance` value stays within `22 * depth` of `evaluate` |
| SearchSpec.SampleValuesNear | ai.py:175-188 | every sample value stays within `22 * depth` of `evaluate` |
| SearchSpec.DrawValuesNear | ai.py:326-346 | every outcome value stays within `22 * (depth - 1)` of `evaluate` |
| Search.KnownCards | ai.py:259-272 | the set `known` holds exactly the cards the AI can place |
| Search.AddAll | ai.py:261-262 | adding a list to a set gives the union |
| Search.SamplePossiblePlayerHand | ai.py:250-283 | the loops return exactly `SampledHand` |
| Search.Expectiminimax | ai.py:154-193 | the recursion returns exactly `Emm` |
| Search.BestAiMove | ai.py:162-172 | the `max` loop returns the maximum of the AI's move values |
| Search.AiMoveValue | ai.py:169-170 | one AI move's value is its simulated child's value one level down |
| Search.SampleAll | ai.py:175-188 | one value per sample, `n_player_samples` of them |
| Search.OneSample | ai.py:177-188 | a sample's value is its human's best (lowest) reply, or `evaluate` without moves |
| Search.WorstPlayerMove | ai.py:182-187 | the `min` loop returns the minimum of the human's move values |
| Search.PlayerMoveValue | ai.py:184-185 | one human move's value is its simulated child's value one level down |
| Search.ResolveTrickWithChance | ai.py:285-363 | returns exactly `ResolveValue`: the award, then the mean over the outcomes, the last card, or no draw |
| Search.DrawOutcomes | ai.py:326-346 | the nested loops collect exactly `DrawValues` |
| Search.DrawRow | ai.py:328-346 | the inner loop appends exactly `RowValues` |
| Search.OutcomeValue | ai.py:331-346 | one outcome's value is `DrawValue` |
| Search.RootValuesAt | ai.py:134-140 | position `k` of the root values is the value of the `k`-th legal move |
| Search.ArgMaxStep | ai.py:142-144 | a strict `>` update keeps the first position of the largest value |
| Search.MoveValue | ai.py:135-140 | a root move's value: resolve a complete trick, else search the human's reply |
| Search.Play | ai.py:129-152 | the first legal move of greatest value; raises `IndexError` exactly with no legal move (an empty hand) |
| RoundRules.TrickWinner | gameplay.py:577-624 | `determine_trick_winner`; its cases are `TrickWinnerRules`, and `TrickWinnerIsCardWins` ties it to `card_wins` |
| RoundRules.TrickWinnerRules | gameplay.py:577-624 | a lone trump wins; otherwise different suits go to the leader; same suit: the leader wins exactly with value `>=` |
| RoundRules.TrickWinnerIsCardWins | gameplay.py:606-624 | the follower takes the trick exactly when `card_wins` says its card beats the leader's on the led suit |
| RoundRules.AllowedSuit | gameplay.py:377-379 | a led suit exists exactly in the second phase with the computer's card led, and it is that card's suit |
| RoundRules.HumanMoveValid | gameplay.py:433-446 | the human's move rule; `HumanRuleIsAiRuleOrTrump` and `HumanCanAlwaysMove` relate it to `get_valid_moves` |
| RoundRules.HumanRuleIsAiRuleOrTrump | gameplay.py:433-446 | in the second phase the human's rule is `get_valid_moves`'s rule plus the freedom to trump |
| RoundRules.HumanCanAlwaysMove | gameplay.py:433-446 | every move the AI's filter allows is open to the human, and a non-empty hand always has a valid card |
| RoundRules.MarriageBonus | gameplay.py:427 | 40 in trumps, otherwise 20 |
| RoundRules.HumanMarriage | gameplay.py:398-430 | the human's marriage check on a clicked card; its cases are `HumanMarriageRules` |
| RoundRules.HumanMarriageRules | gameplay.py:398-430 | a clicked K or Q is announced exactly when its suit is unannounced and the partner is held; the pair is a King and a Queen of that suit worth 40/20 |
| RoundRules.FirstMarriage | gameplay.py:516-524 | the computer's marriage search; `FirstMarriageMeaning` and `FirstMarriageFrom` state what it finds |
| RoundRules.FirstMarriageMeaning | gameplay.py:516-524 | the computer takes the first available suit in H, D, C, S order, and none only when none is available |
| RoundRules.FirstMarriageFrom | gameplay.py:519-524 | the search from position `k` finds the first available suit at or after `k` |
| RoundRules.RoundScore | gameplay.py:697-723 | the round's winner and its game points; see `RoundScoreRules` |
| RoundRules.RoundScoreRules | gameplay.py:696-723 | the human wins exactly with more points; no winner only in a tie below 66; at 66: 3 against no tricks, 2 against under 33, else 1; below 66: 1 |
| RoundRules.RoundAward | gameplay.py:676-734 | the game points each side gets at round end, with the close rule; see `RoundAwardRules` |
| RoundRules.RoundAwardRules | gameplay.py:676-734 | at most one side scores, at most 3; a close below 66 gives the computer exactly 1; otherwise the round's winner scores its `RoundScore` and a tie scores nothing |
| RoundRules.ComputerMoveAsWritten | gameplay.py:472 | as written, the computer's card is copied into its slot and stays in its hand; see `ComputerMoveAsWrittenKeepsCard` |
| RoundRules.ComputerMoveAsWrittenKeepsCard | gameplay.py:472 | as written the computer's played card stays in its hand: the cards are not conserved |
| RoundRules.ComputerMove | gameplay.py:536-537 | corrected: the chosen card leaves the hand for the slot; see `ComputerMoveConserves` |
| RoundRules.ComputerMoveConserves | gameplay.py:536-537 | corrected: a held card leaves the hand for the slot, `None` only for an empty hand, no card made or lost |
| RoundRules.Shuffled | gameplay.py:55 | `random.shuffle` with explicit picks; `ShuffledPermutes`, `ShuffledLength` and `ShuffledDeck` state what it keeps |
| RoundRules.ShuffledPermutes | gameplay.py:55 | shuffling keeps the same cards, as many of each |
| RoundRules.ShuffledLength | gameplay.py:55 | shuffling keeps the number of cards |
| RoundRules.ShuffledDeck | gameplay.py:54-55 | a shuffled fresh deck has 24 cards, each card once |
| Engine.EveryCardOnceIsFullDeck | gameplay.py:54 | holding every card exactly once is holding the built deck's cards |
| Engine.ShuffledFreshDeck | gameplay.py:747-748 | the shuffled deck has 24 cards |
| Engine.DealFrom | gameplay.py:57-96 | the deal from a shuffled deck; see `DealConserves` and `DealBag` |
| Engine.DealConserves | gameplay.py:57-65 | the deal gives six cards to each side, one face-up trump (`d[11]`, whose suit is trump) and eleven to the stock, and keeps all the cards |
| Engine.DealBag | gameplay.py:57-65 | the dealt state holds exactly the cards of the deck |
| Engine.NewRoundDeals | gameplay.py:743-771 | `reset_round`: every card once, 6/6/11, zero round points and tricks, first phase, human leads, game points kept |
| Engine.InitialDeals | gameplay.py:53-96 | `__init__`: the same deal, no game points, empty slots, the human to lead |
| Engine.CloseGame | gameplay.py:774-781 | `close_game`; see `CloseGameRules` |
| Engine.CloseGameRules | gameplay.py:774-781 | closing ends the first phase and marks the round closed; no card moves and no score changes |
| Engine.AnnounceMarriage | gameplay.py:801-808 | `announce_marriage`; see `AnnounceMarriageRules` |
| Engine.AnnounceMarriageRules | gameplay.py:801-808 | a marriage becomes pending exactly when the human leads; nothing else changes |
| Engine.SwitchTrump | gameplay.py:783-799 | corrected `switch_trump`; see `SwitchTrumpRules` and `SwitchTrumpConserves` |
| Engine.SwitchTrumpRules | gameplay.py:783-799 | switching happens exactly when the human leads, holds the nine of trumps and a trump is face up; then the nine is face up, the first nine leaves the hand with the rest in order and the old trump card is appended at the end (same hand size, same bag but for the swap); the trump suit and every other field, the human's points, tricks and marriages included, stay; otherwise nothing changes |
| Engine.SwitchTrumpConserves | gameplay.py:783-799 | switching keeps every card, and keeps a consistent state consistent |
| Engine.SwitchTrumpAsWritten | gameplay.py:789-796 | `switch_trump` as written; see `SwitchTrumpAsWrittenPutsNone` |
| Engine.SwitchTrumpAsWrittenPutsNone | gameplay.py:789-796 | as written, once the trump card is drawn, switching puts `None` into the hand |
| Engine.DrawFrom | gameplay.py:633-652 | the two draws after a trick; see `DrawFromRules` and `DrawFromConserves` |
| Engine.DrawFromRules | gameplay.py:633-652 | two or more cards: the winner takes the top and the loser the next one; last card: the winner takes it, and the loser takes the face-up trump (if any), which adds 10 to the winner; nothing else of either side changes |
| Engine.DrawFromConserves | gameplay.py:633-652 | a draw keeps the cards of the stock, the trump slot and both sides |
| Engine.Draw | gameplay.py:626-656 | `draw_cards`; see `DrawRules`, `DrawConserves`, `DrawKeepsTrump` and `DrawKeepsSlots` |
| Engine.DrawRules | gameplay.py:626-656 | `draw_cards` changes only hands, stock, trump slot, the winner's points and the phase; the first phase ends exactly when the stock is empty |
| Engine.DrawConserves | gameplay.py:626-656 | drawing keeps every card in the game |
| Engine.DrawKeepsTrump | gameplay.py:638-648 | after a draw any face-up card is still a trump |
| Engine.DrawKeepsSlots | gameplay.py:626-656 | drawing leaves slots, won piles, tricks and turn alone |
| Engine.Settle | gameplay.py:547-568 | the trick's collection by its winner; see `SettleRules`, `SettleEmpties` and `SettleConserves` |
| Engine.SettleRules | gameplay.py:547-568 | the `determine_trick_winner` side gains the trick's points, one trick and both cards, and leads; the loser only empties its slot; the total points rise by the trick |
| Engine.SettleEmpties | gameplay.py:566-568 | after settling both slots are empty, the trick is over, and hands, stock and trump stay |
| Engine.SettleConserves | gameplay.py:556-567 | settling moves the two played cards to the winner's pile and keeps every card |
| Engine.WithSidesFrame | gameplay.py:550-562 | setting the two sides changes nothing else |
| Engine.RestoreRules | gameplay.py:633-656 | putting a draw table back sets stock, trump slot, sides and phase only |
| Turns.CheckRoundEnd | gameplay.py:658-741 | `check_round_end`; see `CheckRoundEndScores`, `CheckRoundEndMatchOver`, `CheckRoundEndDeals` and `CheckRoundEndConserves` |
| Turns.CheckRoundEndScores | gameplay.py:658-741 | a round in play is left alone; a finished one adds `RoundAward` to the game points, clears the closed flag, and the match is over exactly when a side has 11 |
| Turns.CheckRoundEndMatchOver | gameplay.py:736-739 | at match end only the game points and the two flags change |
| Turns.CheckRoundEndDeals | gameplay.py:740-771 | otherwise a new round of all 24 cards is dealt, 6/6/11, zero round points and tricks, the human to lead |
| Turns.CheckRoundEndConserves | gameplay.py:658-771 | ending a round keeps the cards consistent; empty slots and an open trick stay so |
| Turns.ComputerLeadAsWritten | gameplay.py:499-539 | `computer_lead` as written for the returns at gameplay.py:508 and :532; the lead itself uses the corrected `ComputerMove`, whose card leaves the hand; see `ComputerLeadAsWrittenStalls` and `StalledLeadRaises` |
| Turns.ComputerLeadAsWrittenStalls | gameplay.py:499-532 | as written, during an announcement or after announcing, the computer does not lead: slot, hand, turn and human unchanged |
| Turns.BookkeepingFrame | gameplay.py:502-532 | the announcement steps touch only the announcement, its time and the computer's suits and points |
| Turns.ExpireFrame | gameplay.py:503-514 | expiry touches only the announcement and the computer's suits |
| Turns.AnnounceFrame | gameplay.py:525-529 | announcing touches only the announcement, its time and the computer's points |
| Turns.ComputerLead | gameplay.py:499-539 | corrected `computer_lead`; see `ComputerLeadMarriage`, `ComputerLeadPlays` and `ComputerLeadConserves` |
| Turns.ComputerLeadMarriage | gameplay.py:499-532 | nothing is announced while one is shown; an expired one is recorded and cleared; then the first available suit in H, D, C, S is announced for 40/20 |
| Turns.ComputerLeadPlays | gameplay.py:534-539 | corrected: the computer always ends up leading, with a held card taken from its hand when it has one; the human and the table stay |
| Turns.ComputerLeadConserves | gameplay.py:534-539 | a lead into an empty slot keeps every card and the face-up trump |
| Turns.AnsweredRules | gameplay.py:472 | corrected (the corrected `ComputerMove`, not the copy of gameplay.py:472): the computer's answer moves a held card from hand to slot whenever it holds one |
| Turns.SlotFilled | gameplay.py:472 | the answer into an empty slot keeps the side's cards |
| Turns.PlayerLead | gameplay.py:465-475 | `player_lead`, with the computer's answer by the corrected `ComputerMove` (its card leaves the hand, unlike gameplay.py:472); see `PlayerTurnRules` and `PlayerLeadConserves` |
| Turns.PlayerFollow | gameplay.py:477-483 | `player_follow`; see `PlayerTurnRules` and `HumanPlaysConserves` |
| Turns.PlayerTurnRules | gameplay.py:465-483 | the clicked card is played and the rest keeps its order; leading makes the computer answer; the trick is then ready |
| Turns.HumanPlaysConserves | gameplay.py:470 | the human's card moves from hand to slot; no card made or lost |
| Turns.PlayerLeadConserves | gameplay.py:465-475 | leading into two empty slots keeps every card |
| Turns.ClickCard | gameplay.py:373-463 | a click on the human's card; see `ClickCardRules`, `ClickCardConserves` and `ClickCardKeepsTrump` |
| Turns.ClickCardRules | gameplay.py:373-463 | a click: nothing while a trick is ready or off the cards; a pending marriage is settled without moving a card; a refused card changes nothing; an allowed card is led or followed |
| Turns.ClickCardConserves | gameplay.py:373-463 | a click into empty slots keeps every card |
| Turns.MarriageClickFrame | gameplay.py:398-430 | settling a marriage touches only the announcement, the pending flag and the human's suits and points |
| Turns.MarriageClickConserves | gameplay.py:398-430 | settling a marriage moves no card |
| Turns.ClickCardKeepsTrump | gameplay.py:373-463 | a click leaves the face-up card and the trump suit |
| Turns.ResolveTrick | gameplay.py:541-575 | `resolve_trick`; see `CollectedConserves` and `NextLeadConserves` |
| Turns.CollectedConserves | gameplay.py:547-572 | collecting a trick keeps the cards consistent, empties both slots and closes the trick |
| Turns.NextLeadConserves | gameplay.py:573-575 | the next lead keeps the cards consistent and leaves the human's slot empty |
| Turns.EndTrick | gameplay.py:366-370 | the End Trick button; see `EndTrickRules` |
| Turns.EndTrickRules | gameplay.py:366-370 | End Trick raises `TypeError` exactly when a slot of a ready trick is empty, and then changes nothing; otherwise it keeps consistency |
| Turns.StalledLeadRaises | gameplay.py:499-539 | as written, after a stalled lead the human's card is taken as a follow to an empty trick and End Trick raises `TypeError` |
| Play.InitialPlayable | gameplay.py:53-96 | the first deal is playable |
| Play.CloseGamePlayable | gameplay.py:774-781 | closing keeps a state playable |
| Play.AnnounceMarriagePlayable | gameplay.py:801-808 | starting a marriage keeps a state playable |
| Play.SwitchTrumpPlayable | gameplay.py:783-799 | switching keeps a state playable |
| Play.ClickCardPlayable | gameplay.py:373-463 | a click keeps a state playable |
| Play.ClickCardShape | gameplay.py:373-463 | a click keeps the stock and the table in shape |
| Play.ClickCardConsistent | gameplay.py:373-463 | a click while no trick is ready keeps every card once and the trump face up |
| Play.LeadShape | gameplay.py:465-475 | leading from equal hands leaves a ready trick with both cards and equal hands |
| Play.FollowShape | gameplay.py:477-483 | following leaves a ready trick with both cards and equal hands |
| Play.MarriageClickShape | gameplay.py:398-430 | settling a marriage keeps the turn's shape |
| Play.EndTrickPlayable | gameplay.py:366-370 | in a playable state End Trick never raises and keeps the state playable |
| Play.CollectedShape | gameplay.py:547-572 | collecting from equal hands leaves equal hands, empty slots and the stock's shape |
| Play.DrawBalanced | gameplay.py:626-656 | with the trump under the stock, both hands draw one card or neither draws |
| Play.DrawOneEach | gameplay.py:633-652 | from a stock over the trump card each side draws exactly one card |
| Play.RoundEndShape | gameplay.py:658-741 | ending a round from equal hands keeps equal hands and the stock's shape |
| Play.NextLeadShape | gameplay.py:573-575 | the next lead from equal hands gives the turn its shape |
| Round.PopCards | gameplay.py:58 | `[deck.pop() for _ in range(k)]`: the last `k` cards, top first, and the rest |
| Round.PopThree | gameplay.py:58-61 | three pops take the last three cards, top first |
| Round.Deal | gameplay.py:57-65 | the human gets `d[23..21] + d[17..15]`, the computer `d[20..18] + d[14..12]`, the trump is `d[11]`, the stock `d[..11]` |
| Round.DealtState | gameplay.py:57-96 | the laid-out deal with the reset flags is `DealFrom` |
| Round.DrawFromStock | gameplay.py:633-652 | the draw, run on the table, is `DrawFrom` |
| Round.FindMarriage | gameplay.py:516-524 | the suit loop finds `FirstMarriage`: an available suit if any, and none exactly when none is available |
| Round.GamePlay.constructor | gameplay.py:13-96 | the new game's state is `Initial(picks)`, which is playable (`InitialPlayable`) |
| Round.GamePlay.ResetRound | gameplay.py:743-771 | the new state is `NewRound` of the old one: a fresh deal of all 24 cards (`NewRoundDeals`) |
| Round.GamePlay.DealRound | gameplay.py:747-771 | dealing `d` leaves `DealFrom(d, ...)` with game points and match flag kept |
| Round.GamePlay.LayHands | gameplay.py:749-758 | the dealt hands replace both sides; only game points are kept |
| Round.GamePlay.ResetTurn | gameplay.py:759-771 | the round flags of a new round |
| Round.GamePlay.ResetTrick | gameplay.py:759-763 | first phase, human leads, no trick, not closed |
| Round.GamePlay.ClearMarriage | gameplay.py:764-766 | no marriage pending or shown |
| Round.GamePlay.CloseGame | gameplay.py:774-781 | the new state is `Engine.CloseGame` of the old one, so the phase ends, the round is closed and no card moves (`CloseGameRules`) |
| Round.GamePlay.AnnounceMarriage | gameplay.py:801-808 | the new state is `Engine.AnnounceMarriage` of the old one: a marriage is pending exactly when the human leads |
| Round.GamePlay.SwitchTrump | gameplay.py:783-799 | the new state is `Engine.SwitchTrump` of the old one: the nine and the face-up trump change places under the conditions of `SwitchTrumpRules` |
| Round.GamePlay.DrawCards | gameplay.py:626-656 | the new state is `Draw(old, winner)`, which keeps every card (`DrawConserves`) |
| Round.GamePlay.SetSides | gameplay.py:550-562 | the two sides are replaced and nothing else changes |
| Round.GamePlay.SettleTrick | gameplay.py:547-568 | the new state is `Settle` of the old one: the trick goes to `determine_trick_winner`'s side (`SettleRules`) |
| Round.GamePlay.CheckRoundEnd | gameplay.py:658-741 | the new state is `Turns.CheckRoundEnd` of the old one: scored, then match over or a fresh deal |
| Round.GamePlay.ScoreRound | gameplay.py:676-734 | the new state adds `RoundAward` to the game points and clears the closed flag (`Scored`) |
| Round.GamePlay.ComputerLead | gameplay.py:499-539 | the new state is the corrected `Turns.ComputerLead` of the old one, in which the computer always leads (`ComputerLeadPlays`) |
| Round.GamePlay.RecordExpired | gameplay.py:503-514 | the new state is `Expire` of the old one: an announcement no longer shown is recorded and cleared |
| Round.GamePlay.AnnounceOwn | gameplay.py:516-532 | the computer announces `ComputerMarriage` if there is one |
| Round.GamePlay.LeadCard | gameplay.py:534-539 | the new state is `ComputerPlays` of the old one: the computer's move is led from its hand |
| Round.GamePlay.PlayerLead | gameplay.py:465-475 | the new state is `Turns.PlayerLead` of the old one (`PlayerTurnRules`) |
| Round.GamePlay.PlayerFollow | gameplay.py:477-483 | the new state is `Turns.PlayerFollow` of the old one (`PlayerTurnRules`) |
| Round.GamePlay.ClickCard | gameplay.py:373-463 | the new state is `Turns.ClickCard` of the old one, which keeps a state playable (`ClickCardPlayable`) |
| Round.GamePlay.SelectMarriage | gameplay.py:398-430 | the new state is `MarriageClick` of the old one: a marriage is settled and no card moves |
| Round.GamePlay.ResolveTrick | gameplay.py:541-575 | the outcome and new state are `Turns.ResolveTrick` of the old state |
| Round.GamePlay.EndTrick | gameplay.py:366-370 | the outcome and new state are `Turns.EndTrick` of the old state, which never raises from a playable state (`EndTrickPlayable`) |
| Players.LogicFor | player.py:82-89 | "JustRandom" and "TrickBasedGreedy" install their strategies, any other name none |
| Players.SwapKeepsHandSize | player.py:71-75 | trading the nine for the trump card keeps the hand's size and swaps exactly those two cards |
| Players.HumanPlayer.constructor | player.py:8-15 | an empty hand, nothing played or won, 0 points and tricks, no marriages |
| Players.HumanPlayer.PlayCard | player.py:43-55 | valid index: returns `hand[i]`, removes exactly that position (order kept) and records it as played; otherwise `None`, nothing changes |
| Players.HumanPlayer.SwitchTrump | player.py:66-78 | with the nine: it leaves, `current_trump` is appended, the length stays, the nine is returned; otherwise `None` and the hand unchanged |
| Players.AIPlayer.constructor | player.py:82-89 | the `Player` fields plus the strategy for the name |
| Players.AIPlayer.SetStrategyLogic | player.py:91-95 | the given strategy is installed |
| Players.AIPlayer.PlayCard | player.py:97-106 | no strategy: `ValueError`; `JustRandom`: its pick is returned and recorded; `TrickBasedGreedy`: raises exactly on an empty hand (`ValueError` following, `IndexError` leading) and then changes neither the hand nor the played card; otherwise plays `GreedyPlay`'s card, the `GreedyFollowChoice` follow with the hand kept or the median-by-value lead removed from the hand, recorded as played |
| Players.AIPlayer.SwitchTrump | player.py:116-122 | always `None`, nothing changes |

## Left out

- Rendering, zones, images, messages, the shake animation, buttons' hit-testing and card hit-testing: a click is the card's index. The message strings are not modelled.
- The clearing of an expired announcement during `draw` (gameplay.py:251-264). `draw` runs every frame, and its clearing does not add the suit to the computer's announced suits, as `computer_lead` does (gameplay.py:510-514). The model expires an announcement only at the next `computer_lead` (`Turns.Expire`), where the suit is recorded. So it does not capture an announcement that rendering clears unrecorded, after which the computer may announce the same suit again.
- Logging and `print`.
- Every engine step in which the computer plays a card (`Turns.Answered`, `Turns.ComputerPlays`, so `PlayerLead`, `ComputerLead`, `ComputerLeadAsWritten` and the `Round.GamePlay` methods) uses the corrected `RoundRules.ComputerMove`, whose card leaves the hand. The copy that keeps the card in hand (gameplay.py:472 and :536) is modelled only by `RoundRules.ComputerMoveAsWritten`, because a card both in hand and in the slot breaks the every-card-once invariant the other proofs rest on.
- game.py's event loop and `MARRIAGE_DONE_EVENT` (game.py:126-137). No code starts that timer: game.py only cancels it (`set_timer(MARRIAGE_DONE_EVENT, 0)`, game.py:131), so nothing else makes the computer lead after a marriage.
- game.py itself is not part of this model.
- ui.py, stats_logger.py, log_config.py and utils.py are not part of this model.
- Randomness is modelled by its results:
  - `random.shuffle`, `random.choice` and `random.sample` are explicit picks.
  - The search's sampler reads an oracle keyed by the node's position in the tree.
- The clock is the `now` parameter.
- Exact floating-point averages: average values are `real`.
- The search's cost.
- `Search.Play`: requires `maxDepth >= 1` (the default is 40). With a depth of 0 or less, the Python recursion is bounded only by emptying hands, and it is not modelled.
- The `Expectiminimax` constructor's defaults (40, 100): `maxDepth` and `samples` are parameters.
- `Player.play_card`, `announce_marriage` and `switch_trump` of the abstract base: each only raises `NotImplementedError`.
- `HumanPlayer.announce_marriage` and `AIPlayer.announce_marriage`: they only log.
- `Players.AIPlayer.PlayCard`: it plays only the two strategy kinds the constructor installs.
  - An `Expectiminimax` object installed through `set_strategy_logic` is not modelled there.
  - `Search.Play` models that strategy's move on its own.
- The state dictionary `get_game_state` builds is not a record here:
  - the engine's `JustRandom` gets no led suit (the dictionary lacks `allowed_suit`);
  - the AI's own dictionary is `AIStates.AIState`.
- `marriage_time = None` is modelled as 0. It is read only while an announcement is up, and every announcement sets it.
- `trump_card ... if self.deck else None` at the deal: a 24-card deal always leaves a trump card, so `trump_suit` is a `Suit` and never `None`.
- `Play.StockShape` does not record that the stock holds an odd number of cards, or that no trump card is left once the stock is empty. The balanced draws do not need either fact.
- The `else: "Tie trick!"` branch of `resolve_trick` (gameplay.py:563-564): `determine_trick_winner` always names a side.
- `HumanPlayer.SwitchTrump` takes `current_trump` as a card, so it does not model appending `None`. The engine's own `switch_trump` does model it (`Engine.SwitchTrumpAsWritten`).

## Findings

| source | as written | input that shows it | evidently intended | confidence | as-written member | corrected member |
|---|---|---|---|---|---|---|
| gameplay.py:472 | `self.computer_played = self.opponent.play(state, self.computer_hand)`. Neither `JustRandom.play` nor `player_lead`/`computer_lead` removes the card from `computer_hand` (also at gameplay.py:536). | The computer holds `[K♥]` and answers with K♥. K♥ is in its slot and still in its hand, so its hand never shrinks and the round cannot end. | The played card leaves the computer's hand, as the human's does with `pop`. | not executed | RoundRules.ComputerMoveAsWrittenKeepsCard | RoundRules.ComputerMoveConserves |
| gameplay.py:789-796 | `switch_trump` appends `self.trump_card` whenever the nine of trumps is in hand. | The last stock card has been drawn, so `trump_card` is `None`. The leading human holds the nine of trumps: the nine leaves the hand and `None` joins it. | Exchange only while a trump card is face up. | not executed | Engine.SwitchTrumpAsWrittenPutsNone | Engine.SwitchTrumpConserves |
| gameplay.py:499-539 | `computer_lead` returns without leading while an announcement is shown (line 508) and right after announcing its own marriage (line 532). | The computer wins a trick holding K♥ and Q♥, with ♥ unannounced. It announces and returns. The human's next card is taken as a follow (`player_follow`). End Trick then indexes the empty `computer_played` and raises `TypeError`. | After the announcement the computer leads a card. | not executed | Turns.StalledLeadRaises | Turns.ComputerLeadPlays |
