/** The two simple strategies of ai.py: `JustRandom` and `TrickBasedGreedy`. */
module Strategies {
  import opened Wrappers
  import opened Cards
  import opened Lists
  import opened Rules
  import opened Hands

  // ---------------------------------------------------------------------------
  // JustRandom
  // ---------------------------------------------------------------------------

  /**
   * `JustRandom.play`: `None` for an empty hand, otherwise the move that
   * `random.choice` picks from the legal moves; the random choice is `pick`
   * taken modulo the number of legal moves. The hand is not changed.
   */
  function JustRandomPlay(allowed: Option<Suit>, trump: Suit, hand: seq<Card>, pick: nat): (r: Option<Card>)
    ensures r.None? <==> hand == []
    ensures r.Some? ==> r.value in ValidMoves(hand, allowed, trump)
  {
    if hand == [] then None
    else
      ValidMovesMeaning(hand, allowed, trump);
      var moves := ValidMoves(hand, allowed, trump);
      var moves' := if moves == [] then hand else moves;
      Some(moves'[pick % |moves'|])
  }

  /** Every legal move is the result of some random choice. */
  lemma JustRandomCanPickAnyValidMove(allowed: Option<Suit>, trump: Suit, hand: seq<Card>, c: Card)
    requires c in ValidMoves(hand, allowed, trump)
    ensures exists pick: nat :: JustRandomPlay(allowed, trump, hand, pick) == Some(c)
  {
    var moves := ValidMoves(hand, allowed, trump);
    assert hand != [] by { assert |moves| <= |hand|; }
    var k := IndexOf(moves, c);
    SmallMod(k, |moves|);
    assert JustRandomPlay(allowed, trump, hand, k) == Some(c);
  }

  lemma SmallMod(k: nat, n: nat)
    requires k < n
    ensures k % n == k
  {
  }

  // ---------------------------------------------------------------------------
  // TrickBasedGreedy, following
  // ---------------------------------------------------------------------------

  /** The test the follow loop applies: `leader_card and card_wins(...)`. */
  predicate Beats(c: Card, leader: Option<Card>, trump: Suit, allowed: Suit)
  {
    leader.Some? && CardWins(c, leader.value, trump, allowed)
  }

  /** `winning_moves` after the loop has seen `moves`: the beating moves in order. */
  function WinningMoves(moves: seq<Card>, leader: Option<Card>, trump: Suit, allowed: Suit): (w: seq<Card>)
  {
    if moves == [] then []
    else
      var last := moves[|moves| - 1];
      assert moves == moves[..|moves| - 1] + [last];
      WinningMoves(moves[..|moves| - 1], leader, trump, allowed)
        + (if Beats(last, leader, trump, allowed) then [last] else [])
  }

  /** `losing_moves` after the loop has seen `moves`: the other moves in order. */
  function LosingMoves(moves: seq<Card>, leader: Option<Card>, trump: Suit, allowed: Suit): (l: seq<Card>)
  {
    if moves == [] then []
    else
      var last := moves[|moves| - 1];
      assert moves == moves[..|moves| - 1] + [last];
      LosingMoves(moves[..|moves| - 1], leader, trump, allowed)
        + (if Beats(last, leader, trump, allowed) then [] else [last])
  }

  /** The winning moves are exactly the moves that beat the leader's card. */
  lemma {:induction false} WinningMovesMembers(moves: seq<Card>, leader: Option<Card>, trump: Suit, allowed: Suit)
    ensures forall c :: c in WinningMoves(moves, leader, trump, allowed) <==> c in moves && Beats(c, leader, trump, allowed)
  {
    if moves != [] {
      var init := moves[..|moves| - 1];
      WinningMovesMembers(init, leader, trump, allowed);
      assert moves == init + [moves[|moves| - 1]];
    }
  }

  /** Without a beating move every move is a losing move, in the same order. */
  lemma {:induction false} NoWinnerAllLose(moves: seq<Card>, leader: Option<Card>, trump: Suit, allowed: Suit)
    requires WinningMoves(moves, leader, trump, allowed) == []
    ensures LosingMoves(moves, leader, trump, allowed) == moves
  {
    if moves != [] {
      var init := moves[..|moves| - 1];
      assert WinningMoves(init, leader, trump, allowed) == [];
      NoWinnerAllLose(init, leader, trump, allowed);
      assert moves == init + [moves[|moves| - 1]];
    }
  }

  /** `c` is what Python's `max(s, key=CARD_VALUES)` returns: the first card of greatest value. */
  predicate IsFirstMax(s: seq<Card>, c: Card)
  {
    exists k :: 0 <= k < |s| && s[k] == c
      && (forall j :: 0 <= j < |s| ==> CardValue(s[j]) <= CardValue(c))
      && (forall j :: 0 <= j < k ==> CardValue(s[j]) < CardValue(c))
  }

  /** `c` is what Python's `min(s, key=CARD_VALUES)` returns: the first card of least value. */
  predicate IsFirstMin(s: seq<Card>, c: Card)
  {
    exists k :: 0 <= k < |s| && s[k] == c
      && (forall j :: 0 <= j < |s| ==> CardValue(c) <= CardValue(s[j]))
      && (forall j :: 0 <= j < k ==> CardValue(c) < CardValue(s[j]))
  }

  /** `max(s, key=...)` over a non-empty list, keeping the first maximal card. */
  method MaxByValue(s: seq<Card>) returns (best: Card)
    requires s != []
    ensures IsFirstMax(s, best)
  {
    best := s[0];
    var bi := 0;
    for k := 1 to |s|
      invariant 0 <= bi < k && s[bi] == best
      invariant forall j :: 0 <= j < k ==> CardValue(s[j]) <= CardValue(best)
      invariant forall j :: 0 <= j < bi ==> CardValue(s[j]) < CardValue(best)
    {
      if CardValue(s[k]) > CardValue(best) {
        best, bi := s[k], k;
      }
    }
  }

  /** `min(s, key=...)` over a non-empty list, keeping the first minimal card. */
  method MinByValue(s: seq<Card>) returns (best: Card)
    requires s != []
    ensures IsFirstMin(s, best)
  {
    best := s[0];
    var bi := 0;
    for k := 1 to |s|
      invariant 0 <= bi < k && s[bi] == best
      invariant forall j :: 0 <= j < k ==> CardValue(best) <= CardValue(s[j])
      invariant forall j :: 0 <= j < bi ==> CardValue(best) < CardValue(s[j])
    {
      if CardValue(s[k]) < CardValue(best) {
        best, bi := s[k], k;
      }
    }
  }

  /** The follow loop: every legal move goes to `winning_moves` if it beats the leader's card, else to `losing_moves`. */
  method SplitMoves(moves: seq<Card>, leader: Option<Card>, trump: Suit, allowed: Suit)
    returns (winning: seq<Card>, losing: seq<Card>)
    ensures winning == WinningMoves(moves, leader, trump, allowed)
    ensures losing == LosingMoves(moves, leader, trump, allowed)
  {
    winning, losing := [], [];
    for i := 0 to |moves|
      invariant winning == WinningMoves(moves[..i], leader, trump, allowed)
      invariant losing == LosingMoves(moves[..i], leader, trump, allowed)
    {
      var card := moves[i];
      var seen := moves[..i + 1];
      assert seen[..|seen| - 1] == moves[..i] && seen[|seen| - 1] == card;
      if Beats(card, leader, trump, allowed) {
        winning := winning + [card];
      } else {
        losing := losing + [card];
      }
    }
    assert moves[..|moves|] == moves;
  }

  /**
   * The card `TrickBasedGreedy` follows with: a legal move that is the first
   * highest-value winning move when some legal move beats the leader's
   * card, and otherwise the first lowest-value legal move.
   */
  predicate GreedyFollowChoice(c: Card, hand: seq<Card>, allowed: Suit, trump: Suit, leader: Option<Card>)
  {
    var moves := ValidMoves(hand, Some(allowed), trump);
    var winning := WinningMoves(moves, leader, trump, allowed);
    && c in moves
    && (winning != [] ==> Beats(c, leader, trump, allowed) && IsFirstMax(winning, c))
    && (winning == [] ==> IsFirstMin(moves, c))
  }

  /**
   * `TrickBasedGreedy.play` in following mode (a led suit is set): among the
   * legal moves, the highest-value move that beats the leader's card, or
   * else the lowest-value legal move. `min` of an empty list raises, which
   * happens exactly for an empty hand.
   */
  method GreedyFollow(allowed: Suit, trump: Suit, leader: Option<Card>, hand: seq<Card>)
    returns (r: Result<Card>)
    ensures r.Err? <==> hand == []
    ensures r.Err? ==> r.error == ValueError
    ensures r.Ok? ==> r.value in ValidMoves(hand, Some(allowed), trump)
    ensures r.Ok? && WinningMoves(ValidMoves(hand, Some(allowed), trump), leader, trump, allowed) != [] ==>
      Beats(r.value, leader, trump, allowed)
      && IsFirstMax(WinningMoves(ValidMoves(hand, Some(allowed), trump), leader, trump, allowed), r.value)
    ensures r.Ok? && WinningMoves(ValidMoves(hand, Some(allowed), trump), leader, trump, allowed) == [] ==>
      IsFirstMin(ValidMoves(hand, Some(allowed), trump), r.value)
  {
    var validMoves := ValidMoves(hand, Some(allowed), trump);
    var winning, losing := SplitMoves(validMoves, leader, trump, allowed);
    if winning != [] {
      var best := MaxByValue(winning);
      WinningMovesMembers(validMoves, leader, trump, allowed);
      assert best in winning;
      r := Ok(best);
    } else if losing != [] {
      NoWinnerAllLose(validMoves, leader, trump, allowed);
      var best := MinByValue(losing);
      assert best in losing;
      r := Ok(best);
    } else {
      NoWinnerAllLose(validMoves, leader, trump, allowed);
      r := Err(ValueError);
    }
  }

  // ---------------------------------------------------------------------------
  // TrickBasedGreedy, leading
  // ---------------------------------------------------------------------------

  /** `[c for c in hand if c[0] == r]`. */
  function OfRank(hand: seq<Card>, r: Rank): seq<Card>
  {
    if hand == [] then []
    else (if hand[0].rank == r then [hand[0]] else []) + OfRank(hand[1..], r)
  }

  /** `OfRank` keeps cards of the hand that have rank `r`. */
  lemma {:induction false} OfRankMembers(hand: seq<Card>, r: Rank)
    ensures forall c :: c in OfRank(hand, r) ==> c in hand && c.rank == r
  {
    if hand != [] {
      OfRankMembers(hand[1..], r);
    }
  }

  /** The cards of `hand` whose rank is at position `k` or later in the rank order. */
  function RanksFrom(hand: seq<Card>, k: nat): (g: seq<Card>)
  {
    if hand == [] then []
    else (if RankIndex(hand[0].rank) >= k then [hand[0]] else []) + RanksFrom(hand[1..], k)
  }

  /**
   * The cards of `hand` stably sorted by value, restricted to ranks at
   * position `k` or later: one group per rank, each group in hand order.
   * Values strictly increase along the rank order, so grouping by rank is
   * sorting by value, and keeping hand order within a group is stability.
   */
  function SortFrom(hand: seq<Card>, k: nat): seq<Card>
    requires k <= 6
    decreases 6 - k
  {
    if k == 6 then [] else OfRank(hand, Ranks[k]) + SortFrom(hand, k + 1)
  }

  /** `sorted(hand, key=lambda c: CARD_VALUES[c[0]])`. */
  function SortedByValue(hand: seq<Card>): seq<Card>
  {
    SortFrom(hand, 0)
  }

  lemma {:induction false} RanksFromSplit(hand: seq<Card>, k: nat)
    requires k < 6
    ensures multiset(RanksFrom(hand, k)) == multiset(OfRank(hand, Ranks[k])) + multiset(RanksFrom(hand, k + 1))
  {
    if hand != [] {
      var c, rest := hand[0], hand[1..];
      RanksFromSplit(rest, k);
      RankAtIndex(k);
      var here := if RankIndex(c.rank) >= k then [c] else [];
      var same := if c.rank == Ranks[k] then [c] else [];
      var above := if RankIndex(c.rank) >= k + 1 then [c] else [];
      assert RanksFrom(hand, k) == here + RanksFrom(rest, k);
      assert OfRank(hand, Ranks[k]) == same + OfRank(rest, Ranks[k]);
      assert RanksFrom(hand, k + 1) == above + RanksFrom(rest, k + 1);
      assert multiset(here) == multiset(same) + multiset(above);
      Regroup(multiset(here), multiset(same), multiset(above),
              multiset(RanksFrom(rest, k)), multiset(OfRank(rest, Ranks[k])), multiset(RanksFrom(rest, k + 1)));
    }
  }

  lemma Regroup<T>(h: multiset<T>, a: multiset<T>, b: multiset<T>, x: multiset<T>, y: multiset<T>, z: multiset<T>)
    requires h == a + b && x == y + z
    ensures h + x == (a + y) + (b + z)
  {
  }

  lemma {:induction false} RanksFromAll(hand: seq<Card>)
    ensures RanksFrom(hand, 0) == hand
    ensures RanksFrom(hand, 6) == []
  {
    if hand != [] {
      RanksFromAll(hand[1..]);
      assert hand == [hand[0]] + hand[1..];
    }
  }

  lemma {:induction false} SortFromPermutes(hand: seq<Card>, k: nat)
    requires k <= 6
    ensures multiset(SortFrom(hand, k)) == multiset(RanksFrom(hand, k))
    decreases 6 - k
  {
    if k == 6 {
      RanksFromAll(hand);
    } else {
      SortFromPermutes(hand, k + 1);
      RanksFromSplit(hand, k);
    }
  }

  /** Every card of `SortFrom(hand, k)` has a rank at position `k` or later. */
  lemma {:induction false} SortFromRanks(hand: seq<Card>, k: nat)
    requires k <= 6
    ensures forall c :: c in SortFrom(hand, k) ==> RankIndex(c.rank) >= k
    decreases 6 - k
  {
    if k < 6 {
      SortFromRanks(hand, k + 1);
      RankAtIndex(k);
      var g, rest := OfRank(hand, Ranks[k]), SortFrom(hand, k + 1);
      OfRankMembers(hand, Ranks[k]);
      assert SortFrom(hand, k) == g + rest;
      forall c: Card | c in g + rest ensures RankIndex(c.rank) >= k {
        if c in g {
          assert c.rank == Ranks[k];
        } else {
          assert c in rest;
        }
      }
    }
  }

  /** Values never decrease along `s`. */
  predicate ValueSorted(s: seq<Card>)
  {
    forall i, j :: 0 <= i < j < |s| ==> CardValue(s[i]) <= CardValue(s[j])
  }

  lemma ConcatValueSorted(a: seq<Card>, b: seq<Card>)
    requires ValueSorted(a) && ValueSorted(b)
    requires forall x, y :: x in a && y in b ==> CardValue(x) <= CardValue(y)
    ensures ValueSorted(a + b)
  {
    var s := a + b;
    forall i, j | 0 <= i < j < |s| ensures CardValue(s[i]) <= CardValue(s[j]) {
      if j < |a| {
        assert s[i] == a[i] && s[j] == a[j];
      } else if i < |a| {
        assert s[i] == a[i] && a[i] in a && s[j] == b[j - |a|] && b[j - |a|] in b;
      } else {
        assert s[i] == b[i - |a|] && s[j] == b[j - |a|];
      }
    }
  }

  /** Values never decrease along `SortFrom(hand, k)`. */
  lemma {:induction false} SortFromSorted(hand: seq<Card>, k: nat)
    requires k <= 6
    ensures ValueSorted(SortFrom(hand, k))
    decreases 6 - k
  {
    if k < 6 {
      SortFromSorted(hand, k + 1);
      SortFromRanks(hand, k + 1);
      var g, rest := OfRank(hand, Ranks[k]), SortFrom(hand, k + 1);
      OfRankMembers(hand, Ranks[k]);
      assert ValueSorted(g) by {
        forall i, j | 0 <= i < j < |g| ensures CardValue(g[i]) <= CardValue(g[j]) {
          assert g[i] in g && g[j] in g;
        }
      }
      forall x, y | x in g && y in rest ensures CardValue(x) <= CardValue(y) {
        ValueOrderMatchesRankOrder(x.rank, y.rank);
      }
      ConcatValueSorted(g, rest);
    }
  }

  /** The stable sort is a permutation of the hand, ordered by value. */
  lemma SortedByValueIsSortedPermutation(hand: seq<Card>)
    ensures multiset(SortedByValue(hand)) == multiset(hand)
    ensures |SortedByValue(hand)| == |hand|
    ensures ValueSorted(SortedByValue(hand))
  {
    SortFromPermutes(hand, 0);
    RanksFromAll(hand);
    SortFromSorted(hand, 0);
    assert |multiset(SortedByValue(hand))| == |multiset(hand)|;
  }

  /**
   * The sort is stable: for every rank, the cards of that rank appear in
   * the sorted hand in the order they have in the hand. Cards of equal
   * value are exactly the cards of equal rank, so this is Python's
   * guarantee that `sorted` keeps equal keys in their original order, and
   * it fixes which card sits at the median index.
   */
  lemma SortedByValueIsStable(hand: seq<Card>, r: Rank)
    ensures OfRank(SortedByValue(hand), r) == OfRank(hand, r)
  {
    SortFromOfRank(hand, 0, r);
  }

  lemma {:induction false} OfRankAppend(a: seq<Card>, b: seq<Card>, r: Rank)
    ensures OfRank(a + b, r) == OfRank(a, r) + OfRank(b, r)
  {
    if a == [] {
      assert a + b == b;
    } else {
      var ab := a + b;
      var head := if a[0].rank == r then [a[0]] else [];
      assert ab != [] && ab[0] == a[0] && ab[1..] == a[1..] + b;
      assert OfRank(ab, r) == head + OfRank(a[1..] + b, r);
      OfRankAppend(a[1..], b, r);
      assert OfRank(a, r) == head + OfRank(a[1..], r);
    }
  }

  lemma {:induction false} OfRankOfRank(hand: seq<Card>, r: Rank, r': Rank)
    ensures OfRank(OfRank(hand, r'), r) == if r == r' then OfRank(hand, r) else []
  {
    if hand != [] {
      OfRankOfRank(hand[1..], r, r');
      var head := if hand[0].rank == r' then [hand[0]] else [];
      assert OfRank(hand, r') == head + OfRank(hand[1..], r');
      OfRankAppend(head, OfRank(hand[1..], r'), r);
    }
  }

  lemma {:induction false} SortFromOfRank(hand: seq<Card>, k: nat, r: Rank)
    requires k <= 6
    ensures OfRank(SortFrom(hand, k), r) == if RankIndex(r) >= k then OfRank(hand, r) else []
    decreases 6 - k
  {
    if k < 6 {
      SortFromOfRank(hand, k + 1, r);
      OfRankAppend(OfRank(hand, Ranks[k]), SortFrom(hand, k + 1), r);
      OfRankOfRank(hand, r, Ranks[k]);
      RankAtIndex(k);
    }
  }

  /** Number of cards of `hand` worth less than `v`. */
  function CountBelow(hand: seq<Card>, v: nat): nat
  {
    if hand == [] then 0 else (if CardValue(hand[0]) < v then 1 else 0) + CountBelow(hand[1..], v)
  }

  lemma {:induction false} CountBelowRank(hand: seq<Card>, r: Rank)
    ensures CountBelow(hand, Value(r)) == |hand| - |RanksFrom(hand, RankIndex(r))|
  {
    if hand != [] {
      CountBelowRank(hand[1..], r);
      ValueOrderMatchesRankOrder(hand[0].rank, r);
    }
  }

  /**
   * Where the card at position `m` of `SortFrom(hand, k)` sits: after the
   * cards ranked below it and among the cards ranked at or below it.
   */
  lemma {:induction false} SortFromPosition(hand: seq<Card>, k: nat, m: nat)
    requires k <= 6 && m < |SortFrom(hand, k)|
    ensures var c := SortFrom(hand, k)[m];
      k <= RankIndex(c.rank)
      && |SortFrom(hand, k)| - |SortFrom(hand, RankIndex(c.rank))| <= m
      && m < |SortFrom(hand, k)| - |SortFrom(hand, RankIndex(c.rank) + 1)|
    decreases 6 - k
  {
    var g := OfRank(hand, Ranks[k]);
    assert SortFrom(hand, k) == g + SortFrom(hand, k + 1);
    if m < |g| {
      OfRankMembers(hand, Ranks[k]);
      assert SortFrom(hand, k)[m] == g[m] && g[m] in g;
      RankAtIndex(k);
      assert RankIndex(g[m].rank) == k;
    } else {
      SortFromPosition(hand, k + 1, m - |g|);
      assert SortFrom(hand, k)[m] == SortFrom(hand, k + 1)[m - |g|];
    }
  }

  /** `len(RanksFrom)` equals `len(SortFrom)`: one is a permutation of the other. */
  lemma SortFromLength(hand: seq<Card>, k: nat)
    requires k <= 6
    ensures |SortFrom(hand, k)| == |RanksFrom(hand, k)|
  {
    SortFromPermutes(hand, k);
    assert |multiset(SortFrom(hand, k))| == |multiset(RanksFrom(hand, k))|;
  }

  /**
   * The card the greedy strategy leads is a median by value: at most
   * `|hand| / 2` cards are worth less, and more than `|hand| / 2` are worth
   * at most as much.
   */
  lemma MedianLead(hand: seq<Card>)
    requires hand != []
    ensures |SortedByValue(hand)| == |hand|
    ensures var c := SortedByValue(hand)[|hand| / 2];
      c in hand
      && CountBelow(hand, CardValue(c)) <= |hand| / 2
      && |hand| / 2 < CountBelow(hand, CardValue(c) + 1)
  {
    SortedByValueIsSortedPermutation(hand);
    var m := |hand| / 2;
    HalfBelow(|hand|);
    SortedRankCounts(hand, m);
  }

  lemma HalfBelow(n: nat)
    requires n > 0
    ensures n / 2 < n
  {
  }

  /** At most `m` cards are worth less than position `m` of the sorted hand, and more than `m` are worth at most as much. */
  lemma SortedRankCounts(hand: seq<Card>, m: nat)
    requires m < |hand| == |SortedByValue(hand)|
    ensures var c := SortedByValue(hand)[m];
      c in hand && CountBelow(hand, CardValue(c)) <= m < CountBelow(hand, CardValue(c) + 1)
  {
    SortedCard(hand, m, SortedByValue(hand)[m]);
  }

  lemma SortedCard(hand: seq<Card>, m: nat, c: Card)
    requires m < |hand| == |SortFrom(hand, 0)| && c == SortFrom(hand, 0)[m]
    ensures c in hand && CountBelow(hand, CardValue(c)) <= m < CountBelow(hand, CardValue(c) + 1)
  {
    SortedMember(hand, m);
    SortedPosition(hand, m);
    MedianCounts(hand, m, c);
  }

  lemma SortedMember(hand: seq<Card>, m: nat)
    requires m < |hand| == |SortedByValue(hand)|
    ensures SortedByValue(hand)[m] in hand
  {
    SortFromPermutes(hand, 0);
    RanksFromAll(hand);
    var s := SortedByValue(hand);
    assert s[m] in multiset(s);
  }

  /** A card at such a position has at most `m` cards below it and more than `m` at or below it. */
  lemma MedianCounts(hand: seq<Card>, m: nat, c: Card)
    requires |hand| - |RanksFrom(hand, RankIndex(c.rank))| <= m < |hand| - |RanksFrom(hand, RankIndex(c.rank) + 1)|
    ensures CountBelow(hand, CardValue(c)) <= m < CountBelow(hand, CardValue(c) + 1)
  {
    CountBelowRank(hand, c.rank);
    AtMostCount(hand, c.rank);
  }

  /** Position `m` of the sorted hand lies among the cards of its own rank. */
  lemma SortedPosition(hand: seq<Card>, m: nat)
    requires m < |hand| == |SortFrom(hand, 0)|
    ensures var c := SortFrom(hand, 0)[m];
      |hand| - |RanksFrom(hand, RankIndex(c.rank))| <= m < |hand| - |RanksFrom(hand, RankIndex(c.rank) + 1)|
  {
    var c := SortFrom(hand, 0)[m];
    SortFromPosition(hand, 0, m);
    PositionCounts(hand, m, RankIndex(c.rank));
  }

  /** The position bounds of `SortFromPosition`, restated with the lengths of `RanksFrom`. */
  lemma PositionCounts(hand: seq<Card>, m: nat, k: nat)
    requires k < 6 && |hand| == |SortFrom(hand, 0)|
    requires |SortFrom(hand, 0)| - |SortFrom(hand, k)| <= m < |SortFrom(hand, 0)| - |SortFrom(hand, k + 1)|
    ensures |hand| - |RanksFrom(hand, k)| <= m < |hand| - |RanksFrom(hand, k + 1)|
  {
    SortFromLength(hand, k);
    SortFromLength(hand, k + 1);
  }

  /** The cards worth at most as much as rank `r` are those ranked at or below it. */
  lemma AtMostCount(hand: seq<Card>, r: Rank)
    ensures CountBelow(hand, Value(r) + 1) == |hand| - |RanksFrom(hand, RankIndex(r) + 1)|
  {
    var k := RankIndex(r);
    if k + 1 < 6 {
      var next := Ranks[k + 1];
      CountBelowRank(hand, next);
      CountBelowBetween(hand, Value(r) + 1, Value(next));
    } else {
      CountBelowAll(hand, Value(r) + 1);
      RanksFromAll(hand);
    }
  }

  /** No card is worth `v` with `lo <= v < hi` when `lo - 1` and `hi` are neighbouring values. */
  lemma {:induction false} CountBelowBetween(hand: seq<Card>, lo: nat, hi: nat)
    requires lo <= hi
    requires forall r: Rank :: !(lo <= Value(r) < hi)
    ensures CountBelow(hand, lo) == CountBelow(hand, hi)
  {
    if hand != [] {
      CountBelowBetween(hand[1..], lo, hi);
      assert !(lo <= Value(hand[0].rank) < hi);
    }
  }

  /** Every card is worth less than 12. */
  lemma {:induction false} CountBelowAll(hand: seq<Card>, v: nat)
    requires v >= 12
    ensures CountBelow(hand, v) == |hand|
  {
    if hand != [] {
      CountBelowAll(hand[1..], v);
      ValueTable(hand[0].rank);
    }
  }

  /**
   * `TrickBasedGreedy.play` in leading mode: the card at index
   * `len(hand) // 2` of the hand stably sorted by value, removed from the
   * caller's list. An empty hand raises `IndexError` at the index.
   */
  method GreedyLead(hand: Hand) returns (r: Result<Card>)
    modifies hand
    ensures old(hand.cards) == [] ==> r == Err(IndexError) && hand.cards == old(hand.cards)
    ensures old(hand.cards) != [] ==>
      && |old(hand.cards)| / 2 < |SortedByValue(old(hand.cards))|
      && r == Ok(SortedByValue(old(hand.cards))[|old(hand.cards)| / 2])
      && hand.cards == RemoveFirst(old(hand.cards), r.value)
      && |hand.cards| == |old(hand.cards)| - 1
  {
    var sortedHand := SortedByValue(hand.cards);
    SortedByValueIsSortedPermutation(hand.cards);
    var medianIndex := |sortedHand| / 2;
    if medianIndex >= |sortedHand| {
      r := Err(IndexError);
      return;
    }
    var best := sortedHand[medianIndex];
    assert best in multiset(hand.cards) by { assert best in multiset(sortedHand); }
    hand.Remove(best);
    r := Ok(best);
  }

  /**
   * `TrickBasedGreedy.play`: follow when a led suit is set (the hand is left
   * as it is, the card is `GreedyFollowChoice`), otherwise lead the median
   * card of the value-sorted hand, which leaves the hand. An empty hand
   * raises `ValueError` when following (`min` of no moves) and `IndexError`
   * when leading, in both cases before the hand is touched.
   */
  method GreedyPlay(allowed: Option<Suit>, trump: Suit, leader: Option<Card>, hand: Hand)
    returns (r: Result<Card>)
    modifies hand
    ensures allowed.Some? ==> hand.cards == old(hand.cards)
    ensures allowed.Some? && r.Ok? ==> GreedyFollowChoice(r.value, old(hand.cards), allowed.value, trump, leader)
    ensures r.Err? <==> old(hand.cards) == []
    ensures r.Err? ==> r.error == (if allowed.Some? then ValueError else IndexError) && hand.cards == old(hand.cards)
    ensures allowed.None? && r.Ok? ==>
      && |old(hand.cards)| / 2 < |SortedByValue(old(hand.cards))|
      && r.value == SortedByValue(old(hand.cards))[|old(hand.cards)| / 2]
      && r.value in old(hand.cards) && hand.cards == RemoveFirst(old(hand.cards), r.value)
  {
    SortedByValueIsSortedPermutation(old(hand.cards));
    if allowed.Some? {
      r := GreedyFollow(allowed.value, trump, leader, hand.cards);
    } else {
      r := GreedyLead(hand);
      if r.Ok? {
        assert r.value in multiset(old(hand.cards)) by {
          assert r.value in multiset(SortedByValue(old(hand.cards)));
        }
      }
    }
  }
}
