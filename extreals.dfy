/**
 * The search's numbers: Python floats that start at `float("-inf")` or
 * `float("inf")` and are then combined with `max`, `min`, `sum` and `/`.
 * Values of the search are reals; the infinite starting points of its
 * accumulators are the extra `NegInf` and `PosInf`.
 */
module ExtReals {

  /** A real extended with the two infinities. */
  datatype ExtReal = NegInf | Fin(r: real) | PosInf

  /** `a < b` on the extended reals. */
  predicate Less(a: ExtReal, b: ExtReal)
  {
    match (a, b)
    case (NegInf, NegInf) => false
    case (NegInf, _) => true
    case (Fin(x), Fin(y)) => x < y
    case (Fin(_), PosInf) => true
    case (_, _) => false
  }

  /** Python's `max(a, b)`: `a` unless `b` is larger. */
  function ExtMax(a: ExtReal, b: ExtReal): ExtReal
  {
    if Less(a, b) then b else a
  }

  /** Python's `min(a, b)`: `a` unless `b` is smaller. */
  function ExtMin(a: ExtReal, b: ExtReal): ExtReal
  {
    if Less(b, a) then b else a
  }

  /** `best = -inf; for x in xs: best = max(best, x)`. */
  function FoldMax(xs: seq<real>): ExtReal
  {
    if xs == [] then NegInf else ExtMax(FoldMax(xs[..|xs| - 1]), Fin(xs[|xs| - 1]))
  }

  /** `worst = inf; for x in xs: worst = min(worst, x)`. */
  function FoldMin(xs: seq<real>): ExtReal
  {
    if xs == [] then PosInf else ExtMin(FoldMin(xs[..|xs| - 1]), Fin(xs[|xs| - 1]))
  }

  /** One more element: the running maximum takes it in with one `max`. */
  lemma FoldMaxSnoc(xs: seq<real>, x: real)
    ensures FoldMax(xs + [x]) == ExtMax(FoldMax(xs), Fin(x))
  {
    assert (xs + [x])[..|xs|] == xs;
  }

  /** One more element: the running minimum takes it in with one `min`. */
  lemma FoldMinSnoc(xs: seq<real>, x: real)
    ensures FoldMin(xs + [x]) == ExtMin(FoldMin(xs), Fin(x))
  {
    assert (xs + [x])[..|xs|] == xs;
  }

  /** The largest element of a non-empty list. */
  function MaxList(xs: seq<real>): real
    requires xs != []
  {
    if |xs| == 1 then xs[0]
    else var m := MaxList(xs[..|xs| - 1]); if m < xs[|xs| - 1] then xs[|xs| - 1] else m
  }

  /** The smallest element of a non-empty list. */
  function MinList(xs: seq<real>): real
    requires xs != []
  {
    if |xs| == 1 then xs[0]
    else var m := MinList(xs[..|xs| - 1]); if xs[|xs| - 1] < m then xs[|xs| - 1] else m
  }

  /** `sum(xs)`, added from the left. */
  function Sum(xs: seq<real>): real
  {
    if xs == [] then 0.0 else Sum(xs[..|xs| - 1]) + xs[|xs| - 1]
  }

  /** `sum(xs) / len(xs)`. */
  function Mean(xs: seq<real>): real
    requires xs != []
  {
    Sum(xs) / (|xs| as real)
  }

  /** `MaxList` is an element and no element exceeds it. */
  lemma {:induction false} MaxListIsMaximum(xs: seq<real>)
    requires xs != []
    ensures MaxList(xs) in xs
    ensures forall i :: 0 <= i < |xs| ==> xs[i] <= MaxList(xs)
  {
    if |xs| > 1 {
      var init := xs[..|xs| - 1];
      MaxListIsMaximum(init);
      assert forall i :: 0 <= i < |init| ==> xs[i] == init[i];
    }
  }

  /** `MinList` is an element and no element is below it. */
  lemma {:induction false} MinListIsMinimum(xs: seq<real>)
    requires xs != []
    ensures MinList(xs) in xs
    ensures forall i :: 0 <= i < |xs| ==> MinList(xs) <= xs[i]
  {
    if |xs| > 1 {
      var init := xs[..|xs| - 1];
      MinListIsMinimum(init);
      assert forall i :: 0 <= i < |init| ==> xs[i] == init[i];
    }
  }

  /** The accumulated maximum stays `-inf` exactly on the empty list and is otherwise the maximum. */
  lemma {:induction false} FoldMaxIsMaxList(xs: seq<real>)
    ensures FoldMax(xs) == NegInf <==> xs == []
    ensures xs != [] ==> FoldMax(xs) == Fin(MaxList(xs))
  {
    if |xs| > 1 {
      FoldMaxIsMaxList(xs[..|xs| - 1]);
    }
  }

  /** The accumulated minimum stays `inf` exactly on the empty list and is otherwise the minimum. */
  lemma {:induction false} FoldMinIsMinList(xs: seq<real>)
    ensures FoldMin(xs) == PosInf <==> xs == []
    ensures xs != [] ==> FoldMin(xs) == Fin(MinList(xs))
  {
    if |xs| > 1 {
      FoldMinIsMinList(xs[..|xs| - 1]);
    }
  }

  /** A sum of `n` terms in `[lo, hi]` lies in `[n * lo, n * hi]`. */
  lemma {:induction false} SumBetween(xs: seq<real>, lo: real, hi: real)
    requires forall i :: 0 <= i < |xs| ==> lo <= xs[i] <= hi
    ensures (|xs| as real) * lo <= Sum(xs) <= (|xs| as real) * hi
  {
    if xs != [] {
      var init := xs[..|xs| - 1];
      assert forall i :: 0 <= i < |init| ==> init[i] == xs[i];
      SumBetween(init, lo, hi);
      assert (|xs| as real) * lo == (|init| as real) * lo + lo;
      assert (|xs| as real) * hi == (|init| as real) * hi + hi;
    }
  }

  /** An average of terms in `[lo, hi]` lies in `[lo, hi]`. */
  lemma MeanBetween(xs: seq<real>, lo: real, hi: real)
    requires xs != []
    requires forall i :: 0 <= i < |xs| ==> lo <= xs[i] <= hi
    ensures lo <= Mean(xs) <= hi
  {
    SumBetween(xs, lo, hi);
    var n := |xs| as real;
    DivideBetween(Sum(xs), n, lo, hi);
  }

  lemma DivideBetween(s: real, n: real, lo: real, hi: real)
    requires n > 0.0 && n * lo <= s <= n * hi
    ensures lo <= s / n <= hi
  {
    var q := s / n;
    assert q * n == s;
    MulMonotone(q, lo, n);
    MulMonotone(hi, q, n);
  }

  /** Multiplying by a positive factor keeps a strict order. */
  lemma MulMonotone(a: real, b: real, n: real)
    requires n > 0.0
    ensures a < b ==> a * n < b * n
  {
  }
}
