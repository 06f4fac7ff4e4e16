/** Python list operations used by the source, on Dafny sequences. */
module Lists {
  import opened Wrappers

  /** Position of the first occurrence of `x`, or `|s|` when there is none. */
  function IndexOf<T(==)>(s: seq<T>, x: T): (k: nat)
    ensures k <= |s|
    ensures k < |s| <==> x in s
    ensures k < |s| ==> s[k] == x
    ensures forall i :: 0 <= i < k ==> s[i] != x
  {
    if s == [] then 0 else if s[0] == x then 0 else 1 + IndexOf(s[1..], x)
  }

  /** `s` with position `i` taken out, the rest in order. */
  function RemoveAt<T>(s: seq<T>, i: nat): (r: seq<T>)
    requires i < |s|
    ensures |r| == |s| - 1
    ensures forall k :: 0 <= k < i ==> r[k] == s[k]
    ensures forall k :: i <= k < |r| ==> r[k] == s[k + 1]
    ensures multiset(r) == multiset(s) - multiset{s[i]}
  {
    assert s == s[..i] + [s[i]] + s[i + 1..];
    s[..i] + s[i + 1..]
  }

  /**
   * `list.remove(x)`: the first occurrence of `x` is taken out. Every call site
   * in the source removes a card it has just found in the list; for an absent
   * `x` (where Python raises) the list is returned as it is.
   */
  function RemoveFirst<T(==)>(s: seq<T>, x: T): seq<T>
  {
    if s == [] then [] else if s[0] == x then s[1..] else [s[0]] + RemoveFirst(s[1..], x)
  }

  /**
   * `list.remove(x)` takes out exactly the element at the first position of
   * `x`, and leaves a list without `x` as it is.
   */
  lemma RemoveFirstMeaning<T>(s: seq<T>, x: T)
    ensures x in s ==> |RemoveFirst(s, x)| == |s| - 1 && RemoveFirst(s, x) == RemoveAt(s, IndexOf(s, x))
    ensures x !in s ==> RemoveFirst(s, x) == s
    ensures multiset(RemoveFirst(s, x)) == multiset(s) - multiset{x}
  {
    if x in s {
      RemoveFirstAt(s, x);
    } else {
      RemoveFirstAbsent(s, x);
    }
  }

  /** Putting the removed element back restores the bag of the list. */
  lemma RemoveFirstBag<T>(s: seq<T>, x: T)
    requires x in s
    ensures multiset(RemoveFirst(s, x)) + multiset{x} == multiset(s)
  {
    RemoveFirstMeaning(s, x);
    assert x in multiset(s);
  }

  lemma {:induction false} RemoveFirstAt<T>(s: seq<T>, x: T)
    requires x in s
    ensures RemoveFirst(s, x) == RemoveAt(s, IndexOf(s, x))
  {
    if s[0] != x {
      InTail(s, x);
      RemoveFirstAt(s[1..], x);
      RemoveAtCons(s, IndexOf(s[1..], x));
    }
  }

  lemma InTail<T>(s: seq<T>, x: T)
    requires x in s && s[0] != x
    ensures x in s[1..] && IndexOf(s, x) == IndexOf(s[1..], x) + 1
  {
    var i :| 0 <= i < |s| && s[i] == x;
    assert s[1..][i - 1] == x;
  }

  lemma RemoveAtCons<T>(s: seq<T>, k: nat)
    requires k + 1 < |s|
    ensures RemoveAt(s, k + 1) == [s[0]] + RemoveAt(s[1..], k)
  {
    var a := [s[0]] + RemoveAt(s[1..], k);
    var b := RemoveAt(s, k + 1);
    forall p | 0 <= p < |a|
      ensures a[p] == b[p]
    {
      if 0 < p <= k {
        assert a[p] == s[1..][p - 1];
      } else if p > k {
        assert a[p] == s[1..][p];
      }
    }
  }

  lemma {:induction false} RemoveFirstAbsent<T>(s: seq<T>, x: T)
    requires x !in s
    ensures RemoveFirst(s, x) == s
  {
    if s != [] {
      RemoveFirstAbsent(s[1..], x);
      assert s == [s[0]] + s[1..];
    }
  }

  /**
   * Removing `s[i]` and then `s[j]` for two different positions takes both
   * out, even when they hold equal values.
   */
  lemma RemoveTwo<T>(s: seq<T>, i: nat, j: nat)
    requires i < |s| && j < |s| && i != j
    ensures var r := RemoveFirst(RemoveFirst(s, s[i]), s[j]);
      multiset(r) == multiset(s) - multiset{s[i], s[j]} && |r| == |s| - 2
    ensures multiset{s[i], s[j]} <= multiset(s)
  {
    SecondSurvives(s, i, j);
    var once := RemoveFirst(s, s[i]);
    RemoveFirstMeaning(s, s[i]);
    RemoveFirstMeaning(once, s[j]);
    MinusTwo(multiset(s), s[i], s[j]);
  }

  lemma MinusTwo<T>(m: multiset<T>, a: T, b: T)
    requires a in m && b in m - multiset{a}
    ensures (m - multiset{a}) - multiset{b} == m - multiset{a, b}
    ensures multiset{a, b} <= m
  {
  }

  /** After `s[i]` is removed, the element at another position `j` is still there. */
  lemma SecondSurvives<T>(s: seq<T>, i: nat, j: nat)
    requires i < |s| && j < |s| && i != j
    ensures s[j] in RemoveFirst(s, s[i])
  {
    var k := IndexOf(s, s[i]);
    var once := RemoveAt(s, k);
    RemoveFirstMeaning(s, s[i]);
    if j < k {
      assert once[j] == s[j];
    } else if j > k {
      assert once[j - 1] == s[j];
    } else {
      assert once[i - 1] == s[i];
    }
  }

  /**
   * Python's rule for a list index: `0 <= i < n` as it is, `-n <= i < 0`
   * counted from the end, anything else an `IndexError`.
   */
  function PyIndex(n: nat, i: int): (k: Option<nat>)
    ensures k.Some? <==> -(n as int) <= i < n
    ensures k.Some? ==> k.value < n && (k.value == i || k.value == i + n)
  {
    if 0 <= i < n then Some(i) else if -(n as int) <= i < 0 then Some(i + n) else None
  }

  /** The content of an optional slot as a multiset. */
  function OptBag<T>(o: Option<T>): multiset<T>
  {
    if o.Some? then multiset{o.value} else multiset{}
  }

  /** A list without repeated elements. */
  ghost predicate NoDuplicates<T>(s: seq<T>)
  {
    forall i, j :: 0 <= i < j < |s| ==> s[i] != s[j]
  }
}
