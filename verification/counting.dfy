/**
 Python's `sum(...)` over a generator, as used by the scorer: `Sum` adds a
 non-negative weight per element from left to right, and `Count` is the
 `sum(1 for x in s if p(x))` special case.
 */
module Counting {

  /** `sum(f(x) for x in s)`: the accumulator takes the elements in order, so
      the last element is the last one added. */
  function Sum<T>(s: seq<T>, f: T -> nat): (total: nat)
    ensures forall i :: 0 <= i < |s| ==> f(s[i]) <= total
  {
    if s == [] then 0 else Sum(s[..|s| - 1], f) + f(s[|s| - 1])
  }

  /** The weight 1 for elements satisfying `p`, 0 for the others. */
  function Indicator<T>(p: T -> bool): T -> nat
  {
    x => if p(x) then 1 else 0
  }

  /** `sum(1 for x in s if p(x))`: at most one per element, and at least one
      as soon as some element passes the filter. */
  function Count<T>(s: seq<T>, p: T -> bool): (n: nat)
    ensures n <= |s|
    ensures (exists i :: 0 <= i < |s| && p(s[i])) ==> n >= 1
  {
    SumBound(s, Indicator(p), 1);
    Sum(s, Indicator(p))
  }

  /** The positions of `s` whose element satisfies `p`. */
  ghost function Hits<T>(s: seq<T>, p: T -> bool): set<int>
  {
    set i | 0 <= i < |s| && p(s[i])
  }

  lemma SumAppend<T>(s: seq<T>, x: T, f: T -> nat)
    ensures Sum(s + [x], f) == Sum(s, f) + f(x)
  {
    assert (s + [x])[..|s|] == s;
  }

  /** The sum over a concatenation is the sum of the sums. */
  lemma {:induction false} SumConcat<T>(a: seq<T>, b: seq<T>, f: T -> nat)
    ensures Sum(a + b, f) == Sum(a, f) + Sum(b, f)
    decreases |b|
  {
    if b == [] {
      assert a + b == a;
    } else {
      var front := b[..|b| - 1];
      assert (a + b)[..|a + b| - 1] == a + front;
      SumConcat(a, front, f);
    }
  }

  /** Reordering the elements leaves the sum unchanged. */
  lemma {:induction false} SumPermutation<T>(s: seq<T>, t: seq<T>, f: T -> nat)
    requires multiset(s) == multiset(t)
    ensures Sum(s, f) == Sum(t, f)
    decreases |s|
  {
    if s == [] {
      assert |t| == |multiset(t)| == 0;
    } else {
      var x := s[|s| - 1];
      var front := s[..|s| - 1];
      assert s == front + [x];
      assert x in multiset(t);
      var k :| 0 <= k < |t| && t[k] == x;
      var rest := t[..k] + t[k + 1..];
      assert t == t[..k] + [x] + t[k + 1..];
      calc {
        multiset(front) + multiset{x};
        multiset(s);
        multiset(t);
        multiset(t[..k]) + multiset{x} + multiset(t[k + 1..]);
        multiset(rest) + multiset{x};
      }
      assert multiset(front) == multiset(front) + multiset{x} - multiset{x};
      assert multiset(rest) == multiset(rest) + multiset{x} - multiset{x};
      SumPermutation(front, rest, f);
      SumConcat(t[..k] + [x], t[k + 1..], f);
      SumAppend(t[..k], x, f);
      SumConcat(t[..k], t[k + 1..], f);
    }
  }

  /** Weights that agree on every element give the same sum. */
  lemma {:induction false} SumCongruent<T>(s: seq<T>, f: T -> nat, g: T -> nat)
    requires forall i :: 0 <= i < |s| ==> f(s[i]) == g(s[i])
    ensures Sum(s, f) == Sum(s, g)
    decreases |s|
  {
    if s != [] {
      SumCongruent(s[..|s| - 1], f, g);
    }
  }

  /** Each element adds at most `m`, so the sum is at most `|s| * m`. */
  lemma {:induction false} SumBound<T>(s: seq<T>, f: T -> nat, m: nat)
    requires forall i :: 0 <= i < |s| ==> f(s[i]) <= m
    ensures Sum(s, f) <= |s| * m
    decreases |s|
  {
    if s != [] {
      SumBound(s[..|s| - 1], f, m);
      assert (|s| - 1) * m + m == |s| * m;
    }
  }

  /** The sum is zero exactly when every weight is zero. */
  lemma {:induction false} SumZeroIff<T>(s: seq<T>, f: T -> nat)
    ensures Sum(s, f) == 0 <==> forall i :: 0 <= i < |s| ==> f(s[i]) == 0
    decreases |s|
  {
    if s != [] {
      SumZeroIff(s[..|s| - 1], f);
    }
  }

  lemma CountAppend<T>(s: seq<T>, x: T, p: T -> bool)
    ensures Count(s + [x], p) == Count(s, p) + (if p(x) then 1 else 0)
  {
    SumAppend(s, x, Indicator(p));
  }

  /** Every element is counted at most once. */
  lemma CountBound<T>(s: seq<T>, p: T -> bool)
    ensures Count(s, p) <= |s|
  {
    SumBound(s, Indicator(p), 1);
  }

  lemma CountPermutation<T>(s: seq<T>, t: seq<T>, p: T -> bool)
    requires multiset(s) == multiset(t)
    ensures Count(s, p) == Count(t, p)
  {
    SumPermutation(s, t, Indicator(p));
  }

  /** The count is the number of positions whose element satisfies `p`. */
  lemma {:induction false} CountIsHits<T>(s: seq<T>, p: T -> bool)
    ensures Count(s, p) == |Hits(s, p)|
    decreases |s|
  {
    if s == [] {
      assert Hits(s, p) == {};
    } else {
      var n := |s| - 1;
      var front := s[..n];
      CountIsHits(front, p);
      assert s == front + [s[n]];
      CountAppend(front, s[n], p);
      assert n !in Hits(front, p);
      if p(s[n]) {
        assert Hits(s, p) == Hits(front, p) + {n};
      } else {
        assert Hits(s, p) == Hits(front, p);
      }
    }
  }

  /** Everything is counted exactly when every element satisfies `p`. */
  lemma {:induction false} CountAllIff<T>(s: seq<T>, p: T -> bool)
    ensures Count(s, p) == |s| <==> forall i :: 0 <= i < |s| ==> p(s[i])
    decreases |s|
  {
    if s != [] {
      var n := |s| - 1;
      var front := s[..n];
      CountAllIff(front, p);
      CountBound(front, p);
      assert s == front + [s[n]];
      CountAppend(front, s[n], p);
    }
  }

  /** Nothing is counted exactly when no element satisfies `p`. */
  lemma CountZeroIff<T>(s: seq<T>, p: T -> bool)
    ensures Count(s, p) == 0 <==> forall i :: 0 <= i < |s| ==> !p(s[i])
  {
    SumZeroIff(s, Indicator(p));
  }
}
