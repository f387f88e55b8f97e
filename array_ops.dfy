/**
  The two array operations the dashboard aggregation is built from, over
  immutable sequences:

  - `Filter(s, p)` is `s.filter(p)`: the elements of `s` satisfying `p`, in order;
  - `SumBy(s, f)` is `s.reduce((sum, x) => sum + f(x), 0)`: a left fold that
    adds `f(x)` for every element, starting from 0.

  `.length` of a filtered array is `|Filter(s, p)|`; the lemmas below relate it
  to the set of indices whose element satisfies `p`, and relate sums over a
  filtered sequence to sums over the whole.
*/
module ArrayOps {

  /** `s.filter(p)`: keeps, in order, exactly the elements that satisfy `p`. */
  function Filter<T>(s: seq<T>, p: T -> bool): (r: seq<T>)
    ensures |r| <= |s|
  {
    if s == [] then []
    else (if p(s[0]) then [s[0]] else []) + Filter(s[1..], p)
  }

  /** `s.reduce((sum, x) => sum + f(x), 0)`, folding from the left as `reduce` does. */
  function SumBy<T>(s: seq<T>, f: T -> int): (r: int)
    ensures (forall i :: 0 <= i < |s| ==> f(s[i]) >= 0) ==> r >= 0
  {
    if s == [] then 0
    else SumBy(s[..|s| - 1], f) + f(s[|s| - 1])
  }

  /** The complement of a predicate, `x => !p(x)`. */
  function Not<T>(p: T -> bool): T -> bool
  {
    x => !p(x)
  }

  /** The indices of `s` whose element satisfies `p`: an index-based reference for `Filter`. */
  function IndicesWhere<T>(s: seq<T>, p: T -> bool): set<nat>
  {
    set i: nat | i < |s| && p(s[i])
  }

  /** Filtering distributes over concatenation. */
  lemma {:induction false} FilterAppend<T>(a: seq<T>, b: seq<T>, p: T -> bool)
    ensures Filter(a + b, p) == Filter(a, p) + Filter(b, p)
  {
    if a != [] {
      assert (a + b)[0] == a[0];
      assert (a + b)[1..] == a[1..] + b;
      FilterAppend(a[1..], b, p);
    } else {
      assert a + b == b;
    }
  }

  /** Summing distributes over concatenation. */
  lemma {:induction false} SumByAppend<T>(a: seq<T>, b: seq<T>, f: T -> int)
    ensures SumBy(a + b, f) == SumBy(a, f) + SumBy(b, f)
  {
    if b != [] {
      var n := |b| - 1;
      assert (a + b)[..|a + b| - 1] == a + b[..n];
      assert (a + b)[|a + b| - 1] == b[n];
      SumByAppend(a, b[..n], f);
    } else {
      assert a + b == a;
    }
  }

  /** Filtering a sequence extended by one element. */
  lemma FilterSnoc<T>(s: seq<T>, x: T, p: T -> bool)
    ensures Filter(s + [x], p) == Filter(s, p) + (if p(x) then [x] else [])
  {
    FilterAppend(s, [x], p);
    assert [x][1..] == [];
  }

  /** Summing a sequence extended by one element. */
  lemma SumBySnoc<T>(s: seq<T>, x: T, f: T -> int)
    ensures SumBy(s + [x], f) == SumBy(s, f) + f(x)
  {
    assert (s + [x])[..|s|] == s;
  }

  /** Summing a filtered sequence extended by one element. */
  lemma FilteredSumSnoc<T>(s: seq<T>, x: T, p: T -> bool, f: T -> int)
    ensures |Filter(s + [x], p)| == |Filter(s, p)| + (if p(x) then 1 else 0)
    ensures SumBy(Filter(s + [x], p), f) == SumBy(Filter(s, p), f) + (if p(x) then f(x) else 0)
  {
    FilterSnoc(s, x, p);
    if p(x) {
      SumBySnoc(Filter(s, p), x, f);
    } else {
      assert Filter(s, p) + [] == Filter(s, p);
    }
  }

  /** Filtering keeps nothing when no element satisfies the predicate. */
  lemma {:induction false} FilterNoMatch<T>(s: seq<T>, p: T -> bool)
    requires forall i :: 0 <= i < |s| ==> !p(s[i])
    ensures Filter(s, p) == []
  {
    if s != [] {
      FilterNoMatch(s[1..], p);
    }
  }

  /** Filtering keeps exactly `[s[k]]` when `s[k]` is the only element satisfying the predicate. */
  lemma {:induction false} FilterOneMatch<T>(s: seq<T>, k: nat, p: T -> bool)
    requires k < |s| && p(s[k])
    requires forall i :: 0 <= i < |s| && i != k ==> !p(s[i])
    ensures Filter(s, p) == [s[k]]
  {
    if k == 0 {
      FilterNoMatch(s[1..], p);
    } else {
      FilterOneMatch(s[1..], k - 1, p);
    }
  }

  /** The length of `s.filter(p)` is the number of indices whose element satisfies `p`. */
  lemma {:induction false} FilterLengthIsCount<T>(s: seq<T>, p: T -> bool)
    ensures |Filter(s, p)| == |IndicesWhere(s, p)|
  {
    if s != [] {
      var n := |s| - 1;
      var front := s[..n];
      assert s == front + [s[n]];
      FilterAppend(front, [s[n]], p);
      assert Filter([s[n]], p) == if p(s[n]) then [s[n]] else [] by {
        assert [s[n]][1..] == [];
      }
      FilterLengthIsCount(front, p);
      var before := IndicesWhere(front, p);
      assert n !in before;
      if p(s[n]) {
        assert IndicesWhere(s, p) == before + {n};
      } else {
        assert IndicesWhere(s, p) == before;
      }
    } else {
      assert IndicesWhere(s, p) == {};
    }
  }

  /** Every element lands on exactly one side of `p`, so the two filtered sums add up to the whole. */
  lemma {:induction false} SumByPartition<T>(s: seq<T>, p: T -> bool, f: T -> int)
    ensures SumBy(Filter(s, p), f) + SumBy(Filter(s, Not(p)), f) == SumBy(s, f)
  {
    if s != [] {
      var q := Not(p);
      var head, tail := [s[0]], s[1..];
      assert s == head + tail;
      SumByPartition(tail, p, f);
      SumByAppend(head, tail, f);
      assert Filter(head, p) == if p(s[0]) then head else [] by { assert head[1..] == []; }
      assert Filter(head, q) == if p(s[0]) then [] else head by { assert head[1..] == []; }
      FilterAppend(head, tail, p);
      FilterAppend(head, tail, q);
      SumByAppend(Filter(head, p), Filter(tail, p), f);
      SumByAppend(Filter(head, q), Filter(tail, q), f);
      assert SumBy(head, f) == f(s[0]) by { assert head[..0] == []; }
    }
  }

  /** `s.filter(p)` holds the elements of `s` that satisfy `p`, and only those. */
  lemma {:induction false} FilterKeepsExactly<T>(s: seq<T>, p: T -> bool, x: T)
    ensures x in Filter(s, p) <==> x in s && p(x)
  {
    if s != [] {
      FilterKeepsExactly(s[1..], p, x);
      assert s == [s[0]] + s[1..];
    }
  }

  /** With no negative summand, a filtered sum is not negative either. */
  lemma {:induction false} FilteredSumNonNegative<T>(s: seq<T>, p: T -> bool, f: T -> int)
    requires forall i :: 0 <= i < |s| ==> f(s[i]) >= 0
    ensures SumBy(Filter(s, p), f) >= 0
  {
    if s != [] {
      var head := if p(s[0]) then [s[0]] else [];
      FilteredSumNonNegative(s[1..], p, f);
      SumByAppend(head, Filter(s[1..], p), f);
      assert SumBy(head, f) >= 0 by { assert head == [] || head[..0] == []; }
    }
  }

  /** When no summand is negative, a filtered sum never exceeds the sum over the whole sequence. */
  lemma FilteredSumAtMostSum<T>(s: seq<T>, p: T -> bool, f: T -> int)
    requires forall i :: 0 <= i < |s| ==> f(s[i]) >= 0
    ensures SumBy(Filter(s, p), f) <= SumBy(s, f)
  {
    SumByPartition(s, p, f);
    FilteredSumNonNegative(s, Not(p), f);
  }
}
