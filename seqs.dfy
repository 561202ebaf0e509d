/**
 * Sequence helpers standing for the Python list idioms the optimizer uses:
 * `sum(...)`, the comprehension `[y for y in xs if y != x]`, the
 * comprehension `[x for x in ps if x in qs]`, `list.remove` and `range`.
 */
module Seqs {

  /** Pairwise distinct elements: the keys of a Python dict, in order. */
  ghost predicate Distinct<T>(xs: seq<T>) {
    forall i, j :: 0 <= i < j < |xs| ==> xs[i] != xs[j]
  }

  /** `sum(xs)`, folded from the right end so that appending is one step. */
  function Sum(xs: seq<nat>): nat {
    if xs == [] then 0 else Sum(xs[..|xs| - 1]) + xs[|xs| - 1]
  }

  lemma {:induction false} SumAppend(xs: seq<nat>, ys: seq<nat>)
    ensures Sum(xs + ys) == Sum(xs) + Sum(ys)
  {
    if ys != [] {
      assert (xs + ys)[..|xs + ys| - 1] == xs + ys[..|ys| - 1];
      SumAppend(xs, ys[..|ys| - 1]);
    } else {
      assert xs + ys == xs;
    }
  }

  /** Replacing one entry changes the sum by the difference. */
  lemma {:induction false} SumUpdate(xs: seq<nat>, i: nat, v: nat)
    requires i < |xs|
    ensures Sum(xs[i := v]) + xs[i] == Sum(xs) + v
  {
    var n := |xs| - 1;
    if i == n {
      assert xs[i := v][..n] == xs[..n];
    } else {
      assert xs[i := v][..n] == xs[..n][i := v];
      SumUpdate(xs[..n], i, v);
    }
  }

  /** Every entry is bounded by the sum. */
  lemma {:induction false} EntryBelowSum(xs: seq<nat>, i: nat)
    requires i < |xs|
    ensures xs[i] <= Sum(xs)
  {
    if i < |xs| - 1 {
      EntryBelowSum(xs[..|xs| - 1], i);
    }
  }

  /** A positive sum has a positive entry. */
  lemma {:induction false} PositiveEntry(xs: seq<nat>) returns (i: nat)
    requires Sum(xs) > 0
    ensures i < |xs| && xs[i] > 0
  {
    if xs[|xs| - 1] > 0 {
      i := |xs| - 1;
    } else {
      i := PositiveEntry(xs[..|xs| - 1]);
    }
  }

  /** A row of `n` zeros. */
  function Zeros(n: nat): (r: seq<nat>)
    ensures |r| == n && forall p :: 0 <= p < n ==> r[p] == 0
  {
    seq(n, _ => 0)
  }

  lemma {:induction false} SumZeros(n: nat)
    ensures Sum(Zeros(n)) == 0
  {
    if n > 0 {
      assert Zeros(n)[..n - 1] == Zeros(n - 1);
      SumZeros(n - 1);
    }
  }

  /** `[y for y in xs if y != x]`: the list without `x`, order kept. */
  function Without<T(==,!new)>(xs: seq<T>, x: T): (r: seq<T>)
    ensures |r| <= |xs|
    ensures forall y :: y in r <==> y in xs && y != x
  {
    if xs == [] then []
    else if xs[0] == x then Without(xs[1..], x)
    else [xs[0]] + Without(xs[1..], x)
  }

  /** The comprehension distributes over concatenation, so it keeps the order of `xs`. */
  lemma {:induction false} WithoutAppend<T(!new)>(a: seq<T>, b: seq<T>, x: T)
    ensures Without(a + b, x) == Without(a, x) + Without(b, x)
  {
    if a != [] {
      assert (a + b)[1..] == a[1..] + b;
      WithoutAppend(a[1..], b, x);
    } else {
      assert a + b == b;
    }
  }

  /** Dropping an element that occurs exactly once shortens the list by one. */
  lemma {:induction false} WithoutLength<T(!new)>(xs: seq<T>, x: T)
    requires Distinct(xs) && x in xs
    ensures |Without(xs, x)| == |xs| - 1
  {
    if xs[0] == x {
      assert x !in xs[1..];
      WithoutAbsent(xs[1..], x);
    } else {
      WithoutLength(xs[1..], x);
    }
  }

  /** Dropping an absent element changes nothing. */
  lemma {:induction false} WithoutAbsent<T(!new)>(xs: seq<T>, x: T)
    requires x !in xs
    ensures Without(xs, x) == xs
  {
    if xs != [] {
      assert xs == [xs[0]] + xs[1..];
      WithoutAbsent(xs[1..], x);
    }
  }

  /** `Without` keeps the remaining elements distinct. */
  lemma {:induction false} WithoutDistinct<T(!new)>(xs: seq<T>, x: T)
    requires Distinct(xs)
    ensures Distinct(Without(xs, x))
  {
    if xs != [] {
      WithoutDistinct(xs[1..], x);
      var rest := Without(xs[1..], x);
      assert xs[0] !in rest by {
        assert forall j :: 0 < j < |xs| ==> xs[j] != xs[0];
      }
      assert Without(xs, x) == if xs[0] == x then rest else [xs[0]] + rest;
    }
  }

  /** `[x for x in ps if x in qs]`: the elements of `ps` also in `qs`, in `ps`'s order. */
  function Intersect<T(==,!new)>(ps: seq<T>, qs: seq<T>): (r: seq<T>)
    ensures |r| <= |ps|
    ensures forall x :: x in r <==> x in ps && x in qs
  {
    if ps == [] then []
    else if ps[0] in qs then [ps[0]] + Intersect(ps[1..], qs)
    else Intersect(ps[1..], qs)
  }

  /** The comprehension distributes over concatenation, so it keeps the order of `ps`. */
  lemma {:induction false} IntersectAppend<T(!new)>(a: seq<T>, b: seq<T>, qs: seq<T>)
    ensures Intersect(a + b, qs) == Intersect(a, qs) + Intersect(b, qs)
  {
    if a != [] {
      assert (a + b)[1..] == a[1..] + b;
      IntersectAppend(a[1..], b, qs);
    } else {
      assert a + b == b;
    }
  }

  /** Filtering a distinct list leaves it distinct. */
  lemma {:induction false} IntersectDistinct<T(!new)>(ps: seq<T>, qs: seq<T>)
    requires Distinct(ps)
    ensures Distinct(Intersect(ps, qs))
  {
    if ps != [] {
      IntersectDistinct(ps[1..], qs);
    }
  }

  /** Elements added to `qs` that `ps` does not hold leave the comprehension as it was. */
  lemma {:induction false} IntersectIgnores<T(!new)>(ps: seq<T>, qs: seq<T>, extra: seq<T>)
    requires forall x :: x in ps ==> x !in extra
    ensures Intersect(ps, qs + extra) == Intersect(ps, qs)
  {
    if ps != [] {
      IntersectIgnores(ps[1..], qs, extra);
    }
  }

  /** Two lists each perhaps one new element `x` longer: `x` is kept exactly when both gained it. */
  lemma IntersectGrow<T(!new)>(ps: seq<T>, qs: seq<T>, x: T, inP: bool, inQ: bool)
    requires x !in ps && x !in qs
    ensures Intersect(ps + (if inP then [x] else []), qs + (if inQ then [x] else [])) ==
      Intersect(ps, qs) + (if inP && inQ then [x] else [])
  {
    var e := if inQ then [x] else [];
    IntersectAppend(ps, if inP then [x] else [], qs + e);
    IntersectIgnores(ps, qs, e);
    assert Intersect([x], qs + e) == if inQ then [x] else [];
  }

  /** A prefix of `b` one element longer, after `a`. */
  lemma AppendSliceStep<T>(a: seq<T>, b: seq<T>, i: nat)
    requires i < |b|
    ensures a + b[..i + 1] == (a + b[..i]) + [b[i]]
  {
    assert b[..i + 1] == b[..i] + [b[i]];
  }

  /** `list.remove(x)`: drop the first occurrence (Python raises ValueError when absent). */
  function Remove<T(==)>(xs: seq<T>, x: T): (r: seq<T>)
    requires x in xs
    ensures |r| == |xs| - 1
  {
    if xs[0] == x then xs[1..] else [xs[0]] + Remove(xs[1..], x)
  }

  /** Removing `x` right after a prefix that does not hold it. */
  lemma {:induction false} RemoveAfter<T>(a: seq<T>, x: T, b: seq<T>)
    requires x !in a
    ensures Remove(a + [x] + b, x) == a + b
  {
    if a != [] {
      assert (a + [x] + b)[1..] == a[1..] + [x] + b;
      RemoveAfter(a[1..], x, b);
    } else {
      assert a + [x] + b == [x] + b;
    }
  }

  /** `range(lo, hi)`: the integers from `lo` up to but excluding `hi`. */
  function Range(lo: int, hi: int): (r: seq<int>)
    ensures |r| == if lo < hi then hi - lo else 0
    ensures forall i :: 0 <= i < |r| ==> r[i] == lo + i
    ensures forall k :: k in r <==> lo <= k < hi
    decreases hi - lo
  {
    if lo < hi then [lo] + Range(lo + 1, hi) else []
  }
}
