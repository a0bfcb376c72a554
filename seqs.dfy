/** `Array.prototype.filter` and counting, on sequences. */
module Seqs {

  /** The elements satisfying `keep`, in their original order. */
  function Filter<T>(xs: seq<T>, keep: T -> bool): (ys: seq<T>)
    ensures |ys| <= |xs|
    ensures forall y :: y in ys ==> y in xs && keep(y)
    ensures forall x :: x in xs && keep(x) ==> x in ys
  {
    if xs == [] then []
    else
      var init := Filter(xs[..|xs| - 1], keep);
      var last := xs[|xs| - 1];
      assert forall x :: x in xs ==> x in xs[..|xs| - 1] || x == last;
      if keep(last) then init + [last] else init
  }

  /** Filtering an appended element. */
  lemma FilterSnoc<T>(xs: seq<T>, x: T, keep: T -> bool)
    ensures Filter(xs + [x], keep) == Filter(xs, keep) + (if keep(x) then [x] else [])
  {
    assert (xs + [x])[..|xs + [x]| - 1] == xs;
  }

  /** Filtering keeps everything when everything qualifies. */
  lemma {:induction false} FilterAll<T>(xs: seq<T>, keep: T -> bool)
    requires forall x :: x in xs ==> keep(x)
    ensures Filter(xs, keep) == xs
  {
    if xs != [] {
      FilterAll(xs[..|xs| - 1], keep);
      assert xs == xs[..|xs| - 1] + [xs[|xs| - 1]];
    }
  }

  /** Filtering keeps the input order: the kept elements sit at strictly
      increasing positions of the input. */
  lemma {:induction false} FilterKeepsOrder<T>(xs: seq<T>, keep: T -> bool) returns (pos: seq<nat>)
    ensures |pos| == |Filter(xs, keep)|
    ensures forall k :: 0 <= k < |pos| ==> pos[k] < |xs| && Filter(xs, keep)[k] == xs[pos[k]]
    ensures forall k, l :: 0 <= k < l < |pos| ==> pos[k] < pos[l]
  {
    if xs == [] {
      pos := [];
    } else {
      var init := xs[..|xs| - 1];
      pos := FilterKeepsOrder(init, keep);
      if keep(xs[|xs| - 1]) {
        pos := pos + [|xs| - 1];
      }
    }
  }

  /** Two filters that never both hold keep at most the input's length
      between them. */
  lemma {:induction false} DisjointFiltersFit<T>(xs: seq<T>, p: T -> bool, q: T -> bool)
    requires forall x :: x in xs ==> !(p(x) && q(x))
    ensures |Filter(xs, p)| + |Filter(xs, q)| <= |xs|
  {
    if xs != [] {
      DisjointFiltersFit(xs[..|xs| - 1], p, q);
    }
  }

  /** Filtering keeps every copy of a kept element and none of a dropped
      one: duplicates survive with their multiplicity. */
  lemma FilterCounts<T>(xs: seq<T>, keep: T -> bool)
    ensures forall x :: multiset(Filter(xs, keep))[x] == if keep(x) then multiset(xs)[x] else 0
  {
    forall x {
      FilterCount(xs, keep, x);
    }
  }

  lemma {:induction false} FilterCount<T>(xs: seq<T>, keep: T -> bool, x: T)
    ensures multiset(Filter(xs, keep))[x] == if keep(x) then multiset(xs)[x] else 0
  {
    if xs != [] {
      var init, last := xs[..|xs| - 1], xs[|xs| - 1];
      FilterCount(init, keep, x);
      FilterSnoc(init, last, keep);
      assert xs == init + [last];
    }
  }

  /** No element occurs twice. */
  predicate Distinct<T(==)>(s: seq<T>) {
    forall i, j :: 0 <= i < j < |s| ==> s[i] != s[j]
  }

  /** A permutation of a sequence without repeats has none either. */
  lemma DistinctPermutation<T>(xs: seq<T>, ys: seq<T>)
    requires Distinct(xs) && multiset(ys) == multiset(xs)
    ensures Distinct(ys)
  {
    forall k, l | 0 <= k < l < |ys|
      ensures ys[k] != ys[l]
    {
      if ys[k] == ys[l] {
        assert ys == ys[..l] + ys[l..];
        assert ys[k] in ys[..l] && ys[l] in ys[l..];
        assert multiset(ys)[ys[k]] >= 2;
        AtMostOnce(xs, ys[k]);
      }
    }
  }

  /** In a sequence without repeats every value occurs at most once. */
  lemma {:induction false} AtMostOnce<T>(xs: seq<T>, x: T)
    requires Distinct(xs)
    ensures multiset(xs)[x] <= 1
  {
    if xs != [] {
      AtMostOnce(xs[1..], x);
      assert xs == [xs[0]] + xs[1..];
      assert xs[0] == x ==> x !in xs[1..];
    }
  }
}
