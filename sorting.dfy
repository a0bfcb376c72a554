/** In-place sorting of an array by an integer key, the part of
    `Array.prototype.sort` the analytics use: an insertion sort under the
    comparator `(a, b) => key(a) - key(b)`. A descending sort passes the
    negated key. The contract promises order by key and a permutation, not
    the relative order of equal keys. */
module Sorting {

  /** Ascending by key. */
  ghost predicate SortedBy<T>(s: seq<T>, key: T -> int) {
    forall i, j :: 0 <= i < j < |s| ==> key(s[i]) <= key(s[j])
  }

  /** Sorts `a` in place: ascending by key, and a permutation of the old
      contents. */
  method SortBy<T>(a: array<T>, key: T -> int)
    modifies a
    ensures SortedBy(a[..], key)
    ensures multiset(a[..]) == multiset(old(a[..]))
  {
    if a.Length <= 1 {
      return;
    }
    var i := 1;
    while i < a.Length
      invariant 1 <= i <= a.Length
      invariant SortedBy(a[..i], key)
      invariant multiset(a[..]) == multiset(old(a[..]))
    {
      Insert(a, i, key);
      i := i + 1;
    }
    assert a[..i] == a[..];
  }

  /** While `a[i]` moves left to position j: the other elements of
      `a[..i + 1]` are in order, those after j are all larger than the
      moving one, and those before j are no larger than those after it. */
  ghost predicate Inserting<T>(s: seq<T>, j: int, i: int, key: T -> int)
    requires 0 <= j <= i < |s|
  {
    && (forall k, l :: 0 <= k < l <= i && k != j && l != j ==> key(s[k]) <= key(s[l]))
    && (forall l :: j < l <= i ==> key(s[j]) < key(s[l]))
    && (forall k, l :: 0 <= k < j && j < l <= i ==> key(s[k]) <= key(s[l]))
  }

  lemma InsertingStarts<T>(s: seq<T>, i: int, key: T -> int)
    requires 0 <= i < |s| && SortedBy(s[..i], key)
    ensures Inserting(s, i, i, key)
  {
    assert forall k :: 0 <= k < i ==> s[..i][k] == s[k];
  }

  lemma InsertingSwaps<T>(s: seq<T>, j: int, i: int, key: T -> int)
    requires 0 < j <= i < |s| && Inserting(s, j, i, key) && key(s[j - 1]) > key(s[j])
    ensures Inserting(s[j - 1 := s[j]][j := s[j - 1]], j - 1, i, key)
  {
  }

  lemma InsertingEnds<T>(s: seq<T>, j: int, i: int, key: T -> int)
    requires 0 <= j <= i < |s| && Inserting(s, j, i, key)
    requires j == 0 || key(s[j - 1]) <= key(s[j])
    ensures SortedBy(s[..i + 1], key)
  {
  }

  /** Moves `a[i]` left past every larger-keyed element; `a[..i]` was sorted,
      `a[..i + 1]` is afterwards. */
  method Insert<T>(a: array<T>, i: int, key: T -> int)
    requires 0 < i < a.Length
    requires SortedBy(a[..i], key)
    modifies a
    ensures SortedBy(a[..i + 1], key)
    ensures multiset(a[..]) == multiset(old(a[..]))
  {
    var j := i;
    InsertingStarts(a[..], i, key);
    while j > 0 && key(a[j - 1]) > key(a[j])
      invariant 0 <= j <= i
      invariant multiset(a[..]) == multiset(old(a[..]))
      invariant Inserting(a[..], j, i, key)
    {
      InsertingSwaps(a[..], j, i, key);
      a[j - 1], a[j] := a[j], a[j - 1];
      j := j - 1;
    }
    InsertingEnds(a[..], j, i, key);
  }
}
