/** Sequence helpers shared by the pipeline: an optional value, filtering,
    a stable insertion sort by a numeric key, and sums of counts. */
module Seqs {

  datatype Option<+T> = None | Some(value: T)

  /** No element occurs twice in `s`. */
  ghost predicate Distinct<T(!new)>(s: seq<T>) {
    forall x :: multiset(s)[x] <= 1
  }

  /** The elements of `s` that satisfy `p`, in their original order
      (Array.prototype.filter). */
  function Filter<T(!new)>(s: seq<T>, p: T -> bool): (r: seq<T>)
    ensures |r| <= |s|
    ensures forall i :: 0 <= i < |r| ==> p(r[i])
  {
    if s == [] then []
    else
      var rest := Filter(s[1..], p);
      if p(s[0]) then [s[0]] + rest else rest
  }

  /** Filtering keeps every occurrence of an element that satisfies `p`
      and none of one that does not. */
  lemma {:induction false} FilterCount<T(!new)>(s: seq<T>, p: T -> bool)
    ensures forall x :: multiset(Filter(s, p))[x] == if p(x) then multiset(s)[x] else 0
  {
    if s != [] {
      FilterCount(s[1..], p);
      assert s == [s[0]] + s[1..];
    }
  }

  lemma {:induction false} FilterAppend<T(!new)>(a: seq<T>, b: seq<T>, p: T -> bool)
    ensures Filter(a + b, p) == Filter(a, p) + Filter(b, p)
  {
    if a == [] {
      assert a + b == b;
    } else {
      assert (a + b)[1..] == a[1..] + b;
      FilterAppend(a[1..], b, p);
    }
  }

  /** Filtering keeps every element when all of them satisfy `p`. */
  lemma {:induction false} FilterAll<T(!new)>(s: seq<T>, p: T -> bool)
    requires forall i :: 0 <= i < |s| ==> p(s[i])
    ensures Filter(s, p) == s
  {
    if s != [] {
      FilterAll(s[1..], p);
    }
  }

  /** Filtering keeps nothing when no element satisfies `p`. */
  lemma {:induction false} FilterNone<T(!new)>(s: seq<T>, p: T -> bool)
    requires forall i :: 0 <= i < |s| ==> !p(s[i])
    ensures Filter(s, p) == []
  {
    if s != [] {
      FilterNone(s[1..], p);
    }
  }

  /** Filtering by a predicate and by its negation splits `s` in two. */
  lemma FilterPartition<T(!new)>(s: seq<T>, p: T -> bool, q: T -> bool)
    requires forall x :: q(x) == !p(x)
    ensures multiset(Filter(s, p)) + multiset(Filter(s, q)) == multiset(s)
  {
    FilterCount(s, p);
    FilterCount(s, q);
    assert forall x :: (multiset(Filter(s, p)) + multiset(Filter(s, q)))[x] == multiset(s)[x];
  }

  /** Rearranging `s` does not change how many of its elements satisfy `p`. */
  lemma FilterPermutes<T(!new)>(a: seq<T>, b: seq<T>, p: T -> bool)
    requires multiset(a) == multiset(b)
    ensures |Filter(a, p)| == |Filter(b, p)|
  {
    FilterCount(a, p);
    FilterCount(b, p);
    assert multiset(Filter(a, p)) == multiset(Filter(b, p));
    assert |multiset(Filter(a, p))| == |multiset(Filter(b, p))|;
  }

  /** Sorting what a filter kept keeps only elements that satisfy it. */
  lemma SortedFilterSatisfies<T(!new)>(s: seq<T>, p: T -> bool, key: T -> real)
    ensures forall i :: 0 <= i < |SortBy(Filter(s, p), key)| ==> p(SortBy(Filter(s, p), key)[i])
  {
    var r := SortBy(Filter(s, p), key);
    FilterCount(s, p);
    forall i | 0 <= i < |r| ensures p(r[i]) {
      assert r[i] in multiset(r);
    }
  }

  /** `s` is in ascending order of `key`. */
  ghost predicate SortedBy<T>(s: seq<T>, key: T -> real) {
    forall i, j :: 0 <= i < j < |s| ==> key(s[i]) <= key(s[j])
  }

  /** Inserts `x` into the sorted `s` after every element whose key is smaller. */
  function InsertBy<T>(x: T, s: seq<T>, key: T -> real): (r: seq<T>)
    requires SortedBy(s, key)
    ensures SortedBy(r, key)
    ensures multiset(r) == multiset(s) + multiset{x}
  {
    if s == [] then [x]
    else if key(x) <= key(s[0]) then [x] + s
    else
      var rest := InsertBy(x, s[1..], key);
      InsertBehind(x, s, key, rest);
      [s[0]] + rest
  }

  /** Putting the head back in front of `x` inserted into the tail keeps
      the order and the elements. */
  lemma InsertBehind<T>(x: T, s: seq<T>, key: T -> real, rest: seq<T>)
    requires |s| > 0 && SortedBy(s, key) && key(s[0]) < key(x)
    requires SortedBy(rest, key) && multiset(rest) == multiset(s[1..]) + multiset{x}
    ensures SortedBy([s[0]] + rest, key)
    ensures multiset([s[0]] + rest) == multiset(s) + multiset{x}
  {
    assert s == [s[0]] + s[1..];
    SortedHeadBound(s, key);
    forall j | 0 <= j < |rest| ensures key(s[0]) <= key(rest[j]) {
      assert rest[j] in multiset(rest);
    }
  }

  /** The first element of a sorted sequence has the least key. */
  lemma SortedHeadBound<T>(s: seq<T>, key: T -> real)
    requires |s| > 0 && SortedBy(s, key)
    ensures forall y :: y in multiset(s) ==> key(s[0]) <= key(y)
  {
    forall y | y in multiset(s) ensures key(s[0]) <= key(y) {
      var i :| 0 <= i < |s| && s[i] == y;
    }
  }

  /** An ascending permutation of `s` (insertion sort). */
  function SortBy<T>(s: seq<T>, key: T -> real): (r: seq<T>)
    ensures SortedBy(r, key)
    ensures multiset(r) == multiset(s)
  {
    if s == [] then []
    else
      assert s == [s[0]] + s[1..];
      InsertBy(s[0], SortBy(s[1..], key), key)
  }

  /** The first `n` elements are the first `n - 1` and element `n - 1`. */
  lemma PrefixSnoc<T>(s: seq<T>, n: nat)
    requires 0 < n <= |s|
    ensures s[..n] == s[..n - 1] + [s[n - 1]]
    ensures forall x :: x in s[..n] <==> x in s[..n - 1] || x == s[n - 1]
  {
    assert s[..n] == s[..n - 1] + [s[n - 1]];
  }

  /** In a sequence without repeats no element occurs before its position. */
  lemma DistinctNotBefore<T(!new)>(s: seq<T>, n: nat)
    requires 0 < n <= |s| && Distinct(s)
    ensures s[n - 1] !in s[..n - 1]
  {
    assert s == s[..n - 1] + [s[n - 1]] + s[n..];
    assert multiset(s)[s[n - 1]] <= 1;
  }

  function Sum(s: seq<nat>): nat {
    if s == [] then 0 else Sum(s[..|s| - 1]) + s[|s| - 1]
  }
}
