/** The five-number summary the box plot of `generateChart` draws for one
    column: the column is sorted with the comparator `(a, b) => a - b` and
    read at nearest-rank positions `floor(n * p)`. */
module Stats {
  import opened Seqs
  import opened Records

  /** The five numbers of one column, or `Unordered` when the column holds a
      string or NaN, for which the model gives no summary. For NaN and for
      strings that do not convert to a number, `a - b` is NaN for some
      pairs and the order Array.prototype.sort produces is
      implementation-defined; a numeric string (from JSON or a spreadsheet)
      would sort by its number, which the model does not follow. */
  datatype BoxStats =
    | Five(min: Value, q1: Value, median: Value, q3: Value, max: Value)
    | Unordered

  predicate IsNum(v: Value) {
    v.Num?
  }

  predicate IsUndef(v: Value) {
    v.Undef?
  }

  function NumKey(v: Value): real {
    if v.Num? then v.x else 0.0
  }

  /** The column holds a string or NaN: a value the model does not sort. */
  predicate Incomparable(vs: seq<Value>) {
    exists i :: 0 <= i < |vs| && (vs[i].Str? || vs[i].NaN?)
  }

  /** `values.sort((a, b) => a - b)` on a column without strings or NaN: the
      numbers in ascending order, then every `undefined`, which
      Array.prototype.sort always moves to the end without consulting the
      comparator. */
  function SortValues(vs: seq<Value>): (r: seq<Value>)
    requires !Incomparable(vs)
    ensures forall i, j :: 0 <= i < j < |r| && r[j].Num? ==> r[i].Num? && r[i].x <= r[j].x
  {
    var nums := SortBy(Filter(vs, IsNum), NumKey);
    var undefs := Filter(vs, IsUndef);
    SortedFilterSatisfies(vs, IsNum, NumKey);
    assert forall i :: 0 <= i < |undefs| ==> undefs[i].Undef?;
    nums + undefs
  }

  /** Without strings or NaN, sorting keeps every value of the column,
      each as often as before. */
  lemma SortValuesPermutes(vs: seq<Value>)
    requires !Incomparable(vs)
    ensures multiset(SortValues(vs)) == multiset(vs)
    ensures |SortValues(vs)| == |vs|
  {
    var r := SortValues(vs);
    FilterCount(vs, IsNum);
    FilterCount(vs, IsUndef);
    forall x ensures multiset(r)[x] == multiset(vs)[x] {
      if x.Str? || x.NaN? {
        assert x !in vs;
      }
    }
    assert multiset(r) == multiset(vs);
    assert |multiset(r)| == |multiset(vs)|;
  }

  /** `Math.floor(n * q / 4)`: the nearest-rank position of the quartile
      `q / 4` in a sorted column of length `n` (0.25, 0.5 and 0.75 are exact
      in binary floating point, so the product is exact). */
  function Rank(n: nat, q: nat): (i: nat)
    requires q <= 4
    ensures 4 * i <= q * n < 4 * i + 4
    ensures q < 4 && n > 0 ==> i < n
  {
    (q * n) / 4
  }

  /** `values[i]`, which is `undefined` outside the array. */
  function At(s: seq<Value>, i: int): Value {
    if 0 <= i < |s| then s[i] else Undef
  }

  /** The statistics of one column: `values[0]`, the three quartile ranks,
      and `values[values.length - 1]` of the sorted column. Every number
      reported is a value of the column; an empty column reports
      `undefined` five times. */
  function Summary(vs: seq<Value>): (b: BoxStats)
    ensures b.Unordered? <==> Incomparable(vs)
  {
    if Incomparable(vs) then Unordered
    else
      var s := SortValues(vs);
      var n := |s|;
      Five(At(s, 0), At(s, Rank(n, 1)), At(s, Rank(n, 2)), At(s, Rank(n, 3)), At(s, n - 1))
  }

  /** Every value the summary reports is a value of the column; an empty
      column reports `undefined` five times. */
  lemma SummaryMembers(vs: seq<Value>)
    requires !Incomparable(vs)
    ensures var b := Summary(vs);
      && b.Five?
      && (|vs| > 0 ==> b.min in vs && b.q1 in vs && b.median in vs && b.q3 in vs && b.max in vs)
      && (|vs| == 0 ==> b == Five(Undef, Undef, Undef, Undef, Undef))
  {
    var s := SortValues(vs);
    var n := |s|;
    SortValuesPermutes(vs);
    if n > 0 {
      var r1, r2, r3 := Rank(n, 1), Rank(n, 2), Rank(n, 3);
      assert Summary(vs) == Five(At(s, 0), At(s, r1), At(s, r2), At(s, r3), At(s, n - 1));
      SortedMember(s, vs, 0);
      SortedMember(s, vs, r1);
      SortedMember(s, vs, r2);
      SortedMember(s, vs, r3);
      SortedMember(s, vs, n - 1);
    }
  }

  /** A position of a rearrangement holds a value of the original. */
  lemma SortedMember(s: seq<Value>, vs: seq<Value>, i: int)
    requires multiset(s) == multiset(vs)
    requires 0 <= i < |s|
    ensures At(s, i) in vs
  {
    assert s[i] in multiset(s);
  }

  /** The box plot's series for a column of numbers: the five values are
      numbers, in ascending order. */
  lemma FiveNumberOrdered(vs: seq<Value>)
    requires |vs| > 0
    requires forall i :: 0 <= i < |vs| ==> vs[i].Num?
    ensures Summary(vs).Five?
    ensures var b := Summary(vs);
      && b.min.Num? && b.q1.Num? && b.median.Num? && b.q3.Num? && b.max.Num?
      && b.min.x <= b.q1.x <= b.median.x <= b.q3.x <= b.max.x
  {
    var s := SortValues(vs);
    SortedNumbers(vs);
    SummaryOfNumbers(vs);
    var n := |s|;
    SortedPair(s, 0, Rank(n, 1));
    SortedPair(s, Rank(n, 1), Rank(n, 2));
    SortedPair(s, Rank(n, 2), Rank(n, 3));
    SortedPair(s, Rank(n, 3), n - 1);
  }

  /** In a sorted column of numbers an earlier entry is no larger. */
  lemma SortedPair(s: seq<Value>, i: nat, j: nat)
    requires i <= j < |s|
    requires forall k :: 0 <= k < |s| ==> s[k].Num?
    requires forall k, l :: 0 <= k < l < |s| && s[l].Num? ==> s[k].Num? && s[k].x <= s[l].x
    ensures s[i].x <= s[j].x
  {
  }

  /** For a non-empty column of numbers the summary reads the sorted column
      at its nearest-rank positions. */
  lemma SummaryOfNumbers(vs: seq<Value>)
    requires |vs| > 0
    requires forall i :: 0 <= i < |vs| ==> vs[i].Num?
    ensures var s := SortValues(vs);
      && |s| == |vs|
      && Summary(vs) == Five(s[0], s[Rank(|s|, 1)], s[Rank(|s|, 2)], s[Rank(|s|, 3)], s[|s| - 1])
  {
    SortedNumbers(vs);
  }

  /** The minimum and maximum of a column of numbers bound every value in it. */
  lemma FiveNumberBounds(vs: seq<Value>)
    requires |vs| > 0
    requires forall i :: 0 <= i < |vs| ==> vs[i].Num?
    ensures Summary(vs).Five? && Summary(vs).min.Num? && Summary(vs).max.Num?
    ensures forall i :: 0 <= i < |vs| ==> Summary(vs).min.x <= vs[i].x <= Summary(vs).max.x
  {
    var s := SortValues(vs);
    var n := |vs|;
    SortedNumbers(vs);
    SortValuesPermutes(vs);
    SortedEnds(s);
    forall i | 0 <= i < n ensures s[0].x <= vs[i].x <= s[n - 1].x {
      assert vs[i] in multiset(s);
      var k :| 0 <= k < n && s[k] == vs[i];
    }
  }

  /** In a sorted column of numbers the first and last entries bound all. */
  lemma SortedEnds(s: seq<Value>)
    requires |s| > 0
    requires forall i :: 0 <= i < |s| ==> s[i].Num?
    requires forall i, j :: 0 <= i < j < |s| ==> s[i].x <= s[j].x
    ensures forall k :: 0 <= k < |s| ==> s[0].x <= s[k].x <= s[|s| - 1].x
  {
  }

  /** Sorting a column of numbers gives numbers only. */
  lemma SortedNumbers(vs: seq<Value>)
    requires forall i :: 0 <= i < |vs| ==> vs[i].Num?
    ensures !Incomparable(vs)
    ensures |SortValues(vs)| == |vs|
    ensures forall i :: 0 <= i < |vs| ==> SortValues(vs)[i].Num?
  {
    var s := SortValues(vs);
    SortValuesPermutes(vs);
    forall i | 0 <= i < |s| ensures s[i].Num? {
      assert s[i] in multiset(vs);
      var k :| 0 <= k < |vs| && vs[k] == s[i];
    }
  }

  /** A column that holds an `undefined` (and no string or NaN) reports
      `undefined` as its maximum: undefined values sort last. */
  lemma UndefinedIsMaximum(vs: seq<Value>, k: nat)
    requires k < |vs| && vs[k].Undef?
    requires !Incomparable(vs)
    ensures Summary(vs).Five? && Summary(vs).max == Undef
  {
    var s := SortValues(vs);
    SortValuesPermutes(vs);
    assert vs[k] in multiset(s);
    var j :| 0 <= j < |s| && s[j] == Undef;
    var last := s[|s| - 1];
    assert last in vs;
    assert !last.Str? && !last.NaN?;
    assert j == |s| - 1 || !last.Num?;
  }

  /** The numbers of a column below `t`. */
  function Below(t: real): Value -> bool {
    (v: Value) => v.Num? && v.x < t
  }

  /** The numbers of a column at most `t`. */
  function AtMost(t: real): Value -> bool {
    (v: Value) => v.Num? && v.x <= t
  }

  /** `m` is the nearest-rank value of rank `r` (counted from 0) of the
      column: at most `r` values lie below it and more than `r` lie at or
      below it. */
  ghost predicate NearestRank(vs: seq<Value>, m: Value, r: nat) {
    m.Num? && |Filter(vs, Below(m.x))| <= r < |Filter(vs, AtMost(m.x))|
  }

  /** For a non-empty column of numbers, each of the five values is the
      column's nearest-rank value at its position: 0 for the minimum,
      `floor(n/4)`, `floor(n/2)` and `floor(3n/4)` for the quartiles, and
      `n - 1` for the maximum. */
  lemma FiveNumberRanks(vs: seq<Value>)
    requires |vs| > 0
    requires forall i :: 0 <= i < |vs| ==> vs[i].Num?
    ensures Summary(vs).Five?
    ensures var b, n := Summary(vs), |vs|;
      && NearestRank(vs, b.min, 0)
      && NearestRank(vs, b.q1, Rank(n, 1))
      && NearestRank(vs, b.median, Rank(n, 2))
      && NearestRank(vs, b.q3, Rank(n, 3))
    ensures NearestRank(vs, Summary(vs).max, |vs| - 1)
  {
    var s := SortValues(vs);
    var n := |vs|;
    SortedNumbers(vs);
    SortValuesPermutes(vs);
    SummaryOfNumbers(vs);
    SortedRankCounts(s, vs, 0);
    SortedRankCounts(s, vs, Rank(n, 1));
    SortedRankCounts(s, vs, Rank(n, 2));
    SortedRankCounts(s, vs, Rank(n, 3));
    SortedRankCounts(s, vs, |s| - 1);
  }

  /** Position `r` of a sorted rearrangement of a column of numbers holds
      the column's nearest-rank value of rank `r`. */
  lemma SortedRankCounts(s: seq<Value>, vs: seq<Value>, r: nat)
    requires r < |s| && multiset(s) == multiset(vs)
    requires forall i :: 0 <= i < |s| ==> s[i].Num?
    requires forall i, j :: 0 <= i < j < |s| ==> s[i].x <= s[j].x
    ensures NearestRank(vs, s[r], r)
  {
    SortedBelow(s, r);
    SortedAtMost(s, r);
    FilterPermutes(s, vs, Below(s[r].x));
    FilterPermutes(s, vs, AtMost(s[r].x));
  }

  /** In a sorted column of numbers only the entries before position `r`
      can lie below entry `r`. */
  lemma SortedBelow(s: seq<Value>, r: nat)
    requires r < |s|
    requires forall i :: 0 <= i < |s| ==> s[i].Num?
    requires forall i, j :: 0 <= i < j < |s| ==> s[i].x <= s[j].x
    ensures |Filter(s, Below(s[r].x))| <= r
  {
    var p := Below(s[r].x);
    var front, back := s[..r], s[r..];
    assert s == front + back;
    forall i | 0 <= i < |back| ensures !p(back[i]) {
      assert back[i] == s[r + i];
    }
    FilterAppend(front, back, p);
    FilterNone(back, p);
  }

  /** In a sorted column of numbers every entry up to position `r` lies at
      or below entry `r`. */
  lemma SortedAtMost(s: seq<Value>, r: nat)
    requires r < |s|
    requires forall i :: 0 <= i < |s| ==> s[i].Num?
    requires forall i, j :: 0 <= i < j < |s| ==> s[i].x <= s[j].x
    ensures r < |Filter(s, AtMost(s[r].x))|
  {
    var p := AtMost(s[r].x);
    var front, back := s[..r + 1], s[r + 1..];
    assert s == front + back;
    forall i | 0 <= i < |front| ensures p(front[i]) {
      assert front[i] == s[i];
    }
    FilterAppend(front, back, p);
    FilterAll(front, p);
  }
}
