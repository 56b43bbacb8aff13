/*
 * Signal records and the computations the interpreter runs over its stored
 * list: filtering, the mean score, the stable sort by score, and grouping
 * by classification label.
 */
module Signals {
  import opened Scoring

  /** One scored, classified, timestamped record. */
  datatype Signal = Signal(id: string, timestamp: string, compositeScore: real, classification: string)

  /** The record carries the label its score earns. */
  predicate Consistent(s: Signal) {
    s.classification == ClassifyScore(s.compositeScore)
  }

  predicate AllConsistent(ss: seq<Signal>) {
    forall i :: 0 <= i < |ss| ==> Consistent(ss[i])
  }

  // ---------------------------------------------------------------------
  // Filtering (`Array.prototype.filter`)

  /** `r` can be obtained from `s` by deleting elements, keeping the order of the rest. */
  predicate IsSubsequence<T(==)>(r: seq<T>, s: seq<T>)
    decreases |s|
  {
    if r == [] then true
    else if s == [] then false
    else
      (r[|r| - 1] == s[|s| - 1] && IsSubsequence(r[..|r| - 1], s[..|s| - 1]))
      || IsSubsequence(r, s[..|s| - 1])
  }

  /** The elements of `s` that satisfy `p`, in their original order. */
  function Filter<T(==, !new)>(s: seq<T>, p: T -> bool): (r: seq<T>)
    ensures IsSubsequence(r, s)
    ensures forall x :: x in r <==> x in s && p(x)
    ensures |r| <= |s|
  {
    if s == [] then []
    else
      var init, last := s[..|s| - 1], s[|s| - 1];
      assert s == init + [last];
      if p(last) then
        var r := Filter(init, p) + [last];
        assert r[..|r| - 1] == Filter(init, p);
        r
      else
        Filter(init, p)
  }

  /** The filter keeps every occurrence of a matching element and no occurrence of any other. */
  lemma {:induction false} FilterCounts<T(!new)>(s: seq<T>, p: T -> bool, x: T)
    ensures multiset(Filter(s, p))[x] == if p(x) then multiset(s)[x] else 0
  {
    if s != [] {
      var init, last := s[..|s| - 1], s[|s| - 1];
      assert s == init + [last];
      FilterCounts(init, p, x);
    }
  }

  /** Filtering with two predicates that agree on every element gives the same result. */
  lemma {:induction false} FilterAgreeing<T(!new)>(s: seq<T>, p: T -> bool, q: T -> bool)
    requires forall x :: x in s ==> p(x) == q(x)
    ensures Filter(s, p) == Filter(s, q)
  {
    if s != [] {
      FilterAgreeing(s[..|s| - 1], p, q);
    }
  }

  /** The signals whose label contains `level` as a substring. */
  function FilterByLevel(ss: seq<Signal>, level: string): seq<Signal> {
    Filter(ss, (x: Signal) => Includes(x.classification, level))
  }

  /** The signals scored strictly above the High Risk threshold. */
  function AboveHighRisk(ss: seq<Signal>): seq<Signal> {
    Filter(ss, (x: Signal) => x.compositeScore > HighRisk)
  }

  /** The signals scored at or below the Medium Risk threshold. */
  function AtMostMediumRisk(ss: seq<Signal>): seq<Signal> {
    Filter(ss, (x: Signal) => x.compositeScore <= MediumRisk)
  }

  /** In a list of correctly labelled signals, filtering on "High" selects exactly the signals above 0.85. */
  lemma HighLevelIsAboveHighRisk(ss: seq<Signal>)
    requires AllConsistent(ss)
    ensures FilterByLevel(ss, "High") == AboveHighRisk(ss)
  {
    forall x | x in ss
      ensures Includes(x.classification, "High") == (x.compositeScore > HighRisk)
    {
      ClassifyExactlyOneLabel(x.compositeScore);
      HighOnlyInHighLabel(x.classification);
    }
    FilterAgreeing(ss, (x: Signal) => Includes(x.classification, "High"), (x: Signal) => x.compositeScore > HighRisk);
  }

  /** In a list of correctly labelled signals, filtering on "Low" selects both low bands: every signal at or below 0.6. */
  lemma LowLevelIsAtMostMediumRisk(ss: seq<Signal>)
    requires AllConsistent(ss)
    ensures FilterByLevel(ss, "Low") == AtMostMediumRisk(ss)
  {
    forall x | x in ss
      ensures Includes(x.classification, "Low") == (x.compositeScore <= MediumRisk)
    {
      ClassifyExactlyOneLabel(x.compositeScore);
      LowInBothLowLabels(x.classification);
    }
    FilterAgreeing(ss, (x: Signal) => Includes(x.classification, "Low"), (x: Signal) => x.compositeScore <= MediumRisk);
  }

  // ---------------------------------------------------------------------
  // Mean score

  /** The sum of the scores, accumulated first to last as the `reduce` does. */
  function SumScores(ss: seq<Signal>): real {
    if ss == [] then 0.0 else SumScores(ss[..|ss| - 1]) + ss[|ss| - 1].compositeScore
  }

  /** Every score lies in [lo, hi]. */
  predicate ScoresWithin(ss: seq<Signal>, lo: real, hi: real) {
    forall i :: 0 <= i < |ss| ==> lo <= ss[i].compositeScore <= hi
  }

  /** The mean score; 0 for an empty list rather than a division by zero. */
  function AverageScore(ss: seq<Signal>): real {
    if |ss| == 0 then 0.0 else SumScores(ss) / |ss| as real
  }

  /** Scores within [lo, hi] sum to between |ss| * lo and |ss| * hi. */
  lemma {:induction false} SumScoresBounds(ss: seq<Signal>, lo: real, hi: real)
    requires ScoresWithin(ss, lo, hi)
    ensures |ss| as real * lo <= SumScores(ss) <= |ss| as real * hi
  {
    if ss != [] {
      var init := ss[..|ss| - 1];
      assert ScoresWithin(init, lo, hi) by {
        forall i | 0 <= i < |init| ensures lo <= init[i].compositeScore <= hi {
          assert init[i] == ss[i];
        }
      }
      SumScoresBounds(init, lo, hi);
    }
  }

  /** The mean of a non-empty list lies between the smallest and largest bound on its scores. */
  lemma AverageWithinBounds(ss: seq<Signal>, lo: real, hi: real)
    requires ss != [] && ScoresWithin(ss, lo, hi)
    ensures lo <= AverageScore(ss) <= hi
  {
    SumScoresBounds(ss, lo, hi);
    var n := |ss| as real;
    var avg := AverageScore(ss);
    assert avg == SumScores(ss) / n;
    assert avg * n == SumScores(ss);
    assert n * (avg - lo) >= 0.0 && n * (hi - avg) >= 0.0;
  }

  // ---------------------------------------------------------------------
  // Sorting by score (`[...signals].sort(comparator)`)

  /** `x` may precede `y`: non-increasing when `desc`, non-decreasing otherwise. */
  predicate InOrder(x: real, y: real, desc: bool) {
    if desc then x >= y else x <= y
  }

  predicate SortedByScore(ss: seq<Signal>, desc: bool) {
    forall i, j :: 0 <= i < j < |ss| ==> InOrder(ss[i].compositeScore, ss[j].compositeScore, desc)
  }

  /** `y` may precede every element of `ss`. */
  predicate PrecedesAll(y: Signal, ss: seq<Signal>, desc: bool) {
    forall z :: z in ss ==> InOrder(y.compositeScore, z.compositeScore, desc)
  }

  /** A sorted list with an element in front that may precede all of it is sorted. */
  lemma SortedCons(y: Signal, ss: seq<Signal>, desc: bool)
    requires PrecedesAll(y, ss, desc) && SortedByScore(ss, desc)
    ensures SortedByScore([y] + ss, desc)
  {
  }

  /** Inserts `x` before the first element it may precede, so that it stays ahead of equal scores. */
  function Insert(x: Signal, ss: seq<Signal>, desc: bool): (r: seq<Signal>)
    requires SortedByScore(ss, desc)
    ensures SortedByScore(r, desc)
    ensures multiset(r) == multiset(ss) + multiset{x}
  {
    if ss == [] then [x]
    else
      var head, tail := ss[0], ss[1..];
      assert ss == [head] + tail;
      assert PrecedesAll(head, tail, desc) by {
        forall z | z in tail ensures InOrder(head.compositeScore, z.compositeScore, desc) {
          var j :| 0 <= j < |tail| && tail[j] == z;
          assert ss[j + 1] == z;
        }
      }
      assert SortedByScore(tail, desc) by {
        forall i, j | 0 <= i < j < |tail|
          ensures InOrder(tail[i].compositeScore, tail[j].compositeScore, desc)
        {
          assert tail[i] == ss[i + 1] && tail[j] == ss[j + 1];
        }
      }
      if InOrder(x.compositeScore, head.compositeScore, desc) then
        assert PrecedesAll(x, ss, desc);
        SortedCons(x, ss, desc);
        [x] + ss
      else
        var rest := Insert(x, tail, desc);
        assert PrecedesAll(head, rest, desc) by {
          forall z | z in rest ensures InOrder(head.compositeScore, z.compositeScore, desc) {
            assert z in multiset(rest);
            assert z == x || z in multiset(tail);
          }
        }
        SortedCons(head, rest, desc);
        [head] + rest
  }

  /** The stable sort the comparator `b - a` (descending) or `a - b` (ascending) produces. */
  function SortByScore(ss: seq<Signal>, desc: bool): (r: seq<Signal>)
    ensures SortedByScore(r, desc)
    ensures multiset(r) == multiset(ss)
  {
    if ss == [] then []
    else
      assert ss == [ss[0]] + ss[1..];
      Insert(ss[0], SortByScore(ss[1..], desc), desc)
  }

  // ---------------------------------------------------------------------
  // Grouping by label

  /** The signals carrying exactly the label `key`, in order. */
  function Labelled(ss: seq<Signal>, key: string): seq<Signal> {
    Filter(ss, (x: Signal) => x.classification == key)
  }

  /** The labels that occur in `ss`. */
  function Labels(ss: seq<Signal>): set<string> {
    set x | x in ss :: x.classification
  }

  /** Appending a signal appends it to its own label's list and leaves the other lists alone. */
  lemma LabelledSnoc(ss: seq<Signal>, x: Signal, key: string)
    ensures Labelled(ss + [x], key) == Labelled(ss, key) + (if x.classification == key then [x] else [])
    ensures Labels(ss + [x]) == Labels(ss) + {x.classification}
  {
  }

  /** A label that occurs in no signal has an empty list. */
  lemma LabelledAbsent(ss: seq<Signal>, key: string)
    requires key !in Labels(ss)
    ensures Labelled(ss, key) == []
  {
  }

  /** The grouping of `ss`: one list per label that occurs, holding that label's signals in order. */
  predicate GroupsOf(groups: map<string, seq<Signal>>, ss: seq<Signal>) {
    groups.Keys == Labels(ss) && forall key :: key in groups ==> groups[key] == Labelled(ss, key)
  }

  /** One step of the reduce: pushing `x` onto the list under its label turns the grouping of `ss` into that of `ss + [x]`. */
  lemma GroupStep(groups: map<string, seq<Signal>>, ss: seq<Signal>, x: Signal)
    requires GroupsOf(groups, ss)
    ensures var key := x.classification;
            var g := if key in groups then groups else groups[key := []];
            GroupsOf(g[key := g[key] + [x]], ss + [x])
  {
    var key := x.classification;
    var g := if key in groups then groups else groups[key := []];
    assert g[key] == Labelled(ss, key) by {
      if key !in groups {
        LabelledAbsent(ss, key);
      }
    }
    var g' := g[key := g[key] + [x]];
    assert g'.Keys == Labels(ss + [x]) by { LabelledSnoc(ss, x, key); }
    forall k | k in g'
      ensures g'[k] == Labelled(ss + [x], k)
    {
      LabelledSnoc(ss, x, k);
      if k != key {
        assert g'[k] == groups[k];
      }
    }
  }

  /** `groupByClassification`: the reduce that pushes each signal onto the list under its label. */
  method GroupByClassification(ss: seq<Signal>) returns (groups: map<string, seq<Signal>>)
    ensures groups.Keys == Labels(ss)
    ensures forall key :: key in groups ==> groups[key] == Labelled(ss, key)
  {
    groups := map[];
    var i := 0;
    while i < |ss|
      invariant 0 <= i <= |ss|
      invariant GroupsOf(groups, ss[..i])
    {
      var sig := ss[i];
      var key := sig.classification;
      GroupStep(groups, ss[..i], sig);
      assert ss[..i + 1] == ss[..i] + [sig];
      if key !in groups {
        groups := groups[key := []];
      }
      groups := groups[key := groups[key] + [sig]];
      i := i + 1;
    }
    assert ss[..i] == ss;
  }

  /** Every signal sits in the list of its own label. */
  lemma GroupedUnderOwnLabel(groups: map<string, seq<Signal>>, ss: seq<Signal>, x: Signal)
    requires GroupsOf(groups, ss) && x in ss
    ensures x.classification in groups && x in groups[x.classification]
  {
  }
}
