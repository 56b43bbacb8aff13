/*
 * The `AISignalInterpreter` object: an ordered, append-only list of signal
 * records that only `RegisterSignal` (append) and `ClearSignals` (reset)
 * change, and the read-only queries over it.
 */
module Interpreter {
  import opened Scoring
  import opened Signals

  /** The counting part of `report`; `average` is the number that the source formats to four decimals. */
  datatype Summary = Summary(average: real, highRiskTxs: nat, total: nat)

  class AISignalInterpreter {
    var signals: seq<Signal>

    /** Every stored record carries the label its score earns; the constructor and both mutators keep this. */
    predicate Valid()
      reads this
    {
      AllConsistent(signals)
    }

    constructor ()
      ensures signals == []
      ensures Valid()
    {
      signals := [];
    }

    /** Scores and classifies `metrics`, appends the record and returns it. The wall-clock timestamp is a parameter. */
    method RegisterSignal(id: string, timestamp: string, metrics: Metrics) returns (signal: Signal)
      modifies this
      ensures signal.id == id && signal.timestamp == timestamp
      ensures signal.compositeScore == CompositeScore(metrics)
      ensures signal.classification == ClassifyScore(signal.compositeScore)
      ensures signals == old(signals) + [signal]
      ensures Valid() <==> old(Valid())
    {
      var compositeScore := CalculateCompositeScore(metrics);
      var classification := ClassifyScore(compositeScore);
      signal := Signal(id, timestamp, compositeScore, classification);
      signals := signals + [signal];
      assert signals[..|signals| - 1] == old(signals);
    }

    /** Empties the stored list; afterwards the object reads exactly as a fresh one. */
    method ClearSignals()
      modifies this
      ensures signals == []
      ensures Valid()
    {
      signals := [];
    }

    /** The stored signals whose label contains `level`, in stored order. */
    function FilterSignals(level: string): (r: seq<Signal>)
      reads this
      ensures IsSubsequence(r, signals)
      ensures forall x :: x in r <==> x in signals && Includes(x.classification, level)
    {
      FilterByLevel(signals, level)
    }

    /** Every stored signal whose label contains `level` is returned as often as it is stored, and no other. */
    lemma FilterSignalsCounts(level: string, x: Signal)
      ensures multiset(FilterSignals(level))[x] == if Includes(x.classification, level) then multiset(signals)[x] else 0
    {
      FilterCounts(signals, (y: Signal) => Includes(y.classification, level), x);
    }

    /** The mean stored score, 0 when nothing is stored. */
    function GetAverageScore(): (r: real)
      reads this
      ensures signals == [] ==> r == 0.0
      ensures signals != [] ==> r * |signals| as real == SumScores(signals)
    {
      AverageScore(signals)
    }

    /** `signals.slice(-count)`, `count` defaulting to 5: `slice` counts a negative start back from the end and clamps the start to the list. */
    function GetRecentSignals(count: int := 5): (r: seq<Signal>)
      reads this
      ensures 0 < count <= |signals| ==> r == signals[|signals| - count..]
      ensures count == 0 || count > |signals| ==> r == signals
      ensures count < 0 ==> r == signals[(if -count < |signals| then -count else |signals|)..]
    {
      var start := -count;
      var from := if start < 0 then (if |signals| + start < 0 then 0 else |signals| + start)
                  else (if start < |signals| then start else |signals|);
      signals[from..]
    }

    /** A copy of the stored list sorted by score, descending by default. */
    function SortSignalsByScore(desc: bool := true): (r: seq<Signal>)
      reads this
      ensures SortedByScore(r, desc)
      ensures multiset(r) == multiset(signals)
    {
      SortByScore(signals, desc)
    }

    /** The numbers `report` prints: the mean score, the count of "High" labels and the list length. */
    function Report(): (r: Summary)
      reads this
      ensures r.total == |signals|
      ensures r.highRiskTxs <= r.total
      ensures r.average == GetAverageScore()
    {
      Summary(GetAverageScore(), |FilterSignals("High")|, |signals|)
    }

    /** For a valid object, the High Risk count of `report` is the number of stored signals scored above 0.85. */
    lemma ReportCountsAboveHighRisk()
      requires Valid()
      ensures Report().highRiskTxs == |AboveHighRisk(signals)|
    {
      HighLevelIsAboveHighRisk(signals);
    }
  }
}
