/*
 * The stateless part of the AI signal interpreter: the weighted composite
 * risk score, the threshold ladder that turns a score into a risk label,
 * min-max normalisation and linear interpolation, and the substring test
 * that the interpreter's queries use on labels.
 *
 * Scores and weights are exact reals. The source computes them in IEEE-754
 * doubles, where the weights still sum to exactly 1 and the unit-range bound
 * on scores still holds, since rounding is monotone; the normalise/interpolate
 * round trips hold there only up to rounding.
 */
module Scoring {

  /** A metrics object: metric name to value. A name that is absent counts as 0. */
  type Metrics = map<string, real>

  /** The weight table, in the order in which the score loop visits its keys. */
  const Weights: seq<(string, real)> := [
    ("volatility", 0.3),
    ("liquidity", 0.25),
    ("txRate", 0.2),
    ("walletDistribution", 0.15),
    ("socialSentiment", 0.1)
  ]

  /** `metrics[key] || 0`: the value stored under `key`, or 0 when there is none. */
  function MetricOr0(metrics: Metrics, key: string): real {
    if key in metrics then metrics[key] else 0.0
  }

  /** The score accumulated over the entries of `ws`, first entry first. */
  function WeightedSum(ws: seq<(string, real)>, metrics: Metrics): real {
    if ws == [] then 0.0
    else WeightedSum(ws[..|ws| - 1], metrics) + MetricOr0(metrics, ws[|ws| - 1].0) * ws[|ws| - 1].1
  }

  /** The sum of the weights in `ws`. */
  function TotalWeight(ws: seq<(string, real)>): real {
    if ws == [] then 0.0 else TotalWeight(ws[..|ws| - 1]) + ws[|ws| - 1].1
  }

  /** The composite score of a metrics object: its weighted sum over the weight table. */
  function CompositeScore(metrics: Metrics): real {
    WeightedSum(Weights, metrics)
  }

  /** Every metric that is present lies in [0, 1]. */
  predicate InUnitRange(metrics: Metrics) {
    forall key :: key in metrics ==> 0.0 <= metrics[key] <= 1.0
  }

  /** `calculateCompositeScore`: the loop over the weight keys that accumulates the score. */
  method CalculateCompositeScore(metrics: Metrics) returns (score: real)
    ensures score == CompositeScore(metrics)
  {
    score := 0.0;
    var i := 0;
    while i < |Weights|
      invariant 0 <= i <= |Weights|
      invariant score == WeightedSum(Weights[..i], metrics)
    {
      var (key, weight) := Weights[i];
      assert Weights[..i + 1][..i] == Weights[..i];
      score := score + MetricOr0(metrics, key) * weight;
      i := i + 1;
    }
    assert Weights[..i] == Weights;
  }

  /** The weights of the table sum to exactly 1. */
  lemma WeightsSumToOne()
    ensures TotalWeight(Weights) == 1.0
  {
    assert Weights[..4][..3] == Weights[..3];
    assert Weights[..3][..2] == Weights[..2];
    assert Weights[..2][..1] == Weights[..1];
    assert Weights[..1][..0] == [];
    assert TotalWeight(Weights[..1]) == 0.3;
    assert TotalWeight(Weights[..2]) == 0.55;
    assert TotalWeight(Weights[..3]) == 0.75;
    assert TotalWeight(Weights[..4]) == 0.9;
  }

  /** The composite score written out term by term: each named metric times its weight. */
  lemma CompositeScoreClosedForm(metrics: Metrics)
    ensures CompositeScore(metrics) ==
      0.3 * MetricOr0(metrics, "volatility") + 0.25 * MetricOr0(metrics, "liquidity")
      + 0.2 * MetricOr0(metrics, "txRate") + 0.15 * MetricOr0(metrics, "walletDistribution")
      + 0.1 * MetricOr0(metrics, "socialSentiment")
  {
    assert Weights[..4][..3] == Weights[..3];
    assert Weights[..3][..2] == Weights[..2];
    assert Weights[..2][..1] == Weights[..1];
    assert Weights[..1][..0] == [];
    var v, l, t, w, c := MetricOr0(metrics, "volatility"), MetricOr0(metrics, "liquidity"),
      MetricOr0(metrics, "txRate"), MetricOr0(metrics, "walletDistribution"), MetricOr0(metrics, "socialSentiment");
    assert WeightedSum(Weights[..1], metrics) == v * 0.3;
    assert WeightedSum(Weights[..2], metrics) == v * 0.3 + l * 0.25;
    assert WeightedSum(Weights[..3], metrics) == v * 0.3 + l * 0.25 + t * 0.2;
    assert WeightedSum(Weights[..4], metrics) == v * 0.3 + l * 0.25 + t * 0.2 + w * 0.15;
  }

  /** With non-negative weights and metrics in [0, 1], the weighted sum lies between 0 and the total weight. */
  lemma {:induction false} WeightedSumBounds(ws: seq<(string, real)>, metrics: Metrics)
    requires forall i :: 0 <= i < |ws| ==> ws[i].1 >= 0.0
    requires InUnitRange(metrics)
    ensures 0.0 <= WeightedSum(ws, metrics) <= TotalWeight(ws)
  {
    if ws != [] {
      var init, last := ws[..|ws| - 1], ws[|ws| - 1];
      WeightedSumBounds(init, metrics);
      assert forall i :: 0 <= i < |init| ==> init[i] == ws[i];
      var v, w := MetricOr0(metrics, last.0), last.1;
      assert 0.0 <= v <= 1.0 && w >= 0.0;
      assert 0.0 <= v * w <= w by { assert (1.0 - v) * w >= 0.0; }
    }
  }

  /** When every metric lies in [0, 1], so does the composite score, because the weights are non-negative and sum to 1. */
  lemma CompositeScoreInUnitRange(metrics: Metrics)
    requires InUnitRange(metrics)
    ensures 0.0 <= CompositeScore(metrics) <= 1.0
  {
    WeightedSumBounds(Weights, metrics);
    WeightsSumToOne();
  }

  /** Metric names outside the weight table do not change the score; absent names score as 0. */
  lemma {:induction false} OnlyWeightedKeysMatter(ws: seq<(string, real)>, m1: Metrics, m2: Metrics)
    requires forall i :: 0 <= i < |ws| ==> MetricOr0(m1, ws[i].0) == MetricOr0(m2, ws[i].0)
    ensures WeightedSum(ws, m1) == WeightedSum(ws, m2)
  {
    if ws != [] {
      OnlyWeightedKeysMatter(ws[..|ws| - 1], m1, m2);
    }
  }

  // ---------------------------------------------------------------------
  // Classification

  const HighRisk: real := 0.85
  const MediumRisk: real := 0.6
  const LowRisk: real := 0.3

  const HighLabel: string := "\U{1F534} High Risk"
  const MediumLabel: string := "\U{1F7E0} Medium Risk"
  const LowLabel: string := "\U{1F7E1} Low Risk"
  const VeryLowLabel: string := "\U{1F7E2} Very Low Risk"

  /** `classifyScore`: strict comparisons, tested from the highest threshold down. */
  function ClassifyScore(score: real): (classification: string)
    ensures classification == HighLabel <==> score > HighRisk
    ensures classification == MediumLabel <==> MediumRisk < score <= HighRisk
    ensures classification == LowLabel <==> LowRisk < score <= MediumRisk
    ensures classification == VeryLowLabel <==> score <= LowRisk
  {
    if score > HighRisk then HighLabel
    else if score > MediumRisk then MediumLabel
    else if score > LowRisk then LowLabel
    else VeryLowLabel
  }

  /** The rank of a label on the ladder, 0 for the lowest band. */
  function Severity(name: string): nat {
    if name == HighLabel then 3
    else if name == MediumLabel then 2
    else if name == LowLabel then 1
    else 0
  }

  /** A score exactly on a threshold falls into the band below it. */
  lemma ClassifyAtThresholds()
    ensures ClassifyScore(0.85) == MediumLabel
    ensures ClassifyScore(0.6) == LowLabel
    ensures ClassifyScore(0.3) == VeryLowLabel
    ensures ClassifyScore(0.8500001) == HighLabel
  {
  }

  /** A higher score never gets a lower band. */
  lemma ClassifyMonotone(s1: real, s2: real)
    requires s1 <= s2
    ensures Severity(ClassifyScore(s1)) <= Severity(ClassifyScore(s2))
  {
  }

  /** Every score gets exactly one of the four labels. */
  lemma ClassifyExactlyOneLabel(score: real)
    ensures ClassifyScore(score) in {HighLabel, MediumLabel, LowLabel, VeryLowLabel}
    ensures |{HighLabel, MediumLabel, LowLabel, VeryLowLabel}| == 4
  {
  }

  /** A metrics object with every metric at 1 scores exactly 1 and is High Risk. */
  lemma AllOnesIsHighRisk(metrics: Metrics)
    requires forall i :: 0 <= i < |Weights| ==> MetricOr0(metrics, Weights[i].0) == 1.0
    ensures CompositeScore(metrics) == 1.0
    ensures ClassifyScore(CompositeScore(metrics)) == HighLabel
  {
    CompositeScoreClosedForm(metrics);
    assert MetricOr0(metrics, Weights[0].0) == 1.0;
    assert MetricOr0(metrics, Weights[1].0) == 1.0;
    assert MetricOr0(metrics, Weights[2].0) == 1.0;
    assert MetricOr0(metrics, Weights[3].0) == 1.0;
    assert MetricOr0(metrics, Weights[4].0) == 1.0;
  }

  // ---------------------------------------------------------------------
  // Substring test on labels (`String.prototype.includes`)

  /** `sub` occurs in `s` starting at position `i`. */
  predicate OccursAt(s: string, sub: string, i: int) {
    0 <= i && i + |sub| <= |s| && s[i..i + |sub|] == sub
  }

  /** `s.includes(sub)`: `sub` occurs in `s` at some position. The empty string occurs everywhere. */
  predicate Includes(s: string, sub: string) {
    exists i :: 0 <= i <= |s| - |sub| && OccursAt(s, sub, i)
  }

  /** A string that lacks the first character of `sub` does not include `sub`. */
  lemma NotIncludedWithoutFirstChar(s: string, sub: string)
    requires |sub| > 0 && sub[0] !in s
    ensures !Includes(s, sub)
  {
  }

  /** "High" occurs in the High Risk label and in no other. */
  lemma HighOnlyInHighLabel(name: string)
    requires name in {HighLabel, MediumLabel, LowLabel, VeryLowLabel}
    ensures Includes(name, "High") <==> name == HighLabel
  {
    if name == HighLabel {
      assert OccursAt(name, "High", 2);
    } else {
      assert 'H' !in name;
      NotIncludedWithoutFirstChar(name, "High");
    }
  }

  /** "Low" occurs in the Low Risk and Very Low Risk labels and in no other. */
  lemma LowInBothLowLabels(name: string)
    requires name in {HighLabel, MediumLabel, LowLabel, VeryLowLabel}
    ensures Includes(name, "Low") <==> name == LowLabel || name == VeryLowLabel
  {
    if name == LowLabel {
      assert OccursAt(name, "Low", 2);
    } else if name == VeryLowLabel {
      assert OccursAt(name, "Low", 7);
    } else {
      assert 'L' !in name;
      NotIncludedWithoutFirstChar(name, "Low");
    }
  }

  // ---------------------------------------------------------------------
  // Normalisation and interpolation

  /** A JavaScript number as far as this model needs one: a finite value or one of the non-finite results of division by zero. */
  datatype Extended = Finite(value: real) | PosInfinity | NegInfinity | NaN

  /** `normalizeSignal`: `(value - min) / (max - min)`; a zero range divides by zero. */
  function NormalizeSignal(value: real, min: real, max: real): (r: Extended)
    ensures r.Finite? <==> max != min
    ensures r.Finite? ==> r.value * (max - min) == value - min
    ensures max == min ==> (r == NaN <==> value == min)
    ensures max == min ==> (r == PosInfinity <==> value > min)
  {
    if max == min then
      if value == min then NaN else if value > min then PosInfinity else NegInfinity
    else
      Finite((value - min) / (max - min))
  }

  /** `interpolateRisk`: the point a fraction `factor` of the way from `low` to `high`. */
  function InterpolateRisk(low: real, high: real, factor: real): (r: real)
    ensures factor == 0.0 ==> r == low
    ensures factor == 1.0 ==> r == high
  {
    low + (high - low) * factor
  }

  /** A factor in [0, 1] interpolates to a point between the two ends. */
  lemma InterpolateWithinBounds(low: real, high: real, factor: real)
    requires low <= high && 0.0 <= factor <= 1.0
    ensures low <= InterpolateRisk(low, high, factor) <= high
  {
    var d := high - low;
    assert 0.0 <= d * factor;
    assert d * factor <= d by { assert d * (1.0 - factor) >= 0.0; assert d * (1.0 - factor) == d - d * factor; }
  }

  /** Interpolating by a normalised value gives the value back. */
  lemma InterpolateNormalized(value: real, min: real, max: real)
    requires max != min
    ensures InterpolateRisk(min, max, NormalizeSignal(value, min, max).value) == value
  {
  }

  /** Normalising an interpolated value gives the factor back. */
  lemma NormalizeInterpolated(low: real, high: real, factor: real)
    requires high != low
    ensures NormalizeSignal(InterpolateRisk(low, high, factor), low, high) == Finite(factor)
  {
  }
}
