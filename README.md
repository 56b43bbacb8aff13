# AI signal interpreter: a Dafny model

This project models the transaction scorer in `scan-config/ai_signal_interpreter.js`.
An `AISignalInterpreter` object holds an ordered, append-only list of signal records.
Each record is built from a metrics object in three steps:

- a weighted composite score over five named metrics (weights 0.3, 0.25, 0.2, 0.15 and 0.1);
- a strict, top-down threshold ladder (0.85, 0.6, 0.3) that assigns one of four risk labels;
- an append to the stored list.

Read-only queries run over the stored list: a substring filter on labels, the mean score, the `slice(-count)` tail, a sort of a copy by score, and the counts printed by `report`.
The free functions `groupByClassification` and `interpolateRisk` are modelled too, and so is the min-max `normalizeSignal`.

The project has three modules:

- `Scoring` (`scoring.dfy`) holds the stateless members. It has the weight table, the `for…in` accumulation loop as a method proved against a specification function, and the classification ladder. It also has `String.prototype.includes` on labels, and normalisation with interpolation.
- `Signals` (`signals.dfy`) holds the `Signal` record and the list computations. These are filter, sum and mean, and a stable insertion sort. It also has the grouping reduce as a method with a loop.
- `Interpreter` (`interpreter.dfy`) holds the class `AISignalInterpreter`. Its `signals: seq<Signal>` field is reassigned only by `RegisterSignal` and `ClearSignals`. The queries are `reads this` functions over that field; `GetRecentSignals` carries the `Array.prototype.slice` start normalisation.

Scores and weights are exact `real`s. The weights sum to exactly 1, so a score built from metrics in [0, 1] lies in [0, 1]. In the source's IEEE-754 doubles the five weights also sum to exactly 1, and because rounding is monotone this bound holds there too. Other identities hold in doubles only up to rounding, such as the normalise/interpolate round trips.

The three class methods that touch no state are module-level members of `Scoring`: `normalizeSignal`, `calculateCompositeScore` and `classifyScore`. The thresholds are never changed after construction, so they are module constants.

`normalizeSignal` divides by `max - min` with no guard. The model returns an `Extended` number. That number is `NaN`, `PosInfinity` or `NegInfinity` when the range is zero. These are the results of a JavaScript division by a +0 range; a −0 range and infinite bounds are not modelled (see "## Left out").

`getRecentSignals(count)` follows `slice(-count)` exactly. A count of 0 gives the whole list, because `-0` is `0`. A negative count drops the first `-count` signals.

A score exactly on a threshold falls into the band below it, so 0.85 is Medium Risk (`ClassifyAtThresholds`).

`Valid()` on the class says that every stored record carries the label its score earns. The constructor and `ClearSignals` establish it. `RegisterSignal` preserves it in both directions. The `report` lemma assumes it, because the field is public and could be written directly.

## Model

| member | source | states |
|---|---|---|
| Scoring.CalculateCompositeScore | scan-config/ai_signal_interpreter.js:16-29 | the loop over the weight keys returns exactly the weighted sum `CompositeScore` of the metrics, missing keys counting 0 |
| Scoring.WeightsSumToOne | scan-config/ai_signal_interpreter.js:17-23 | the five weights sum to exactly 1 |
| Scoring.CompositeScoreClosedForm | scan-config/ai_signal_interpreter.js:16-29 | the score is 0.3·volatility + 0.25·liquidity + 0.2·txRate + 0.15·walletDistribution + 0.1·socialSentiment, an absent metric contributing 0 |
| Scoring.WeightedSumBounds | scan-config/ai_signal_interpreter.js:24-28 | with non-negative weights and metrics in [0,1], the accumulated score lies between 0 and the total weight |
| Scoring.CompositeScoreInUnitRange | scan-config/ai_signal_interpreter.js:16-29 | metrics in [0,1] give a composite score in [0,1] |
| Scoring.OnlyWeightedKeysMatter | scan-config/ai_signal_interpreter.js:25-27 | two metrics objects that agree on the weight keys (absent = 0) get the same score; other keys are ignored |
| Scoring.ClassifyScore | scan-config/ai_signal_interpreter.js:31-36 | High Risk iff score > 0.85, Medium iff 0.6 < score ≤ 0.85, Low iff 0.3 < score ≤ 0.6, Very Low iff score ≤ 0.3 |
| Scoring.ClassifyAtThresholds | scan-config/ai_signal_interpreter.js:31-36 | exactly 0.85 is Medium Risk, exactly 0.6 is Low Risk, exactly 0.3 is Very Low Risk, 0.8500001 is High Risk |
| Scoring.ClassifyMonotone | scan-config/ai_signal_interpreter.js:31-36 | a higher score never gets a lower band |
| Scoring.ClassifyExactlyOneLabel | scan-config/ai_signal_interpreter.js:31-36 | every score gets one of four pairwise distinct labels |
| Scoring.AllOnesIsHighRisk | scan-config/ai_signal_interpreter.js:16-36 | all five metrics at 1 give score exactly 1 and the High Risk label |
| Scoring.HighOnlyInHighLabel | scan-config/ai_signal_interpreter.js:91 | of the four labels, only High Risk contains the substring "High" |
| Scoring.LowInBothLowLabels | scan-config/ai_signal_interpreter.js:32-35 | of the four labels, exactly Low Risk and Very Low Risk contain "Low" |
| Scoring.NormalizeSignal | scan-config/ai_signal_interpreter.js:12-14 | finite iff max ≠ min, and then r·(max−min) = value−min; a zero range yields NaN when value = min, +∞ above and −∞ below, as JavaScript does for a +0 range |
| Scoring.InterpolateRisk | scan-config/ai_signal_interpreter.js:108-110 | factor 0 gives low and factor 1 gives high |
| Scoring.InterpolateWithinBounds | scan-config/ai_signal_interpreter.js:108-110 | a factor in [0,1] gives a point between low and high |
| Scoring.InterpolateNormalized | scan-config/ai_signal_interpreter.js:108-110 | interpolating by the normalised value over a non-zero range returns the value |
| Scoring.NormalizeInterpolated | scan-config/ai_signal_interpreter.js:12-14 | normalising an interpolated point over a non-zero range returns the factor |
| Signals.Filter | scan-config/ai_signal_interpreter.js:52 | the filter result is an order-preserving subsequence, no longer than the input, whose members are exactly the input's members that satisfy the predicate |
| Signals.FilterCounts | scan-config/ai_signal_interpreter.js:52 | every occurrence of a matching element is kept and no occurrence of another |
| Signals.FilterAgreeing | scan-config/ai_signal_interpreter.js:52 | predicates that agree on the list's elements give the same filter result |
| Signals.HighLevelIsAboveHighRisk | scan-config/ai_signal_interpreter.js:91 | on correctly labelled signals, filtering on "High" gives exactly the signals scored above 0.85, in order |
| Signals.LowLevelIsAtMostMediumRisk | scan-config/ai_signal_interpreter.js:51-53 | on correctly labelled signals, filtering on "Low" gives exactly the signals scored at or below 0.6 (both low bands) |
| Signals.SumScoresBounds | scan-config/ai_signal_interpreter.js:58 | scores in [lo,hi] sum to between n·lo and n·hi |
| Signals.AverageWithinBounds | scan-config/ai_signal_interpreter.js:55-61 | the mean of a non-empty list of scores in [lo,hi] lies in [lo,hi] |
| Signals.Insert | scan-config/ai_signal_interpreter.js:68-70 | inserting into a sorted list keeps it sorted and adds exactly that element |
| Signals.SortByScore | scan-config/ai_signal_interpreter.js:67-71 | the result is sorted (non-increasing when desc, non-decreasing otherwise) and a permutation of the input |
| Signals.GroupStep | scan-config/ai_signal_interpreter.js:118-121 | pushing one signal onto its label's list (creating it if absent) turns the grouping of a list into the grouping of the list extended by that signal |
| Signals.GroupByClassification | scan-config/ai_signal_interpreter.js:116-123 | the keys are exactly the labels that occur, and each key maps to the signals with that exact label in stored order |
| Signals.GroupedUnderOwnLabel | scan-config/ai_signal_interpreter.js:116-123 | every signal appears in the list under its own label |
| Interpreter.AISignalInterpreter.constructor | scan-config/ai_signal_interpreter.js:3-10 | a fresh interpreter stores no signals |
| Interpreter.AISignalInterpreter.RegisterSignal | scan-config/ai_signal_interpreter.js:38-45 | appends exactly one record, with the composite score of the metrics and its label, leaving earlier entries unchanged; returns that record; keeps the labelling invariant |
| Interpreter.AISignalInterpreter.ClearSignals | scan-config/ai_signal_interpreter.js:73-75 | the stored list becomes empty, exactly as after construction |
| Interpreter.AISignalInterpreter.FilterSignals | scan-config/ai_signal_interpreter.js:51-53 | an order-preserving subsequence of the stored list holding exactly the signals whose label contains the level |
| Interpreter.AISignalInterpreter.FilterSignalsCounts | scan-config/ai_signal_interpreter.js:51-53 | each stored signal whose label contains the level appears in the result as often as it is stored, and no other signal appears |
| Interpreter.AISignalInterpreter.GetAverageScore | scan-config/ai_signal_interpreter.js:55-61 | 0 for an empty list, otherwise the value that times the length gives the sum of the scores |
| Interpreter.AISignalInterpreter.GetRecentSignals | scan-config/ai_signal_interpreter.js:63-65 | for 0 < count ≤ n the last count signals in order; the whole list for count = 0 or count > n; for count < 0 the list without its first −count signals |
| Interpreter.AISignalInterpreter.SortSignalsByScore | scan-config/ai_signal_interpreter.js:67-71 | a permutation of the stored list, non-increasing in score when desc (the default), non-decreasing otherwise; the stored list is only read |
| Interpreter.AISignalInterpreter.Report | scan-config/ai_signal_interpreter.js:89-97 | total is the list length, the High count is at most the total, and average is the mean score |
| Interpreter.AISignalInterpreter.ReportCountsAboveHighRisk | scan-config/ai_signal_interpreter.js:89-97 | for a correctly labelled list, the High count equals the number of stored signals scored above 0.85 |

## Left out

- `exportSignals` (`JSON.stringify`): the library serialiser is not part of this model, so there is no export/parse round trip.
- `simulateInput` and `generateUUID`: they depend on `Math.random`.
- The wall-clock timestamp from `new Date().toISOString()`: it is an opaque string parameter of `RegisterSignal`.
- Number-to-text formatting: `toFixed(4)` in `report`, `formatScore` and `generateHTMLReport` are presentation only. `Summary.average` is the numeric mean.
- The script's execution context and `console.log` output.
- IEEE-754 rounding: scores are exact reals.
- Scoring.NormalizeSignal: reals have no −0 and no infinities. When `max` is −0 and `min` is +0, the two bounds are equal, but `max - min` is −0. JavaScript then gives −∞ for a value above `min` and +∞ for one below, the reverse of the model's sign rule. Infinite bounds, where `Infinity - Infinity` is `NaN`, are not represented either. The model's zero-range results are those of a +0 range only.
- Non-numeric metric values: metric values are reals. `NaN`, `undefined`, `null`, `""` and `false` under a key would count as 0 through `|| 0`, the same as an absent key. Truthy non-numbers are coerced by `*` instead: `"0.5"` counts as 0.5, `true` as 1, and `"abc"` makes the score `NaN`, which `classifyScore` labels Very Low Risk. None of these is represented.
- Shared records: `registerSignal` returns the stored object itself, and the arrays from filter, slice and sort hold the same objects. A caller that mutates a returned record changes the stored list and can break `Valid()`. Records here are immutable values, so this aliasing is not captured.
- UTF-16 labels: JavaScript strings are UTF-16, and all four emoji start with the code unit `\uD83D`, so `filterSignals("\uD83D")` matches every label. Strings here are sequences of Unicode scalar values, which cannot hold a lone surrogate, so substring tests on partial emoji are not modelled.
- Interpreter.AISignalInterpreter.GetRecentSignals: `count` is an integer. A fractional or non-numeric count, which `slice` truncates or converts, is not modelled.
- Interpreter.AISignalInterpreter.SortSignalsByScore: stability is not stated. JavaScript's sort is stable, and the insertion sort behind the model is stable too, but no contract says so.
- Signals.GroupByClassification: the result is a map, so the insertion order of the keys of the JavaScript object is not captured. The accumulator is a plain object, so `!acc[key]` also sees inherited properties. A label such as "toString", "constructor", "valueOf", "hasOwnProperty" or "__proto__" therefore gets no list, and the following `push` throws a TypeError. The model groups such labels like any other. The labels `classifyScore` produces are never such names.
- `risk-engine/module_engine.py`: floating-point statistics and random sampling. It is not called by the scorer.
- Concurrency: none exists in the source.
