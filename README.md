# btc-ai-oracle forecast engine, in Dafny

This project models the forecasting and settlement core of btc-ai-oracle. Each
hour the service asks several language models for a Bitcoin forecast over three
horizons (1h, 4h, 24h). It validates each reply, averages the replies into one
consensus forecast, scores how much the models agree and records how they
differ. It stores the forecast and, once a horizon has expired, settles it
against the realised price. It then reports hit rates per horizon and per model.

Modules, one per source file or concern:

- `Shapes` (shapes.dfy): the record shapes of a model's reply (`WindowPrediction`,
  `TopFactor`, `Response`, `AIResult`), the horizons and the lean of a split.
- `Numeric` (numeric.dfy): sums, means, population standard deviation and
  JavaScript's `Math.round`, with their bounds.
- `Lists` (lists.dfy): prefixes, first occurrence and order-keeping de-duplication.
- `Parser` (parser.dfy): `parseAIResponse`.
- `Factors` (factors.dfy): the merge-by-name, sort-by-strength and cut-to-five
  of the top factors inside `aggregateWindow`.
- `Consensus` (consensus.dfy): `calculateConsensusStrength` and
  `generateDivergenceSummary`.
- `Aggregator` (aggregator.dfy): `aggregateWindow` and `aggregatePredictions`.
- `PredictionService` (service.dfy): the stored rows, and the class
  `PredictionStore` holding the five tables that `createHourlyPrediction`,
  `savePrediction`, `settleExpiredWindows`, `getStats` and `getAIStats` read
  and write.

The state-changing operations are methods of `PredictionStore`. Each one is
proved equal to a specification function on the old tables (`SettlePredictions`,
`Stats`, `AIStats`, and so on). The properties the service promises are then
lemmas about those functions. Examples: settlement is append-only, settles each
horizon at most once and is idempotent; hit rates stay within their scale; and
per-model reports come in order of first appearance (see "## Left out" for
model names that look like array indices).

Modelling choices:

- JavaScript numbers are modelled as `real`. `Math.round(x)` becomes `floor(x + 0.5)`.
- `Math.sqrt` is a parameter. Any function that is the square root on
  non-negative reals is accepted (`IsSqrt`).
- Clock reads (`new Date()`) become an `int` millisecond parameter `now`.
- The historical price lookup `getPriceAt` becomes a parameter
  `priceAt: int -> Option<real>`. `None` stands for a lookup that throws.
- The JSON decoder becomes a parameter `decode: string -> Option<Decoded>`.
- The database tables are `seq` fields of `PredictionStore`, in insertion order.
  Row timestamps are `int` milliseconds.
- The `isHit` column (0/1) is a `bool`.

## Model

| member | source | states |
|---|---|---|
| Parser.ParseAIResponse | src/lib/ai/prompt.ts:240-275 | The reply becomes the one `ParseSpec` describes. A text the decoder rejects gives no response. Every returned horizon has a split within 0.01 of 1. |
| Parser.ParseSucceedsIff | src/lib/ai/prompt.ts:251-268 | Parsing succeeds exactly when decoding succeeds, all three horizons are present and none needs rescaling from a zero sum. |
| Parser.ParsePassesThrough | src/lib/ai/prompt.ts:260-268 | Only the split of a horizon is changed. A split within 0.01 of 1 is kept; any other is rescaled to sum to exactly 1. |
| Parser.NormalizeWindows | src/lib/ai/prompt.ts:260-268 | The rescaling loop fails exactly when one of the three horizons cannot be rescaled. Otherwise each horizon becomes its rescaled split. |
| Parser.NormalizeSplit | src/lib/ai/prompt.ts:260-268 | A split within 0.01 of 1 is kept. Otherwise each probability is divided by the sum, so the result sums to 1. The result is a valid split, and every other field is untouched. |
| Parser.ExtractJson | src/lib/ai/prompt.ts:243-244 | A text with no "```json" fence is passed on whole. |
| Parser.UnclosedFenceKeepsText | src/lib/ai/prompt.ts:243-244 | When the first "```json" fence has no closing fence after it, the pattern does not match and the whole text is passed on. |
| Parser.ExtractFirstFencedBlock | src/lib/ai/prompt.ts:243-244 | When the text holds a fenced json block, the contents of the first one, without surrounding whitespace, are what gets decoded. |
| Parser.StripControl | src/lib/ai/prompt.ts:247-248 | No control character survives. A character is kept exactly when it occurs in the input and is not a control character. A single character is dropped exactly when it is a control character. |
| Parser.StripControlAppend | src/lib/ai/prompt.ts:247-248 | Cleaning works character by character: cleaning a concatenation concatenates the cleaned parts. With the single-character clause, every other character is kept once and in its place. |
| Parser.StripControlKeepsCleanText | src/lib/ai/prompt.ts:247-248 | Text without control characters passes unchanged. |
| Parser.Trim | src/lib/ai/prompt.ts:249 | The result is a slice of the input that neither starts nor ends with whitespace. Only whitespace was cut on either side. |
| Parser.TrimKeepsTrimmedText | src/lib/ai/prompt.ts:249 | Text without surrounding whitespace passes unchanged. |
| Numeric.Round | src/lib/ai/aggregator.ts:180 | `Math.round` lands within half a unit of its argument: x - 0.5 < r <= x + 0.5. |
| Numeric.StdDev | src/lib/ai/aggregator.ts:44-49 | The population standard deviation is non-negative. |
| Numeric.StdDevOfConstant | src/lib/ai/aggregator.ts:44-49 | Identical values have standard deviation 0. |
| Numeric.MeanBounds | src/lib/ai/aggregator.ts:164-177 | A mean lies between the lower and upper bounds of its values. |
| Numeric.SharesOfUnitSum | src/lib/ai/aggregator.ts:169-172 | Normalising a split that already sums to 1 leaves it unchanged. |
| Numeric.SharesAreFractions | src/lib/ai/aggregator.ts:169-172 | Normalised non-negative shares each lie in [0, 1]. |
| Lists.DedupKeepsFirstAppearanceOrder | src/lib/ai/aggregator.ts:215-219 | De-duplication keeps values in the order they first appear in the input: the iteration order of a JavaScript `Set`. |
| Factors.IndexOfName | src/lib/ai/aggregator.ts:202 | `find` by name gives the first factor of that name, or none. |
| Factors.FindByName | src/lib/ai/aggregator.ts:202 | The loop finds the same index as `IndexOfName`. |
| Factors.MergeByNameSpec | src/lib/ai/aggregator.ts:199-209 | Merging keeps one entry per name, in order of first appearance. Each entry is the first factor of its name, carrying the largest strength seen under that name. |
| Factors.MergeOne | src/lib/ai/aggregator.ts:202-207 | One step of the merge raises the strength of the entry of the same name, or appends a copy when there is none. |
| Factors.MergeForecastFactors | src/lib/ai/aggregator.ts:201-208 | Merging one forecast's factors into the list so far gives the merge of all the factors seen. |
| Factors.MergeTopFactors | src/lib/ai/aggregator.ts:199-209 | The nested loops compute the merge of all the forecasts' factors. |
| Factors.SortByStrengthSpec | src/lib/ai/aggregator.ts:210-211 | The sort returns a permutation of its input, in descending strength. |
| Factors.InsertIsStable | src/lib/ai/aggregator.ts:210-211 | Inserting an entry places it after every entry of the same strength. |
| Factors.SortIsStable | src/lib/ai/aggregator.ts:210-211 | The sort is stable: the entries of any one strength keep their input order, which decides which of them survive the cut to five. |
| Factors.InsertKeepsSorted | src/lib/ai/aggregator.ts:211 | Inserting into a list sorted by descending strength keeps it sorted. |
| Factors.SortKeepsNamesDistinct | src/lib/ai/aggregator.ts:210-211 | Sorting keeps names distinct. |
| Factors.TopFactorsSpec | src/lib/ai/aggregator.ts:199-212 | At most five factors are kept, with distinct names and in descending strength. Each is the merged entry of its name. When at most five names exist, all are kept. A name that was dropped is no stronger than any kept factor. |
| Consensus.Successes | src/lib/ai/aggregator.ts:53 | Only calls that succeeded with data are kept. The list is empty exactly when no call is usable. |
| Consensus.CountsPartition | src/lib/ai/aggregator.ts:60-69 | Every model is counted in exactly one of up, down and flat. |
| Consensus.FullCountIffUnanimous | src/lib/ai/aggregator.ts:66-71 | A direction's count equals the number of models exactly when every model points that way. |
| Consensus.MajorityCount | src/lib/ai/aggregator.ts:70 | The majority count is one of the three counts and at least each of them. |
| Consensus.AgreementIsOneIffUnanimous | src/lib/ai/aggregator.ts:70-71 | A horizon's agreement ratio is 1 exactly when all models point the same way. |
| Consensus.Agreement | src/lib/ai/aggregator.ts:70-71 | The agreement ratio lies between 1/3 and 1. |
| Consensus.Consistency | src/lib/ai/aggregator.ts:89 | Consistency lies in [0, 1]. It is 1 when the spread is 0 and 0 when the spread reaches 0.3. |
| Consensus.Strength | src/lib/ai/aggregator.ts:52-92 | Strength lies in [0, 100]. It is 0 exactly when fewer than two models succeeded, and at least 20 otherwise. |
| Consensus.IdenticalOutputsGiveFullStrength | src/lib/ai/aggregator.ts:52-92 | Two or more identical forecasts give strength 100. |
| Consensus.ConsensusStrength | src/lib/ai/aggregator.ts:52-92 | The loop over horizons computes `Strength`. |
| Consensus.CountDirections | src/lib/ai/aggregator.ts:60-70 | The three counts are the numbers of models pointing up, down and flat on the horizon. |
| Consensus.WindowAgreements | src/lib/ai/aggregator.ts:57-72 | The per-horizon loop yields the largest camp's share on 1h, 4h and 24h, in that order. |
| Consensus.ProbabilitySpreads | src/lib/ai/aggregator.ts:78-84 | The loop yields the six standard deviations, up then down for each horizon. |
| Consensus.NamesLeaningSpec | src/lib/ai/aggregator.ts:102-111 | The list of models leaning one way on 4h is non-empty exactly when some model leans that way. It names every such model. |
| Consensus.NamesLeaningOnly | src/lib/ai/aggregator.ts:102-111 | Only models leaning that way on 4h are named. |
| Consensus.NamesLeaningAppend | src/lib/ai/aggregator.ts:102-111 | Names come in model order: naming the models of a concatenation concatenates the names of the parts. |
| Consensus.CampEntries | src/lib/ai/aggregator.ts:110-115 | A split-camps line appears exactly when some model is bullish and some bearish on 4h. |
| Consensus.ConfidenceGapCondition | src/lib/ai/aggregator.ts:118-125 | A confidence line appears exactly when the 4h confidences differ by more than 20. |
| Consensus.RangeGapCondition | src/lib/ai/aggregator.ts:128-138 | A range line appears exactly when some model's 4h expected range exceeds another's by more than half as much again and by more than 0.5 points. |
| Consensus.DivergenceSummary | src/lib/ai/aggregator.ts:95-141 | The summary has at most three lines and is empty with fewer than two models. The lines come in the order camps, confidence, range. |
| Aggregator.Invalidations | src/lib/ai/aggregator.ts:214-219 | The invalidation conditions are at most five, distinct, and all taken from the inputs. When there are at most five distinct ones, all are kept. |
| Aggregator.AddConditionAt | src/lib/ai/aggregator.ts:217 | Adding the next condition to the set gives the de-duplication of the conditions seen so far. |
| Aggregator.AddConditions | src/lib/ai/aggregator.ts:217 | Adding one forecast's conditions gives the de-duplication of all the conditions seen. |
| Aggregator.CollectInvalidations | src/lib/ai/aggregator.ts:215-218 | The loops collect the conditions de-duplicated, in order of first appearance. |
| Aggregator.WindowConsensus | src/lib/ai/aggregator.ts:144-233 | No forecasts give the neutral default. Otherwise the averaged split sums to 1, the conclusion is the lean and volatility of the averages, and at most five factors and five conditions are kept. |
| Aggregator.AggregateWindow | src/lib/ai/aggregator.ts:144-233 | The method computes `WindowConsensus`. |
| Aggregator.ValidSplitsNormalisable | src/lib/ai/aggregator.ts:169-172 | When every split is within 0.01 of 1, the averaged total is positive, so the normalisation is defined. |
| Aggregator.SplitIsDistribution | src/lib/ai/aggregator.ts:164-172 | With non-negative inputs, the consensus probabilities each lie in [0, 1]. |
| Aggregator.MeanWithin | src/lib/ai/aggregator.ts:164-180 | An averaged field lies within the bounds of the inputs' field. |
| Aggregator.IdenticalForecastsAggregateToThemselves | src/lib/ai/aggregator.ts:164-180 | Identical forecasts with a unit split aggregate to that forecast's split, moves, range and rounded confidence. |
| Aggregator.ParsedHorizonsNormalisable | src/lib/ai/aggregator.ts:237-249 | Parsed replies can always be averaged and normalised on every horizon. |
| Aggregator.AggregatePredictions | src/lib/ai/aggregator.ts:236-290 | Each horizon is the consensus of the usable replies. Strength and divergence summary are as specified. There is one output per usable reply, carrying its split and confidence. |
| Aggregator.NoSuccessesGiveNeutralPrediction | src/lib/ai/aggregator.ts:147-161 | With no usable reply, every horizon is neutral, strength is 0 and the summary is empty. |
| PredictionService.PredictedDirection | src/lib/prediction-service.ts:15-19 | The result is up exactly when up exceeds down by more than 0.1, down in the mirror case, and flat otherwise. |
| PredictionService.PredictedDirectionIsLean | src/lib/prediction-service.ts:15-19 | The settlement's predicted direction agrees with the aggregator's bullish or bearish lean. |
| PredictionService.ActualDirection | src/lib/prediction-service.ts:248-250 | The realised direction is up above +0.5 %, down below -0.5 %, and flat otherwise. |
| PredictionService.RealisedDirectionInPrices | src/lib/prediction-service.ts:244-250 | For a positive start price: up exactly when the end price exceeds start × 1.005, down exactly when it is below start × 0.995. |
| PredictionService.WindowHours | src/lib/prediction-service.ts:236-237 | Known horizons last 1, 4 and 24 hours. Any other lasts 1 hour. |
| PredictionService.EndTime | src/lib/prediction-service.ts:238 | A horizon ends strictly after the prediction was made. |
| PredictionService.SettlementFor | src/lib/prediction-service.ts:243-269 | A new settlement row is coherent and stamped `now`: its return, realised direction and hit flag agree with its prices. |
| PredictionService.AISettlementFor | src/lib/prediction-service.ts:296-309 | A model's settlement row shares the horizon's realised direction and time. Its hit flag matches its predicted direction. |
| PredictionService.SettleOutputsAppends | src/lib/prediction-service.ts:274-312 | The model loop only appends rows for this horizon, at most one per model. Afterwards every model of the horizon is settled. |
| PredictionService.SettleWindowAdvances | src/lib/prediction-service.ts:223-316 | One horizon's step appends, keeps the ledger sound and stamps new rows with `now`. It adds the horizon's key exactly when the horizon is due, priced and not yet settled. |
| PredictionService.SettlePredictionsAdvances | src/lib/prediction-service.ts:208-319 | A pass is append-only and keeps every horizon settled at most once (and each model at most once per horizon). It settles exactly the horizons that are due and priced. A model is settled only together with its horizon. |
| PredictionService.SettleIdempotent | src/lib/prediction-service.ts:225-233 | A second pass at the same time changes nothing. |
| PredictionService.PredictionStore.SettleExpiredWindows | src/lib/prediction-service.ts:208-319 | The nested loops compute `SettlePredictions` on the old ledger, keep the store valid and leave the other tables unchanged. |
| PredictionService.PredictionStore.SettleWindowOf | src/lib/prediction-service.ts:225-315 | One horizon's step computes `SettleWindow`. |
| PredictionService.PredictionStore.SettleModels | src/lib/prediction-service.ts:282-312 | The model loop computes `SettleOutputs`. |
| PredictionService.LowerAscii | src/lib/prediction-service.ts:64 | Lower-casing keeps the length, leaves no ASCII capital, and keeps every other character. |
| PredictionService.OutputRows | src/lib/prediction-service.ts:59-78 | Three rows per usable reply, all under the prediction's id. |
| PredictionService.ConsensusRows | src/lib/prediction-service.ts:41-57 | One row per horizon, in the order 1h, 4h, 24h, under the prediction's id. |
| PredictionService.SuccessCount | src/lib/ai/index.ts:50-54 | At most the number of calls. When it is 0, no reply is usable. |
| PredictionService.PredictionStore.SavePrediction | src/lib/prediction-service.ts:22-78 | Appends the prediction row, the three horizon rows and the per-model rows, and keeps ids unique. |
| PredictionService.PredictionStore.SaveWindows | src/lib/prediction-service.ts:41-57 | The horizon loop appends the 1h, 4h and 24h consensus rows, in that order, and touches no other table. |
| PredictionService.PredictionStore.SaveOutputs | src/lib/prediction-service.ts:59-78 | The answer loop appends `OutputRows` (three rows per usable answer, in answer order) and touches no other table. |
| PredictionService.PredictionStore.SaveModelOutputs | src/lib/prediction-service.ts:61-77 | One usable answer adds its 1h, 4h and 24h rows under the lower-cased model name. |
| PredictionService.PredictionStore.CreateHourlyPrediction | src/lib/prediction-service.ts:94-156 | Returns `exists` exactly when the id is already stored, and then changes nothing. A halted data feed stores an empty prediction (price 0, strength 0). If no call succeeded, nothing is stored. Otherwise the consensus rows and the per-model rows are stored. Settlements are never touched. |
| Lists.Since | src/lib/prediction-service.ts:441-442 | The time filter of getStats and getAIStats keeps exactly the rows stamped at or after the cutoff. A single row is kept exactly when it is stamped at or after the cutoff. |
| Lists.SinceCounts | src/lib/prediction-service.ts:491-492 | Each row stamped at or after the cutoff is kept as often as it occurs; no other row is kept. |
| Lists.SinceAppend | src/lib/prediction-service.ts:441-442 | The filter keeps the input order: filtering a concatenation concatenates the filtered parts. |
| PredictionService.ConfidenceOrDefault | src/lib/prediction-service.ts:462 | A missing or zero confidence counts as 50. Any other counts as stored. |
| PredictionService.ConfidenceMapBounds | src/lib/prediction-service.ts:451-455 | The map's confidences stay within the bounds of the stored horizons. |
| PredictionService.WindowTally | src/lib/prediction-service.ts:457-465 | Hits never exceed rows counted, which never exceed the rows. |
| PredictionService.WindowTalliesPartition | src/lib/prediction-service.ts:457-465 | The three horizon totals add up to the recent rows of known horizon, and so do the hits. |
| PredictionService.ReportBounds | src/lib/prediction-service.ts:469-476 | The hit rate lies between 0 and its scale, and both figures are 0 when nothing was counted. The mean confidence lies within the rounded bounds of the counted confidences. |
| PredictionService.StatsWindowBounds | src/lib/prediction-service.ts:437-483 | With stored confidences in [0, 100], each horizon's hit rate lies in [0, 1], its mean confidence in [0, 100], and hits do not exceed totals. |
| PredictionService.StatsTotals | src/lib/prediction-service.ts:457-481 | The horizon totals add up to the recent rows of known horizon, at most all recent rows. The hits add up likewise. |
| PredictionService.CountKnownSince | src/lib/prediction-service.ts:441-465 | Counting the filtered rows counts every stored settlement of the period, of known horizon, exactly once. |
| PredictionService.StatsCountStored | src/lib/prediction-service.ts:437-483 | The totals and hits over the three horizons of getStats equal the counts of the stored settlements of the period. |
| PredictionService.PredictionStore.GetStats | src/lib/prediction-service.ts:437-483 | The loops compute `Stats` of the stored tables. |
| PredictionService.TalliesOf | src/lib/prediction-service.ts:496-511 | Each horizon's hits for a model never exceed its total. |
| PredictionService.SumOfParts | src/lib/prediction-service.ts:517-532 | A model's overall figures are the sums of its three horizons. |
| PredictionService.TalliesCountModel | src/lib/prediction-service.ts:496-540 | A model's overall total is the number of its recent rows of known horizon, and its overall hits are the hits among them. |
| PredictionService.AIStatsNames | src/lib/prediction-service.ts:496-516 | One report per model that has recent rows, each model once, in order of first appearance. |
| PredictionService.AIStatsOverall | src/lib/prediction-service.ts:534-540 | The overall total and hits count the model's recent rows, and its hit rate lies in [0, 100]. |
| PredictionService.CountByModel | src/lib/prediction-service.ts:496-511 | The grouping loop yields the de-duplicated model names and, for each, its counters. |
| PredictionService.Overall | src/lib/prediction-service.ts:517-532 | The summing loop yields the sum of the three horizons. |
| PredictionService.PredictionStore.GetAIStats | src/lib/prediction-service.ts:486-549 | The loops compute `AIStats` of the stored model settlements. |

## Left out

- Parser.NormalizeSplit: a split summing to exactly 0 that needs rescaling makes the source divide by zero and keep NaN values. The model rejects such a reply instead.
- Aggregator.AggregateWindow: requires the averaged split to have a non-zero total. The source would produce NaN otherwise. Parsed replies always meet this (`ParsedHorizonsNormalisable`).
- PredictionService.SettleWindow: a prediction whose stored reference price is 0 is left unsettled. The source would compute an infinite or NaN return. Only halted predictions store price 0, and they have no horizon rows.
- PredictionService.LowerAscii: lower-cases ASCII letters only. `toLowerCase` also folds non-ASCII letters.
- Floating-point rounding and NaN: numbers are modelled as exact reals.
- The JSON decoder (`JSON.parse`) is a parameter, not modelled. Conclusion strings and divergence messages are datatypes, not Chinese text.
- `buildPredictionPrompt`, the model HTTP clients and `callAllAIs`: these are network I/O. The model takes their results as input.
- Market data, external data and the data-health grading: the health status and BTC price are inputs to `CreateHourlyPrediction`.
- The market-data snapshot row written by `savePrediction`: it is not read by settlement or statistics.
- `generatePredictionId`: the hour-stamped id is a parameter.
- `generateOnDemandPrediction`, `getPredictionById`, `getLatestPrediction`, `getPredictionHistory`: these are read-only views outside the forecast and settlement logic.
- The `period` string of the statistics: formatting only.
- The cutoff of the statistics is `now` minus whole days of 86 400 000 ms. The source's calendar-day step may differ across a daylight-saving change.
- `getPriceAt` is a deterministic lookup per call. A failed lookup (thrown exception) is `None`, and the horizon stays pending as in the source's `catch`.
- Database failures inside the settlement `try` block, and console logging.
- The confidence map is keyed by the pair (prediction id, horizon), not by the joined string `id-horizon`. They agree because ids are hour stamps without a `-` followed by a horizon name.
- Model names equal to a property of JavaScript's `Object.prototype` (such as `constructor`) are treated like any other name. The source's object lookup would misplace them.
- PredictionService.AIStatsNames: reports come in order of first appearance for every model name. In the source, `Object.entries` lists names that are array indices (such as "1" or "42") first, in ascending numeric order, and only then the other names in insertion order. Model names are provider names, so the model does not reorder index-like names.
- Concurrency between the cron job and request handlers: each operation runs to completion on its own.
