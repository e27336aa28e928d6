# player-performance-ratings in Dafny

A verified model of the deterministic core of `player-performance-ratings`. This is a Python
library that rates players and teams from match data and uses those ratings as features for a
match-outcome model. The rating engine itself (time-weighted and opponent-adjusted rating
generators, match building, league identification) is not part of this model. What is modelled
is the logic that feeds the engine and consumes its output:

- the record types the engine exchanges, and the column-name defaulting rule (`common.dfy`,
  `data_structures.dfy`);
- the expected-performance predictors: a logistic predictor from rating differences, and a
  stateful running-mean predictor (`performance_predictor.dfy`);
- how a row's performance is built from weighted columns, and the pre-transformations applied
  to it: column weighting, min-max scaling, diminishing returns, group means and "net over
  predicted" (`column_weighting.dfy`, `performances_generator.dfy`, `columns_weighter.dfy`,
  `min_max.dfy`, `diminishing_value.dfy`, `group_by.dfy`);
- the time-ordered cross-validation splits (`cross_validator.dfy`);
- the pipeline's argument normalisation, feature naming, guards and column writing
  (`pipeline.dfy`);
- the team-level classifier wrapper: a weighted mean per (game, team) group merged back
  onto the rows (`classifier.dfy`);
- the tuner's search-range helpers (`tuner_utils.dfy`).

A pandas `DataFrame` is a `Frame`: an ordered list of column names and a sequence of rows.
Each row maps a column name to a `Value`, which is `Option<real>` with `None` standing for a
missing value (NaN). Python exceptions are the `Err` cases of a `Result`, with the exception
class and, where the code gives one, its message. `math.exp`, the trained models, the rating
engine and the optuna trial are function parameters. Code that changes objects in place
(the running-mean predictor, the transformers that remember fitted values, the
cross-validators, the pipeline, the tuner's parameter dictionary) is modelled as classes whose
methods are proved against specification functions.

## Model

| member | source | states |
|---|---|---|
| DataStructures.PostInit | player_performance_ratings/data_structures.py:19-24 | a missing rating update id becomes the match id and an explicit one is kept; a missing projected participation weight becomes the participation weight, which may itself be missing; no other field changes |
| DataStructures.NewColumnNames | player_performance_ratings/data_structures.py:6-24 | the constructor keeps every given name and applies the two fallbacks of `__post_init__` |
| DataStructures.PostInitIdempotent | player_performance_ratings/data_structures.py:19-24 | running the defaulting twice gives the same record as running it once |
| DataStructures.NewColumnNamesDefaults | player_performance_ratings/data_structures.py:12-17 | with only the four required names, performance is "performance", league and the weight columns are absent, and the rating update id is the match id |
| DataStructures.DefaultStartRatingParameters | player_performance_ratings/data_structures.py:27-32 | no start league ratings, league quantile 0.2, team rating subtract 80, team weight 0.2 |
| DataStructures.NewPlayerRating | player_performance_ratings/data_structures.py:43-52 | a new player has 0 games played, certain ratio and certain sum 0, and no last match day, name or previous rating changes |
| PerformancePredictor.Logistic | player_performance_ratings/ratings/match_rating/performance_predictor.py:55 | exp(v) / (1 + exp(v)) lies strictly between 0 and 1 |
| PerformancePredictor.LogisticAtZero | player_performance_ratings/ratings/match_rating/performance_predictor.py:55 | the logistic function is 0.5 at 0 |
| PerformancePredictor.LogisticMonotone | player_performance_ratings/ratings/match_rating/performance_predictor.py:55 | the logistic function never decreases |
| PerformancePredictor.Clamp | player_performance_ratings/ratings/match_rating/performance_predictor.py:56-60 | with a maximum of at least 0.5 the result lies in [1 - max, max]; a prediction already in that range is returned unchanged |
| PerformancePredictor.ClampMonotone | player_performance_ratings/ratings/match_rating/performance_predictor.py:56-60 | clamping keeps the order of two predictions |
| PerformancePredictor.SigmoidSubtractHalfAndMultiply2 | player_performance_ratings/ratings/match_rating/performance_predictor.py:11-12 | x = 0 is a `ZeroDivisionError`; otherwise the result lies strictly in (-1, 1) |
| PerformancePredictor.SigmoidSign | player_performance_ratings/ratings/match_rating/performance_predictor.py:11-12 | the result is 0 at value 0 and has the sign of value / x |
| PerformancePredictor.PredictByDifference | player_performance_ratings/ratings/match_rating/performance_predictor.py:40-60 | with a maximum of at least 0.5 the prediction lies in [1 - max, max]; with a maximum of at least 1 it lies strictly in (0, 1) |
| PerformancePredictor.NoTeamDependsOnlyOnDifference | player_performance_ratings/ratings/match_rating/performance_predictor.py:45-55 | without a team rating, two calls with the same player-minus-opponent difference predict the same value |
| PerformancePredictor.EqualRatingsPredictHalf | player_performance_ratings/ratings/match_rating/performance_predictor.py:29-55 | with zero team coefficients, a player rated like the opponent is predicted exactly 0.5 |
| PerformancePredictor.PredictionMonotoneInPlayerRating | player_performance_ratings/ratings/match_rating/performance_predictor.py:45-60 | with a non-negative difference coefficient and zero team coefficients, a higher player rating never lowers the prediction |
| PerformancePredictor.Window | player_performance_ratings/ratings/match_rating/performance_predictor.py:85-86 | the kept list is the last `count` ratings (none when `count` is not positive), as a suffix of the history |
| PerformancePredictor.WindowAppend | player_performance_ratings/ratings/match_rating/performance_predictor.py:82-86 | trimming before or after appending a rating gives the same window |
| PerformancePredictor.RatingMeanPerformancePredictor.constructor | player_performance_ratings/ratings/match_rating/performance_predictor.py:65-75 | the defaults 0.005757, 1 and 1500; an empty kept list, sum 0 and count 0 |
| PerformancePredictor.RatingMeanPerformancePredictor.Prediction | player_performance_ratings/ratings/match_rating/performance_predictor.py:89-97 | the logistic function of coef times (half the player's plus half the opponent's rating minus the average), clamped to [1 - max, max] |
| PerformancePredictor.RatingMeanPerformancePredictor.PredictPerformance | player_performance_ratings/ratings/match_rating/performance_predictor.py:77-97 | each call adds the rating to the history, increments the count by 1, adds the rating to the sum, keeps the window of the last `last_sample_count` ratings, and predicts from the mean of all ratings so far including this one |
| PerformancePredictor.RatingMeanPerformancePredictor.Record | player_performance_ratings/ratings/match_rating/performance_predictor.py:82-86 | the bookkeeping half of a call: history, count, sum and kept window as above, keeping the invariant that count and sum describe the whole history |
| PerformancePredictor.TrimIsWindow | player_performance_ratings/ratings/match_rating/performance_predictor.py:85-86 | slicing from max(0, len - count) is the window of the last `count` entries |
| PerformancePredictor.WindowOfRun | player_performance_ratings/ratings/match_rating/performance_predictor.py:82-86 | after any run of calls the kept list is the most recent `last_sample_count` ratings of all inputs, in arrival order |
| ColumnWeighting.NewColumnWeight | player_performance_ratings/ratings/performances_generator.py:17-27 | a weight is accepted exactly when it lies in [0, 1]; below 0 raises "Weight must be positive", above 1 raises "Weight must be less than 1" |
| ColumnWeighting.PrepareRow | player_performance_ratings/ratings/performances_generator.py:185-190 | the first loop over the weights, proved equal to the specification `Prepare`: each weighted column gets a weight entry, a missing cell is set to 0 and its weight to 0 |
| ColumnWeighting.WeightRow | player_performance_ratings/ratings/performances_generator.py:182-208 | the zero-filled row and the row's performance, as the specifications `Prepare` and `RowPerformance` define them |
| ColumnWeighting.WeightedColumn | player_performance_ratings/ratings/performances_generator.py:176-210 | `_weight_columns` succeeds exactly when every weighted column and every mapped feature column exists; otherwise a KeyError names a missing column; on success there is one value per row |
| ColumnWeighting.WeightColumns | player_performance_ratings/ratings/performances_generator.py:176-210 | the row-by-row loop returns exactly `WeightedColumn`, the KeyError included |
| ColumnWeighting.PrepareDistinct | player_performance_ratings/ratings/performances_generator.py:186-189 | with distinct weighted names, each weight is the column's weight or 0 when its cell is missing; a missing weighted cell becomes 0; other cells are untouched |
| ColumnWeighting.AccumulateDistinct | player_performance_ratings/ratings/performances_generator.py:197-208 | with distinct names and no mapping, the third loop over any prefix of the weights yields the weighted sum of that prefix |
| ColumnWeighting.DistinctNamesPerformance | player_performance_ratings/ratings/performances_generator.py:182-210 | with distinct names and no mapping, a row's performance is never missing and equals the sum of weight * value (weight * (1 - value) when lower is better) over the present cells, with no normalisation by the weight sum |
| ColumnWeighting.MissingContributesNothing | player_performance_ratings/ratings/performances_generator.py:188-208 | a weighted column whose cell is missing adds nothing: the sum equals the sum without that weight |
| ColumnWeighting.AccumulateMapped | player_performance_ratings/ratings/performances_generator.py:197-208 | with a mapping whose targets are not weighted columns, the third loop over any prefix takes each value from the mapped column and keeps the original column's weight |
| ColumnWeighting.MappedPerformance | player_performance_ratings/ratings/performances_generator.py:197-208 | the same for the whole list: the performance is the mapped sum, which is missing when a mapped cell is missing |
| ColumnsWeighterTransform.FitTransform | player_performance_ratings/transformation/pre_transformers.py:28-57 | KeyError exactly when a weighted column is absent; otherwise the same rows, the columns plus the weighted column (kept in place if it already exists) |
| ColumnsWeighterTransform.FitTransformCells | player_performance_ratings/transformation/pre_transformers.py:28-54 | with distinct names, each output row holds the weighted sum of its present cells in the weighted column, 0 in place of each missing weighted cell, and every other cell unchanged |
| ColumnsWeighterTransform.AgreesWithGenerator | player_performance_ratings/transformation/pre_transformers.py:28-54 | the transformer fails on the same tables as the performances generator's `_weight_columns` without a mapping, and its column equals that performance column |
| PerformancesGenerator.WrapWeights | player_performance_ratings/ratings/performances_generator.py:42-143 | a flat list becomes a one-element list and a nested list is kept; an empty argument raises IndexError |
| PerformancesGenerator.WrapNames | player_performance_ratings/ratings/performances_generator.py:142 | a single `ColumnNames` becomes a one-element list and a list is kept |
| PerformancesGenerator.DedupPrefix | player_performance_ratings/ratings/performances_generator.py:45-49 | collecting more names only appends: the earlier result is a prefix of the later one |
| PerformancesGenerator.CollectFeatureNames | player_performance_ratings/ratings/performances_generator.py:45-49 | the nested loop returns each weighted name exactly once, in order of first appearance, and misses none |
| PerformancesGenerator.AppendNewNames | player_performance_ratings/ratings/performances_generator.py:47-49 | the inner loop extends the deduplicated names by the new names of one weight list |
| PerformancesGenerator.AutoCreatePreTransformations | player_performance_ratings/ratings/performances_generator.py:30-131 | without positions, the given pre-transformations come back unchanged; an empty weights argument raises IndexError |
| PerformancesGenerator.NewGenerator | player_performance_ratings/ratings/performances_generator.py:136-149 | the stored names and weights are the wrapped arguments, and a missing list of pre-transformations becomes an empty one |
| PerformancesGenerator.FeaturesOut | player_performance_ratings/ratings/performances_generator.py:212-214 | one name per `ColumnNames`: its performance column, in order |
| PerformancesGenerator.ColumnMapping | player_performance_ratings/ratings/performances_generator.py:160-161 | IndexError exactly when there are more weights than names reported by the last transformer |
| PerformancesGenerator.ColumnMappingEntries | player_performance_ratings/ratings/performances_generator.py:160-161 | the mapping's keys are the weighted names, and each is sent to the reported name at the position of the last weight with that name |
| PerformancesGenerator.WritePerformance | player_performance_ratings/ratings/performances_generator.py:165-172 | ValueError "performance contains nan values" exactly when a value is missing; otherwise the column is assigned and none of its cells is missing |
| PerformancesGenerator.PassKeeps | player_performance_ratings/ratings/performances_generator.py:157-172 | a successful pass keeps every row and column and adds its performance column with no missing value |
| PerformancesGenerator.GenerateStep | player_performance_ratings/ratings/performances_generator.py:158-172 | one pass computed with the loops of `_weight_columns` equals the specification `GenerateOne` |
| PerformancesGenerator.GenerateNext | player_performance_ratings/ratings/performances_generator.py:157-172 | an error ends `generate`; a success moves the loop one pass forward and keeps the table complete |
| PerformancesGenerator.Generate | player_performance_ratings/ratings/performances_generator.py:151-174 | `generate` runs the pre-transformations in order, one `fit_transform` step each, and then equals the specification `GenerateFrom` on the transformed table (on the input itself when there are none); on success it keeps the rows and old columns and adds every column of `features_out` with no missing value |
| PerformancesGenerator.CompleteStep | player_performance_ratings/ratings/performances_generator.py:157-172 | one more successful pass extends the completed columns by one |
| MinMax.Clip01 | player_performance_ratings/transformation/pre_transformers.py:138 | `clip(0, 1)` lands in [0, 1], keeps a value already there, and sends values below 0 to 0 and above 1 to 1 |
| MinMax.Scale | player_performance_ratings/transformation/pre_transformers.py:136-138 | a scaled value lies in [0, 1]; it is missing exactly when the value or a bound is missing, or when both bounds and the value coincide (0 / 0) |
| MinMax.ScaleColumn | player_performance_ratings/transformation/pre_transformers.py:136-138 | the column keeps its length and every present value lies in [0, 1] |
| MinMax.NudgeCell | player_performance_ratings/transformation/pre_transformers.py:149-153 | a nudge keeps a cell missing or present, and a present cell stays in [0, 1] |
| MinMax.Nudge | player_performance_ratings/transformation/pre_transformers.py:148-153 | a nudge of the column keeps its length and keeps it in [0, 1] |
| MinMax.Align | player_performance_ratings/transformation/pre_transformers.py:146-160 | the alignment loop keeps the column in [0, 1] and never lowers the shared counter; it fails (the warning names the undefined `reps`) exactly when the counter passes 100 during this loop; when it stops on its own the mean is within `allowed_mean_diff` of 0.5 |
| MinMax.Replay | player_performance_ratings/transformation/pre_transformers.py:170-177 | replaying the nudges keeps the column's length and keeps it in [0, 1] |
| MinMax.FitFeature | player_performance_ratings/transformation/pre_transformers.py:133-160 | one feature: KeyError when the table lacks it, NameError when the alignment fails; on success its bounds are recorded, its scaled column lies in [0, 1], the rows are kept and the created name is appended |
| MinMax.FitAllStep | player_performance_ratings/transformation/pre_transformers.py:132-160 | a run over one more feature that has not failed so far is the run so far followed by that feature's step |
| MinMax.NoneNudgeError | player_performance_ratings/transformation/pre_transformers.py:170-177 | a nudge with `allowed_mean_diff` of `None` is a TypeError, on `-` going down and on `+` going up |
| MinMax.TransformFeature | player_performance_ratings/transformation/pre_transformers.py:165-177 | on success the feature and both fitted bounds exist, the rows are kept and the written column lies in [0, 1] |
| MinMax.TransformAll | player_performance_ratings/transformation/pre_transformers.py:164-179 | `transform` keeps the number of rows |
| MinMax.FitAllKeepsError | player_performance_ratings/transformation/pre_transformers.py:132-160 | once a feature raises, the remaining features change nothing: the outcome is that of the prefix |
| MinMax.TransformAllKeepsError | player_performance_ratings/transformation/pre_transformers.py:164-179 | once a feature raises in `transform`, the outcome is that of the prefix |
| MinMax.AlignColumn | player_performance_ratings/transformation/pre_transformers.py:146-160 | the `while` loop returns exactly the specification `Align` |
| MinMax.ReplayColumn | player_performance_ratings/transformation/pre_transformers.py:170-177 | the `for` loop returns exactly the specification `Replay` |
| MinMax.FitOne | player_performance_ratings/transformation/pre_transformers.py:132-160 | the loop body on the object's state equals the specification `FitFeature` |
| MinMax.MinMaxTransformer.constructor | player_performance_ratings/transformation/pre_transformers.py:110-128 | stores the arguments; no fitted bounds, means or created names and a counter of 0 |
| MinMax.MinMaxTransformer.Create | player_performance_ratings/transformation/pre_transformers.py:110-128 | ValueError "quantile must be between 0 and 1" exactly when the quantile lies outside [0, 1]; defaults 0.99, 0.01 and "" |
| MinMax.MinMaxTransformer.FitTransform | player_performance_ratings/transformation/pre_transformers.py:130-162 | every attribute ends as the feature loop `FitAll` leaves it, also when it stops at an exception, and the result is that run's table or its exception |
| MinMax.MinMaxTransformer.Transform | player_performance_ratings/transformation/pre_transformers.py:164-179 | the feature loop returns exactly `TransformAll` of the fitted attributes |
| MinMax.MinMaxTransformer.TransformOne | player_performance_ratings/transformation/pre_transformers.py:165-177 | one feature, from the fitted attributes, equals `TransformFeature` |
| MinMax.ScaleMonotone | player_performance_ratings/transformation/pre_transformers.py:133-138 | with the lower bound below the upper one, scaling keeps the order of values and maps the bounds to 0 and 1 |
| MinMax.ScaleAntitone | player_performance_ratings/transformation/pre_transformers.py:133-138 | with the lower bound above the upper one, scaling reverses the order of values |
| MinMax.HighQuantileInverts | player_performance_ratings/transformation/pre_transformers.py:112-134 | for a quantile above 0.5, such as the default 0.99, the "min" bound is at least the "max" bound, so the scale is reversed |
| MinMax.ZeroColumnNeverAligns | player_performance_ratings/transformation/pre_transformers.py:141-160 | a column of zeros keeps mean 0, so with `allowed_mean_diff` below 0.5 the loop runs until the counter passes 100 and fails |
| MinMax.AlignReachesTarget | player_performance_ratings/transformation/pre_transformers.py:146-160 | when the loop runs and stops on its own, it stops within 100 nudges with the mean within `allowed_mean_diff` of 0.5 |
| MinMax.TransformRepeatsFit | player_performance_ratings/transformation/pre_transformers.py:130-168 | after fitting one feature with no alignment, `transform` on the same table writes the column that fitting wrote |
| DiminishingValue.Diminish | player_performance_ratings/transformation/pre_transformers.py:214-235 | a missing cell stays missing, a present one stays present, and a missing cutoff leaves the cell unchanged |
| DiminishingValue.ForwardRule | player_performance_ratings/transformation/pre_transformers.py:226-233 | without `reverse`, a value below the cutoff is kept and one at or above it becomes cutoff + (value - cutoff) * multiplier, which lies between the cutoff and the value for a multiplier in [0, 1] |
| DiminishingValue.ReverseRule | player_performance_ratings/transformation/pre_transformers.py:215-224 | with `reverse` and c = 1 - cutoff, a value above c is kept and one at or below it becomes c - (c - value) * multiplier, which lies between the value and c for a multiplier in [0, 1] |
| DiminishingValue.ShrinkBetween | player_performance_ratings/transformation/pre_transformers.py:220-230 | a multiplier in [0, 1] keeps a non-negative excess between 0 and itself |
| DiminishingValue.DiminishMonotone | player_performance_ratings/transformation/pre_transformers.py:214-233 | with a multiplier in [0, 1] the rule never reverses the order of two values, in either direction |
| DiminishingValue.DiminishColumn | player_performance_ratings/transformation/pre_transformers.py:217-233 | the column keeps its length and each cell is the rule applied to it |
| DiminishingValue.FitCutoffs | player_performance_ratings/transformation/pre_transformers.py:204-208 | every feature gets the fixed cutoff, or the column's `quantile_cutoff` quantile; KeyError exactly when no fixed cutoff is given and a feature is not a column |
| DiminishingValue.TransformFeatures | player_performance_ratings/transformation/pre_transformers.py:212-236 | on success the rows and columns are kept; an error is a KeyError naming a feature |
| DiminishingValue.TransformFeaturesEffect | player_performance_ratings/transformation/pre_transformers.py:212-236 | with distinct features, a successful `transform` applies the rule exactly once to each feature column, with its fitted cutoff, and changes nothing else |
| DiminishingValue.TransformStep | player_performance_ratings/transformation/pre_transformers.py:213-235 | one more feature applies the rule to its own column alone |
| DiminishingValue.TransformUnfitted | player_performance_ratings/transformation/pre_transformers.py:212-214 | `transform` on a transformer that was never fitted raises KeyError for its first feature |
| DiminishingValue.FitErrorPersists | player_performance_ratings/transformation/pre_transformers.py:204-208 | once fitting raises, the remaining features change nothing |
| DiminishingValue.TransformErrorPersists | player_performance_ratings/transformation/pre_transformers.py:213-214 | once `transform` raises, the remaining features change nothing |
| DiminishingValue.DiminishingValueTransformer.constructor | player_performance_ratings/transformation/pre_transformers.py:188-200 | stores the arguments with the defaults 0.93, 0.8 and no reverse, and no fitted cutoffs |
| DiminishingValue.DiminishingValueTransformer.FitTransform | player_performance_ratings/transformation/pre_transformers.py:202-210 | the stored cutoffs are exactly those `FitCutoffs` computes, also when it stops at a KeyError; on success the result is `transform` with them |
| DiminishingValue.DiminishingValueTransformer.Transform | player_performance_ratings/transformation/pre_transformers.py:212-236 | the feature loop returns exactly `TransformFeatures` of the fitted cutoffs |
| GroupBy.KeyOf | player_performance_ratings/transformation/pre_transformers.py:343 | a row has a key exactly when all its granularity cells are present, and the key lists those cells in granularity order |
| GroupBy.Keys | player_performance_ratings/transformation/pre_transformers.py:342-345 | every complete key of the table is a group |
| GroupBy.Created | player_performance_ratings/transformation/pre_transformers.py:336-339 | `features_created` is prefix + feature for each feature, in order |
| GroupBy.GroupRow | player_performance_ratings/transformation/pre_transformers.py:343-346 | a group's row holds, under each new name prefix + feature, the aggregate of that feature over the group's rows |
| GroupBy.Grouped | player_performance_ratings/transformation/pre_transformers.py:341-347 | `_grouped` exists exactly when the granularity is non-empty or the table has no rows, and the granularity and feature columns exist; an empty granularity on a table with rows is pandas' ValueError "No group keys passed!", every other failure a KeyError; on success there is one entry per complete key of the table |
| GroupBy.MergeLeft | player_performance_ratings/transformation/pre_transformers.py:352 | the left merge keeps every row, in order, and adds to each the group's values, or missing values when its key was not grouped |
| GroupBy.GroupByTransformer.constructor | player_performance_ratings/transformation/pre_transformers.py:326-339 | stores the arguments with the defaults mean and "mean_", names the created columns, and has nothing fitted |
| GroupBy.GroupByTransformer.FitTransform | player_performance_ratings/transformation/pre_transformers.py:341-349 | on success `_grouped` is the grouped table and the result is the merge with it; on failure `_grouped` is unchanged |
| GroupBy.GroupByTransformer.Transform | player_performance_ratings/transformation/pre_transformers.py:351-352 | the left merge with `_grouped`; before any fit it raises TypeError |
| GroupBy.FitTransformValues | player_performance_ratings/transformation/pre_transformers.py:341-352 | after fitting, each row with a complete key receives for each feature the aggregate over all rows sharing its key |
| GroupBy.UnseenKeyIsMissing | player_performance_ratings/transformation/pre_transformers.py:352 | a row whose key is incomplete or was not seen in fitting receives missing values |
| GroupBy.NetOverPredictedTransformer.constructor | player_performance_ratings/transformation/pre_transformers.py:361-375 | the default predictor is a fresh, unfitted mean `GroupByTransformer` over the same features and granularity, and each created name is prefix + feature |
| GroupBy.NetOverPredictedTransformer.FitTransform | player_performance_ratings/transformation/pre_transformers.py:377-381 | numbers the rows, fits the predictor on them (the only state changed), and on success returns the net table of the numbered rows |
| GroupBy.NetOverPredictedTransformer.Transform | player_performance_ratings/transformation/pre_transformers.py:383-396 | an unfitted predictor raises; a predictor `transform` error is passed on; otherwise the result is `NetTransform`: KeyError without `__id`, the inner merge on `__id`, then feature minus prediction under each created name, with the KeyError of the first missing feature |
| GroupBy.WithIds | player_performance_ratings/transformation/pre_transformers.py:379 | the rows are kept and row i gets id i + 1 |
| GroupBy.AddNetKeeps | player_performance_ratings/transformation/pre_transformers.py:390-396 | a cell that is neither a created nor a predicted name passes unchanged |
| GroupBy.AddNetCells | player_performance_ratings/transformation/pre_transformers.py:390-396 | each created name holds its feature minus its predicted value, and the predicted column is dropped |
| GroupBy.SumShift | player_performance_ratings/transformation/pre_transformers.py:393 | subtracting a constant from every value subtracts it once per value from the sum |
| GroupBy.ShiftByMean | player_performance_ratings/transformation/pre_transformers.py:393 | subtracting the mean from every value leaves a sum of 0 |
| GroupBy.ShiftedGroup | player_performance_ratings/transformation/pre_transformers.py:385-393 | when every output row keeps its key and its new cell is its value minus m, a group's new cells are its values shifted by m, in order |
| GroupBy.NetSumsToZero | player_performance_ratings/transformation/pre_transformers.py:393 | a group whose values are all present has a mean, and its values minus that mean are present and sum to 0 |
| GroupBy.KeyOfAgree | player_performance_ratings/transformation/pre_transformers.py:385 | rows that agree on the granularity cells have the same key |
| GroupBy.GroupColumnAgree | player_performance_ratings/transformation/pre_transformers.py:343-385 | tables whose rows agree on keys and on one feature have the same group columns for it |
| GroupBy.WithIdsAgree | player_performance_ratings/transformation/pre_transformers.py:379 | numbering the rows changes neither their keys nor their feature cells |
| GroupBy.MatchedKeys | player_performance_ratings/transformation/pre_transformers.py:385 | under the merge every row receives exactly the predicted names |
| GroupBy.GroupedEntries | player_performance_ratings/transformation/pre_transformers.py:342-347 | every entry of `_grouped` is that group's aggregated row |
| GroupBy.NetRowOfBase | player_performance_ratings/transformation/pre_transformers.py:385-396 | a net row keeps its granularity cells and holds feature minus the matched prediction under each created name |
| GroupBy.NetRowCell | player_performance_ratings/transformation/pre_transformers.py:377-396 | after `fit_transform` each row keeps its key, and its net value for a feature is the feature minus the mean of that feature over the row's group |
| GroupBy.NetGroupSumsToZero | player_performance_ratings/transformation/pre_transformers.py:377-396 | within a group whose values are all present, the net values written by `fit_transform` are present and sum to 0 |
| GroupBy.AddNetOverPredicted | player_performance_ratings/transformation/pre_transformers.py:390-396 | the loop over the predicted columns equals `NetFrom`: each pass reads the feature, then the predicted column, writes the difference under the created name and drops the predicted column |
| GroupBy.NetColumns | player_performance_ratings/transformation/pre_transformers.py:390-396 | the only failures of the net loop are KeyErrors |
| GroupBy.NetColumnsErrStays | player_performance_ratings/transformation/pre_transformers.py:390-396 | once a pass fails, the loop ends with that error |
| GroupBy.NetColumnsPrefix | player_performance_ratings/transformation/pre_transformers.py:390-396 | with the names kept apart and the predicted columns present, the loop fails exactly when a feature is missing, with the KeyError of the first missing one; features present stay present |
| GroupBy.NetPass | player_performance_ratings/transformation/pre_transformers.py:391-394 | one pass keeps every present feature and every later predicted column |
| GroupBy.NetTransform | player_performance_ratings/transformation/pre_transformers.py:383-388 | KeyError exactly when `__id` is missing or a net pass fails; never another error |
| GroupBy.NetTransformMissingFeature | player_performance_ratings/transformation/pre_transformers.py:383-396 | on a table with `__id`, `transform` fails exactly when a feature column is missing, and the error is KeyError of the first missing feature |
| GroupBy.NetFrameRows | player_performance_ratings/transformation/pre_transformers.py:377-396 | once the group values are computed (`Grouped` succeeded, which needs a non-empty granularity or an empty table), `fit_transform` succeeds when the features are present, and its output rows are the numbered rows one to one, each with its group values and net columns |
| GroupBy.NetRowCellOf | player_performance_ratings/transformation/pre_transformers.py:377-396 | for any group table that gives a numbered row exactly the predicted columns, holding its group's mean when the row has a key, the output row keeps its key and its net value is the feature minus that mean |
| GroupBy.MatchedMean | player_performance_ratings/transformation/pre_transformers.py:383-386 | a keyed row merged with the fitted group table keeps its feature cell and receives the mean of that feature over its group of the original table |
| GroupBy.WithIdsDistinct | player_performance_ratings/transformation/pre_transformers.py:377-380 | the row numbers `1..len(df)` assigned to `__id` are pairwise distinct |
| GroupBy.NetLoopStep | player_performance_ratings/transformation/pre_transformers.py:390-394 | a pass whose feature and predicted column are present extends the loop's columns and rows by exactly one step of `NetColumns` and `AddNet` |
| GroupBy.NetLoopMissing | player_performance_ratings/transformation/pre_transformers.py:390-394 | a pass whose feature or predicted column is missing ends the whole loop with the KeyError of the first of the two that is missing |
| GroupBy.IdPartnersUnique | player_performance_ratings/transformation/pre_transformers.py:385-386 | with distinct ids, the merge on `__id` finds exactly one partner for a row: the row carrying its id |
| GroupBy.MergeOnIdDistinct | player_performance_ratings/transformation/pre_transformers.py:385-386 | with distinct ids the inner merge on `__id` keeps the rows one to one and in order |
| GroupBy.IdPartnersAll | player_performance_ratings/transformation/pre_transformers.py:385-386 | a row is merged with every row sharing its id |
| GroupBy.SharedIdSquares | player_performance_ratings/transformation/pre_transformers.py:385-386 | k rows sharing one id become k * k rows after the merge: it is many-to-many |
| CrossValidator.Uniques | player_performance_ratings/cross_validator/cross_validator.py:37-104 | the distinct values in order of first appearance: no repeats and exactly the values of the input |
| CrossValidator.Factorize | player_performance_ratings/cross_validator/cross_validator.py:37 | each row's match number is the position of its match id among the distinct ids |
| CrossValidator.FactorizeSameId | player_performance_ratings/cross_validator/cross_validator.py:37 | two rows share a match number exactly when they share a match id |
| CrossValidator.FactorizeFirstAppearance | player_performance_ratings/cross_validator/cross_validator.py:37 | numbers are handed out in order of first appearance: a row's number is at most the count of distinct ids before it, and equal exactly when its id is new |
| CrossValidator.UniquesPrefix | player_performance_ratings/cross_validator/cross_validator.py:37-104 | the distinct values of a prefix are a prefix of the distinct values |
| CrossValidator.InMask | player_performance_ratings/cross_validator/cross_validator.py:42-47 | a row is in the boolean mask over the first k rows exactly when it is one of them and its number lies in the bounds |
| CrossValidator.InWindow | player_performance_ratings/cross_validator/cross_validator.py:42-65 | a row is in a window exactly when its number lies between the bounds |
| CrossValidator.MaskIncreasing | player_performance_ratings/cross_validator/cross_validator.py:42-47 | the mask keeps table order |
| CrossValidator.WindowIncreasing | player_performance_ratings/cross_validator/cross_validator.py:42-65 | a window's rows are strictly increasing: table order is kept |
| CrossValidator.NoLookAhead | player_performance_ratings/cross_validator/cross_validator.py:62-146 | every training row of a cut has a smaller number than every validation row of the same cut |
| CrossValidator.TrainGrows | player_performance_ratings/cross_validator/cross_validator.py:62-140 | moving the cut up by a non-negative step adds exactly the rows it passes over to the training part |
| CrossValidator.MatchCountPrefix | player_performance_ratings/cross_validator/cross_validator.py:49-65 | the first k splits hand over k validation blocks, plus the first training block when asked for |
| CrossValidator.MatchCountPrefixBlock | player_performance_ratings/cross_validator/cross_validator.py:55-60 | the output starts with the first training block when asked for, and block i is split i's validation window |
| CrossValidator.MatchCountBlocks | player_performance_ratings/cross_validator/cross_validator.py:34-72 | ValueError "No objects to concatenate" exactly when there is no split; otherwise one block per split plus the training block when asked for |
| CrossValidator.MatchCountCrossValidator.constructor | player_performance_ratings/cross_validator/cross_validator.py:15-23 | stores the column name, the window width and the number of splits (default 3) |
| CrossValidator.MatchCountCrossValidator.GenerateValidationBlocks | player_performance_ratings/cross_validator/cross_validator.py:34-72 | the split loop returns exactly the blocks `MatchCountBlocks` describes, the errors included |
| CrossValidator.TileFind | player_performance_ratings/cross_validator/cross_validator.py:39-65 | a match number in the validated range lies in the window of some split |
| CrossValidator.TileUnique | player_performance_ratings/cross_validator/cross_validator.py:46-65 | two windows that share a match number are the same window |
| CrossValidator.MatchCountCover | player_performance_ratings/cross_validator/cross_validator.py:38-65 | with a positive width, a row is validated by some split exactly when its match number is among the last `validation_match_count * n_splits` |
| CrossValidator.MatchCountDisjoint | player_performance_ratings/cross_validator/cross_validator.py:46-65 | no row is validated by two splits |
| CrossValidator.MatchCountValidatesLastMatches | player_performance_ratings/cross_validator/cross_validator.py:34-72 | the validation blocks hold exactly the rows of the last `validation_match_count * n_splits` distinct matches |
| CrossValidator.FirstFrom | player_performance_ratings/cross_validator/cross_validator.py:109-110 | the first row whose date reaches the validation date, if any: every earlier row is before it |
| CrossValidator.Positions | player_performance_ratings/cross_validator/cross_validator.py:108 | row i is numbered i |
| CrossValidator.KFoldAdvance | player_performance_ratings/cross_validator/cross_validator.py:139-146 | advancing the cut by one step gives the next split's cut and window |
| CrossValidator.SplitStep | player_performance_ratings/cross_validator/cross_validator.py:122-146 | one pass of the split loop appends split idx's blocks and prepares the next cut and window |
| CrossValidator.KFoldPrefix | player_performance_ratings/cross_validator/cross_validator.py:122-146 | the first k splits hand over k validation blocks, plus the first training block when asked for |
| CrossValidator.KFoldBlocks | player_performance_ratings/cross_validator/cross_validator.py:97-152 | ValueError "No objects to concatenate" exactly when there is no split; otherwise one block per split plus the training block when asked for |
| CrossValidator.DefaultValidationDate | player_performance_ratings/cross_validator/cross_validator.py:103-106 | the element at index `len // 2` of the distinct dates in order of appearance, which is one of the dates; IndexError on an empty table |
| CrossValidator.MatchKFoldCrossValidator.constructor | player_performance_ratings/cross_validator/cross_validator.py:76-87 | stores the arguments, with no validation date and 3 splits by default |
| CrossValidator.MatchKFoldCrossValidator.GenerateValidationBlocks | player_performance_ratings/cross_validator/cross_validator.py:97-152 | a missing validation date is computed once and kept for later calls, a given one is kept; the blocks are `KFoldBlocks` for that date |
| CrossValidator.SplitLoop | player_performance_ratings/cross_validator/cross_validator.py:108-146 | the loop returns exactly the blocks `KFoldPrefix` describes |
| CrossValidator.KFoldLastRowValidated | player_performance_ratings/cross_validator/cross_validator.py:114-146 | with two or more splits, the last block contains the table's last row |
| CrossValidator.KFoldSingleSplitMissesLastRow | player_performance_ratings/cross_validator/cross_validator.py:114-146 | with one split, the last row, when it comes after the first validation row, is in no block |
| CrossValidator.KFoldNoLookAhead | player_performance_ratings/cross_validator/cross_validator.py:115-146 | in every split each training row comes before each row of its validation window |
| Common.NatToStringRoundTrip | player_performance_ratings/pipeline.py:89-223 | `str(idx)` reads back as idx, so distinct generator indices give distinct name suffixes |
| Pipeline.Predictor.constructor | player_performance_ratings/pipeline.py:102 | the predictor the pipeline drives starts with its given target and prediction column |
| Pipeline.Predictor.SetTarget | player_performance_ratings/pipeline.py:104 | `set_target` replaces the target |
| Pipeline.Generators | player_performance_ratings/pipeline.py:77-80 | `None` becomes no generators, a single generator a one-element list, and a list is kept |
| Pipeline.StoredWeights | player_performance_ratings/pipeline.py:94-96 | `None` stays `None`; a non-empty flat list becomes one list; the same weights are stored either way |
| Pipeline.RatingFeaturesMembership | player_performance_ratings/pipeline.py:86-92 | a name is a rating feature exactly when some generator produces a feature with that pipeline name |
| Pipeline.OneGeneratorNames | player_performance_ratings/pipeline.py:84-92 | with one generator the estimator features are the post-rating transformers' features followed by the generator's, unsuffixed |
| Pipeline.SuffixSeparatesGenerators | player_performance_ratings/pipeline.py:88-89 | with several generators the same feature of two generators gets two different names |
| Pipeline.SuffixSeparatesFeatures | player_performance_ratings/pipeline.py:88-91 | two features of one generator keep different names |
| Pipeline.CollectEstimatorFeatures | player_performance_ratings/pipeline.py:84-92 | the constructor's loops compute exactly the post-rating features followed by each generator's named features |
| Pipeline.AppendGeneratorFeatures | player_performance_ratings/pipeline.py:87-92 | the inner loop appends one generator's named features in order |
| Pipeline.AssignChecked | player_performance_ratings/pipeline.py:205-226 | assigning a list whose length is not the row count raises ValueError; otherwise the column is assigned |
| Pipeline.WriteRatingsFails | player_performance_ratings/pipeline.py:200-205 | writing a generator's ratings fails exactly when some list's length is not the row count |
| Pipeline.WriteRatingsKeeps | player_performance_ratings/pipeline.py:200-205 | a successful write keeps every row and column |
| Pipeline.WriteRatingsColumns | player_performance_ratings/pipeline.py:200-205 | with distinct feature names, each feature's column holds exactly the values the generator returned |
| Pipeline.ColumnAfterAssign | player_performance_ratings/pipeline.py:205 | after assigning a column, it holds the values and every other column is unchanged |
| Pipeline.WriteRatingItems | player_performance_ratings/pipeline.py:200-205 | the inner loop of `_add_rating` equals the specification `WriteRatings` |
| Pipeline.WriteRatingsPrefixErr | player_performance_ratings/pipeline.py:200-205 | once an item fails, the remaining items change nothing |
| Pipeline.PerGenerator | player_performance_ratings/pipeline.py:182-194 | `None` means converting the table; a non-empty flat list is shared by every generator; an empty or nested list is kept |
| Pipeline.SourceFor | player_performance_ratings/pipeline.py:190-194 | a generator rates the converted table, or its own entry of the matches list, which raises IndexError when missing |
| Pipeline.RatingsFromKeeps | player_performance_ratings/pipeline.py:186-207 | adding ratings never loses a row or a column |
| Pipeline.EmptyMatchesFail | player_performance_ratings/pipeline.py:182-194 | an empty `matches` list is kept as it is, and the first generator's lookup raises IndexError |
| Pipeline.WriteFutureEffect | player_performance_ratings/pipeline.py:219-226 | a successful write keeps rows and columns and adds every named feature; a feature the engine did not return raises |
| Pipeline.FutureFromComplete | player_performance_ratings/pipeline.py:212-226 | after `predict`'s rating loop the table keeps its rows and columns and has every generator's named features |
| Pipeline.FutureHasRatingFeatures | player_performance_ratings/pipeline.py:86-226 | every rating feature the predictor was trained on is a column after `predict`'s rating loop |
| Pipeline.WriteFutureRatings | player_performance_ratings/pipeline.py:219-226 | the inner loop of `predict` equals the specification `WriteFuture` |
| Pipeline.WriteFuturePrefixErr | player_performance_ratings/pipeline.py:219-226 | once a feature fails, the remaining features change nothing |
| Pipeline.ApplyPost | player_performance_ratings/pipeline.py:153-229 | the loop applies the post-rating transformers in order |
| Pipeline.Output | player_performance_ratings/pipeline.py:158-234 | with features kept the table is returned as is; otherwise exactly the input columns and the prediction column, KeyError when one is absent |
| Pipeline.Pipeline.constructor | player_performance_ratings/pipeline.py:76-104 | the arguments normalised to lists, the estimator features collected, and the predictor's target set to "__target" |
| Pipeline.Pipeline.AddPerformance | player_performance_ratings/pipeline.py:163-178 | equals `Performed`: a table that already has the prediction column is refused; the performances are generated from the pre-transformed table when there is a generator; the target must then be present; on success every performance column is complete |
| Pipeline.Pipeline.Performed | player_performance_ratings/pipeline.py:163-178 | on success the prediction column was absent and the target is present; without a generator the table is returned as it is |
| Pipeline.Pipeline.PreTransformed | player_performance_ratings/ratings/performances_generator.py:151-156 | the pre-transformations apply only when there is a generator, one step per transformation |
| Pipeline.Pipeline.AddRating | player_performance_ratings/pipeline.py:180-207 | the generator loop equals `RatingsFrom` and keeps every row and column |
| Pipeline.Pipeline.GenerateHistorical | player_performance_ratings/pipeline.py:143-161 | without the target it raises ValueError; otherwise errors of `_add_performance` and `_add_rating` are passed on and the result is the rated table through the post-rating `fit_transform` chain and `add_prediction`, cut to the input columns plus the prediction column unless features are kept |
| Pipeline.Pipeline.Predict | player_performance_ratings/pipeline.py:209-235 | a failing rating write is returned; otherwise the post-rating chain and the prediction are applied to the rated table, and without kept features the columns are the input's plus the prediction column |
| Classifier.Mul | player_performance_ratings/predictor/estimators/classifier.py:88 | a product is present exactly when both factors are |
| Classifier.Div | player_performance_ratings/predictor/estimators/classifier.py:97 | a quotient is present exactly when both operands are and the divisor is not zero |
| Classifier.Trunc | player_performance_ratings/predictor/estimators/classifier.py:100 | `astype('int')` truncates toward zero: the result is within 1 of the value, on the side of 0 |
| Classifier.Products | player_performance_ratings/predictor/estimators/classifier.py:88 | one product of weight and feature per row |
| Classifier.WeightedFromEffect | player_performance_ratings/predictor/estimators/classifier.py:86-88 | with distinct features that do not include the weight, a successful weighting multiplies each feature cell by its row's weight exactly once and leaves every other cell alone |
| Classifier.WeightedPrefixErr | player_performance_ratings/predictor/estimators/classifier.py:87-88 | once a feature fails, the remaining features change nothing |
| Classifier.WeightFeatures | player_performance_ratings/predictor/estimators/classifier.py:86-88 | the weighting loop equals the specification `WeightedFrom` |
| Classifier.DivideEffect | player_performance_ratings/predictor/estimators/classifier.py:96-97 | with distinct features that do not include the weight, each feature is divided once by the weight sum and every other cell is unchanged |
| Classifier.CreateGrouped | player_performance_ratings/predictor/estimators/classifier.py:81-101 | KeyError of the target first when it is missing; then fails unless a weight column is given (the default `None` raises KeyError); on success there is one group per (game, team) pair of the weighted table, the weight column is dropped, and every target is a present whole number |
| Classifier.CastTarget | player_performance_ratings/predictor/estimators/classifier.py:100 | the cast fails with ValueError exactly when some group's target is missing; otherwise every target is truncated |
| Classifier.GroupRows | player_performance_ratings/predictor/estimators/classifier.py:91-97 | one grouped row per (game, team) pair |
| Classifier.Truncated | player_performance_ratings/predictor/estimators/classifier.py:100 | the same groups, each with its target truncated toward zero |
| Classifier.GroupColumnWeighted | player_performance_ratings/predictor/estimators/classifier.py:87-91 | grouping the weighted rows collects the products weight times feature of the original rows |
| Classifier.GroupRowFeature | player_performance_ratings/predictor/estimators/classifier.py:91-97 | a feature's grouped cell is its group sum over the weight's group sum |
| Classifier.GroupRowTarget | player_performance_ratings/predictor/estimators/classifier.py:91-93 | the target's grouped cell is the group's mean target |
| Classifier.CreateGroupedRows | player_performance_ratings/predictor/estimators/classifier.py:81-101 | a successful `_create_grouped` is the truncation of the grouped rows of the weighted table, none of which has a missing target |
| Classifier.WeightedKeys | player_performance_ratings/predictor/estimators/classifier.py:86-91 | weighting never touches the grouping columns, so every row keeps its pair |
| Classifier.WeightedGroupCells | player_performance_ratings/predictor/estimators/classifier.py:86-97 | on the weighted table a group's features are sums of weight times feature over sums of weights, and its target is the mean target |
| Classifier.TruncatedCells | player_performance_ratings/predictor/estimators/classifier.py:100 | truncating the target leaves every other cell of a group unchanged |
| Classifier.GroupedWeightedMean | player_performance_ratings/predictor/estimators/classifier.py:81-101 | a grouped feature is the group's sum of weight times feature over its sum of weights, and the grouped target is the group's mean target truncated toward zero |
| Classifier.GroupedKeys | player_performance_ratings/predictor/estimators/classifier.py:91-95 | there is a grouped row for exactly the (game, team) pairs of the input |
| Classifier.NoWeightColumnFails | player_performance_ratings/predictor/estimators/classifier.py:18-94 | with the default `weight_column=None`, `_create_grouped` always raises |
| Classifier.Merged | player_performance_ratings/predictor/estimators/classifier.py:76-77 | the inner merge keeps at most the input rows; when every row's pair has a prediction it keeps every row, in order, with its pair's prediction |
| Classifier.GameTeamAddPrediction | player_performance_ratings/predictor/estimators/classifier.py:58-79 | errors of `_create_grouped` are passed on; on success the prediction column is the last column and appears once, the other columns are the input's, and no row is added |
| Classifier.Predictions | player_performance_ratings/predictor/estimators/classifier.py:69-71 | one prediction per group, the model applied to the group's feature cells |
| Classifier.WithoutColumn | player_performance_ratings/predictor/estimators/classifier.py:73-74 | dropping the prediction column keeps every row and every other column and cell |
| Classifier.MergedEveryRow | player_performance_ratings/predictor/estimators/classifier.py:76-77 | an inner merge where every pair has a prediction keeps every row, in order |
| Classifier.ReplacedPredictions | player_performance_ratings/predictor/estimators/classifier.py:73-77 | dropping the old prediction column and merging back keeps every row with the old prediction replaced by its pair's prediction |
| Classifier.EveryRowGetsGroupPrediction | player_performance_ratings/predictor/estimators/classifier.py:58-101 | when the names do not collide and every row has its game and team, every input row comes back, in order, with its prediction replaced by its group's model prediction |
| Classifier.ClassifierAddPrediction | player_performance_ratings/predictor/estimators/classifier.py:124-130 | KeyError exactly when a feature column is missing; otherwise every row is kept, gets the model's prediction from its feature cells, and keeps every other cell |
| TunerUtils.Bounded | player_performance_ratings/tuner/utils.py:7-14 | a range with the given name, kind and bounds, and the dataclass defaults for the rest |
| TunerUtils.Suggestion | player_performance_ratings/tuner/utils.py:19-29 | a configuration stores something exactly when its kind is uniform, loguniform, int or categorical, and each kind asks the trial's matching suggest method with the configuration's bounds or choices |
| TunerUtils.ParamDict.constructor | player_performance_ratings/tuner/utils.py:17-18 | the dictionary holds the given entries |
| TunerUtils.AddParamsFromSearchRange | player_performance_ratings/tuner/utils.py:17-31 | the dictionary is updated in place, as the configurations applied in order describe, and the same dictionary is returned |
| TunerUtils.ApplyRangesKeys | player_performance_ratings/tuner/utils.py:19-29 | afterwards the keys are the old keys plus the names of the known-kind configurations |
| TunerUtils.ApplyRangesUntouched | player_performance_ratings/tuner/utils.py:19-29 | a name no known-kind configuration mentions keeps its value, or stays absent |
| TunerUtils.UnknownKindsIgnored | player_performance_ratings/tuner/utils.py:28-29 | configurations of an unknown kind, "discrete_uniform" included, leave the dictionary unchanged |
| TunerUtils.LastConfigWins | player_performance_ratings/tuner/utils.py:19-27 | the last known-kind configuration with a name decides that name's value |
| TunerUtils.ClassifierSearchRange | player_performance_ratings/tuner/utils.py:33-67 | a learning rate of 0 raises ZeroDivisionError; otherwise the five ranges n_estimators, num_leaves, max_depth, min_child_samples and reg_alpha with the source's bounds |
| TunerUtils.MinEstimators | player_performance_ratings/tuner/utils.py:34-72 | the minimum number of trees is 7 / learning_rate capped at 1000; positive for a positive rate and negative for a negative one |
| TunerUtils.RegressorSearchRange | player_performance_ratings/tuner/utils.py:70-104 | a learning rate of 0 raises ZeroDivisionError; otherwise the same five ranges with 7 times the minimum trees and depth up to 14 |
| TunerUtils.ClassifierRangesOrdered | player_performance_ratings/tuner/utils.py:33-67 | with a positive learning rate every classifier range has both bounds in order and a known kind, and the minimum trees lie in (0, 1000] |
| TunerUtils.RegressorRangesOrdered | player_performance_ratings/tuner/utils.py:70-104 | with a positive learning rate every regressor range has both bounds in order and a known kind |
| TunerUtils.EstimatorRangeNames | player_performance_ratings/tuner/utils.py:33-104 | both builders name the same five parameters in the same order |
| TunerUtils.NegativeRateInvertsEstimators | player_performance_ratings/tuner/utils.py:34-79 | with a negative learning rate the tree range's upper bound is below its lower bound |
| TunerUtils.RegressorWidensClassifier | player_performance_ratings/tuner/utils.py:33-104 | the regressor's ranges contain the classifier's, with strictly more trees and depth at the top |
| TunerUtils.TeamRatingRangesOrdered | player_performance_ratings/tuner/utils.py:107-151 | seven uniform ranges, each with both bounds in order |
| TunerUtils.TeamRatingNamesDistinct | player_performance_ratings/tuner/utils.py:107-151 | the seven team-rating parameters have distinct names |
| TunerUtils.KnownRangesFillAll | player_performance_ratings/tuner/utils.py:17-151 | ranges all of a known kind add exactly their names to the dictionary |

## Left out

- The rating engine (time-weighted and opponent-adjusted rating generators, match building, league identification): its source is not part of this model. The pipeline receives it as the functions `HistoricalEngine` and `FutureEngine`, and a generator is known only by its feature names and column names.
- `math.exp` is a function parameter constrained by `IsExp` (value 1 at 0, positive, increasing). Floating-point rounding, infinities and overflow are not modelled; every number is a `real`.
- pandas' missing value (NaN) is `None`. Identifier columns (game, team, date) are numeric cells, because the code only compares them; the cross-validator takes its match ids as strings. String identifiers, dtypes and the row index are not modelled.
- `Series.quantile` and `Series.mean` with a granularity are given as function parameters (`QuantileFn`, the aggregate of `GroupBy`). pandas' interpolation between order statistics is not modelled.
- `SymmetricDistributionTransformer`, `SklearnEstimatorImputer` and `SkLearnTransformerWrapper`: driven by pandas skewness, LightGBM and scikit-learn. They are not part of this model.
- The position-dependent branches of `auto_create_pre_performance_transformations` (performances_generator.py:51-119): they read `position` and `_predictor`, which the shown `ColumnNames` and transformers do not have. Only the feature-name collection at lines 42-49 is modelled.
- The `train` methods of `SkLearnGameTeamPredictor` and `SKLearnClassifierWrapper`, and `fit`/`predict_proba`: the trained model is a function from a row's feature cells to a probability.
- `Pipeline.cross_validate_score`, `Pipeline.generate_cross_validate_df` and `Pipeline.classes_`: they only delegate to the cross-validator, an external scorer and the predictor. The cross-validator's split logic is modelled on its own in `cross_validator.dfy`.
- The cross-validators' predictor and post-transformers: a split is described by the row indices of its training and validation blocks, not by the tables handed to `add_prediction`.
- The optuna tuning loops (`tuner/pipeline_tuner.py`, `tuner/predictor_tuner.py`): they rely on deep copies, reflection over estimator constructors and external study objects. In `tuner/utils.py` the trial is a function parameter.
- Logging: the warnings in `add_params_from_search_range` and in the `MinMaxTransformer` alignment loop are not modelled. The warning's f-string in the alignment loop names an undefined `reps`, so it is modelled as the error it raises.
- GroupBy.NetOverPredictedTransformer.constructor: the `predict_transformer` argument is not modelled. A caller-supplied transformer is an arbitrary object, so the model always builds the default mean `GroupByTransformer`.
- GroupBy.NetOverPredictedTransformer.Transform: when the table already holds a column named like a predicted column, pandas' merge keeps both copies under `_x`/`_y` suffixes, so the later read of the predicted column raises KeyError. The model instead lets the predicted values replace that column.
- Classifier.GameTeamAddPrediction: the `multiclassifier=True` branch (classifier.py:68-69) is not modelled. It writes one list of class probabilities per row, which a numeric cell cannot hold; only the binary branch is modelled.
- Classifier.ClassifierAddPrediction: the `multiclassifier=True` branch (classifier.py:126-127) is not modelled, for the same reason; only the binary branch is modelled.
- PerformancesGenerator.WritePerformance: in Python the performance column is written into the table before the ValueError for a missing value is raised. Without pre-transformations that table is the caller's own, so the caller sees the partly filled column. The model returns values and leaves the input unchanged.
- PerformancesGenerator.Generate: each pre-transformation's `fit_transform` is the parameter `fitTransform`, a function of the step index and the table. Its exceptions and the fitted state it leaves in the transformer objects are not modelled, and neither is the in-place write described for `PerformancesGenerator.WritePerformance`.
- Pipeline.Pipeline.AddPerformance: the performances generator's pre-transformations are the same `Step` parameter as in `PerformancesGenerator.Generate`, with the same limits.
- Pipeline.Pipeline.GenerateHistorical: `predictor.train` is not modelled, and the trained predictor's `add_prediction` is a function parameter. The post-rating transformers' `fit_transform` is a `Step` parameter whose exceptions and fitted state are not modelled.
- MinMax.MinMaxTransformer.Transform: `transform` writes into the caller's table without copying it, so the columns of earlier features stay rewritten when a later feature raises KeyError. The model returns a new table and leaves the input unchanged.
- MinMax.TransformAll: for the same reason, the model's table is a value, and the caller's table is not rewritten in place.
- CrossValidator.Factorize: `pd.factorize` codes a missing match id as -1. The model's match ids are strings and are never missing, so that code does not arise.
- GroupBy.MergeLeft: when the table already holds a column named like a created column (`prefix + feature`), pandas' left merge keeps both copies as `<name>_x` and `<name>_y` and leaves no column under the plain name. The model instead lets the group value, or a missing value for an unkeyed row, replace the old cell. Two default `GroupByTransformer`s on the same feature in one chain, or a prefix of "", give such a collision.
- GroupBy.GroupByTransformer.FitTransform: inherits the overwrite of `GroupBy.MergeLeft` on a name collision, in place of pandas' `_x`/`_y` suffixes.
- GroupBy.GroupByTransformer.Transform: inherits the overwrite of `GroupBy.MergeLeft` on a name collision, in place of pandas' `_x`/`_y` suffixes.
- ColumnsWeighterTransform.FitTransform: the helper columns `sum_cols_weights`, `__<weighted name>` and `weight__<name>` are not modelled. The source drops them at the end, so an input column that already carries one of those names is deleted there, whereas the model keeps every input column.
- CrossValidator.MatchKFoldCrossValidator.GenerateValidationBlocks: the source recomputes the validation date whenever the stored one is falsy (`if not self.min_validation_date`, cross_validator.py:103), so an empty string would be recomputed too. The model's dates are numbers and it recomputes only a missing (`None`) date; a stored date is always kept.
