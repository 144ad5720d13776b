# High-risk provider scoring, modelled in Dafny

This project models the scoring core of the high-risk provider triage tool.
The tool takes a batch of healthcare providers, each with billing volumes, charges and payments.
It gives every provider a 0–100 risk score and a tier label in five stages:

1. **Feature derivation** (`Features`). Four columns are derived from the loaded ones:
   - services per beneficiary, with the beneficiary count floored at 1;
   - charge-to-payment ratio, with the payment floored at 1e-6;
   - total charges;
   - total payments.
2. **One-sided normalisation** (`Normalize`, using `Stats`). Each derived column becomes positive z-scores against its population mean and standard deviation (divisor N). A column whose standard deviation is at most 1e-12 counts as constant and contributes only zeros.
3. **Aggregation** (`Aggregate`). A provider's raw risk is the unweighted mean of its four contributions.
4. **Percentile ranking** (`Ranking`). If all raw risks are equal, every score is 0. Otherwise a score is the average-tie rank as a percentage of the batch size: `100 * (#below + (#equal + 1) / 2) / n`.
5. **Tier classification** (`Tiers`). Scores map to `high`, `elevated`, `medium` and `low`, using inclusive thresholds at 90, 70 and 40.

`Scoring.ScoreProviders` composes the five stages into the whole pipeline.
Every stage is a pure function over sequences of exact `real`s.
The batch is a sequence of rows. A row holds the loaded columns and, once derived, the four feature columns.
A standard deviation is a parameter constrained by `std >= 0 && std * std == PopVariance(column)`, because Dafny has no square root.
The pipeline takes one such value per derived column, in the order of `Features.FeatureColumns`.
`Permutations` holds the generic facts about reordering a batch. With them the model proves that scoring does not depend on row order, and that the column-wise computation agrees with a row-by-row one.

## Model

| member | source | states |
|---|---|---|
| Features.BeneficiaryDenominator | hrp/scoring.py:21 | the beneficiary denominator is at least 1; it is the count when the count is at least 1, and 1 when the count is at most 1 or the column is absent |
| Features.PaymentDenominator | hrp/scoring.py:22 | the payment denominator is at least 1e-6 (so positive); it is the payment when that is at least 1e-6, else 1e-6 |
| Features.Derive | hrp/scoring.py:20-35 | each ratio times its floored denominator gives back its numerator, so neither is a division by zero; with at most one beneficiary (or none recorded) services per beneficiary equal the services; the totals are charge × services and payment × services |
| Features.ComputeFeatures | hrp/scoring.py:17-37 | the result has the same number of rows, every row keeps its loaded columns unchanged and carries the features derived from them, replacing any already present |
| Features.Column | hrp/scoring.py:56 | a feature column of an enriched batch has one entry per row, the row's value of that feature |
| Features.ComputeFeaturesIdempotent | hrp/scoring.py:18-37 | deriving features of a batch that already has them gives the same batch |
| Features.ZeroBeneficiariesExample | hrp/scoring.py:21-26 | 0 beneficiaries and 10 services give 10.0 services per beneficiary |
| Features.DerivedNonNegative | hrp/scoring.py:24-35 | non-negative services, charges and payments give non-negative derived features |
| Stats.PopVariance | hrp/scoring.py:43 | the population variance is never negative |
| Stats.ConstantColumnStats | hrp/scoring.py:42-43 | a column of one repeated value has that value as mean and variance 0 |
| Stats.StdOfConstantColumn | hrp/scoring.py:43-44 | the standard deviation of a column whose entries are all equal is 0 |
| Stats.SumAtMost | hrp/scoring.py:42 | entries bounded by m sum to at most N·m, reaching it only when every entry is m |
| Stats.PositiveVarianceHasEntryAboveMean | hrp/scoring.py:42-43 | a column with positive variance has an entry strictly above its mean |
| Stats.SumPermutation | hrp/scoring.py:42 | the sum of a column does not depend on the order of its entries |
| Stats.StatsPermutation | hrp/scoring.py:42-43 | two reorderings of a column have the same length, mean and population variance |
| Stats.DivideOrder | hrp/scoring.py:47 | dividing by a positive real (a standard deviation, a batch size) keeps order and sign |
| Normalize.ClipAtZero | hrp/scoring.py:48 | the clipped value is non-negative, equals a non-negative input and is 0 for a non-positive one |
| Normalize.PositiveZScores | hrp/scoring.py:40-48 | same length as the column, every entry >= 0; all zeros when std <= 1e-12; otherwise an entry is positive exactly when its value is above the mean, and then the entry times std is the distance to the mean |
| Normalize.PositiveZScoresMonotone | hrp/scoring.py:47-48 | within a column a larger value never gets a smaller contribution |
| Normalize.ConstantColumnContributesNothing | hrp/scoring.py:43-45 | a constant column contributes 0 for every provider |
| Normalize.SpreadColumnHasPositiveEntry | hrp/scoring.py:44-48 | a column with std above 1e-12 gives some provider a positive contribution |
| Normalize.ZScore | hrp/scoring.py:44-48 | the positive z-score of one value is >= 0; it is 0 when std <= 1e-12, and otherwise positive exactly when the value is above the mean |
| Normalize.PositiveZScoresByRow | hrp/scoring.py:44-48 | normalising the whole column gives each entry the positive z-score of its own value against the column mean and std |
| Aggregate.RiskRaw | hrp/scoring.py:59-64 | one raw risk per row; each raw risk times the number of columns is the row's total contribution (the mean); with no columns every raw risk is 0 |
| Aggregate.RowSumNonNegative | hrp/scoring.py:62-64 | a row of non-negative contributions has a total >= each of them, which is 0 exactly when all of them are 0 |
| Aggregate.RiskRawNonNegative | hrp/scoring.py:62-64 | with non-negative contributions a raw risk is >= 0, at least each contribution over the column count, and 0 exactly when all the row's contributions are 0 |
| Aggregate.RiskRawAllNonNegative | hrp/scoring.py:64 | with non-negative contributions every raw risk is >= 0 |
| Aggregate.RowSumIsSum | hrp/scoring.py:64 | the total of a row across the contribution columns is the sum of the row's entries |
| Ranking.PercentileScores | hrp/scoring.py:68-71 | one score per raw risk |
| Ranking.ScoreAt | hrp/scoring.py:68-71 | a score is 0 when all raw risks are equal, and otherwise its average rank as a percentage of the batch size |
| Ranking.CountSameAll | hrp/scoring.py:68 | every entry equals x exactly when all entries count as equal to x |
| Ranking.SingleValuedIffAllEqual | hrp/scoring.py:68 | the count-based "at most one distinct value" test agrees with "all raw risks are equal" |
| Ranking.PercentMonotone | hrp/scoring.py:71 | scaling a rank to a percentage keeps order and keeps positive ranks positive |
| Ranking.PercentOfTopRank | hrp/scoring.py:71 | the top rank n of a batch of n is 100 percent |
| Ranking.CountAppend | hrp/scoring.py:71 | counts of a concatenation add up |
| Ranking.CountsWithinLength | hrp/scoring.py:71 | the entries below a value and those equal to it number at most the batch size |
| Ranking.CountSameOfMember | hrp/scoring.py:71 | a value in the batch is equal to at least one entry (itself) |
| Ranking.CountBelowGrows | hrp/scoring.py:71 | for a < b, every entry below or equal to a is below b |
| Ranking.CountAllBelow | hrp/scoring.py:71 | if every entry is below x, all count as below and none as equal |
| Ranking.CountRemoveAt | hrp/scoring.py:71 | removing one entry lowers a count by that entry's share |
| Ranking.CountPermutation | hrp/scoring.py:71 | counts depend only on the multiset of raw risks |
| Ranking.AllEqualPermutation | hrp/scoring.py:68 | whether all raw risks are equal does not depend on their order |
| Ranking.TwiceRankBounds | hrp/scoring.py:71 | an average rank lies between 1 and the batch size (twice-rank between 2 and 2n) |
| Ranking.TwiceRankStrictlyMonotone | hrp/scoring.py:71 | a strictly larger raw risk has a strictly larger average rank |
| Ranking.TwiceRankPermutation | hrp/scoring.py:71 | the average rank of a value does not depend on the order of the batch |
| Ranking.ScoresInRange | hrp/scoring.py:68-71 | every score lies in [0, 100]; a score is 0 exactly when all raw risks are equal, so with any dispersion every score is positive |
| Ranking.ScoresFollowRawRisk | hrp/scoring.py:71 | equal raw risks get equal scores; a strictly larger raw risk gets a strictly larger score |
| Ranking.UniqueMaximumScoresHundred | hrp/scoring.py:71 | in a batch of at least two, a raw risk strictly above all others scores exactly 100 |
| Ranking.ScoresIndependentOfOrder | hrp/scoring.py:68-71 | reordering the batch reorders the scores with it: equal values in two permutations get equal scores |
| Ranking.AllScoresInRange | hrp/scoring.py:68-71 | every score of the batch lies in [0, 100] |
| Tiers.Label | hrp/scoring.py:74-81 | high exactly for score >= 90, elevated exactly for 70 <= score < 90, medium exactly for 40 <= score < 70, low exactly for score < 40, for every real |
| Tiers.LabelMonotone | hrp/scoring.py:74-81 | in the order low < medium < elevated < high, a larger score never gets a lower tier |
| Tiers.NamesDistinct | hrp/scoring.py:76-81 | the four label strings are pairwise distinct |
| Tiers.LabelBoundaries | hrp/scoring.py:74-81 | 90 is high and 89.999 elevated, 70 is elevated and 69.999 medium, 40 is medium and 39.999 low; 100.5 is high and -1 low |
| Scoring.Contributions | hrp/scoring.py:55-57 | one contribution column per derived feature, each as long as the batch and non-negative |
| Scoring.ScoreProviders | hrp/scoring.py:51-85 | same row count as the input; each row keeps its loaded columns and gains its derived features; raw risk >= 0; score in [0, 100] and equal to the percentile rank of the batch's raw risks; label is the tier of the score |
| Scoring.ScoresOrderedByRisk | hrp/scoring.py:64-83 | in one batch, equal raw risks get equal scores and labels; a strictly larger raw risk gets a strictly larger score and no lower tier |
| Scoring.UniformRiskScoresZero | hrp/scoring.py:68-83 | when every raw risk is equal (including 0- and 1-row batches), every score is 0 and every label low |
| Scoring.UniqueTopRiskIsHigh | hrp/scoring.py:71-83 | in a batch of at least two, a provider with a raw risk strictly above every other provider's scores 100 and is labelled high |
| Scoring.IdenticalFeaturesScoreZero | hrp/scoring.py:40-69 | if all providers have identical derived features, every raw risk, every score is 0 and every label low |
| Scoring.SpreadFeatureGivesPositiveRisk | hrp/scoring.py:40-64 | if some feature column has a standard deviation above 1e-12, some provider has a positive raw risk |
| Scoring.RiskRawByRow | hrp/scoring.py:52-64 | a provider's raw risk from the column-wise pipeline equals the mean of its own four positive z-scores against the batch's feature means and stds |
| Scoring.SpreadsIndependentOfOrder | hrp/scoring.py:42-43 | reordering the batch keeps every feature column's mean and population variance, so the same stds remain valid |
| Scoring.ScoreProvidersIndependentOfOrder | hrp/scoring.py:51-85 | a provider gets the same scored row (features, raw risk, score, label) wherever it stands in any reordering of the batch |

## Left out

- Floating point is not modelled: all arithmetic is exact `real`. The ±infinity → NaN → 0.0 sanitising before normalisation (hrp/scoring.py:41) cannot arise, and neither can rounding in the mean and standard deviation.
- The square root is not computed. Each standard deviation is a parameter whose square must equal the population variance. The pipeline takes the four values with the batch.
- The mean of an empty column is defined as 0.0, where the library gives NaN. The z-score column of an empty batch is empty either way.
- Only `num_beneficiaries` may be absent (`Option`; absent means a denominator of 1). `num_services`, `avg_charge` and `avg_payment` are required fields: a missing one of these columns makes the code raise instead of defaulting to 0, because the scalar default has no `astype` (hrp/scoring.py:25-35). The loader in hrp/data.py:86-91 ensures the three columns exist.
- `None` in `numBeneficiaries` stands for the column being absent from the whole batch (hrp/scoring.py:21). A batch mixing `None` and `Some` rows has no counterpart in the code. A single missing cell in a present column is not modelled: the code would carry NaN into `services_per_beneficiary` and later turn it into 0.0 (hrp/scoring.py:41).
- Counts (`num_beneficiaries`, `num_services`) are reals. Integer counts are a special case.
- Columns other than the identifier, the state and the four numeric inputs are not modelled.
- `if col in enriched` (hrp/scoring.py:56) always holds after feature derivation, so the pipeline always normalises all four columns. The `if not pos_z` branch (hrp/scoring.py:59-60) appears only as the zero-column case of `Aggregate.RiskRaw`.
- The score is pandas' average-tie rank (`rank(pct=True)`, hrp/scoring.py:71), so tied raw risks share the mean of their positions. Monotonicity is proved in the strict form: a strictly larger raw risk gets a strictly larger score.
- Loading, saving and synthetic generation (hrp/data.py) are not part of this model: they are file and random-number I/O. The command-line surface (hrp/cli.py) is not part of this model either.
- The test that 500 random rows give some score >= 90 depends on the random sample. `Scoring.UniqueTopRiskIsHigh` states the deterministic fact behind it: in a batch of at least two, a unique top raw risk scores 100 and is labelled high.
