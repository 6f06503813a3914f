# Terrorism index scoring, modelled in Dafny

This project models the scoring core of a terrorism dashboard's data preparation
(`dashboard_dataprep.py`). For every country and year the dashboard holds a raw
`terrorism_index`. From it the preparation code derives:

- a **rolling weighted index**: a trailing window of five yearly values per country,
  reduced by a dot product with the weights `0.03, 0.06, 0.13, 0.26, 0.52` (oldest
  year first), undefined until a full window of defined values is available;
- a **per-year band**: the spread `2 * (max - min)` of the year's defined rolling
  values, a per-year `score` (its 20th root), and a table of 21 pairs
  `(score^k, k/2)` whose first entry is forced to `(0, 0)` (`calc_scores`);
- an **absolute terrorism score** (`assign_class`): 0 for an undefined rolling value,
  else the level of the first threshold the value is strictly below, else 10;
- an **absolute terrorism impact** (`calc_abs_impact_level_new`): one of six tiers
  from `no_impact` to `very_high`;

and, for the polity data, a **regime type** (`categorical_govern`) and a
**fragmentation category** (`categorical_fragment`).

Floats are `real`; a NaN is `None` of `Option<real>` (`wrappers.dfy`). The modules
follow the steps above: `Rolling` (`rolling.dfy`), `YearBand` (`year_band.dfy`),
`Classify` (`classify.dfy`), `Labels` (`labels.dfy`) and `Scoring` (`scoring.dfy`),
which puts them together over a table of countries by years.

`calc_scores` and `assign_class` are written as methods, as in the source: one
builds the list and then overwrites its first entry, the other is a scan with an
early return. Each is proved equal to a specification function (`Thresholds`,
`ClassOf`), and the lemmas state what those functions promise.

`calc_scores` overwrites entry 0 of the table with `(0, 0)`, so a score of 2 gives
the thresholds `0, 2, 4, 8, ...`; without the overwrite entry 0 would be `2^0 = 1`.

## Model

| member | source | states |
|---|---|---|
| `Rolling.RollingWeight` | dashboard_dataprep.py:17-21 | one output per input year; each is the value of the window ending there; the first four years are undefined |
| `Rolling.RollingDefinedIff` | dashboard_dataprep.py:18-19 | a rolling value is defined exactly when the five values ending at that year are all defined (pandas `min_periods` equals the window) |
| `Rolling.WindowFormula` | dashboard_dataprep.py:17-19 | a full window `[v0..v4]` yields `0.03*v0 + 0.06*v1 + 0.13*v2 + 0.26*v3 + 0.52*v4` |
| `Rolling.WeightsSumToOne` | dashboard_dataprep.py:17 | the five weights sum to 1 |
| `Rolling.RollingWithinWindow` | dashboard_dataprep.py:17-19 | a rolling value lies between the smallest and largest raw value of its window |
| `Rolling.ConstantWindow` | dashboard_dataprep.py:17-19 | a window of five equal values `v` yields `v` |
| `YearBand.Defined` | dashboard_dataprep.py:23-24 | the year's defined values: every defined value is kept, nothing else is added, and it is empty exactly when all are undefined |
| `YearBand.Max` | dashboard_dataprep.py:24 | the result is one of the values and no value exceeds it |
| `YearBand.Min` | dashboard_dataprep.py:23 | the result is one of the values and no value is below it |
| `YearBand.Spread` | dashboard_dataprep.py:25 | `2 * (max - min)` is at least 0, and is 0 exactly when all values are equal |
| `YearBand.YearSpread` | dashboard_dataprep.py:23-25 | undefined exactly when the year has no defined value; otherwise non-negative, and 0 exactly when all defined values are equal |
| `YearBand.RootOfZero` | dashboard_dataprep.py:26 | a year whose spread is 0 has score 0 |
| `YearBand.RootBelowOne` | dashboard_dataprep.py:26 | the score is below 1 exactly when the spread is below 1 |
| `YearBand.Thresholds` | dashboard_dataprep.py:27-33 | 21 pairs; entry 0 is `(0, 0)`; entry k ≥ 1 is `(score^k, k/2)` |
| `YearBand.CalcScores` | dashboard_dataprep.py:30-33 | building the raised bands one by one and overwriting entry 0 gives exactly `Thresholds(score)` |
| `YearBand.LevelsAscending` | dashboard_dataprep.py:27 | the levels are `k/2`: 0, 0.5, ..., 10, strictly increasing |
| `YearBand.ThresholdsAscending` | dashboard_dataprep.py:31-32 | with score ≥ 1 the thresholds never decrease along the table |
| `YearBand.ThresholdsDescending` | dashboard_dataprep.py:31-32 | with 0 ≤ score ≤ 1 the thresholds after entry 0 never increase: the bands run backwards |
| `Classify.FirstAbove` | dashboard_dataprep.py:50-52 | the position found is the first whose threshold the value is strictly below; every earlier threshold is at or under the value; or no threshold qualifies |
| `Classify.AssignClass` | dashboard_dataprep.py:39-54 | 0 for an undefined value whatever the thresholds; otherwise the level of the first threshold strictly above the value, or 10 |
| `Classify.ClassByPosition` | dashboard_dataprep.py:50-54 | against a year's table the class is half the first matching position, capped at 10 |
| `Classify.ClassIsHalfStep` | dashboard_dataprep.py:50-54 | every class is one of 0, 0.5, ..., 10 |
| `Classify.ClassZeroIff` | dashboard_dataprep.py:45-51 | class 0 is given exactly to undefined values and to negative values, because entry 0 is `(0, 0)` and the test is strict |
| `Classify.ClassMonotone` | dashboard_dataprep.py:50-54 | for any score, a larger value never gets a smaller class |
| `Classify.ClassInBand` | dashboard_dataprep.py:50-52 | with score ≥ 1, a value in `[threshold k, threshold k+1)` gets level `(k+1)/2` |
| `Classify.ClassAtThreshold` | dashboard_dataprep.py:51 | with score > 1 and k < 20, a value equal to threshold k gets level `(k+1)/2`, never threshold k's own level |
| `Classify.ClassAtTopThreshold` | dashboard_dataprep.py:50-54 | with score ≥ 1, a value equal to the last threshold (k = 20) passes every threshold and gets 10, which is that threshold's own level: the strict boundary has no next level at the top |
| `Classify.LowScoreClasses` | dashboard_dataprep.py:31-54 | with 0 ≤ score ≤ 1 only classes 0 (negative), 0.5 (below the score) and 10 (from the score up) occur; with score 0 every non-negative value gets 10 |
| `Labels.ImpactOf` | dashboard_dataprep.py:57-69 | total: `≥ 8` very_high, `[6, 8)` high, `[4, 6)` medium, `[2, 4)` low, `(0, 2)` very_low, `≤ 0` no_impact |
| `Labels.ImpactMonotone` | dashboard_dataprep.py:57-69 | a higher score never gets a lower tier |
| `Labels.ImpactLabelsDistinct` | dashboard_dataprep.py:57-69 | the six tier strings are pairwise different |
| `Labels.GovernType` | dashboard_dataprep.py:83-91 | `[-10, -6]` Autocracy, `[-5, 5]` Anocracy, `> 5` Democracy, and Transitioning exactly for undefined scores, scores below -10 and scores strictly between -6 and -5 |
| `Labels.WholePolityHasRegime` | dashboard_dataprep.py:83-91 | no whole polity score from -10 upwards is Transitioning |
| `Labels.GovernOrder` | dashboard_dataprep.py:124 | over whole scores from -10 upwards, a higher polity score never moves later in the declared category order (the conversion that uses the order is discarded, so this relates the labels to the declaration only) |
| `Labels.FragmentType` | dashboard_dataprep.py:94-102 | codes 1, 2, 3 name their categories; every other code, and an undefined one, is No Fragmentation |
| `Labels.FragmentRankIsCode` | dashboard_dataprep.py:128-130 | for codes 0 to 3, the category's position in the declared category order is the code (the conversion that uses the order is discarded) |
| `Scoring.ScoreCell` | dashboard_dataprep.py:72-73 | the score is a half step in 0..10 and the impact is the score's tier; an undefined rolling value gives `(0, no_impact)`; score 0 and `no_impact` occur exactly for undefined or negative rolling values |
| `Scoring.ScoreTable` | dashboard_dataprep.py:35-73 | one row per country and one cell per year; the first four years of every country are `(0, no_impact)`; every cell is a half-step score with its own tier |
| `Scoring.ScoreTableMonotone` | dashboard_dataprep.py:35-73 | within one year, a country with a larger defined rolling value never gets a lower score or a lower impact tier |
| `Scoring.ShortHistoryScoresZero` | dashboard_dataprep.py:45-46 | a country-year without five defined raw values ending there scores `(0, no_impact)` |
| `Scoring.UniformColumnScoresTop` | dashboard_dataprep.py:23-54 | the same fact for one year's column of rolling values and that year's score |
| `Scoring.UniformYearScoresTop` | dashboard_dataprep.py:23-54 | in the scoring pass, a year whose defined rolling values are all equal has spread 0 and score 0, and each non-negative defined value of that year's column scores `(10, very_high)` |

## Left out

- The 20th root of `dashboard_dataprep.py:26` is not computed: each year's score is an input. `IsRootOf(score, range)` (`score ≥ 0` and `score^20 == range`, exact real arithmetic) relates the two where a lemma needs it.
- Floating-point rounding: weights, powers and comparisons are exact reals. Each weight is inexact as a float; the model's weights are exact reals and sum to exactly 1.
- NaN beyond "undefined": `Option<real>` stands for a float that may be NaN; NaN arithmetic is not modelled.
- The pandas plumbing (`groupby`, `join`, `apply`, the column writes at lines 21, 35-36 and 72-73) is modelled as values over a grid. The grid assumes every country is observed in the same run of years; ragged year coverage per country is not modelled.
- The discarded `astype(CategoricalDtype)` calls at lines 125 and 131 change nothing; only the order of their category lists is used (`GovernOrder`, `FragmentRankIsCode`).
- `categorical_govern` and `categorical_fragment` read one field of a data-frame row; the model takes that field's value.
- File loading (`load_country_codes`, `load_gtd_data`, `load_polity`, `load_full_data`): reading CSV and Excel files, renaming columns and looking up country names is I/O. `load_full_data` also refers to names that do not exist (`gtd_data`).
- The scoring pass at dashboard_dataprep.py:21-73 reads and writes `df_terrorism`, which the file never defines; the model takes the table of raw index values as a parameter (`ScoreTable`'s `index`) instead.
- The code does not check for duplicate (country, year) keys or non-numeric index values, and neither does the model.
- app.py (the Dash layout and callbacks) and dashboard_functions.py (component builders) are display code without scoring logic; they are not part of this model.
