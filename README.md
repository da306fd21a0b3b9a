# Stack-ranked startup database: a Dafny model

The repository is a small Streamlit dashboard that scores startup investment
candidates and ranks them. It applies five criteria:

- the industry is one of the selected industries;
- the stage is one of the selected stages;
- the ARR lies in an inclusive range;
- the employee count lies in an inclusive range;
- the location is one of the selected locations.

Each criterion that is met adds its weight to a "Criteria Met" score. The
table is shown sorted by that score, highest first. `finalstackrankv1.py`
lets the user choose the criteria and weights, add a startup through a form,
import startups from a CSV file, and remove startups by name. The table is
re-evaluated and re-sorted after every change and at the end of each run.
`stackrankv2.py` is the same evaluator with hard-coded criteria, seven
built-in startups, and weight sliders limited to [0, 2].

The model has five modules, one file each:

- `Startups` (`startups.dfy`): the records, criteria, weights and evaluated
  rows, plus the default weights, the default criteria and the seven built-in
  startups that both scripts use. ARR and employee count are `IntVal(n)` or
  `NotInt`, which is what Python's `int()` makes of the cell. Weights and
  scores are `real`.
- `Evaluator` (`evaluator.dfy`): the five `meets_*` predicates. `Evaluation`
  is the reference definition of a row's flags and score: the score is the
  sum of the weights of the list of met criteria. `EvaluateRow` is the
  script's step-by-step accumulator, proved equal to that reference.
  `EvaluateAndUpdate` is the loop over the rows.
- `Ranking` (`ranking.dfy`): what `sort_values(by='Criteria Met',
  ascending=False)` must produce, namely a permutation with the scores in
  non-increasing order (`Ranked`). `SortByScore` is one function that
  produces it. `RankingScoresUnique` proves that any two rankings of the same
  rows show the same score at every position.
- `FinalStackRank` (`final_stack_rank.dfy`): `remove_startup`, the CSV column
  check and projection, the add-form guard, and `StartupTable`. That class
  holds the session table as a `seq` field. Its `Add`, `Import`, `Remove` and
  `Refresh` methods each re-evaluate and re-rank the table. Its invariant
  `Valid()` says every row carries the evaluation of its own base columns
  under the last criteria and weights, and the rows are ranked.
- `StackRankV2` (`stack_rank_v2.dfy`): the hard-coded criteria as a
  specialisation of the general evaluator. It holds the worked examples, the
  complete default score column (4.2, 4.2, 4.0, 3.2, 3.0, 2.2, 0.5) and the
  script's two evaluate-then-sort passes.

The criteria and weights are parameters of every table method, not global
state. A CSV file is taken as already read: a set of header names, plus rows
that map each column name to a cell. A cell is its text plus the outcome of
`int()` on its value. A blank cell is read as the text `""` with `NotInt`.

Notes on what the code does:

- Sorting: `sort_values` is called with its default algorithm, which does
  not promise that rows with equal scores keep their order. The model
  therefore leaves the order of rows with equal scores unconstrained.
- Add form: the guard (finalstackrankv1.py line 156) tests truthiness, so an
  ARR or head count of 0 is rejected like an empty name.
- Import: a file with every required column but no rows leaves the table
  unchanged, because of the `not new_startups_df.empty` guard.
- Remove: an empty selection (`startup_to_remove` falsy) removes nothing.

## Model

| member | source | states |
|---|---|---|
| `Evaluator.MeetsIndustryCriteria` | finalstackrankv1.py:76-77 | met exactly when some selected industry equals the record's industry as a string |
| `Evaluator.MeetsStageCriteria` | finalstackrankv1.py:79-80 | met exactly when some selected stage equals the record's stage |
| `Evaluator.MeetsArrCriteria` | finalstackrankv1.py:82-87 | met exactly when ARR is an integer `n` with `minArr <= n <= maxArr` (both ends included); a value that `int()` rejects with `ValueError` (`NotInt`) is not met |
| `Evaluator.MeetsEmployeesCriteria` | finalstackrankv1.py:89-94 | met exactly when the head count is an integer within the inclusive employee range; a value that `int()` rejects with `ValueError` (`NotInt`) is not met |
| `Evaluator.MeetsLocationCriteria` | finalstackrankv1.py:96-97 | met exactly when some selected location equals the record's location |
| `Evaluator.MatchingIsExactlyMet` | finalstackrankv1.py:104-122 | the criteria whose weights form the score are exactly the criteria the row meets |
| `Evaluator.ScoreByCriterion` | finalstackrankv1.py:102-124 | the score is the sum over the five criteria of the weight if met and exactly 0 if not |
| `Evaluator.ScoreBounds` | finalstackrankv1.py:100-124 | with non-negative weights, 0 <= score <= sum of the five weights |
| `Evaluator.ScoreAtMostFiveCaps` | finalstackrankv1.py:100-124 | if every weight is in [0, cap], the score is in [0, 5 * cap] |
| `Evaluator.WiderCriteriaScoreHigher` | finalstackrankv1.py:76-97 | accepting more industries, stages or locations, or widening a range, never lowers a score |
| `Evaluator.EvaluateRow` | finalstackrankv1.py:101-125 | the accumulated flags and score equal the reference evaluation; each flag holds exactly when its criterion is met |
| `Evaluator.EvaluationsKeepBases` | finalstackrankv1.py:127-128 | evaluation only adds the derived columns: the base columns of every row and the row count are unchanged |
| `Evaluator.EvaluateAndUpdate` | finalstackrankv1.py:100-128 | one output row per input row, in order, each the evaluation of its input row |
| `Ranking.SortByScore` | finalstackrankv1.py:185 | the result is a permutation of the input with scores in non-increasing order |
| `Ranking.RankingScoresUnique` | finalstackrankv1.py:184-185 | any two rankings of the same rows show the same score at every position, so re-ranking an unchanged table shows the same score column (used by `StartupTable.Refresh`) |
| `Ranking.EvaluationsOfPermutation` | finalstackrankv1.py:127 | evaluating a reordered table gives the same multiset of evaluated rows |
| `Ranking.EvaluateAndSort` | finalstackrankv1.py:184-185 | the result ranks the evaluations of the input, has one row per input record, and every row is evaluated under the given criteria and weights |
| `FinalStackRank.RemoveStartup` | finalstackrankv1.py:131-132 | no remaining row carries the removed name |
| `FinalStackRank.RemoveStartupCounts` | finalstackrankv1.py:131-132 | every row named `name` is dropped, duplicates included; every other row is kept as often as it occurred |
| `FinalStackRank.RemoveStartupAppend` | finalstackrankv1.py:131-132 | removal distributes over concatenation, so kept rows keep their relative order |
| `FinalStackRank.RemoveAbsentName` | finalstackrankv1.py:131-132 | removing a name no row carries returns the table unchanged |
| `FinalStackRank.ProjectRowReadsCanonicalColumns` | finalstackrankv1.py:139 | the projection depends only on the seven canonical columns; extra columns are dropped |
| `FinalStackRank.AddStartupsFromCsv` | finalstackrankv1.py:135-142 | rows are returned exactly when every canonical column is present; they are then one record per file row, in file order, each of its seven fields read from the cell of the same-named column of that row |
| `FinalStackRank.AddStartupsFromCsvAppend` | finalstackrankv1.py:135-142 | reading two files with the same header one after the other gives the records of the file holding the rows of both, in the same order |
| `FinalStackRank.MissingLocationRejected` | finalstackrankv1.py:137-142 | a file without a "Location" column is rejected |
| `FinalStackRank.SliderScoreBound` | finalstackrankv1.py:69-73 | with weights from the [0, 10] sliders, the score is between 0 and the sum of the weights, and at most 50 |
| `FinalStackRank.ByteBankWithoutUsa` | finalstackrankv1.py:61-65 | with USA deselected from the locations, ByteBank scores 4.0 |
| `FinalStackRank.StartupTable.constructor` | finalstackrankv1.py:33-35 | the session table starts as the given data (lines 33-35), evaluated and ranked as at the end of the first run (lines 184-185) |
| `FinalStackRank.StartupTable.Rerank` | finalstackrankv1.py:160-161 | the table becomes a ranking of the evaluations of the given records, and the invariant holds for the given criteria and weights |
| `FinalStackRank.StartupTable.Add` | finalstackrankv1.py:156-161 | adds exactly when name, description, industry, stage and location are non-empty and ARR and head count are non-zero; the new table ranks the evaluations of the old records plus the one new record, one row longer, and the invariant holds for the given criteria and weights; otherwise nothing changes |
| `FinalStackRank.StartupTable.Import` | finalstackrankv1.py:164-170 | succeeds exactly when every canonical column is present; on success the new table ranks the evaluations of the old records followed by the projected rows, and the invariant holds for the given criteria and weights; on rejection, or on an empty file, nothing changes |
| `FinalStackRank.StartupTable.Remove` | finalstackrankv1.py:173-181 | for a non-empty name, the new table ranks the evaluations of the old records minus every record with that name, no row carries that name, and the invariant holds for the given criteria and weights; an empty selection changes nothing |
| `FinalStackRank.StartupTable.Refresh` | finalstackrankv1.py:183-185 | the table becomes a ranking of its own records evaluated with the current criteria and weights; when the criteria and weights are those of the last evaluation, the "Criteria Met" column shown is unchanged |
| `StackRankV2.MeetsIndustryCriteria` | stackrankv2.py:33-35 | met exactly when the industry is Fintech, Healthcare or AI |
| `StackRankV2.MeetsStageCriteria` | stackrankv2.py:37-39 | met exactly when the stage is Seed, Series A or Series B |
| `StackRankV2.MeetsArrCriteria` | stackrankv2.py:41-46 | met exactly when ARR is an integer in [20000, 10000000] |
| `StackRankV2.MeetsEmployeesCriteria` | stackrankv2.py:48-53 | met exactly when the head count is an integer in [2, 25] |
| `StackRankV2.MeetsLocationCriteria` | stackrankv2.py:55-57 | met exactly when the location is USA or Canada |
| `StackRankV2.SliderScoreBound` | stackrankv2.py:102-106 | with weights from the [0, 2] sliders, every score lies in [0, 10] |
| `StackRankV2.ByteBankScore` | stackrankv2.py:5-15 | under the default weights, ByteBank meets all five criteria and scores 0.5 + 1.0 + 1.5 + 1.0 + 0.2 = 4.2 |
| `StackRankV2.PulsePredictScore` | stackrankv2.py:14-20 | PulsePredict (Pre-Seed, ARR 9000, 1 employee, China) meets only the industry criterion and scores 0.5 |
| `StackRankV2.MediMatrixScore` | stackrankv2.py:16 | under the default weights MediMatrix (50 employees, UK) scores 3.0 = 0.5 + 1.0 + 1.5, the industry, stage and ARR weights |
| `StackRankV2.SynthiLogicScore` | stackrankv2.py:17 | under the default weights SynthiLogic (Series C, 120 employees) scores 2.2 = 0.5 + 1.5 + 0.2, so its ARR of exactly 10000000 meets the inclusive upper bound |
| `StackRankV2.GreenSphereScore` | stackrankv2.py:18 | under the default weights GreenSphere (Germany) scores 4.0, every weight but the location's |
| `StackRankV2.AetherAnalyticsScore` | stackrankv2.py:19 | under the default weights AetherAnalytics (90 employees) scores 3.2, every weight but the head count's |
| `StackRankV2.LumenLoopScore` | stackrankv2.py:21 | under the default weights LumenLoop scores 4.2, the sum of all five weights |
| `StackRankV2.DefaultScores` | stackrankv2.py:90-94 | every ranking of the built-in data under the defaults shows the column 4.2, 4.2, 4.0, 3.2, 3.0, 2.2, 0.5 |
| `StackRankV2.DisplayedTable` | stackrankv2.py:90-111 | the displayed table ranks the seven built-in startups evaluated with the slider weights, one row each |

## Left out

- The Streamlit presentation is not modelled: the logo, titles, sidebar widgets, forms, `st.write` and the text of the `st.error` message. A rejected import is `None` instead of a displayed message.
- Streamlit reruns and `st.session_state` persistence are not modelled. The session table is one `StartupTable` object, and the end of a run is its `Refresh` method.
- StartupTable.Import models one execution of the upload block (finalstackrankv1.py:164-170). As written, that block runs again on every rerun while a file stays in the uploader, so the script appends the same file's rows once more on each interaction; the model does not capture this repetition, because reruns are not modelled.
- The submit buttons are not modelled: calling a method stands for pressing the button.
- The widgets' constraints are modelled only as types and predicates. The ARR and head-count inputs (`min_value=0`) are `nat` parameters. The slider ranges are the `SliderWeights` predicates. That the remove box offers only present names is not modelled, since removing an absent name is a no-op anyway.
- `pd.read_csv` file parsing is I/O and is not modelled; an import starts from an already-read table. The `WellFormed` requirement says every row has a cell for every header column, as in any data frame. pandas reads a blank cell as NaN; the model reads it as the text `""` with `NotInt`. A blank name is offered in the remove box as `nan`, but removing it keeps every row, since `nan` equals no name; in the model, `Remove("")` likewise removes nothing. A blank industry, stage or location never meets its criterion, as with NaN.
- Python's `int()` is modelled only by its outcome, `IntVal(n)` or `NotInt`. Whitespace, signs, float truncation and NaN handling are not modelled.
- Evaluator.MeetsArrCriteria, Evaluator.MeetsEmployeesCriteria, StackRankV2.MeetsArrCriteria, StackRankV2.MeetsEmployeesCriteria: `NotInt` stands only for a value that `int()` rejects with `ValueError`, which the scripts catch. `int()` raises `OverflowError` on an infinite float (such as a CSV cell `inf`) and `TypeError` on `None`. The scripts do not catch those, so the run stops, while the model has no value for them and never stops.
- Floating-point rounding of the weighted sum is not modelled; weights and scores are exact `real` numbers.
- The order of rows with equal scores after `sort_values` is not modelled, because the default sort algorithm is not stable. Every table method promises only a permutation in non-increasing score order.
- The columns that pandas carries through `concat` and `apply` (stale "Met" columns, NaN before re-evaluation, the index) are not modelled. The model keeps the base record and recomputes the derived columns from it.
- The initial `'Criteria Met'` column of 0 in `stackrankv2.py` (lines 28-30) is not modelled, because the first evaluation overwrites it.
