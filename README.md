# habittracker: a verified model of the windowing and evaluation core

habittracker turns wrist-worn motion recordings into a labelled feature
table and trains a binary "habit occurred" classifier on it. Each recording
session is a `batch_*` directory holding a motion file and an annotation
file. This project models the integer and sequence bookkeeping of that
pipeline and proves what it promises:

- **Batch loading and label alignment.** Three near-copies exist:
  `src/feature_engineering.py`, `src/utils/data_loader.py` and
  `habittracker-ml/src/data/make_dataset.py`. Annotation text maps `no` to 0
  and `yes` to 1, and any other text gives no label. Each sensor row takes the
  label of the latest annotation at or before its time (a backward as-of join).
  Unlabelled rows are dropped, every row is tagged with its directory name,
  and directories are visited in sorted name order. The `make_dataset` copy
  first cleans the sensor rows: duplicates are dropped, then rows with a
  missing value, then the rows are sorted by a `timestamp` column if there is
  one. It also returns the list of batch names.
- **Sliding-window segmentation.** Three variants, with observable
  differences:
  - loop bound: inclusive `len - L + 1` or exclusive `len - L`;
  - window label: `mean >= 0.5`, where a tie gives 1, or pandas
    `mode()[0]`, where a tie gives 0;
  - grouping: per batch or over the whole table.
- **Feature vectors.** The `src` variant builds a vector `[means, stds,
  maxes, energies]`. The `data` variant builds seven named statistics per
  channel and replaces a NaN skew or kurtosis by 0.0. The `features` variant
  builds eight named statistics with a spectral energy and no substitution.
- **Leave-one-batch-out cross-validation** (`train`). There is one fold per
  distinct batch id, in first-occurrence order. A fold's test rows are that
  batch and its train rows are the rest. The held-out true and predicted
  labels are pooled across folds, and a final model is fitted on all rows.
- **Causal majority smoothing** of 0/1 predictions (`smooth_predictions`).

Modules follow the source files. `Tables`, `Sequences`, `Statistics`,
`Config`, `FeatureNames`, `Alignment` and `Windowing` hold what several
copies share:
- `Tables`: rows, batches, windows and results.
- `Sequences`: `Series.unique`, a stable sort and string order.
- `Statistics`: the numpy/scipy statistics over exact reals.
- `Config`: `int()` truncation and the window size.
- `FeatureNames`: `ch{i}_{stat}` keys.
- `Alignment`: the label map, `merge_asof` and the directory glob.
- `Windowing`: Python `range` windows, the two votes and `groupby`.

The per-file modules are:
- `FeatureEngineering`: `src/feature_engineering.py`.
- `DataLoader`: `src/utils/data_loader.py`.
- `MakeDataset`: `habittracker-ml/src/data/make_dataset.py`.
- `DataBuildFeatures`: `habittracker-ml/src/data/build_features.py`.
- `FeaturesBuildFeatures`: `habittracker-ml/src/features/build_features.py`.
- `TrainModel`: `habittracker-ml/src/models/train_model.py`.
- `Smoothing`: `src/utils/smoothing.py`.

Loops in the source are methods with loop invariants. Each method is proved
equal to a specification function, and the lemmas state the source's
promises about that function.

Errors that Python raises are modelled as `Err` values:
- `range` with a zero step raises `ValueError`: `ZeroStep`.
- `pd.concat([])` raises: `NoObjectsToConcatenate`.
- `merge_asof` on left keys that are not sorted raises: `LeftKeysNotSorted`.
- a missing configured column raises `ValueError`: `MissingColumns`.

NaN is a `Sample` constructor next to `Num(x)`. NaN propagates through
mean, min, max and the other statistics as numpy does, and `NaN >= 0.5` is
false.

Observable behaviours of the code that the model keeps:
- Two of the three windowing loops stop at the exclusive bound `len - L`
  and so miss the last full window:
  `FeaturesBuildFeatures.ExclusiveSkipsLastWindow` and
  `Windowing.ExclusiveCountExample` (8 windows instead of 9 for N = 250,
  L = 50, S = 25).
- The step is computed with `int()`, which truncates toward zero. The
  `features` variant has no lower bound of 1, so a zero step makes `range`
  raise.
- Only the `data` variant replaces a NaN skew or kurtosis by 0.0.
- Annotation text other than `no` and `yes` is dropped silently, and a
  table with one batch gives one fold.

## Model

| member | source | states |
|---|---|---|
| Config.Trunc | habittracker-ml/src/data/build_features.py:109 | `int(x)` truncates toward zero: for x ≥ 0, n ≤ x < n + 1; for x < 0, n − 1 < x ≤ n |
| FeatureNames.FeatureNameInjective | habittracker-ml/src/data/build_features.py:76-82 | two keys `ch{i}_{stat}` are equal only when both the channel index and the statistic name are |
| FeatureNames.LaidOutNamesDistinct | habittracker-ml/src/data/build_features.py:74-88 | keys laid out channel by channel over distinct statistic names are pairwise distinct, and none is `label` or `batch_id`, so the added columns cannot overwrite a feature |
| Tables.RowsOfBatch | habittracker-ml/src/data/build_features.py:125 | `df[df["batch_id"] == batch]` keeps exactly the rows of that batch and no others |
| Windowing.RowsOfBatchInOrder | habittracker-ml/src/data/build_features.py:125 | the boolean-mask selection keeps the table's order and repeated rows: the result is a subsequence of the table, and each row occurs in it as often as in the table when it carries the batch id and not at all otherwise |
| Statistics.Column | habittracker-ml/src/data/build_features.py:75 | `window[:, ch]` has one entry per row, the row's value in channel ch |
| Statistics.Mean | habittracker-ml/src/data/build_features.py:78 | `np.mean` is NaN exactly when the column is empty or holds a NaN |
| Statistics.Min | habittracker-ml/src/data/build_features.py:80 | `np.min` is NaN exactly when a NaN is present; otherwise it is an element no larger than any other |
| Statistics.Max | habittracker-ml/src/data/build_features.py:81 | `np.max` is NaN exactly when a NaN is present; otherwise it is an element no smaller than any other |
| Statistics.Std | habittracker-ml/src/data/build_features.py:79 | `np.std` is NaN exactly when the column is empty or holds a NaN |
| Statistics.Rms | habittracker-ml/src/data/build_features.py:82 | the root mean square is NaN exactly when the column is empty or holds a NaN |
| Statistics.Skew | habittracker-ml/src/data/build_features.py:84 | scipy `skew` is NaN exactly when the column is unclean or has zero variance |
| Statistics.Kurtosis | habittracker-ml/src/data/build_features.py:85 | scipy `kurtosis` is NaN exactly when the column is unclean or has zero variance |
| Statistics.SumSquares | src/feature_engineering.py:61 | the energy `Σ x²` is NaN exactly when a NaN is present and is never negative otherwise |
| Statistics.SpectralEnergy | habittracker-ml/src/features/build_features.py:80-82 | the rfft power sum is NaN exactly when a NaN is present |
| Statistics.PerChannel | src/feature_engineering.py:58-61 | an `axis=0` reduction yields one value per channel, the statistic of that channel's column |
| Statistics.MinMeanMax | habittracker-ml/src/data/build_features.py:78-81 | on a column with no NaN, min ≤ mean ≤ max |
| Statistics.ConstantColumn | habittracker-ml/src/data/build_features.py:79-85 | a constant column has std `sqrt(0)` and NaN skew and kurtosis |
| Alignment.LabelOf | src/feature_engineering.py:19 | `no` maps to 0, `yes` to 1, and every other text to no label |
| Alignment.LastAtOrBefore | src/feature_engineering.py:21-23 | the chosen event is at or before t and every later event is after t; none is chosen only when all events are after t |
| Alignment.AsOfLatest | src/feature_engineering.py:21-23 | over time-sorted events, the backward as-of match is the latest event at or before the row time, and the row's label is that event's mapped text |
| Alignment.AsOfLabelBinary | src/feature_engineering.py:19-26 | any label the join assigns is 0 or 1 |
| Alignment.AlignBatch | src/feature_engineering.py:15-26 | every aligned row carries the batch name, a label in {0, 1} equal to its as-of label, and the time and values of one of the batch's sensor rows |
| Alignment.AlignBatchKeepsLabelled | src/feature_engineering.py:21-26 | every sensor row that has an as-of label survives `dropna`, carrying that label |
| Alignment.AlignBatchCount | src/feature_engineering.py:21-26 | when every row has a prior labelled event no row is dropped; when none has, the batch is empty |
| Alignment.AlignBatchSorted | src/feature_engineering.py:15-26 | time-sorted sensor rows stay time-sorted after the join and `dropna` |
| Alignment.AlignExample | src/feature_engineering.py:19-26 | rows at times 5, 12 and 20 against `no`@0 and `yes`@10 get labels 0, 1, 1 |
| Alignment.GlobBatches | src/feature_engineering.py:13 | `glob("batch_*")` keeps exactly the directories whose name starts with `batch_` |
| Alignment.BatchDirsSorted | src/feature_engineering.py:13 | the visited directories are the `batch_*` directories, each once, in sorted name order |
| Alignment.AlignDirFacts | src/feature_engineering.py:15-26 | one directory's aligned rows are time-sorted, tagged with its name, labelled 0/1, and drawn from its motion file |
| Alignment.AlignAllAt | src/feature_engineering.py:13-28 | `all_batches` holds one aligned table per visited directory, in visiting order |
| Alignment.LoadedTableFacts | src/feature_engineering.py:9-30 | loading fails (`pd.concat` of nothing) exactly when no `batch_*` directory exists; every loaded row comes from a `batch_*` directory whose name it carries, with a 0/1 label |
| FeatureEngineering.LoadBatches | src/feature_engineering.py:9-30 | the loop's result is the concatenation, in sorted directory order, of each directory's aligned rows, and an error when there are none |
| FeatureEngineering.BatchWindows | src/feature_engineering.py:42-49 | over one group's rows and the selected columns, the inner `range` loop yields the windows at 0, S, 2S, … strictly below N − L, each labelled by the `mean >= 0.5` vote and tagged with the batch |
| FeatureEngineering.CreateWindows | src/feature_engineering.py:33-51 | the windows of every `groupby` group in ascending batch-id order (exclusive bound, threshold vote, `X`/`y`/`batch_ids` parallel), or `ZeroStep` when a group is reached with step 0 |
| FeatureEngineering.WindowGroups | src/feature_engineering.py:38-49 | the `groupby` loop over the group keys appends each group's exclusive-bound, threshold-voted windows in key order; with step 0 it yields nothing when there are no groups and `ZeroStep` otherwise |
| FeatureEngineering.FeatureVectorAt | src/feature_engineering.py:57-62 | the vector has 4·C entries; entry c is channel c's mean, C + c its std, 2C + c its max and 3C + c its energy |
| FeatureEngineering.FeatureVectorLayout | src/feature_engineering.py:57-62 | the [means, stds, maxes, energies] layout, plus mean ≤ max on a NaN-free channel and energy ≥ 0 |
| FeatureEngineering.ExtractFeatures | src/feature_engineering.py:54-64 | one feature vector per window, in window order |
| DataLoader.LoadBatches | src/utils/data_loader.py:5-24 | the same loaded table as `src/feature_engineering.py`: sorted `batch_*` directories, aligned and concatenated, an error when there are none |
| DataLoader.AlignBatchSubsequence | src/utils/data_loader.py:15-20 | the rows surviving the join and `dropna` are a subsequence of the sensor rows, in their order |
| DataLoader.BatchRowsOrdered | src/utils/data_loader.py:8-20 | each batch's surviving rows are an ordered subsequence of its time-sorted sensor rows, time-sorted, tagged with the directory name and labelled 0/1 |
| MakeDataset.DropNaMembers | habittracker-ml/src/data/make_dataset.py:63 | `dropna` keeps exactly the rows with no NaN value |
| MakeDataset.DropNaSubsequence | habittracker-ml/src/data/make_dataset.py:63 | `dropna` keeps the surviving rows in input order |
| MakeDataset.DropNaOfClean | habittracker-ml/src/data/make_dataset.py:63 | `dropna` changes nothing on a table without NaN |
| MakeDataset.CleanDataFacts | habittracker-ml/src/data/make_dataset.py:49-72 | the output has no duplicates and no NaN row, keeps every such input row, and is a sub-multiset of the input; it is sorted by `timestamp` when that column exists and keeps first occurrences in input order otherwise |
| MakeDataset.CleanDataIdempotent | habittracker-ml/src/data/make_dataset.py:60-67 | cleaning a cleaned table gives the same table |
| MakeDataset.LoadBatches | habittracker-ml/src/data/make_dataset.py:20-46 | the loop's result is the concatenated cleaned-and-aligned batches with the list of batch names, or the first error a batch raises, or the error of concatenating nothing |
| MakeDataset.NoTimestampKeepsTimeOrder | habittracker-ml/src/data/make_dataset.py:34-37 | without a `timestamp` column, cleaning keeps the rows sorted by time, so `merge_asof` never rejects them |
| MakeDataset.NoTimestampLoads | habittracker-ml/src/data/make_dataset.py:25-46 | without a `timestamp` column, loading fails exactly when there is no `batch_*` directory |
| MakeDataset.CleanAlignDirFacts | habittracker-ml/src/data/make_dataset.py:27-40 | a batch's aligned rows are time-sorted, tagged with its name, labelled 0/1, free of NaN, and drawn from its motion file |
| MakeDataset.LoadedRowsFacts | habittracker-ml/src/data/make_dataset.py:25-46 | every loaded row comes from a `batch_*` directory whose name it carries, with a 0/1 label and no NaN |
| MakeDataset.BatchDirNamesSorted | habittracker-ml/src/data/make_dataset.py:25-31 | the visited directory names are in sorted order |
| MakeDataset.BatchDirNamesMembers | habittracker-ml/src/data/make_dataset.py:25-31 | a name is visited exactly when some `batch_*` directory has it |
| MakeDataset.BatchDirNamesDistinct | habittracker-ml/src/data/make_dataset.py:25-31 | distinct directory names are visited once each |
| MakeDataset.BatchNamesListed | habittracker-ml/src/data/make_dataset.py:25-46 | `batch_name_lst` is sorted, names exactly the `batch_*` directories (also those whose aligned table is empty) and has no repeats |
| Windowing.ModeLabelIsMode | habittracker-ml/src/data/build_features.py:60 | `mode()[0]` is a value of the window, at least as frequent as any other value, and the smallest among the equally frequent |
| Windowing.ThresholdBinary | src/feature_engineering.py:45 | on 0/1 labels `int(mean >= 0.5)` is 1 exactly when the 1s are at least as many as the 0s |
| Windowing.ModeBinary | habittracker-ml/src/data/build_features.py:60 | on 0/1 labels the mode is 0 or 1, and 1 exactly when the 1s strictly outnumber the 0s |
| Windowing.VotesDifferOnlyOnTies | src/feature_engineering.py:45 | the two votes disagree exactly on a tie, where the mode gives 0 and the threshold gives 1 |
| Windowing.ColumnIndices | src/feature_engineering.py:47 | `window[features]` selects, for each requested name in order, the column holding that name |
| Windowing.CutsFromZeroAt | habittracker-ml/src/data/build_features.py:56-60 | window k starts at k·S below the loop bound, covers rows k·S to k·S + L, and carries the vote over those rows' labels |
| Windowing.CutsHaveLRows | habittracker-ml/src/data/build_features.py:57 | every window has exactly L rows |
| Windowing.InclusiveCount | habittracker-ml/src/data/build_features.py:56 | with bound N − L + 1 the count is ⌊(N − L)/S⌋ + 1 when N ≥ L and 0 otherwise |
| Windowing.ExclusiveCount | src/feature_engineering.py:42 | with bound N − L the count is ⌈(N − L)/S⌉ when N > L and 0 otherwise, and every start is below N − L |
| Windowing.InclusiveCountExample | habittracker-ml/src/data/build_features.py:56 | 250 rows, L = 50, S = 25 give 9 windows |
| Windowing.ExclusiveCountExample | src/feature_engineering.py:42 | 250 rows, L = 50, S = 25 give 8 windows: the last full window is missed |
| Windowing.GroupKeysFacts | src/feature_engineering.py:38 | `groupby("batch_id")` visits each batch id present in the table once, in ascending order, and visits nothing on an empty table |
| Windowing.BatchCutsCount | src/feature_engineering.py:42 | a group of N rows yields ⌊(N − L)/S⌋ + 1 windows under the inclusive bound and ⌈(N − L)/S⌉ under the exclusive one (0 when too short) |
| Windowing.GroupedCutsFromOneBatch | habittracker-ml/src/data/build_features.py:53-60 | every window is the L consecutive rows of the one group its batch id names starting at row j·S of that group, with the vote over their labels, so no window crosses batches |
| Windowing.GroupedCutsShape | habittracker-ml/src/data/build_features.py:53-59 | every window is an L × (number of selected columns) matrix |
| Windowing.GroupedCutsOfOneBatch | habittracker-ml/src/data/build_features.py:125-141 | on a table holding one batch, `groupby` yields just that batch's windows |
| DataBuildFeatures.StepSize | habittracker-ml/src/data/build_features.py:110 | `max(1, int(...))` is always at least 1 |
| DataBuildFeatures.StepSizeBounds | habittracker-ml/src/data/build_features.py:109-110 | for overlap in [0, 1] the step is at most the window size; overlap 0 gives the window size and overlap ≥ 1 gives 1 |
| DataBuildFeatures.Missing | habittracker-ml/src/data/build_features.py:115-118 | the missing set is exactly the configured columns absent from the loaded table (`label` and `batch_id` are always present) |
| DataBuildFeatures.NothingMissing | habittracker-ml/src/data/build_features.py:115-118 | when nothing is missing, every configured column is a column of the loaded table |
| DataBuildFeatures.GroupWindows | habittracker-ml/src/data/build_features.py:56-60 | the inner loop yields the windows at 0, S, … up to N − L inclusive, each labelled by `mode()[0]` |
| DataBuildFeatures.CreateWindows | habittracker-ml/src/data/build_features.py:39-63 | the windows of every `groupby` group in ascending order (inclusive bound, mode vote), or `ZeroStep` when a group is reached with step 0 |
| DataBuildFeatures.WindowGroups | habittracker-ml/src/data/build_features.py:53-60 | the `groupby` loop over the group keys appends each group's inclusive-bound, mode-voted windows in key order; with step 0 it yields nothing when there are no groups and `ZeroStep` otherwise |
| DataBuildFeatures.ZeroIfNaN | habittracker-ml/src/data/build_features.py:87-88 | the substitute is never NaN and leaves a number unchanged |
| DataBuildFeatures.ChannelFeatures | habittracker-ml/src/data/build_features.py:74-88 | seven features per channel, named `ch{i}_{mean,std,min,max,rms,skew,kurtosis}` in that order |
| DataBuildFeatures.ExtractFeatures | habittracker-ml/src/data/build_features.py:66-95 | the per-channel loop yields the channels' features one after another |
| DataBuildFeatures.FeatureNamesDistinct | habittracker-ml/src/data/build_features.py:74-88 | a window yields 7·C features with pairwise distinct names, none `label` or `batch_id` |
| DataBuildFeatures.ChannelFeaturesFacts | habittracker-ml/src/data/build_features.py:78-88 | skew and kurtosis are never NaN; a NaN sample makes the first five statistics NaN; without one all seven are numbers and min ≤ mean ≤ max |
| DataBuildFeatures.ConstantChannel | habittracker-ml/src/data/build_features.py:84-88 | on a constant channel, std is `sqrt(0)` and skew and kurtosis are replaced by 0.0 |
| DataBuildFeatures.WindowRows | habittracker-ml/src/data/build_features.py:143-147 | one feature row per window, carrying that window's features and label and the batch name |
| DataBuildFeatures.BuildFeatures | habittracker-ml/src/data/build_features.py:98-147 | the loaded table's error, or `MissingColumns` with the missing set, or the feature rows of every listed batch in `batch_names` order |
| DataBuildFeatures.FeaturiseBatches | habittracker-ml/src/data/build_features.py:122-147 | the `enumerate(batch_names)` loop yields, batch after batch in list order, one feature row per window of that batch's rows |
| DataBuildFeatures.BatchRowsCount | habittracker-ml/src/data/build_features.py:125-141 | a batch contributes ⌊(N − L)/S⌋ + 1 rows when it has N ≥ L rows and none otherwise |
| DataBuildFeatures.BuiltRowsFacts | habittracker-ml/src/data/build_features.py:122-147 | every feature row names a listed batch, has a 0/1 label and 7·C features that are all numbers |
| DataBuildFeatures.LoadedTableClean | habittracker-ml/src/data/make_dataset.py:34-40 | the loaded table has only 0/1 labels and NaN-free rows of the header's width |
| DataBuildFeatures.BuiltFeaturesFacts | habittracker-ml/src/data/build_features.py:113-147 | on success the load succeeded and every feature row names a loaded batch, with a 0/1 label and 7·C numeric features |
| FeaturesBuildFeatures.FeatureColumns | habittracker-ml/src/features/build_features.py:43 | the channels are exactly the columns other than `timestamp` and `label`, in column order |
| FeaturesBuildFeatures.ProjectReplaced | habittracker-ml/src/features/build_features.py:112-114 | after `df_filtered[feature_cols] = filtered_data`, reading the feature columns back gives the filtered data |
| FeaturesBuildFeatures.CutWindows | habittracker-ml/src/features/build_features.py:47-55 | the `range(0, len - L, step)` loop yields the exclusive-bound windows with mode labels, or `ZeroStep` when the step is 0 |
| FeaturesBuildFeatures.CreateWindows | habittracker-ml/src/features/build_features.py:32-55 | windows are cut from the feature columns of the whole table, with no batch grouping |
| FeaturesBuildFeatures.ExclusiveWindowsCount | habittracker-ml/src/features/build_features.py:47-53 | with step ≥ 1 the loop succeeds with ⌈(N − L)/S⌉ windows and as many labels (0 when N ≤ L) |
| FeaturesBuildFeatures.ExclusiveWindowAt | habittracker-ml/src/features/build_features.py:47-50 | window k is rows k·S to k·S + L, ending before the last row, labelled by `mode()[0]` of those rows' labels |
| FeaturesBuildFeatures.ExclusiveSkipsLastWindow | habittracker-ml/src/features/build_features.py:47 | when N ≥ L and S divides N − L, the exclusive bound yields one window fewer than the inclusive bound; with N = L it yields none where one full window fits |
| FeaturesBuildFeatures.ExclusiveWindowsShape | habittracker-ml/src/features/build_features.py:47-48 | every window is an L × C matrix |
| FeaturesBuildFeatures.ChannelFeatures | habittracker-ml/src/features/build_features.py:66-82 | eight features per channel, named `ch{i}_{mean,std,min,max,rms,skew,kurtosis,energy}` in that order |
| FeaturesBuildFeatures.ExtractFeatures | habittracker-ml/src/features/build_features.py:58-84 | the per-channel loop yields the channels' features one after another |
| FeaturesBuildFeatures.WindowFeaturesAt | habittracker-ml/src/features/build_features.py:66-82 | feature 8·ch + j is statistic j of channel ch |
| FeaturesBuildFeatures.FeatureNamesDistinct | habittracker-ml/src/features/build_features.py:66-82 | a window yields 8·C features with pairwise distinct names, none `label` |
| FeaturesBuildFeatures.ChannelSpreadFacts | habittracker-ml/src/features/build_features.py:76-82 | skew and kurtosis are NaN exactly when the channel holds a NaN or has zero variance (no substitution); energy is NaN exactly when a NaN is present |
| FeaturesBuildFeatures.ChannelRangeFacts | habittracker-ml/src/features/build_features.py:71-74 | on a NaN-free channel, min ≤ mean ≤ max |
| FeaturesBuildFeatures.ConstantChannel | habittracker-ml/src/features/build_features.py:72-77 | a constant channel has std `sqrt(0)` and keeps NaN skew and kurtosis |
| FeaturesBuildFeatures.RawStepBounds | habittracker-ml/src/features/build_features.py:98 | for overlap ≤ 1 the step is never negative, for overlap in [0, 1] it is at most the window size, and overlap 1 gives step 0 |
| FeaturesBuildFeatures.FeaturisedAt | habittracker-ml/src/features/build_features.py:117-125 | feature row k holds the features of rows k·S to k·S + L of the filtered data and the mode of their labels |
| FeaturesBuildFeatures.FeatureRows | habittracker-ml/src/features/build_features.py:121-125 | one output row per window, carrying its features and label |
| FeaturesBuildFeatures.BuildFeatures | habittracker-ml/src/features/build_features.py:87-127 | the features of the exclusive-bound windows cut over the filtered table, or `ZeroStep` |
| FeaturesBuildFeatures.BuiltFeaturesFails | habittracker-ml/src/features/build_features.py:98-117 | with a window size ≥ 0 and overlap in [0, 1] the build fails exactly when the truncated step is 0, always with `ZeroStep`; overlap 1 and a zero window always fail |
| FeaturesBuildFeatures.BuiltFeaturesRows | habittracker-ml/src/features/build_features.py:97-127 | with a positive step the build succeeds with ⌈(N − L)/S⌉ rows, the featurised windows of the filtered data |
| TrainModel.CrossValidation | habittracker-ml/src/models/train_model.py:40-65 | one accuracy and one F1 per fold key |
| TrainModel.Train | habittracker-ml/src/models/train_model.py:24-88 | the fold loop's accumulators are the cross-validation over `batch_ids.unique()`, and the final model is fitted on all rows |
| TrainModel.FoldsAreBatches | habittracker-ml/src/models/train_model.py:40 | the folds are the distinct batch ids, each once, in first-occurrence order |
| TrainModel.WhereRange | habittracker-ml/src/models/train_model.py:41-42 | a boolean mask keeps row i exactly when its batch-id test holds |
| TrainModel.FoldMasksPartition | habittracker-ml/src/models/train_model.py:41-42 | a row is a test row exactly when its batch is held out and a train row exactly otherwise, so the masks are disjoint and cover every row |
| TrainModel.FoldRowsSplit | habittracker-ml/src/models/train_model.py:41-51 | a fold's test and train rows together are the whole table, as a multiset and in count |
| TrainModel.PooledOfBatches | habittracker-ml/src/models/train_model.py:64 | the pooled true labels are, as a multiset, the labels of the rows whose batch is among the folds run |
| TrainModel.PooledTrueIsPermutation | habittracker-ml/src/models/train_model.py:64 | `cv_y_true` is a reordering of `y`: every row is a test row exactly once |
| TrainModel.PooledLengthsAgree | habittracker-ml/src/models/train_model.py:64-65 | when the classifier predicts one label per row, `cv_y_pred` and `cv_y_true` have equal length |
| TrainModel.OneScorePerFold | habittracker-ml/src/models/train_model.py:61-62 | `all_acc` and `all_f1` hold one entry per distinct batch, at least one when the table is non-empty |
| Smoothing.Trailing | src/utils/smoothing.py:7-8 | the slice `preds[max(0, i − w + 1) : i + 1]` is the last min(i + 1, w) predictions up to i, and empty when w < 1 |
| Smoothing.SmoothedAt | src/utils/smoothing.py:8 | each output is 0 or 1, and 1 exactly when the trailing slice is non-empty with mean ≥ 0.5 |
| Smoothing.Smoothed | src/utils/smoothing.py:4-9 | one output per prediction |
| Smoothing.SmoothPredictions | src/utils/smoothing.py:4-9 | the loop's output is the trailing-window threshold at every position |
| Smoothing.SmoothedPrefix | src/utils/smoothing.py:6-8 | smoothing one more prediction appends exactly one output and changes none before it |
| Smoothing.SmoothedCausal | src/utils/smoothing.py:7-8 | output i depends only on predictions 0 … i |
| Smoothing.SmoothedMajority | src/utils/smoothing.py:7-8 | on 0/1 predictions, output i is 1 exactly when its trailing window holds at least as many 1s as 0s |
| Smoothing.WidthOneIdentity | src/utils/smoothing.py:7-8 | with window 1, 0/1 predictions come out unchanged |
| Smoothing.ZerosStayZeros | src/utils/smoothing.py:7-8 | all-zero predictions stay all zero for every window |
| Smoothing.OnesStayOnes | src/utils/smoothing.py:7-8 | all-one predictions stay all one for a positive window, and become all zero for a window below 1 (every slice is empty) |

## Left out

- The Swift data-collector app is not modelled: it is SwiftUI views and watch connectivity, with no pipeline logic.
- `apply_filters` (Butterworth `filtfilt`) is floating-point signal processing. The `features` variant receives its output as the `filtered` parameter of the same shape; in the `data` variant the call is commented out.
- CSV reading and directory globbing are not modelled. A batch directory is a value holding its name, motion rows and annotation events, and a missing file's I/O error is not modelled.
- Floating point is not modelled: statistics are exact reals. `np.sqrt` and the rfft power sum are parameters (`Numerics`), with the square root constrained only to be positive on positive reals (`SqrtPositive`), the one property the model needs: it keeps the skew denominator away from zero.
- The order among rows with equal `time`, or with equal `timestamp` in the `make_dataset` copy, after pandas `sort_values` is not fixed: its default sort is not stable. The model fixes one order, that of a stable sort. Every result stated for the loaded tables, their windows and `MakeDataset.CleanDataIdempotent` is exact for that order, and holds for pandas only up to the order of rows with tied `time` or `timestamp`.
- XGBoost is not modelled: the classifier is an abstract `Learner` whose `fit`, `predict` and scoring are function parameters. A fresh classifier per fold is the purity of `fit`.
- Metric logging, feature importances, the mean and standard deviation of fold scores, drift and latency logging, mlflow runs and the CoreML export are not modelled. They do not feed back into the returned model. `metrics.py` is not part of this model.
- `main.py`, `test_model.py`, `src/train_model.py`, the `main` of `src/feature_engineering.py` and `src/utils/logger.py` are entry points and logging setup, and are not modelled.
- FeatureEngineering.CreateWindows: requires a window size of at least 1. With 0 or less, pandas would vote over empty or reversed slices, and that is not modelled.
- FeatureEngineering.CreateWindows: the step is a natural number. `--step_size` is parsed as any `int`, and a negative step, where `range` counts downward and `iloc` takes negative positions from the end of a batch, is not modelled.
- FeatureEngineering.CreateWindows: requires every `FEATURES` name to be a column of the motion file. A missing one makes `window[features]` raise `KeyError` once a window is cut, and that error is not modelled.
- FeatureEngineering.WindowGroups: the step is a natural number, for the same reason as in `CreateWindows`.
- FeatureEngineering.BatchWindows: requires a window size and a step of at least 1, which its caller guarantees.
- DataBuildFeatures.CreateWindows: requires a window size of at least 1, for the same reason.
- Windowing.ModeLabel: an empty list is given the label 0 so that the vote is total. Pandas would fail on it, but no window is empty because the window size is at least 1.
- DataBuildFeatures.BuildFeatures: requires `int(window_sec * fs) >= 1`, and requires that `batch_id` is not a configured data column, because channels are numeric and the batch id is text.
- FeaturesBuildFeatures.CreateWindows: requires a window size of at least 1 unless the step is 0, when `range` raises first. With a zero window and a positive step every window is empty and `mode()[0]` would fail, and that is not modelled.
- FeaturesBuildFeatures.BuildFeatures: requires `overlap_percent <= 1`. A larger overlap gives a negative step, where Python's `range` counts downward, and that is not modelled.
- FeaturesBuildFeatures.BuildFeatures: requires `int(window_sec * fs) >= 0`. A zero window gives step 0 and the `ZeroStep` error; a negative window, from a negative duration or rate, gives a negative step and is not modelled.
- Smoothing.SmoothPredictions: predictions are integers. Probability-valued floats are not modelled; for integers, `mean >= 0.5` is exactly `2·sum >= count`.
- TrainModel.PooledLengthsAgree: assumes the classifier returns one prediction per input row, as XGBoost's `predict` does.
