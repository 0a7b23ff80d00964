// src/feature_engineering.py: the batch loader (sorted `batch_*`
// directories, as-of label join, concatenation), `create_windows` (per
// batch, exclusive loop bound, `mean >= 0.5` label, batch tags) and
// `extract_features` (per window: means, stds, maxima and energies of
// every channel, concatenated).

module FeatureEngineering {
  import opened Tables
  import opened Sequences
  import opened Alignment
  import opened Windowing
  import opened Statistics

  /**
   * `load_batches`: visits the `batch_*` directories in sorted name order,
   * aligns each one and concatenates the results; with no batch directory
   * `pd.concat` raises.
   */
  method LoadBatches(root: seq<BatchDir>) returns (r: Result<seq<AlignedRow>>)
    ensures r == LoadedTable(root)
  {
    var dirs := BatchDirs(root);
    var allBatches: seq<seq<AlignedRow>> := [];
    var i := 0;
    while i < |dirs|
      invariant i <= |dirs|
      invariant allBatches == AlignAll(dirs[..i])
    {
      var d := dirs[i];
      var data := SortWith(d.motion, RowLe);
      var labels := SortWith(d.annotations, EventLe);
      var aligned := AlignBatch(data, labels, d.name);
      AlignAllSnoc(dirs, i);
      allBatches := allBatches + [aligned];
      i := i + 1;
    }
    assert dirs[..|dirs|] == dirs;
    r := Concat(allBatches);
  }

  /** The three arrays `create_windows` returns, or the error it raises. */
  function AsWindowSet(r: Result<seq<TaggedCut>>): Result<WindowSet>
  {
    match r
    case Ok(ts) => Ok(Untag(ts))
    case Err(e) => Err(e)
  }

  /**
   * The inner loop of `create_windows` over one batch: the windows starting
   * at 0, step, 2*step, ... strictly below `len(batch_df) - window_size`,
   * each labelled `int(mean >= 0.5)` and tagged with the batch id.
   */
  method BatchWindows(rows: seq<AlignedRow>, cols: seq<nat>, windowSize: nat, stepSize: nat, batchId: string)
    returns (xs: seq<Window>, ys: seq<int>, batchIds: seq<string>)
    requires windowSize >= 1 && stepSize >= 1
    ensures WindowSet(xs, ys, batchIds) == Untag(Tag(BatchCuts(rows, cols, windowSize, stepSize, ThresholdLabel, false), batchId))
  {
    var data, labels := Select(rows, cols), Labels(rows);
    var stop := |data| - windowSize;
    xs, ys, batchIds := [], [], [];
    ghost var cuts: seq<Cut> := [];
    var start: nat := 0;
    while start < stop
      invariant CutSoFar(data, labels, windowSize, stepSize, start, stop, ThresholdLabel, cuts)
      invariant xs == WindowsOf(cuts) && ys == LabelsOf(cuts) && batchIds == Copies(batchId, |cuts|)
      decreases stop - start
    {
      var window := data[start..start + windowSize];
      var y := ThresholdLabel(labels[start..start + windowSize]);
      CutLoopStep(data, labels, windowSize, stepSize, start, stop, ThresholdLabel, cuts);
      xs, ys, batchIds := xs + [window], ys + [y], batchIds + [batchId];
      cuts := cuts + [Cut(window, y)];
      start := start + stepSize;
    }
    WindowLoopExit(data, labels, windowSize, stepSize, start, stop, ThresholdLabel, cuts, batchId);
    assert stop == Stop(|rows|, windowSize, false);
  }

  /**
   * `create_windows(df, features, window_size, step_size)`: the windows of
   * every batch group in ascending id order, with their labels and batch
   * ids in three parallel arrays; a zero step makes `range` raise as soon
   * as the first group is reached.
   */
  method CreateWindows(table: seq<AlignedRow>, header: seq<string>, features: seq<string>, windowSize: nat, stepSize: nat)
    returns (r: Result<WindowSet>)
    requires windowSize >= 1
    requires forall f :: f in features ==> f in CellNames(header)
    ensures r == AsWindowSet(GroupedWindows(table, ColumnIndices(CellNames(header), features), windowSize, stepSize, ThresholdLabel, false))
  {
    var cols := ColumnIndices(CellNames(header), features);
    r := WindowGroups(table, GroupKeys(table), cols, windowSize, stepSize);
  }

  /** The `for batch_id, batch_df in df.groupby("batch_id")` loop, over the group keys in order. */
  method WindowGroups(table: seq<AlignedRow>, keys: seq<string>, cols: seq<nat>, windowSize: nat, stepSize: nat)
    returns (r: Result<WindowSet>)
    requires windowSize >= 1
    ensures stepSize == 0 ==> r == if keys == [] then Ok(WindowSet([], [], [])) else Err(ZeroStep)
    ensures stepSize >= 1 ==> r == Ok(Untag(GroupedCuts(table, keys, cols, windowSize, stepSize, ThresholdLabel, false)))
  {
    var xs: seq<Window>, ys: seq<int>, batchIds: seq<string> := [], [], [];
    var g := 0;
    while g < |keys|
      invariant g <= |keys|
      invariant stepSize == 0 ==> g == 0 && xs == [] && ys == [] && batchIds == []
      invariant stepSize >= 1 ==> WindowSet(xs, ys, batchIds) == Untag(GroupedCuts(table, keys[..g], cols, windowSize, stepSize, ThresholdLabel, false))
    {
      var batchId := keys[g];
      var rows := RowsOfBatch(table, batchId);
      if stepSize == 0 {
        return Err(ZeroStep);
      }
      var wx, wy, wb := BatchWindows(rows, cols, windowSize, stepSize, batchId);
      GroupLoopStep(table, keys, cols, windowSize, stepSize, ThresholdLabel, false, g, WindowSet(xs, ys, batchIds), WindowSet(wx, wy, wb));
      xs, ys, batchIds := xs + wx, ys + wy, batchIds + wb;
      g := g + 1;
    }
    assert keys[..|keys|] == keys;
    r := Ok(WindowSet(xs, ys, batchIds));
  }

  /** The feature vector of one window: `np.concatenate([mean, std, maxv, energy])`. */
  function FeatureVector(w: Window, width: nat, num: Numerics): seq<Sample>
    requires |w| > 0 && IsMatrix(w, width) && SqrtPositive(num.sqrt)
  {
    PerChannel(w, width, MeanOf, num) + PerChannel(w, width, StdOf, num)
    + PerChannel(w, width, MaxOf, num) + PerChannel(w, width, EnergyOf, num)
  }

  /** Channel c of a window contributes features c, width + c, 2 * width + c and 3 * width + c. */
  lemma FeatureVectorAt(w: Window, width: nat, num: Numerics, c: nat)
    requires |w| > 0 && IsMatrix(w, width) && SqrtPositive(num.sqrt) && c < width
    ensures var v, col := FeatureVector(w, width, num), Column(w, c);
      && |v| == 4 * width
      && v[c] == Mean(col)
      && v[width + c] == Std(col, num.sqrt)
      && v[2 * width + c] == Max(col)
      && v[3 * width + c] == SumSquares(col)
  {
    var mean, std := PerChannel(w, width, MeanOf, num), PerChannel(w, width, StdOf, num);
    var maxv, energy := PerChannel(w, width, MaxOf, num), PerChannel(w, width, EnergyOf, num);
    Blocks4(mean, std, maxv, energy, width, c);
  }

  /**
   * A window of `width` channels yields 4 * width features laid out as
   * [means, stds, maxima, energies]; per channel the mean is at most the
   * maximum, and the energy is Σx², never negative.
   */
  lemma FeatureVectorLayout(w: Window, width: nat, num: Numerics, c: nat)
    requires |w| > 0 && IsMatrix(w, width) && SqrtPositive(num.sqrt) && c < width
    ensures var v, col := FeatureVector(w, width, num), Column(w, c);
      && |v| == 4 * width
      && v[c] == Mean(col)
      && v[width + c] == Std(col, num.sqrt)
      && v[2 * width + c] == Max(col)
      && v[3 * width + c] == SumSquares(col)
      && (NaN !in col ==> v[c].Num? && v[2 * width + c].Num? && v[c].x <= v[2 * width + c].x)
      && (v[3 * width + c].Num? ==> v[3 * width + c].x >= 0.0)
  {
    FeatureVectorAt(w, width, num, c);
    var col := Column(w, c);
    if NaN !in col {
      MinMeanMax(col);
    }
  }

  /** `extract_features(X)`: one feature vector per window, in window order. */
  method ExtractFeatures(xs: seq<Window>, width: nat, num: Numerics) returns (feats: seq<seq<Sample>>)
    requires forall k :: 0 <= k < |xs| ==> |xs[k]| > 0 && IsMatrix(xs[k], width)
    requires SqrtPositive(num.sqrt)
    ensures |feats| == |xs|
    ensures forall k :: 0 <= k < |xs| ==> feats[k] == FeatureVector(xs[k], width, num)
  {
    feats := [];
    var k := 0;
    while k < |xs|
      invariant k <= |xs|
      invariant |feats| == k
      invariant forall j :: 0 <= j < k ==> feats[j] == FeatureVector(xs[j], width, num)
    {
      var window := xs[k];
      var mean := PerChannel(window, width, MeanOf, num);
      var std := PerChannel(window, width, StdOf, num);
      var maxv := PerChannel(window, width, MaxOf, num);
      var energy := PerChannel(window, width, EnergyOf, num);
      feats := feats + [mean + std + maxv + energy];
      k := k + 1;
    }
  }
}
