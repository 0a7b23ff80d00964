// habittracker-ml/src/data/build_features.py: window and step sizes from
// the processing settings, the column check, `create_windows` (per batch
// group, inclusive loop bound, `mode()[0]` label), `extract_features`
// (seven named statistics per channel, NaN skew and kurtosis replaced by 0)
// and `build_features`, which runs them batch by batch over the cleaned,
// aligned table.

module DataBuildFeatures {
  import opened Tables
  import opened Sequences
  import opened Alignment
  import opened Windowing
  import opened Statistics
  import opened MakeDataset
  import opened Config
  import opened FeatureNames

  // ---------------------------------------------------------------------
  // Step size

  /** `max(1, int(window_size * (1 - overlap)))`. */
  function StepSize(windowSize: int, overlap: real): (s: int)
    ensures s >= 1
  {
    var t := Trunc(windowSize as real * (1.0 - overlap));
    if t >= 1 then t else 1
  }

  /**
   * The step is at most the window when the overlap is a fraction in
   * [0, 1], the whole window with no overlap, and 1 from full overlap on.
   */
  lemma StepSizeBounds(windowSize: int, overlap: real)
    ensures windowSize >= 1 && 0.0 <= overlap <= 1.0 ==> StepSize(windowSize, overlap) <= windowSize
    ensures windowSize >= 1 && overlap == 0.0 ==> StepSize(windowSize, overlap) == windowSize
    ensures windowSize >= 0 && overlap >= 1.0 ==> StepSize(windowSize, overlap) == 1
  {
    var w := windowSize as real;
    if windowSize >= 0 && overlap >= 0.0 {
      assert w * overlap >= 0.0;
    }
    if windowSize >= 0 && overlap >= 1.0 {
      assert w * (1.0 - overlap) <= 0.0;
    }
  }

  /** The columns of the loaded table: the motion columns, `time`, `label` and `batch_id`. */
  function LoadedColumns(header: seq<string>): set<string>
  {
    (set c | c in CellNames(header)) + {"batch_id"}
  }

  /**
   * `required_cols - set(df.columns)`: the data columns the loaded table
   * lacks (`label` and `batch_id` are always present).
   */
  function Missing(p: Processing, header: seq<string>): (m: set<string>)
    ensures forall c :: c in m <==> c in p.dataColumns && c !in CellNames(header) && c != "batch_id"
  {
    (set c | c in p.dataColumns + ["label", "batch_id"]) - LoadedColumns(header)
  }

  // ---------------------------------------------------------------------
  // create_windows

  /** The `X` and `y` arrays `create_windows` returns, or the error it raises. */
  function AsPair(r: Result<seq<TaggedCut>>): Result<(seq<Window>, seq<int>)>
  {
    match r
    case Ok(ts) => Ok((Untag(ts).xs, Untag(ts).ys))
    case Err(e) => Err(e)
  }

  /**
   * The inner loop of `create_windows` over one group: the windows
   * starting at 0, step, 2*step, ... up to `len(batch_df) - window_size`
   * inclusive, each labelled by its most frequent label.
   */
  method GroupWindows(data: seq<seq<Sample>>, labels: seq<int>, windowSize: nat, stepSize: nat, ghost batchId: string)
    returns (xs: seq<Window>, ys: seq<int>)
    requires |data| == |labels| && windowSize >= 1 && stepSize >= 1
    ensures xs == Untag(Tag(Cuts(data, labels, windowSize, stepSize, 0, |data| - windowSize + 1, ModeLabel), batchId)).xs
    ensures ys == Untag(Tag(Cuts(data, labels, windowSize, stepSize, 0, |data| - windowSize + 1, ModeLabel), batchId)).ys
  {
    var stop := |data| - windowSize + 1;
    xs, ys := [], [];
    ghost var cuts: seq<Cut> := [];
    var start: nat := 0;
    while start < stop
      invariant CutSoFar(data, labels, windowSize, stepSize, start, stop, ModeLabel, cuts)
      invariant xs == WindowsOf(cuts) && ys == LabelsOf(cuts)
      decreases stop - start
    {
      var window := data[start..start + windowSize];
      var y := ModeLabel(labels[start..start + windowSize]);
      CutLoopStep(data, labels, windowSize, stepSize, start, stop, ModeLabel, cuts);
      xs, ys := xs + [window], ys + [y];
      cuts := cuts + [Cut(window, y)];
      start := start + stepSize;
    }
    WindowLoopExit(data, labels, windowSize, stepSize, start, stop, ModeLabel, cuts, batchId);
  }

  /**
   * `create_windows(df, sensor_cols, window_size, step_size)`: the windows
   * of every batch group in ascending id order and their labels; a zero
   * step makes `range` raise once the first group is reached.
   */
  method CreateWindows(table: seq<AlignedRow>, header: seq<string>, sensorCols: seq<string>, windowSize: nat, stepSize: nat)
    returns (r: Result<(seq<Window>, seq<int>)>)
    requires windowSize >= 1
    requires forall c :: c in sensorCols ==> c in CellNames(header)
    ensures r == AsPair(GroupedWindows(table, ColumnIndices(CellNames(header), sensorCols), windowSize, stepSize, ModeLabel, true))
  {
    var cols := ColumnIndices(CellNames(header), sensorCols);
    r := WindowGroups(table, GroupKeys(table), cols, windowSize, stepSize);
  }

  /** The `for batch_id, batch_df in df.groupby("batch_id")` loop, over the group keys in order. */
  method WindowGroups(table: seq<AlignedRow>, keys: seq<string>, cols: seq<nat>, windowSize: nat, stepSize: nat)
    returns (r: Result<(seq<Window>, seq<int>)>)
    requires windowSize >= 1
    ensures stepSize == 0 ==> r == if keys == [] then Ok(([], [])) else Err(ZeroStep)
    ensures stepSize >= 1 ==> var w := Untag(GroupedCuts(table, keys, cols, windowSize, stepSize, ModeLabel, true));
      r == Ok((w.xs, w.ys))
  {
    var xs: seq<Window>, ys: seq<int> := [], [];
    ghost var bs: seq<string> := [];
    var g := 0;
    while g < |keys|
      invariant g <= |keys|
      invariant stepSize == 0 ==> g == 0 && xs == [] && ys == []
      invariant stepSize >= 1 ==> WindowSet(xs, ys, bs) == Untag(GroupedCuts(table, keys[..g], cols, windowSize, stepSize, ModeLabel, true))
    {
      var batchId := keys[g];
      var rows := RowsOfBatch(table, batchId);
      if stepSize == 0 {
        return Err(ZeroStep);
      }
      var data, labels := Select(rows, cols), Labels(rows);
      var wx, wy := GroupWindows(data, labels, windowSize, stepSize, batchId);
      ghost var next := GroupStep(table, keys, cols, windowSize, stepSize, g, WindowSet(xs, ys, bs), data, labels, wx, wy);
      xs, ys, bs := xs + wx, ys + wy, bs + next;
      g := g + 1;
    }
    assert keys[..|keys|] == keys;
    r := Ok((xs, ys));
  }

  /**
   * One pass of the group loop: appending the windows and labels of group
   * g to those of the groups before it gives those of the first g + 1
   * groups; `ids` is the batch-id column of the new windows.
   */
  lemma GroupStep(table: seq<AlignedRow>, keys: seq<string>, cols: seq<nat>, L: nat, step: nat, g: nat,
                  prev: WindowSet, data: seq<seq<Sample>>, labels: seq<int>, wx: seq<Window>, wy: seq<int>) returns (ids: seq<string>)
    requires L >= 1 && step >= 1 && g < |keys|
    requires prev == Untag(GroupedCuts(table, keys[..g], cols, L, step, ModeLabel, true))
    requires data == Select(RowsOfBatch(table, keys[g]), cols) && labels == Labels(RowsOfBatch(table, keys[g]))
    requires |data| == |labels|
    requires var w := Untag(Tag(Cuts(data, labels, L, step, 0, |data| - L + 1, ModeLabel), keys[g]));
      wx == w.xs && wy == w.ys
    ensures WindowSet(prev.xs + wx, prev.ys + wy, prev.batchIds + ids)
      == Untag(GroupedCuts(table, keys[..g + 1], cols, L, step, ModeLabel, true))
  {
    var rows := RowsOfBatch(table, keys[g]);
    var next := Untag(Tag(BatchCuts(rows, cols, L, step, ModeLabel, true), keys[g]));
    GroupLoopStep(table, keys, cols, L, step, ModeLabel, true, g, prev, next);
    ids := next.batchIds;
  }

  // ---------------------------------------------------------------------
  // extract_features

  /** The statistics computed per channel, in the order they are added. */
  const StatNames: seq<string> := ["mean", "std", "min", "max", "rms", "skew", "kurtosis"]

  /** `0.0 if np.isnan(v) else v`. */
  function ZeroIfNaN(v: Sample): (r: Sample)
    ensures r.Num?
    ensures v.Num? ==> r == v
  {
    if v.NaN? then Num(0.0) else v
  }

  /** The seven features of one channel column `x`. */
  function ChannelFeatures(x: seq<Sample>, ch: nat, num: Numerics): (fs: seq<Feature>)
    requires |x| > 0 && SqrtPositive(num.sqrt)
    ensures |fs| == |StatNames|
    ensures forall j :: 0 <= j < |fs| ==> fs[j].name == FeatureName(ch, StatNames[j])
  {
    [ Feature(FeatureName(ch, "mean"), Mean(x)),
      Feature(FeatureName(ch, "std"), Std(x, num.sqrt)),
      Feature(FeatureName(ch, "min"), Min(x)),
      Feature(FeatureName(ch, "max"), Max(x)),
      Feature(FeatureName(ch, "rms"), Rms(x, num.sqrt)),
      Feature(FeatureName(ch, "skew"), ZeroIfNaN(Skew(x, num.sqrt))),
      Feature(FeatureName(ch, "kurtosis"), ZeroIfNaN(Kurtosis(x))) ]
  }

  /** The features of channels 0 .. n - 1, channel by channel. */
  function FeaturesUpTo(w: Window, width: nat, n: nat, num: Numerics): (fs: seq<Feature>)
    requires |w| > 0 && IsMatrix(w, width) && n <= width && SqrtPositive(num.sqrt)
    ensures |fs| == 7 * n
  {
    if n == 0 then []
    else FeaturesUpTo(w, width, n - 1, num) + ChannelFeatures(Column(w, n - 1), n - 1, num)
  }

  /** The feature dictionary of one window, as its entries in insertion order. */
  function WindowFeatures(w: Window, width: nat, num: Numerics): seq<Feature>
    requires |w| > 0 && IsMatrix(w, width) && SqrtPositive(num.sqrt)
  {
    FeaturesUpTo(w, width, width, num)
  }

  /** `extract_features(window)`: for each channel, its seven statistics in order. */
  method ExtractFeatures(window: Window, width: nat, num: Numerics) returns (features: seq<Feature>)
    requires |window| > 0 && IsMatrix(window, width) && SqrtPositive(num.sqrt)
    ensures features == WindowFeatures(window, width, num)
  {
    features := [];
    var ch := 0;
    while ch < width
      invariant ch <= width
      invariant features == FeaturesUpTo(window, width, ch, num)
    {
      var x := Column(window, ch);
      var s := Skew(x, num.sqrt);
      var k := Kurtosis(x);
      features := features + [
        Feature(FeatureName(ch, "mean"), Mean(x)),
        Feature(FeatureName(ch, "std"), Std(x, num.sqrt)),
        Feature(FeatureName(ch, "min"), Min(x)),
        Feature(FeatureName(ch, "max"), Max(x)),
        Feature(FeatureName(ch, "rms"), Rms(x, num.sqrt)),
        Feature(FeatureName(ch, "skew"), if s.NaN? then Num(0.0) else s),
        Feature(FeatureName(ch, "kurtosis"), if k.NaN? then Num(0.0) else k)];
      ch := ch + 1;
    }
  }

  /** Feature 7 * ch + j of a window is statistic j of channel ch. */
  lemma {:induction false} FeaturesAt(w: Window, width: nat, n: nat, num: Numerics, ch: nat, j: nat)
    requires |w| > 0 && IsMatrix(w, width) && n <= width && SqrtPositive(num.sqrt)
    requires ch < n && j < 7
    ensures FeaturesUpTo(w, width, n, num)[7 * ch + j] == ChannelFeatures(Column(w, ch), ch, num)[j]
  {
    var init := FeaturesUpTo(w, width, n - 1, num);
    var last := ChannelFeatures(Column(w, n - 1), n - 1, num);
    assert FeaturesUpTo(w, width, n, num) == init + last;
    if ch < n - 1 {
      FeaturesAt(w, width, n - 1, num, ch, j);
    } else {
      assert 7 * ch + j - |init| == j;
    }
  }

  /** Feature i of a window is named after channel i / 7 and statistic i % 7. */
  lemma FeatureNameAt(w: Window, width: nat, num: Numerics, i: nat)
    requires |w| > 0 && IsMatrix(w, width) && SqrtPositive(num.sqrt) && i < 7 * width
    ensures |WindowFeatures(w, width, num)| == 7 * width
    ensures WindowFeatures(w, width, num)[i].name == FeatureName(i / 7, StatNames[i % 7])
  {
    var ch, j := i / 7, i % 7;
    assert 7 * ch + j == i;
    FeaturesAt(w, width, width, num, ch, j);
  }

  lemma StatNamesDistinct()
    ensures Distinct(StatNames)
  {
  }

  /**
   * The keys of a window's feature dictionary are pairwise different, so
   * no assignment overwrites an earlier one; none is `label` or
   * `batch_id`, the keys added afterwards.
   */
  lemma FeatureNamesDistinct(w: Window, width: nat, num: Numerics)
    requires |w| > 0 && IsMatrix(w, width) && SqrtPositive(num.sqrt)
    ensures var fs := WindowFeatures(w, width, num);
      && |fs| == 7 * width
      && (forall i, j :: 0 <= i < j < |fs| ==> fs[i].name != fs[j].name)
      && (forall i :: 0 <= i < |fs| ==> fs[i].name != "label" && fs[i].name != "batch_id")
  {
    var fs := WindowFeatures(w, width, num);
    forall i | 0 <= i < |fs| ensures fs[i].name == FeatureName(i / 7, StatNames[i % 7]) {
      FeatureNameAt(w, width, num, i);
    }
    StatNamesDistinct();
    LaidOutNamesDistinct(fs, StatNames);
  }

  /**
   * What the seven statistics of a channel promise: skew and kurtosis are
   * never NaN; a column holding a NaN makes the other five NaN; a clean
   * column gives numbers throughout with min <= mean <= max.
   */
  lemma ChannelFeaturesFacts(x: seq<Sample>, ch: nat, num: Numerics)
    requires |x| > 0 && SqrtPositive(num.sqrt)
    ensures var fs := ChannelFeatures(x, ch, num);
      && fs[5].value.Num? && fs[6].value.Num?
      && (NaN in x ==> forall j :: 0 <= j < 5 ==> fs[j].value == NaN)
      && (NaN !in x ==> (forall j :: 0 <= j < 7 ==> fs[j].value.Num?) && fs[2].value.x <= fs[0].value.x <= fs[3].value.x)
  {
    var fs := ChannelFeatures(x, ch, num);
    ChannelFeaturesValues(x, ch, num);
    if NaN !in x {
      MinMeanMax(x);
      forall j | 0 <= j < 7 ensures fs[j].value.Num? {
        if j == 1 {
          assert Std(x, num.sqrt).Num?;
        } else if j == 4 {
          assert Rms(x, num.sqrt).Num?;
        }
      }
    }
  }

  /** The seven values of one channel, by position. */
  lemma ChannelFeaturesValues(x: seq<Sample>, ch: nat, num: Numerics)
    requires |x| > 0 && SqrtPositive(num.sqrt)
    ensures var fs := ChannelFeatures(x, ch, num);
      && fs[0].value == Mean(x) && fs[1].value == Std(x, num.sqrt) && fs[2].value == Min(x)
      && fs[3].value == Max(x) && fs[4].value == Rms(x, num.sqrt)
      && fs[5].value == ZeroIfNaN(Skew(x, num.sqrt)) && fs[6].value == ZeroIfNaN(Kurtosis(x))
  {
  }

  /** A constant channel has zero spread: its std is sqrt(0), and its skew and kurtosis are replaced by 0. */
  lemma ConstantChannel(x: seq<Sample>, c: real, ch: nat, num: Numerics)
    requires |x| > 0 && SqrtPositive(num.sqrt)
    requires forall i :: 0 <= i < |x| ==> x[i] == Num(c)
    ensures var fs := ChannelFeatures(x, ch, num);
      fs[1].value == Num(num.sqrt(0.0)) && fs[5].value == Num(0.0) && fs[6].value == Num(0.0)
  {
    ConstantColumn(x, c, num.sqrt);
  }

  // ---------------------------------------------------------------------
  // build_features

  /** One output row per window: its features, its label and the batch being processed. */
  function FeatureRowsOf(xs: seq<Window>, ys: seq<int>, b: string, width: nat, num: Numerics): (rows: seq<FeatureRow>)
    requires |xs| == |ys| && SqrtPositive(num.sqrt)
    requires forall k :: 0 <= k < |xs| ==> |xs[k]| > 0 && IsMatrix(xs[k], width)
    ensures |rows| == |xs|
    ensures forall k :: 0 <= k < |xs| ==> rows[k] == FeatureRow(WindowFeatures(xs[k], width, num), ys[k], b)
  {
    seq(|xs|, k requires 0 <= k < |xs| => FeatureRow(WindowFeatures(xs[k], width, num), ys[k], b))
  }

  /** The windows `create_windows` cuts from the rows of batch b (a step of at least 1). */
  function BatchWindowsOf(df: seq<AlignedRow>, b: string, cols: seq<nat>, L: nat, step: nat): seq<TaggedCut>
    requires L >= 1 && step >= 1
  {
    var rows := RowsOfBatch(df, b);
    GroupedCuts(rows, GroupKeys(rows), cols, L, step, ModeLabel, true)
  }

  /** The rows batch b contributes to the features table. */
  function BatchRows(df: seq<AlignedRow>, b: string, cols: seq<nat>, L: nat, step: nat, num: Numerics): seq<FeatureRow>
    requires L >= 1 && step >= 1 && SqrtPositive(num.sqrt)
  {
    var ws := Untag(BatchWindowsOf(df, b, cols, L, step));
    BatchWindowsShape(df, b, cols, L, step);
    FeatureRowsOf(ws.xs, ws.ys, b, |cols|, num)
  }

  /** The windows of batch b, split into arrays: one label per window, each window L rows of |cols| cells. */
  lemma BatchWindowsShape(df: seq<AlignedRow>, b: string, cols: seq<nat>, L: nat, step: nat)
    requires L >= 1 && step >= 1
    ensures var ws := Untag(BatchWindowsOf(df, b, cols, L, step));
      && |ws.xs| == |ws.ys| == |BatchWindowsOf(df, b, cols, L, step)|
      && forall k :: 0 <= k < |ws.xs| ==> |ws.xs[k]| == L && IsMatrix(ws.xs[k], |cols|)
  {
    var rows := RowsOfBatch(df, b);
    GroupedCutsShape(rows, GroupKeys(rows), cols, L, step, ModeLabel, true);
    UntagAt(BatchWindowsOf(df, b, cols, L, step));
  }

  /** The rows of the batches named, batch after batch. */
  function BuiltRows(df: seq<AlignedRow>, names: seq<string>, cols: seq<nat>, L: nat, step: nat, num: Numerics): seq<FeatureRow>
    requires L >= 1 && step >= 1 && SqrtPositive(num.sqrt)
  {
    if names == [] then []
    else BuiltRows(df, names[..|names| - 1], cols, L, step, num) + BatchRows(df, names[|names| - 1], cols, L, step, num)
  }

  /** With no column missing, every data column is a column a window can select. */
  lemma NothingMissing(p: Processing, header: seq<string>)
    requires Missing(p, header) == {} && "batch_id" !in p.dataColumns
    ensures forall c :: c in p.dataColumns ==> c in CellNames(header)
  {
    forall c | c in p.dataColumns ensures c in CellNames(header) {
      assert c !in Missing(p, header);
    }
  }

  /**
   * What `build_features(cfg)` returns: the error loading raises, the
   * missing-columns error, or the feature rows of every loaded batch in
   * the order the batches were loaded.
   */
  function BuiltFeatures(p: Processing, header: seq<string>, root: seq<BatchDir>, num: Numerics): Result<seq<FeatureRow>>
    requires WindowSize(p) >= 1 && "batch_id" !in p.dataColumns && SqrtPositive(num.sqrt)
  {
    match LoadedBatches(header, root)
    case Err(e) => Err(e)
    case Ok(loaded) =>
      var missing := Missing(p, header);
      if missing != {} then Err(MissingColumns(missing))
      else
        NothingMissing(p, header);
        var cols := ColumnIndices(CellNames(header), p.dataColumns);
        var L := WindowSize(p);
        Ok(BuiltRows(loaded.0, loaded.1, cols, L, StepSize(L, p.overlap), num))
  }

  /** The rows of one batch's windows, in window order. */
  method WindowRows(xs: seq<Window>, ys: seq<int>, batch: string, width: nat, num: Numerics) returns (rows: seq<FeatureRow>)
    requires |xs| == |ys| && SqrtPositive(num.sqrt)
    requires forall k :: 0 <= k < |xs| ==> |xs[k]| > 0 && IsMatrix(xs[k], width)
    ensures rows == FeatureRowsOf(xs, ys, batch, width, num)
  {
    rows := [];
    var i := 0;
    while i < |xs|
      invariant i <= |xs|
      invariant |rows| == i
      invariant forall k :: 0 <= k < i ==> rows[k] == FeatureRow(WindowFeatures(xs[k], width, num), ys[k], batch)
    {
      var feats := ExtractFeatures(xs[i], width, num);
      rows := rows + [FeatureRow(feats, ys[i], batch)];
      i := i + 1;
    }
  }

  /** One more batch processed: its rows follow those of the batches before it. */
  lemma BuiltRowsSnoc(df: seq<AlignedRow>, names: seq<string>, cols: seq<nat>, L: nat, step: nat, num: Numerics, i: nat)
    requires L >= 1 && step >= 1 && SqrtPositive(num.sqrt) && i < |names|
    ensures BuiltRows(df, names[..i + 1], cols, L, step, num)
      == BuiltRows(df, names[..i], cols, L, step, num) + BatchRows(df, names[i], cols, L, step, num)
  {
    assert names[..i + 1][..i] == names[..i];
  }

  /**
   * What `create_windows` returns for one batch is a pair of windows and
   * labels that `extract_features` accepts, and their feature rows are
   * the batch's rows of the table.
   */
  lemma BatchWindowsReady(df: seq<AlignedRow>, b: string, cols: seq<nat>, L: nat, step: nat, num: Numerics,
                          windows: Result<(seq<Window>, seq<int>)>)
    requires L >= 1 && step >= 1 && SqrtPositive(num.sqrt)
    requires windows == AsPair(GroupedWindows(RowsOfBatch(df, b), cols, L, step, ModeLabel, true))
    ensures windows.Ok?
    ensures |windows.value.0| == |windows.value.1|
    ensures forall k :: 0 <= k < |windows.value.0| ==> |windows.value.0[k]| > 0 && IsMatrix(windows.value.0[k], |cols|)
    ensures FeatureRowsOf(windows.value.0, windows.value.1, b, |cols|, num) == BatchRows(df, b, cols, L, step, num)
  {
    BatchWindowsShape(df, b, cols, L, step);
  }

  /** `build_features(cfg)`: load, check the columns, then window and featurise batch by batch. */
  method BuildFeatures(p: Processing, header: seq<string>, root: seq<BatchDir>, num: Numerics)
    returns (r: Result<seq<FeatureRow>>)
    requires WindowSize(p) >= 1 && "batch_id" !in p.dataColumns && SqrtPositive(num.sqrt)
    ensures r == BuiltFeatures(p, header, root, num)
  {
    var windowSize := WindowSize(p);
    var stepSize := StepSize(windowSize, p.overlap);
    var loaded := LoadBatches(header, root);
    if loaded.Err? {
      return Err(loaded.error);
    }
    var df, batchNames := loaded.value.0, loaded.value.1;
    var missing := Missing(p, header);
    if missing != {} {
      return Err(MissingColumns(missing));
    }
    NothingMissing(p, header);
    var features := FeaturiseBatches(df, batchNames, header, p.dataColumns, windowSize, stepSize, num);
    r := Ok(features);
  }

  /** The `for idx, batch in enumerate(batch_names)` loop: window and featurise each batch in turn. */
  method FeaturiseBatches(df: seq<AlignedRow>, batchNames: seq<string>, header: seq<string>, dataColumns: seq<string>,
                          windowSize: nat, stepSize: nat, num: Numerics)
    returns (allFeatures: seq<FeatureRow>)
    requires windowSize >= 1 && stepSize >= 1 && SqrtPositive(num.sqrt)
    requires forall c :: c in dataColumns ==> c in CellNames(header)
    ensures allFeatures == BuiltRows(df, batchNames, ColumnIndices(CellNames(header), dataColumns), windowSize, stepSize, num)
  {
    var cols := ColumnIndices(CellNames(header), dataColumns);
    allFeatures := [];
    var idx := 0;
    while idx < |batchNames|
      invariant idx <= |batchNames|
      invariant allFeatures == BuiltRows(df, batchNames[..idx], cols, windowSize, stepSize, num)
    {
      var batch := batchNames[idx];
      var batchDf := RowsOfBatch(df, batch);
      var windows := CreateWindows(batchDf, header, dataColumns, windowSize, stepSize);
      BatchWindowsReady(df, batch, cols, windowSize, stepSize, num, windows);
      var xs, ys := windows.value.0, windows.value.1;
      var rows := WindowRows(xs, ys, batch, |cols|, num);
      BuiltRowsSnoc(df, batchNames, cols, windowSize, stepSize, num, idx);
      allFeatures := allFeatures + rows;
      idx := idx + 1;
    }
    assert batchNames[..|batchNames|] == batchNames;
  }

  // ---------------------------------------------------------------------
  // What the features table holds

  /** Rows as loading leaves them: no missing value, `width` values each, and a 0/1 label. */
  predicate CleanTable(df: seq<AlignedRow>, width: nat)
  {
    forall o :: o in df ==> NaN !in o.values && |o.values| == width && (o.y == 0 || o.y == 1)
  }

  /** A features row of `width` channels: a 0/1 label and 7 * width numeric features under distinct names. */
  predicate CleanFeatureRow(row: FeatureRow, width: nat)
  {
    && (row.y == 0 || row.y == 1)
    && |row.features| == 7 * width
    && (forall i :: 0 <= i < |row.features| ==> row.features[i].value.Num?)
    && (forall i, j :: 0 <= i < j < |row.features| ==> row.features[i].name != row.features[j].name)
  }

  /** A window cut from clean rows holds numbers only, and its mode label is 0 or 1. */
  lemma WindowFromCleanRows(rows: seq<AlignedRow>, s: nat, cols: seq<nat>, L: nat, width: nat, window: Window, y: int)
    requires L >= 1 && CleanTable(rows, width) && ColumnsFit(width, cols)
    requires WindowAt(rows, s, cols, L, ModeLabel, true, window, y)
    ensures CleanWindow(window, L, |cols|)
    ensures y == 0 || y == 1
  {
    var x := rows[s..s + L];
    forall i, k | 0 <= i < |window| && 0 <= k < |cols| ensures window[i][k].Num? {
      assert x[i] in rows;
    }
    ModeLabelIsMode(Labels(x));
    var i :| 0 <= i < |x| && Labels(x)[i] == y;
    assert x[i] in rows;
  }

  /** A window of numbers only has numbers for every feature. */
  lemma CleanWindowFeatures(w: Window, width: nat, num: Numerics)
    requires |w| > 0 && IsMatrix(w, width) && SqrtPositive(num.sqrt)
    requires forall i, k :: 0 <= i < |w| && 0 <= k < width ==> w[i][k].Num?
    ensures forall i :: 0 <= i < |WindowFeatures(w, width, num)| ==> WindowFeatures(w, width, num)[i].value.Num?
  {
    var fs := WindowFeatures(w, width, num);
    forall i | 0 <= i < |fs| ensures fs[i].value.Num? {
      var ch, j := i / 7, i % 7;
      FeaturesAt(w, width, width, num, ch, j);
      var x := Column(w, ch);
      assert NaN !in x by {
        forall r | 0 <= r < |x| ensures x[r] != NaN {
          assert x[r] == w[r][ch];
        }
      }
      ChannelFeaturesFacts(x, ch, num);
    }
  }

  /** The windows cut for batch b are those of its rows, tagged with b. */
  lemma BatchWindowsOfOne(df: seq<AlignedRow>, b: string, cols: seq<nat>, L: nat, step: nat)
    requires L >= 1 && step >= 1
    ensures var rows := RowsOfBatch(df, b);
      BatchWindowsOf(df, b, cols, L, step) == if rows == [] then [] else Tag(BatchCuts(rows, cols, L, step, ModeLabel, true), b)
  {
    GroupedCutsOfOneBatch(RowsOfBatch(df, b), b, cols, L, step, ModeLabel, true);
  }

  /** A window of L rows and `width` columns holding numbers only. */
  predicate CleanWindow(w: Window, L: nat, width: nat)
  {
    && |w| == L && IsMatrix(w, width)
    && (forall i, c :: 0 <= i < |w| && 0 <= c < width ==> w[i][c].Num?)
  }

  /** Clean windows with 0/1 labels. */
  predicate CleanWindows(ws: WindowSet, L: nat, width: nat)
  {
    && |ws.xs| == |ws.ys|
    && (forall k :: 0 <= k < |ws.xs| ==> CleanWindow(ws.xs[k], L, width))
    && (forall k :: 0 <= k < |ws.ys| ==> ws.ys[k] == 0 || ws.ys[k] == 1)
  }

  /** Clean cuts with 0/1 labels, tagged and split, are clean windows. */
  lemma TaggedCutsClean(cuts: seq<Cut>, b: string, L: nat, width: nat)
    requires forall k :: 0 <= k < |cuts| ==> CleanWindow(cuts[k].window, L, width) && (cuts[k].y == 0 || cuts[k].y == 1)
    ensures CleanWindows(Untag(Tag(cuts, b)), L, width)
  {
    TagAt(cuts, b);
    UntagAt(Tag(cuts, b));
  }

  /** The windows cut from clean rows are clean and carry 0/1 labels. */
  lemma BatchCutsClean(rows: seq<AlignedRow>, cols: seq<nat>, L: nat, step: nat, width: nat)
    requires L >= 1 && step >= 1
    requires CleanTable(rows, width) && ColumnsFit(width, cols)
    ensures var cuts := BatchCuts(rows, cols, L, step, ModeLabel, true);
      forall k :: 0 <= k < |cuts| ==> CleanWindow(cuts[k].window, L, |cols|) && (cuts[k].y == 0 || cuts[k].y == 1)
  {
    var cuts := BatchCuts(rows, cols, L, step, ModeLabel, true);
    forall k | 0 <= k < |cuts|
      ensures CleanWindow(cuts[k].window, L, |cols|) && (cuts[k].y == 0 || cuts[k].y == 1)
    {
      BatchCutClean(rows, cols, L, step, width, k);
    }
  }

  lemma BatchCutClean(rows: seq<AlignedRow>, cols: seq<nat>, L: nat, step: nat, width: nat, k: nat)
    requires L >= 1 && step >= 1
    requires CleanTable(rows, width) && ColumnsFit(width, cols)
    requires k < |BatchCuts(rows, cols, L, step, ModeLabel, true)|
    ensures var c := BatchCuts(rows, cols, L, step, ModeLabel, true)[k];
      CleanWindow(c.window, L, |cols|) && (c.y == 0 || c.y == 1)
  {
    var c := BatchCuts(rows, cols, L, step, ModeLabel, true)[k];
    BatchCutsAt(rows, cols, L, step, ModeLabel, true, k);
    WindowFromCleanRows(rows, k * step, cols, L, width, c.window, c.y);
  }

  /** The windows of a batch of clean rows are clean. */
  lemma BatchWindowsClean(df: seq<AlignedRow>, b: string, cols: seq<nat>, L: nat, step: nat, width: nat)
    requires L >= 1 && step >= 1
    requires CleanTable(df, width) && ColumnsFit(width, cols)
    ensures CleanWindows(Untag(BatchWindowsOf(df, b, cols, L, step)), L, |cols|)
  {
    var rows := RowsOfBatch(df, b);
    BatchWindowsOfOne(df, b, cols, L, step);
    if rows != [] {
      assert CleanTable(rows, width);
      BatchCutsClean(rows, cols, L, step, width);
      TaggedCutsClean(BatchCuts(rows, cols, L, step, ModeLabel, true), b, L, |cols|);
    }
  }

  /** Clean windows make clean feature rows. */
  lemma FeatureRowsOfClean(ws: WindowSet, L: nat, b: string, width: nat, num: Numerics)
    requires L >= 1 && SqrtPositive(num.sqrt) && CleanWindows(ws, L, width)
    ensures forall row :: row in FeatureRowsOf(ws.xs, ws.ys, b, width, num) ==> row.batchId == b && CleanFeatureRow(row, width)
  {
    var out := FeatureRowsOf(ws.xs, ws.ys, b, width, num);
    forall row | row in out ensures row.batchId == b && CleanFeatureRow(row, width) {
      var k :| 0 <= k < |out| && out[k] == row;
      CleanWindowFeatures(ws.xs[k], width, num);
      FeatureNamesDistinct(ws.xs[k], width, num);
    }
  }

  /** Every row batch b contributes is a clean features row tagged with b. */
  lemma BatchRowsFacts(df: seq<AlignedRow>, b: string, cols: seq<nat>, L: nat, step: nat, num: Numerics, width: nat)
    requires L >= 1 && step >= 1 && SqrtPositive(num.sqrt)
    requires CleanTable(df, width) && ColumnsFit(width, cols)
    ensures forall row :: row in BatchRows(df, b, cols, L, step, num) ==> row.batchId == b && CleanFeatureRow(row, |cols|)
  {
    var ws := Untag(BatchWindowsOf(df, b, cols, L, step));
    BatchWindowsClean(df, b, cols, L, step, width);
    FeatureRowsOfClean(ws, L, b, |cols|, num);
  }

  lemma BatchRowsLength(df: seq<AlignedRow>, b: string, cols: seq<nat>, L: nat, step: nat, num: Numerics)
    requires L >= 1 && step >= 1 && SqrtPositive(num.sqrt)
    ensures |BatchRows(df, b, cols, L, step, num)| == |BatchWindowsOf(df, b, cols, L, step)|
  {
    BatchWindowsShape(df, b, cols, L, step);
  }

  /** The number of windows `range(0, n - L + 1, step)` starts. */
  function WindowCount(n: nat, L: nat, step: nat): nat
    requires step >= 1
  {
    if n >= L then (n - L) / step + 1 else 0
  }

  /** The windows `create_windows` cuts from a group of n rows number WindowCount(n, L, step). */
  lemma InclusiveBatchCutsCount(rows: seq<AlignedRow>, cols: seq<nat>, L: nat, step: nat)
    requires L >= 1 && step >= 1
    ensures |BatchCuts(rows, cols, L, step, ModeLabel, true)| == WindowCount(|rows|, L, step)
  {
    BatchCutsCount(rows, cols, L, step, ModeLabel, true);
  }

  /** Each batch contributes (n - L) / step + 1 rows when it has n >= L loaded rows, and none otherwise. */
  lemma BatchRowsCount(df: seq<AlignedRow>, b: string, cols: seq<nat>, L: nat, step: nat, num: Numerics)
    requires L >= 1 && step >= 1 && SqrtPositive(num.sqrt)
    ensures |BatchRows(df, b, cols, L, step, num)| == WindowCount(|RowsOfBatch(df, b)|, L, step)
  {
    var rows := RowsOfBatch(df, b);
    BatchRowsLength(df, b, cols, L, step, num);
    BatchWindowsOfOne(df, b, cols, L, step);
    if rows != [] {
      var cuts := BatchCuts(rows, cols, L, step, ModeLabel, true);
      TagAt(cuts, b);
      InclusiveBatchCutsCount(rows, cols, L, step);
    }
  }

  /** Every row built from the named batches is clean and tagged with one of them. */
  lemma {:induction false} BuiltRowsFacts(df: seq<AlignedRow>, names: seq<string>, cols: seq<nat>, L: nat, step: nat,
                                          num: Numerics, width: nat)
    requires L >= 1 && step >= 1 && SqrtPositive(num.sqrt)
    requires CleanTable(df, width) && ColumnsFit(width, cols)
    ensures forall row :: row in BuiltRows(df, names, cols, L, step, num) ==> row.batchId in names && CleanFeatureRow(row, |cols|)
  {
    if names != [] {
      var init, b := names[..|names| - 1], names[|names| - 1];
      BuiltRowsFacts(df, init, cols, L, step, num, width);
      BatchRowsFacts(df, b, cols, L, step, num, width);
      assert forall n :: n in init ==> n in names;
    }
  }

  /** The loaded table is clean when every motion file has the header's columns. */
  lemma LoadedTableClean(header: seq<string>, root: seq<BatchDir>)
    requires WellFormedDirs(header, root) && LoadedBatches(header, root).Ok?
    ensures CleanTable(LoadedBatches(header, root).value.0, |header|)
  {
    LoadedRowsFacts(header, root);
  }

  /**
   * Every row of the features table comes from a window of a loaded
   * batch: a 0/1 label, the batch's name, and seven numeric features per
   * data column under distinct names (cleaning left no NaN to propagate).
   */
  lemma BuiltFeaturesFacts(p: Processing, header: seq<string>, root: seq<BatchDir>, num: Numerics)
    requires WindowSize(p) >= 1 && "batch_id" !in p.dataColumns && SqrtPositive(num.sqrt)
    requires WellFormedDirs(header, root)
    requires BuiltFeatures(p, header, root, num).Ok?
    ensures LoadedBatches(header, root).Ok?
    ensures forall row :: row in BuiltFeatures(p, header, root, num).value ==>
      row.batchId in LoadedBatches(header, root).value.1 && CleanFeatureRow(row, |p.dataColumns|)
  {
    var loaded := LoadedBatches(header, root).value;
    LoadedTableClean(header, root);
    NothingMissing(p, header);
    var cols := ColumnIndices(CellNames(header), p.dataColumns);
    var L := WindowSize(p);
    BuiltRowsFacts(loaded.0, loaded.1, cols, L, StepSize(L, p.overlap), num, |header|);
  }
}
