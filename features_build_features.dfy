// habittracker-ml/src/features/build_features.py: `create_windows` over a
// whole table (no batch grouping, exclusive loop bound, `mode()[0]`
// label), `extract_features` (eight named statistics per channel, with no
// NaN replacement) and `build_features`, whose step has no lower bound.

module FeaturesBuildFeatures {
  import opened Tables
  import opened Sequences
  import opened Windowing
  import opened Statistics
  import opened Config
  import opened FeatureNames

  // ---------------------------------------------------------------------
  // The table

  /**
   * A table: named sample columns, one row of cells per sample, and the
   * integer `label` column kept beside them.
   */
  datatype Frame = Frame(columns: seq<string>, cells: seq<seq<Sample>>, labels: seq<int>)

  predicate WellFormedFrame(df: Frame)
  {
    |df.cells| == |df.labels| && IsMatrix(df.cells, |df.columns|)
  }

  /**
   * `[c for c in df.columns if c not in ["timestamp", "label"]]`, as column
   * positions: every other column, in column order.
   */
  function FeatureColumns(columns: seq<string>): (cols: seq<nat>)
    ensures forall k :: 0 <= k < |cols| ==> cols[k] < |columns| && columns[cols[k]] != "timestamp" && columns[cols[k]] != "label"
    ensures forall i :: 0 <= i < |columns| && columns[i] != "timestamp" && columns[i] != "label" ==> i in cols
    ensures forall j, k :: 0 <= j < k < |cols| ==> cols[j] < cols[k]
  {
    if columns == [] then []
    else
      var i := |columns| - 1;
      var init := FeatureColumns(columns[..i]);
      if columns[i] != "timestamp" && columns[i] != "label" then init + [i] else init
  }

  /** `df_filtered[feature_cols] = filtered_data`: the feature columns replaced, the others kept. */
  function ReplaceColumns(cells: seq<seq<Sample>>, cols: seq<nat>, filtered: seq<seq<Sample>>): (out: seq<seq<Sample>>)
    requires |filtered| == |cells| && IsMatrix(filtered, |cols|)
    ensures |out| == |cells|
    ensures forall r :: 0 <= r < |cells| ==> |out[r]| == |cells[r]|
  {
    seq(|cells|, r requires 0 <= r < |cells| =>
      seq(|cells[r]|, c requires 0 <= c < |cells[r]| => if c in cols then filtered[r][FirstIndex(cols, c)] else cells[r][c]))
  }

  /** Reading the feature columns back after replacing them gives exactly the filtered values. */
  lemma ProjectReplaced(cells: seq<seq<Sample>>, cols: seq<nat>, filtered: seq<seq<Sample>>, width: nat)
    requires IsMatrix(cells, width) && |filtered| == |cells| && IsMatrix(filtered, |cols|)
    requires forall k :: 0 <= k < |cols| ==> cols[k] < width
    requires forall j, k :: 0 <= j < k < |cols| ==> cols[j] < cols[k]
    ensures Project(ReplaceColumns(cells, cols, filtered), cols) == filtered
  {
    var out := ReplaceColumns(cells, cols, filtered);
    var p := Project(out, cols);
    forall r | 0 <= r < |p| ensures p[r] == filtered[r] {
      forall k | 0 <= k < |cols| ensures p[r][k] == filtered[r][k] {
        var c := cols[k];
        var f := FirstIndex(cols, c);
        assert cols[f] == cols[k];
      }
    }
  }

  // ---------------------------------------------------------------------
  // create_windows

  /**
   * The windows and labels `range(0, len(data) - window_size, step_size)`
   * yields over the whole table, or the error `range` raises on a zero
   * step (whatever the table's length).
   */
  function ExclusiveWindows(data: seq<seq<Sample>>, labels: seq<int>, L: nat, step: nat): Result<(seq<Window>, seq<int>)>
    requires |data| == |labels| && (L >= 1 || step == 0)
  {
    if step == 0 then Err(ZeroStep)
    else
      var cuts := Cuts(data, labels, L, step, 0, |data| - L, ModeLabel);
      Ok((WindowsOf(cuts), LabelsOf(cuts)))
  }

  /**
   * The loop of `create_windows`: windows at 0, step, 2*step, ... strictly
   * below `len(data) - window_size`, each labelled by its most frequent
   * label; `range` raises on a zero step.
   */
  method CutWindows(data: seq<seq<Sample>>, labels: seq<int>, windowSize: nat, stepSize: nat)
    returns (r: Result<(seq<Window>, seq<int>)>)
    requires |data| == |labels| && (windowSize >= 1 || stepSize == 0)
    ensures r == ExclusiveWindows(data, labels, windowSize, stepSize)
  {
    if stepSize == 0 {
      return Err(ZeroStep);
    }
    var stop := |data| - windowSize;
    var xs: seq<Window>, ys: seq<int> := [], [];
    ghost var cuts: seq<Cut> := [];
    var i: nat := 0;
    while i < stop
      invariant CutSoFar(data, labels, windowSize, stepSize, i, stop, ModeLabel, cuts)
      invariant xs == WindowsOf(cuts) && ys == LabelsOf(cuts)
      decreases stop - i
    {
      var window := data[i..i + windowSize];
      var labelMode := ModeLabel(labels[i..i + windowSize]);
      CutLoopStep(data, labels, windowSize, stepSize, i, stop, ModeLabel, cuts);
      xs, ys := xs + [window], ys + [labelMode];
      cuts := cuts + [Cut(window, labelMode)];
      i := i + stepSize;
    }
    WindowLoopDone(data, labels, windowSize, stepSize, i, stop, ModeLabel, cuts);
    r := Ok((xs, ys));
  }

  /**
   * `create_windows(df, window_size, step_size)`: every column but
   * `timestamp` and `label` as a matrix, with the `label` column, cut into
   * windows.
   */
  method CreateWindows(df: Frame, windowSize: nat, stepSize: nat) returns (r: Result<(seq<Window>, seq<int>)>)
    requires WellFormedFrame(df) && (windowSize >= 1 || stepSize == 0)
    ensures r == ExclusiveWindows(Project(df.cells, FeatureColumns(df.columns)), df.labels, windowSize, stepSize)
  {
    var featureCols := FeatureColumns(df.columns);
    var data := Project(df.cells, featureCols);
    r := CutWindows(data, df.labels, windowSize, stepSize);
  }

  /** The number of windows `range(0, n - L, step)` starts: ceil((n - L) / step) when n > L. */
  function ExclusiveWindowCount(n: nat, L: nat, step: nat): nat
    requires step >= 1
  {
    if n > L then (n - L + step - 1) / step else 0
  }

  /** With a non-zero step, `range` succeeds and cuts ceil((N - L) / step) windows, each with one label. */
  lemma ExclusiveWindowsCount(data: seq<seq<Sample>>, labels: seq<int>, L: nat, step: nat)
    requires |data| == |labels| && L >= 1 && step >= 1
    ensures ExclusiveWindows(data, labels, L, step).Ok?
    ensures var w := ExclusiveWindows(data, labels, L, step).value;
      |w.0| == |w.1| == ExclusiveWindowCount(|data|, L, step)
  {
    var cuts := Cuts(data, labels, L, step, 0, |data| - L, ModeLabel);
    ExclusiveCount(data, labels, L, step, ModeLabel);
    WindowsOfAt(cuts);
  }

  /**
   * Window k holds rows k*step .. k*step + L - 1 and is labelled by their
   * mode; its start lies strictly below N - L, so it never ends on the last
   * row.
   */
  lemma ExclusiveWindowAt(data: seq<seq<Sample>>, labels: seq<int>, L: nat, step: nat, k: nat)
    requires |data| == |labels| && L >= 1 && step >= 1
    requires k < ExclusiveWindowCount(|data|, L, step)
    ensures k * step + L < |data|
    ensures ExclusiveWindows(data, labels, L, step).Ok?
      && |ExclusiveWindows(data, labels, L, step).value.0| == ExclusiveWindowCount(|data|, L, step)
      && |ExclusiveWindows(data, labels, L, step).value.1| == ExclusiveWindowCount(|data|, L, step)
    ensures var w := ExclusiveWindows(data, labels, L, step).value;
      w.0[k] == data[k * step..k * step + L] && w.1[k] == ModeLabel(labels[k * step..k * step + L])
  {
    var cuts := Cuts(data, labels, L, step, 0, |data| - L, ModeLabel);
    ExclusiveWindowsCount(data, labels, L, step);
    WindowsOfAt(cuts);
    CutsFromZeroAt(data, labels, L, step, |data| - L, ModeLabel, k);
    ExclusiveCount(data, labels, L, step, ModeLabel);
  }

  /**
   * The exclusive bound drops a full window: when step divides N - L (and
   * N >= L), the window starting at N - L fits but is not cut, so there is
   * one window fewer than the inclusive bound `N - L + 1` gives; with N == L
   * the only full window is lost.
   */
  lemma ExclusiveSkipsLastWindow(data: seq<seq<Sample>>, labels: seq<int>, L: nat, step: nat)
    requires |data| == |labels| && L >= 1 && step >= 1
    requires |data| >= L && (|data| - L) % step == 0
    ensures |Cuts(data, labels, L, step, 0, |data| - L, ModeLabel)| + 1 == |Cuts(data, labels, L, step, 0, |data| - L + 1, ModeLabel)|
  {
    var q := (|data| - L) / step;
    assert |data| - L == q * step;
    ExclusiveCount(data, labels, L, step, ModeLabel);
    InclusiveCount(data, labels, L, step, ModeLabel);
    DivIs(|data| - L + step - 1, step, q);
  }

  /** Every window cut from a matrix of `width` columns has L rows of `width` cells. */
  lemma ExclusiveWindowsShape(data: seq<seq<Sample>>, labels: seq<int>, L: nat, step: nat, width: nat)
    requires |data| == |labels| && L >= 1 && step >= 1 && IsMatrix(data, width)
    ensures var w := ExclusiveWindows(data, labels, L, step).value;
      && |w.0| == |w.1|
      && forall k :: 0 <= k < |w.0| ==> |w.0[k]| == L && IsMatrix(w.0[k], width)
  {
    var cuts := Cuts(data, labels, L, step, 0, |data| - L, ModeLabel);
    WindowsOfAt(cuts);
    forall k | 0 <= k < |cuts| ensures |cuts[k].window| == L && IsMatrix(cuts[k].window, width) {
      CutShape(data, labels, L, step, width, k);
    }
  }

  /** The k-th window is L rows of the matrix, so a matrix of the same width. */
  lemma CutShape(data: seq<seq<Sample>>, labels: seq<int>, L: nat, step: nat, width: nat, k: nat)
    requires |data| == |labels| && L >= 1 && step >= 1 && IsMatrix(data, width)
    requires k < |Cuts(data, labels, L, step, 0, |data| - L, ModeLabel)|
    ensures var c := Cuts(data, labels, L, step, 0, |data| - L, ModeLabel)[k];
      |c.window| == L && IsMatrix(c.window, width)
  {
    CutsFromZeroAt(data, labels, L, step, |data| - L, ModeLabel, k);
    var window := data[k * step..k * step + L];
    forall r | 0 <= r < |window| ensures |window[r]| == width {
      assert window[r] == data[k * step + r];
    }
  }

  // ---------------------------------------------------------------------
  // extract_features

  /** The statistics computed per channel, in the order they are added. */
  const StatNames: seq<string> := ["mean", "std", "min", "max", "rms", "skew", "kurtosis", "energy"]

  /** The eight features of one channel column `x`; skew and kurtosis are kept even when NaN. */
  function ChannelFeatures(x: seq<Sample>, ch: nat, num: Numerics): (fs: seq<Feature>)
    requires |x| > 0 && SqrtPositive(num.sqrt)
    ensures |fs| == |StatNames|
    ensures forall j :: 0 <= j < |fs| ==> fs[j].name == FeatureName(ch, StatNames[j])
  {
    [ Feature(FeatureName(ch, "mean"), Mean(x)),
      Feature(FeatureName(ch, "std"), Std(x, num.sqrt)),
      Feature(FeatureName(ch, "min"), Min(x)),
      Feature(FeatureName(ch, "max"), Max(x)),
      Feature(FeatureName(ch, "rms"), Rms(x, num.sqrt)),
      Feature(FeatureName(ch, "skew"), Skew(x, num.sqrt)),
      Feature(FeatureName(ch, "kurtosis"), Kurtosis(x)),
      Feature(FeatureName(ch, "energy"), SpectralEnergy(x, num.power)) ]
  }

  /** The features of channels 0 .. n - 1, channel by channel. */
  function FeaturesUpTo(w: Window, width: nat, n: nat, num: Numerics): (fs: seq<Feature>)
    requires |w| > 0 && IsMatrix(w, width) && n <= width && SqrtPositive(num.sqrt)
    ensures |fs| == 8 * n
  {
    if n == 0 then []
    else FeaturesUpTo(w, width, n - 1, num) + ChannelFeatures(Column(w, n - 1), n - 1, num)
  }

  /** The feature dictionary of one window, as its entries in insertion order. */
  function WindowFeatures(w: Window, width: nat, num: Numerics): seq<Feature>
    requires |w| > 0 && IsMatrix(w, width) && SqrtPositive(num.sqrt)
  {
    FeaturesUpTo(w, width, width, num)
  }

  /** `extract_features(window)`: for each channel, its eight statistics in order. */
  method ExtractFeatures(window: Window, width: nat, num: Numerics) returns (features: seq<Feature>)
    requires |window| > 0 && IsMatrix(window, width) && SqrtPositive(num.sqrt)
    ensures features == WindowFeatures(window, width, num)
  {
    features := [];
    var ch := 0;
    while ch < width
      invariant ch <= width
      invariant features == FeaturesUpTo(window, width, ch, num)
    {
      var channelData := Column(window, ch);
      features := features + [
        Feature(FeatureName(ch, "mean"), Mean(channelData)),
        Feature(FeatureName(ch, "std"), Std(channelData, num.sqrt)),
        Feature(FeatureName(ch, "min"), Min(channelData)),
        Feature(FeatureName(ch, "max"), Max(channelData)),
        Feature(FeatureName(ch, "rms"), Rms(channelData, num.sqrt)),
        Feature(FeatureName(ch, "skew"), Skew(channelData, num.sqrt)),
        Feature(FeatureName(ch, "kurtosis"), Kurtosis(channelData)),
        Feature(FeatureName(ch, "energy"), SpectralEnergy(channelData, num.power))];
      ch := ch + 1;
    }
  }

  /** Feature 8 * ch + j of a window is statistic j of channel ch. */
  lemma {:induction false} FeaturesAt(w: Window, width: nat, n: nat, num: Numerics, ch: nat, j: nat)
    requires |w| > 0 && IsMatrix(w, width) && n <= width && SqrtPositive(num.sqrt)
    requires ch < n && j < 8
    ensures FeaturesUpTo(w, width, n, num)[8 * ch + j] == ChannelFeatures(Column(w, ch), ch, num)[j]
  {
    var init := FeaturesUpTo(w, width, n - 1, num);
    var last := ChannelFeatures(Column(w, n - 1), n - 1, num);
    assert FeaturesUpTo(w, width, n, num) == init + last;
    if ch < n - 1 {
      FeaturesAt(w, width, n - 1, num, ch, j);
    } else {
      assert 8 * ch + j - |init| == j;
    }
  }

  /** Feature i of a window is named after channel i / 8 and statistic i % 8. */
  lemma FeatureNameAt(w: Window, width: nat, num: Numerics, i: nat)
    requires |w| > 0 && IsMatrix(w, width) && SqrtPositive(num.sqrt) && i < 8 * width
    ensures WindowFeatures(w, width, num)[i].name == FeatureName(i / 8, StatNames[i % 8])
  {
    var ch, j := i / 8, i % 8;
    assert 8 * ch + j == i;
    FeaturesAt(w, width, width, num, ch, j);
  }

  lemma StatNamesDistinct()
    ensures Distinct(StatNames)
  {
  }

  /**
   * A window of `width` channels yields 8 * width features under pairwise
   * different keys, none of them `label`, the key added afterwards.
   */
  lemma FeatureNamesDistinct(w: Window, width: nat, num: Numerics)
    requires |w| > 0 && IsMatrix(w, width) && SqrtPositive(num.sqrt)
    ensures var fs := WindowFeatures(w, width, num);
      && |fs| == 8 * width
      && (forall i, j :: 0 <= i < j < |fs| ==> fs[i].name != fs[j].name)
      && (forall i :: 0 <= i < |fs| ==> fs[i].name != "label")
  {
    var fs := WindowFeatures(w, width, num);
    forall i | 0 <= i < |fs| ensures fs[i].name == FeatureName(i / 8, StatNames[i % 8]) {
      FeatureNameAt(w, width, num, i);
    }
    StatNamesDistinct();
    LaidOutNamesDistinct(fs, StatNames);
  }

  /**
   * Nothing replaces a NaN here: skew and kurtosis are NaN exactly when the
   * column holds a NaN or has no spread, energy exactly when a cell is NaN.
   */
  lemma ChannelSpreadFacts(x: seq<Sample>, ch: nat, num: Numerics)
    requires |x| > 0 && SqrtPositive(num.sqrt)
    ensures var fs := ChannelFeatures(x, ch, num);
      && (fs[5].value.NaN? <==> !Clean(x) || Moment(Reals(x), 2) == 0.0)
      && (fs[6].value.NaN? <==> !Clean(x) || Moment(Reals(x), 2) == 0.0)
      && (fs[7].value.NaN? <==> NaN in x)
  {
    var fs := ChannelFeatures(x, ch, num);
    assert fs[5].value == Skew(x, num.sqrt) && fs[6].value == Kurtosis(x) && fs[7].value == SpectralEnergy(x, num.power);
  }

  /** A NaN-free channel gives numeric min, mean and max with min <= mean <= max. */
  lemma ChannelRangeFacts(x: seq<Sample>, ch: nat, num: Numerics)
    requires |x| > 0 && SqrtPositive(num.sqrt) && NaN !in x
    ensures var fs := ChannelFeatures(x, ch, num);
      && fs[0].value.Num? && fs[2].value.Num? && fs[3].value.Num?
      && fs[2].value.x <= fs[0].value.x <= fs[3].value.x
  {
    var fs := ChannelFeatures(x, ch, num);
    assert fs[0].value == Mean(x) && fs[2].value == Min(x) && fs[3].value == Max(x);
    MinMeanMax(x);
  }

  /** A constant channel has no spread: its std is sqrt(0) and its skew and kurtosis are NaN. */
  lemma ConstantChannel(x: seq<Sample>, c: real, ch: nat, num: Numerics)
    requires |x| > 0 && SqrtPositive(num.sqrt)
    requires forall i :: 0 <= i < |x| ==> x[i] == Num(c)
    ensures var fs := ChannelFeatures(x, ch, num);
      fs[1].value == Num(num.sqrt(0.0)) && fs[5].value == NaN && fs[6].value == NaN
  {
    ConstantColumn(x, c, num.sqrt);
  }

  /** Feature 8 * ch + j of a window is statistic j of channel ch, for every channel of the window. */
  lemma WindowFeaturesAt(w: Window, width: nat, num: Numerics, ch: nat, j: nat)
    requires |w| > 0 && IsMatrix(w, width) && SqrtPositive(num.sqrt) && ch < width && j < 8
    ensures WindowFeatures(w, width, num)[8 * ch + j] == ChannelFeatures(Column(w, ch), ch, num)[j]
  {
    FeaturesAt(w, width, width, num, ch, j);
  }

  // ---------------------------------------------------------------------
  // build_features

  /** `int(window_size * (1 - overlap))`: no lower bound, so it can be 0. */
  function RawStep(windowSize: int, overlap: real): int
  {
    Trunc(windowSize as real * (1.0 - overlap))
  }

  /**
   * For a fraction overlap in [0, 1] the step lies in [0, window]; full
   * overlap, or a zero window, gives step 0, which makes windowing raise.
   */
  lemma RawStepBounds(windowSize: int, overlap: real)
    ensures windowSize >= 0 && overlap <= 1.0 ==> RawStep(windowSize, overlap) >= 0
    ensures windowSize >= 0 && 0.0 <= overlap <= 1.0 ==> RawStep(windowSize, overlap) <= windowSize
    ensures overlap == 1.0 ==> RawStep(windowSize, overlap) == 0
    ensures windowSize == 0 ==> RawStep(windowSize, overlap) == 0
  {
    var w := windowSize as real;
    if windowSize >= 0 && overlap >= 0.0 {
      assert w * overlap >= 0.0;
    }
    if windowSize >= 0 && overlap <= 1.0 {
      assert w * (1.0 - overlap) >= 0.0;
    }
  }

  /** A row of the features table: the window's features and its label. */
  datatype LabelledRow = LabelledRow(features: seq<Feature>, y: int)

  /** One output row per window, in window order. */
  function LabelledRows(xs: seq<Window>, ys: seq<int>, width: nat, num: Numerics): (rows: seq<LabelledRow>)
    requires |xs| == |ys| && SqrtPositive(num.sqrt)
    requires forall k :: 0 <= k < |xs| ==> |xs[k]| > 0 && IsMatrix(xs[k], width)
    ensures |rows| == |xs|
    ensures forall k :: 0 <= k < |xs| ==> rows[k] == LabelledRow(WindowFeatures(xs[k], width, num), ys[k])
  {
    seq(|xs|, k requires 0 <= k < |xs| => LabelledRow(WindowFeatures(xs[k], width, num), ys[k]))
  }

  /** The rows of the windows of a matrix, or the error a zero step raises. */
  function FeaturisedWindows(data: seq<seq<Sample>>, labels: seq<int>, L: nat, step: nat, width: nat, num: Numerics): Result<seq<LabelledRow>>
    requires |data| == |labels| && (L >= 1 || step == 0) && IsMatrix(data, width) && SqrtPositive(num.sqrt)
  {
    match ExclusiveWindows(data, labels, L, step)
    case Err(e) => Err(e)
    case Ok(w) =>
      ExclusiveWindowsShape(data, labels, L, step, width);
      Ok(LabelledRows(w.0, w.1, width, num))
  }

  /**
   * Row k of the featurised windows is the features of rows k*step ..
   * k*step + L - 1, which end before the last row, with their mode label.
   */
  lemma FeaturisedAt(data: seq<seq<Sample>>, labels: seq<int>, L: nat, step: nat, width: nat, num: Numerics, k: nat)
    requires |data| == |labels| && L >= 1 && step >= 1 && IsMatrix(data, width) && SqrtPositive(num.sqrt)
    requires k < ExclusiveWindowCount(|data|, L, step)
    ensures k * step + L < |data| && IsMatrix(data[k * step..k * step + L], width)
    ensures FeaturisedWindows(data, labels, L, step, width, num).Ok?
      && |FeaturisedWindows(data, labels, L, step, width, num).value| == ExclusiveWindowCount(|data|, L, step)
    ensures FeaturisedWindows(data, labels, L, step, width, num).value[k]
      == LabelledRow(WindowFeatures(data[k * step..k * step + L], width, num), ModeLabel(labels[k * step..k * step + L]))
  {
    ExclusiveWindowAt(data, labels, L, step, k);
    ExclusiveWindowsShape(data, labels, L, step, width);
  }

  /** The shape `apply_filters` keeps: one filtered row per row, one value per feature column. */
  predicate FilteredShape(df: Frame, filtered: seq<seq<Sample>>)
  {
    |filtered| == |df.cells| && IsMatrix(filtered, |FeatureColumns(df.columns)|)
  }

  /**
   * What `build_features(df, cfg)` returns, given the filtered feature
   * columns: the rows of the windows cut from the table with those columns
   * replaced, or the error a zero step raises.
   */
  function BuiltFeatures(df: Frame, p: Processing, filtered: seq<seq<Sample>>, num: Numerics): Result<seq<LabelledRow>>
    requires WellFormedFrame(df) && FilteredShape(df, filtered) && SqrtPositive(num.sqrt)
    requires WindowSize(p) >= 0 && p.overlap <= 1.0
  {
    var L := WindowSize(p);
    RawStepBounds(L, p.overlap);
    var step: nat := RawStep(L, p.overlap);
    var cols := FeatureColumns(df.columns);
    FeaturisedWindows(Project(ReplaceColumns(df.cells, cols, filtered), cols), df.labels, L, step, |cols|, num)
  }

  /** `build_features(df, cfg)`: replace the feature columns by their filtered values, window, then featurise. */
  method BuildFeatures(df: Frame, p: Processing, filtered: seq<seq<Sample>>, num: Numerics) returns (r: Result<seq<LabelledRow>>)
    requires WellFormedFrame(df) && FilteredShape(df, filtered) && SqrtPositive(num.sqrt)
    requires WindowSize(p) >= 0 && p.overlap <= 1.0
    ensures r == BuiltFeatures(df, p, filtered, num)
  {
    var windowSize := WindowSize(p);
    RawStepBounds(windowSize, p.overlap);
    var stepSize: nat := RawStep(windowSize, p.overlap);
    var featureCols := FeatureColumns(df.columns);
    var dfFiltered := Frame(df.columns, ReplaceColumns(df.cells, featureCols, filtered), df.labels);
    var windows := CreateWindows(dfFiltered, windowSize, stepSize);
    if windows.Err? {
      return Err(windows.error);
    }
    var xWindows, yWindows := windows.value.0, windows.value.1;
    ghost var data := Project(dfFiltered.cells, featureCols);
    ExclusiveWindowsShape(data, df.labels, windowSize, stepSize, |featureCols|);
    var featureList := FeatureRows(xWindows, yWindows, |featureCols|, num);
    r := Ok(featureList);
  }

  /** The feature loop of `build_features`: one row per window, its features and its label. */
  method FeatureRows(xs: seq<Window>, ys: seq<int>, width: nat, num: Numerics) returns (rows: seq<LabelledRow>)
    requires |xs| == |ys| && SqrtPositive(num.sqrt)
    requires forall k :: 0 <= k < |xs| ==> |xs[k]| > 0 && IsMatrix(xs[k], width)
    ensures rows == LabelledRows(xs, ys, width, num)
  {
    rows := [];
    var i := 0;
    while i < |xs|
      invariant i <= |xs|
      invariant |rows| == i
      invariant forall k :: 0 <= k < i ==> rows[k] == LabelledRow(WindowFeatures(xs[k], width, num), ys[k])
    {
      var feats := ExtractFeatures(xs[i], width, num);
      rows := rows + [LabelledRow(feats, ys[i])];
      i := i + 1;
    }
  }

  /** Full overlap or a zero window, and nothing else, makes the step 0 and the build fail with the error `range` raises. */
  lemma BuiltFeaturesFails(df: Frame, p: Processing, filtered: seq<seq<Sample>>, num: Numerics)
    requires WellFormedFrame(df) && FilteredShape(df, filtered) && SqrtPositive(num.sqrt)
    requires WindowSize(p) >= 0 && 0.0 <= p.overlap <= 1.0
    ensures BuiltFeatures(df, p, filtered, num).Err? <==> RawStep(WindowSize(p), p.overlap) == 0
    ensures BuiltFeatures(df, p, filtered, num).Err? ==> BuiltFeatures(df, p, filtered, num).error == ZeroStep
    ensures p.overlap == 1.0 ==> BuiltFeatures(df, p, filtered, num) == Err(ZeroStep)
    ensures WindowSize(p) == 0 ==> BuiltFeatures(df, p, filtered, num) == Err(ZeroStep)
  {
    RawStepBounds(WindowSize(p), p.overlap);
  }

  /**
   * With a non-zero step the build yields one row per window of the
   * filtered columns, ceil((N - L) / step) of them; row k is the featurised
   * window of `filtered` starting at k*step, which ends before the last
   * row, labelled by the mode of the table's labels there.
   */
  lemma BuiltFeaturesRows(df: Frame, p: Processing, filtered: seq<seq<Sample>>, num: Numerics)
    requires WellFormedFrame(df) && FilteredShape(df, filtered) && SqrtPositive(num.sqrt)
    requires WindowSize(p) >= 1 && p.overlap <= 1.0 && RawStep(WindowSize(p), p.overlap) >= 1
    ensures var L, step := WindowSize(p), RawStep(WindowSize(p), p.overlap);
      var width := |FeatureColumns(df.columns)|;
      && BuiltFeatures(df, p, filtered, num) == FeaturisedWindows(filtered, df.labels, L, step, width, num)
      && BuiltFeatures(df, p, filtered, num).Ok?
      && |BuiltFeatures(df, p, filtered, num).value| == ExclusiveWindowCount(|filtered|, L, step)
  {
    var L, step := WindowSize(p), RawStep(WindowSize(p), p.overlap);
    var cols := FeatureColumns(df.columns);
    ProjectReplaced(df.cells, cols, filtered, |df.columns|);
    ExclusiveWindowsCount(filtered, df.labels, L, step);
  }
}
