// The shared data model of the habit-tracking feature pipeline: sensor
// samples, label events, recording batches, aligned rows, windows and
// feature rows, plus the error outcomes the pipeline's library calls raise.

module Tables {

  datatype Option<T> = None | Some(value: T)

  /** The exceptions the modelled code can raise, as values. */
  datatype Error =
    | NoObjectsToConcatenate          // pd.concat of an empty list of frames
    | LeftKeysNotSorted(batch: string) // merge_asof on a left frame not sorted by time
    | ZeroStep                         // range(...) called with a step of 0
    | MissingColumns(missing: set<string>)

  datatype Result<T> = Ok(value: T) | Err(error: Error)

  /** `f` applied to each element, in order. */
  function Map<A, B>(xs: seq<A>, f: A -> B): (ys: seq<B>)
    ensures |ys| == |xs|
    ensures forall k :: 0 <= k < |xs| ==> ys[k] == f(xs[k])
  {
    if xs == [] then [] else Map(xs[..|xs| - 1], f) + [f(xs[|xs| - 1])]
  }

  lemma MapPrefix<A, B>(xs: seq<A>, f: A -> B, n: nat)
    requires n <= |xs|
    ensures Map(xs, f)[..n] == Map(xs[..n], f)
  {
  }

  /** Results in order: all their values, or the error of the first that failed. */
  function Sequenced<T>(rs: seq<Result<T>>): (r: Result<seq<T>>)
    ensures r.Ok? ==> |r.value| == |rs| && forall k :: 0 <= k < |rs| ==> rs[k] == Ok(r.value[k])
    ensures r.Err? ==> exists k :: 0 <= k < |rs| && rs[k] == Err(r.error)
  {
    if rs == [] then Ok([])
    else
      match Sequenced(rs[..|rs| - 1])
      case Err(e) => Err(e)
      case Ok(vs) =>
        match rs[|rs| - 1]
        case Err(e) => Err(e)
        case Ok(v) => Ok(vs + [v])
  }

  /** Once a prefix of the results has failed, the whole sequence fails with the same error. */
  lemma {:induction false} SequencedStops<T>(rs: seq<Result<T>>, n: nat)
    requires n <= |rs| && Sequenced(rs[..n]).Err?
    ensures Sequenced(rs) == Sequenced(rs[..n])
    decreases |rs| - n
  {
    if n < |rs| {
      var p := rs[..|rs| - 1];
      assert p[..n] == rs[..n];
      SequencedStops(p, n);
    } else {
      assert rs[..n] == rs;
    }
  }

  /** One numeric cell of a table: a number, or a float NaN (a missing CSV cell). */
  datatype Sample = Num(x: real) | NaN

  /** One row of a batch's WristMotion file: its `time` and its other value columns. */
  datatype SensorRow = SensorRow(time: int, values: seq<Sample>)

  /** One row of a batch's Annotation file: its `time` and its `text` label. */
  datatype LabelEvent = LabelEvent(time: int, text: string)

  /** One entry of the data root directory: its name and, for a batch, its two files. */
  datatype BatchDir = BatchDir(name: string, motion: seq<SensorRow>, annotations: seq<LabelEvent>)

  /** A sensor row after the as-of join: tagged with its batch and its integer label. */
  datatype AlignedRow = AlignedRow(time: int, values: seq<Sample>, batchId: string, y: int)

  /** A window: rows by channels. */
  type Window = seq<seq<Sample>>

  /** One entry of a feature dictionary, in insertion order. */
  datatype Feature = Feature(name: string, value: Sample)

  /** One row of the feature table handed to training. */
  datatype FeatureRow = FeatureRow(features: seq<Feature>, y: int, batchId: string)

  /** A window cut from a table, with its voted label. */
  datatype Cut = Cut(window: Window, y: int)

  predicate IsMatrix(w: Window, width: nat)
  {
    forall r :: 0 <= r < |w| ==> |w[r]| == width
  }

  /** Every value row has one cell per named column. */
  predicate WellFormedRows(header: seq<string>, rows: seq<SensorRow>)
  {
    forall r :: r in rows ==> |r.values| == |header|
  }

  /** Every batch's motion file has the columns named by `header`. */
  predicate WellFormedDirs(header: seq<string>, dirs: seq<BatchDir>)
  {
    forall d :: d in dirs ==> WellFormedRows(header, d.motion)
  }

  predicate WellFormedTable(header: seq<string>, table: seq<AlignedRow>)
  {
    forall r :: r in table ==> |r.values| == |header|
  }

  function BatchIds(table: seq<AlignedRow>): (ids: seq<string>)
    ensures |ids| == |table|
    ensures forall i :: 0 <= i < |table| ==> ids[i] == table[i].batchId
  {
    if table == [] then [] else BatchIds(table[..|table| - 1]) + [table[|table| - 1].batchId]
  }

  function Labels(table: seq<AlignedRow>): (ls: seq<int>)
    ensures |ls| == |table|
    ensures forall i :: 0 <= i < |table| ==> ls[i] == table[i].y
  {
    if table == [] then [] else Labels(table[..|table| - 1]) + [table[|table| - 1].y]
  }

  /** The rows of one batch, in table order: `df[df["batch_id"] == b]`. */
  function RowsOfBatch(table: seq<AlignedRow>, b: string): (rows: seq<AlignedRow>)
    ensures |rows| <= |table|
    ensures forall r :: r in rows ==> r in table && r.batchId == b
    ensures forall r :: r in table && r.batchId == b ==> r in rows
  {
    if table == [] then []
    else
      var rest := RowsOfBatch(table[..|table| - 1], b);
      if table[|table| - 1].batchId == b then rest + [table[|table| - 1]] else rest
  }
}
