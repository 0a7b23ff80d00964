// src/utils/data_loader.py: the plain batch loader. It visits the
// `batch_*` directories in sorted name order, tags every sensor row with its
// directory name, joins the labels backward as of each row's time, drops
// the rows left without a label and concatenates the batches.

module DataLoader {
  import opened Tables
  import opened Sequences
  import opened Alignment

  /** `load_batches(data_root)`: the loaded table, or the error `pd.concat` raises when there is no batch. */
  method LoadBatches(root: seq<BatchDir>) returns (r: Result<seq<AlignedRow>>)
    ensures r == LoadedTable(root)
  {
    var dirs := BatchDirs(root);
    var allBatches: seq<seq<AlignedRow>> := [];
    var i := 0;
    while i < |dirs|
      invariant i <= |dirs|
      invariant allBatches == AlignAll(dirs[..i])
    {
      var data := SortWith(dirs[i].motion, RowLe);
      var labels := SortWith(dirs[i].annotations, EventLe);
      var aligned := AlignBatch(data, labels, dirs[i].name);
      AlignAllSnoc(dirs, i);
      allBatches := allBatches + [aligned];
      i := i + 1;
    }
    assert dirs[..|dirs|] == dirs;
    r := Concat(allBatches);
  }

  /** The sensor columns of aligned rows, without their batch tag and label. */
  function SensorRows(rows: seq<AlignedRow>): (s: seq<SensorRow>)
    ensures |s| == |rows|
    ensures forall i :: 0 <= i < |rows| ==> s[i] == SensorRow(rows[i].time, rows[i].values)
  {
    if rows == [] then [] else SensorRows(rows[..|rows| - 1]) + [SensorRow(rows[|rows| - 1].time, rows[|rows| - 1].values)]
  }

  /** The join keeps or drops each sensor row and never reorders them. */
  lemma {:induction false} AlignBatchSubsequence(rows: seq<SensorRow>, events: seq<LabelEvent>, name: string)
    ensures IsSubsequence(SensorRows(AlignBatch(rows, events, name)), rows)
  {
    if rows != [] {
      var p, r := rows[..|rows| - 1], rows[|rows| - 1];
      AlignBatchSubsequence(p, events, name);
      var rest := AlignBatch(p, events, name);
      match AsOfLabel(events, r.time)
      case None =>
        var a := SensorRows(rest);
        if a != [] {
          assert IsSubsequence(a, rows);
        }
      case Some(l) =>
        var a := SensorRows(rest + [AlignedRow(r.time, r.values, name, l)]);
        assert a[..|a| - 1] == SensorRows(rest);
        assert a[|a| - 1] == r;
    }
  }

  /**
   * Within a batch, the surviving rows are a subsequence of the batch's
   * time-sorted sensor rows, so they are in time order, and every one of
   * them carries the batch's name and a 0/1 label.
   */
  lemma BatchRowsOrdered(d: BatchDir)
    ensures IsSubsequence(SensorRows(AlignDir(d)), SortWith(d.motion, RowLe))
    ensures SortedWith(SortWith(d.motion, RowLe), RowLe)
    ensures SortedWith(AlignDir(d), AlignedLe)
    ensures forall o :: o in AlignDir(d) ==> o.batchId == d.name && o.y in {0, 1}
  {
    AlignBatchSubsequence(SortWith(d.motion, RowLe), SortWith(d.annotations, EventLe), d.name);
    RowLeTotalPreorder();
    SortWithSorted(d.motion, RowLe);
    AlignDirFacts(d);
  }
}
