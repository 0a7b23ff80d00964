// Label alignment, shared by the three batch loaders: the `text` label
// mapping, the backward as-of join (`pd.merge_asof(..., direction="backward")`)
// followed by `dropna(subset=["label"])`, the `batch_*` directory listing in
// sorted order, and the per-batch chain used by the two loaders that do not
// clean their input.

module Alignment {
  import opened Tables
  import opened Sequences

  /** `{"no": 0, "yes": 1}` applied with `Series.map`: other text maps to NaN (no label). */
  function LabelOf(text: string): (r: Option<int>)
    ensures text == "no" ==> r == Some(0)
    ensures text == "yes" ==> r == Some(1)
    ensures text != "no" && text != "yes" ==> r == None
  {
    if text == "no" then Some(0) else if text == "yes" then Some(1) else None
  }

  predicate RowLe(a: SensorRow, b: SensorRow) { a.time <= b.time }
  predicate EventLe(a: LabelEvent, b: LabelEvent) { a.time <= b.time }
  predicate AlignedLe(a: AlignedRow, b: AlignedRow) { a.time <= b.time }

  lemma RowLeTotalPreorder()
    ensures TotalPreorder(RowLe)
  {
  }

  lemma EventLeTotalPreorder()
    ensures TotalPreorder(EventLe)
  {
  }

  /**
   * The position of the last event whose time is at or before `t`: the row
   * `merge_asof` picks for a left key `t` when searching backward with exact
   * matches allowed.
   */
  function LastAtOrBefore(events: seq<LabelEvent>, t: int): (r: Option<nat>)
    ensures r.Some? ==> r.value < |events| && events[r.value].time <= t
    ensures r.Some? ==> forall k :: r.value < k < |events| ==> events[k].time > t
    ensures r.None? ==> forall k :: 0 <= k < |events| ==> events[k].time > t
  {
    if events == [] then None
    else if events[|events| - 1].time <= t then Some(|events| - 1)
    else LastAtOrBefore(events[..|events| - 1], t)
  }

  /** The label `merge_asof` attaches to a sensor row at time `t` (None: NaN). */
  function AsOfLabel(events: seq<LabelEvent>, t: int): Option<int>
  {
    match LastAtOrBefore(events, t)
    case None => None
    case Some(j) => LabelOf(events[j].text)
  }

  /**
   * On time-sorted events the matched event is the latest one at or before
   * `t`: no event at or before `t` is later than it.
   */
  lemma {:induction false} AsOfLatest(events: seq<LabelEvent>, t: int)
    requires SortedWith(events, EventLe)
    ensures match LastAtOrBefore(events, t)
      case None => forall k :: 0 <= k < |events| ==> events[k].time > t
      case Some(j) =>
        && events[j].time <= t
        && (forall k :: 0 <= k < |events| && events[k].time <= t ==> k <= j && events[k].time <= events[j].time)
        && AsOfLabel(events, t) == LabelOf(events[j].text)
  {
    match LastAtOrBefore(events, t)
    case None =>
    case Some(j) =>
      forall k | 0 <= k < |events| && events[k].time <= t
        ensures k <= j && events[k].time <= events[j].time
      {
        if k < j { assert EventLe(events[k], events[j]); }
      }
  }

  /** Every label the join produces comes from the label map, so it is 0 or 1. */
  lemma AsOfLabelBinary(events: seq<LabelEvent>, t: int)
    ensures AsOfLabel(events, t).Some? ==> AsOfLabel(events, t).value in {0, 1}
  {
  }

  /**
   * `merge_asof` on `time` (backward), then `dropna(subset=["label"])` and
   * `astype(int)`: each sensor row of batch `name` that finds a mapped
   * label keeps it; the others are dropped.
   */
  function AlignBatch(rows: seq<SensorRow>, events: seq<LabelEvent>, name: string): (out: seq<AlignedRow>)
    ensures |out| <= |rows|
    ensures forall o :: o in out ==>
      && o.batchId == name
      && (o.y == 0 || o.y == 1)
      && AsOfLabel(events, o.time) == Some(o.y)
      && SensorRow(o.time, o.values) in rows
  {
    if rows == [] then []
    else
      var r := rows[|rows| - 1];
      var rest := AlignBatch(rows[..|rows| - 1], events, name);
      match AsOfLabel(events, r.time)
      case None => rest
      case Some(l) => rest + [AlignedRow(r.time, r.values, name, l)]
  }

  /** No labelled sensor row is lost by the join. */
  lemma {:induction false} AlignBatchKeepsLabelled(rows: seq<SensorRow>, events: seq<LabelEvent>, name: string, r: SensorRow)
    requires r in rows && AsOfLabel(events, r.time).Some?
    ensures AlignedRow(r.time, r.values, name, AsOfLabel(events, r.time).value) in AlignBatch(rows, events, name)
  {
    if r != rows[|rows| - 1] {
      assert r in rows[..|rows| - 1];
      AlignBatchKeepsLabelled(rows[..|rows| - 1], events, name, r);
    }
  }

  /** A row is dropped exactly when it finds no label. */
  lemma {:induction false} AlignBatchCount(rows: seq<SensorRow>, events: seq<LabelEvent>, name: string)
    ensures (forall r :: r in rows ==> AsOfLabel(events, r.time).Some?) ==> |AlignBatch(rows, events, name)| == |rows|
    ensures (forall r :: r in rows ==> AsOfLabel(events, r.time).None?) ==> AlignBatch(rows, events, name) == []
  {
    if rows != [] {
      AlignBatchCount(rows[..|rows| - 1], events, name);
      assert rows[|rows| - 1] in rows;
    }
  }

  /** The join keeps the time order of the sensor rows. */
  lemma {:induction false} AlignBatchSorted(rows: seq<SensorRow>, events: seq<LabelEvent>, name: string)
    requires SortedWith(rows, RowLe)
    ensures SortedWith(AlignBatch(rows, events, name), AlignedLe)
  {
    if rows != [] {
      var p := rows[..|rows| - 1];
      var r := rows[|rows| - 1];
      assert SortedWith(p, RowLe);
      AlignBatchSorted(p, events, name);
      var rest := AlignBatch(p, events, name);
      forall o | o in rest ensures o.time <= r.time {
        var i :| 0 <= i < |p| && p[i] == SensorRow(o.time, o.values);
        assert RowLe(rows[i], rows[|rows| - 1]);
      }
      var out := AlignBatch(rows, events, name);
      forall i, j | 0 <= i < j < |out| ensures AlignedLe(out[i], out[j]) {
        if j == |rest| {
          assert out[i] in rest;
        }
      }
    }
  }

  /** Label events at 0 ("no") and 10 ("yes") label sensor rows at 5, 12 and 20 with 0, 1 and 1. */
  lemma AlignExample()
    ensures Labels(AlignBatch(
      [SensorRow(5, []), SensorRow(12, []), SensorRow(20, [])],
      [LabelEvent(0, "no"), LabelEvent(10, "yes")], "batch_1")) == [0, 1, 1]
  {
    var ev := [LabelEvent(0, "no"), LabelEvent(10, "yes")];
    assert AsOfLabel(ev, 5) == Some(0);
    assert AsOfLabel(ev, 12) == Some(1);
    assert AsOfLabel(ev, 20) == Some(1);
    var rows := [SensorRow(5, []), SensorRow(12, []), SensorRow(20, [])];
    assert rows[..2] == [SensorRow(5, []), SensorRow(12, [])];
    assert rows[..2][..1] == [SensorRow(5, [])];
  }

  // ---------------------------------------------------------------------
  // The batch directory listing

  /** `data_root.glob("batch_*")`: the entries whose name starts with "batch_". */
  predicate IsBatchDirName(name: string)
  {
    |name| >= 6 && name[..6] == "batch_"
  }

  function GlobBatches(dirs: seq<BatchDir>): (r: seq<BatchDir>)
    ensures forall d :: d in r <==> d in dirs && IsBatchDirName(d.name)
    ensures multiset(r) <= multiset(dirs)
  {
    if dirs == [] then []
    else
      var rest := GlobBatches(dirs[..|dirs| - 1]);
      assert dirs == dirs[..|dirs| - 1] + [dirs[|dirs| - 1]];
      if IsBatchDirName(dirs[|dirs| - 1].name) then rest + [dirs[|dirs| - 1]] else rest
  }

  predicate DirLe(a: BatchDir, b: BatchDir) { NameLe(a.name, b.name) }

  lemma DirLeTotalPreorder()
    ensures TotalPreorder(DirLe)
  {
    NameLeTotalPreorder();
  }

  /** `sorted(data_root.glob("batch_*"))`. */
  function BatchDirs(dirs: seq<BatchDir>): seq<BatchDir>
  {
    SortWith(GlobBatches(dirs), DirLe)
  }

  /** The batches are exactly the `batch_*` entries, visited in sorted name order. */
  lemma BatchDirsSorted(dirs: seq<BatchDir>)
    ensures SortedWith(BatchDirs(dirs), DirLe)
    ensures multiset(BatchDirs(dirs)) == multiset(GlobBatches(dirs))
    ensures forall d :: d in BatchDirs(dirs) <==> d in dirs && IsBatchDirName(d.name)
  {
    DirLeTotalPreorder();
    SortWithSorted(GlobBatches(dirs), DirLe);
    var b := BatchDirs(dirs);
    forall d ensures d in b <==> d in GlobBatches(dirs) {
      assert d in b <==> d in multiset(b);
    }
  }

  /** One batch of the two plain loaders: sort both files by time, tag, join, drop unlabelled rows. */
  function AlignDir(d: BatchDir): seq<AlignedRow>
  {
    AlignBatch(SortWith(d.motion, RowLe), SortWith(d.annotations, EventLe), d.name)
  }

  /** Every row of a batch's aligned table carries that batch's name and a 0/1 label, in time order. */
  lemma AlignDirFacts(d: BatchDir)
    ensures SortedWith(AlignDir(d), AlignedLe)
    ensures forall o :: o in AlignDir(d) ==> o.batchId == d.name && o.y in {0, 1} && SensorRow(o.time, o.values) in d.motion
  {
    RowLeTotalPreorder();
    SortWithSorted(d.motion, RowLe);
    AlignBatchSorted(SortWith(d.motion, RowLe), SortWith(d.annotations, EventLe), d.name);
    forall o | o in AlignDir(d) ensures SensorRow(o.time, o.values) in d.motion {
      assert SensorRow(o.time, o.values) in multiset(SortWith(d.motion, RowLe));
    }
  }

  function AlignAll(ds: seq<BatchDir>): (ts: seq<seq<AlignedRow>>)
    ensures |ts| == |ds|
  {
    if ds == [] then [] else AlignAll(ds[..|ds| - 1]) + [AlignDir(ds[|ds| - 1])]
  }

  /** Table k of `all_batches` is the aligned table of the k-th directory visited. */
  lemma {:induction false} AlignAllAt(ds: seq<BatchDir>)
    ensures forall k :: 0 <= k < |ds| ==> AlignAll(ds)[k] == AlignDir(ds[k])
  {
    if ds != [] {
      var init := ds[..|ds| - 1];
      AlignAllAt(init);
      forall k | 0 <= k < |ds| ensures AlignAll(ds)[k] == AlignDir(ds[k]) {
        if k < |init| {
          assert ds[k] == init[k];
        }
      }
    }
  }

  /** One more directory aligned: its table follows those of the directories before it. */
  lemma AlignAllSnoc(ds: seq<BatchDir>, i: nat)
    requires i < |ds|
    ensures AlignAll(ds[..i + 1]) == AlignAll(ds[..i]) + [AlignDir(ds[i])]
  {
    assert ds[..i + 1][..i] == ds[..i];
  }

  /** `pd.concat(all_batches, ignore_index=True)`, which raises on an empty list. */
  function Concat(ts: seq<seq<AlignedRow>>): Result<seq<AlignedRow>>
  {
    if ts == [] then Err(NoObjectsToConcatenate) else Ok(Flatten(ts))
  }

  /** The table both plain loaders return. */
  function LoadedTable(dirs: seq<BatchDir>): Result<seq<AlignedRow>>
  {
    Concat(AlignAll(BatchDirs(dirs)))
  }

  /**
   * The loaded table fails only when there is no batch directory; otherwise
   * every row carries the name of the `batch_*` directory it came from, a
   * 0/1 label, and values read from that directory's motion file.
   */
  lemma LoadedTableFacts(dirs: seq<BatchDir>)
    ensures LoadedTable(dirs).Err? <==> GlobBatches(dirs) == []
    ensures LoadedTable(dirs).Ok? ==> forall o :: o in LoadedTable(dirs).value ==>
      exists d :: (d in dirs && IsBatchDirName(d.name) && o.batchId == d.name && o.y in {0, 1}
        && SensorRow(o.time, o.values) in d.motion)
  {
    BatchDirsSorted(dirs);
    if LoadedTable(dirs).Ok? {
      var ds := BatchDirs(dirs);
      forall o | o in LoadedTable(dirs).value
        ensures exists d :: (d in dirs && IsBatchDirName(d.name) && o.batchId == d.name && o.y in {0, 1}
          && SensorRow(o.time, o.values) in d.motion)
      {
        AlignAllAt(ds);
        FlattenMember(AlignAll(ds), o);
        var k :| 0 <= k < |ds| && o in AlignAll(ds)[k];
        AlignDirFacts(ds[k]);
        assert ds[k] in ds;
      }
    }
  }
}
