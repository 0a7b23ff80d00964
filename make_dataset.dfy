// habittracker-ml/src/data/make_dataset.py: `clean_data` (drop duplicate
// rows keeping the first, drop rows with a missing value, sort by a
// `timestamp` column when there is one) and the cleaning batch loader,
// which also returns the list of batch names it visited.

module MakeDataset {
  import opened Tables
  import opened Sequences
  import opened Alignment

  /** `dropna()`: the rows without a NaN cell, in their order. */
  function DropNa(rows: seq<SensorRow>): seq<SensorRow>
  {
    if rows == [] then []
    else
      var rest := DropNa(rows[..|rows| - 1]);
      var r := rows[|rows| - 1];
      if NaN in r.values then rest else rest + [r]
  }

  /** `dropna` keeps exactly the rows without a NaN cell. */
  lemma {:induction false} DropNaMembers(rows: seq<SensorRow>)
    ensures forall r :: r in DropNa(rows) <==> r in rows && NaN !in r.values
  {
    if rows != [] {
      var p := rows[..|rows| - 1];
      DropNaMembers(p);
      assert rows == p + [rows[|rows| - 1]];
    }
  }

  lemma {:induction false} DropNaSubsequence(rows: seq<SensorRow>)
    ensures IsSubsequence(DropNa(rows), rows)
  {
    if rows != [] {
      var p := rows[..|rows| - 1];
      DropNaSubsequence(p);
      var out := DropNa(rows);
      if NaN in rows[|rows| - 1].values {
        if out != [] {
          assert IsSubsequence(out, p);
        }
      } else {
        assert out[..|out| - 1] == DropNa(p);
      }
    }
  }

  /** A table without a NaN cell loses nothing to `dropna`. */
  lemma {:induction false} DropNaOfClean(rows: seq<SensorRow>)
    requires forall r :: r in rows ==> NaN !in r.values
    ensures DropNa(rows) == rows
  {
    if rows != [] {
      var p := rows[..|rows| - 1];
      assert forall r :: r in p ==> r in rows;
      DropNaOfClean(p);
      assert rows[|rows| - 1] in rows;
      assert rows == p + [rows[|rows| - 1]];
    }
  }

  /** The `timestamp` cell of a row read as a number (0 when absent or missing). */
  function TimestampKey(r: SensorRow, col: nat): real
  {
    if col < |r.values| && r.values[col].Num? then r.values[col].x else 0.0
  }

  /** The order `sort_values("timestamp")` sorts by. */
  function TimestampLe(col: nat): (SensorRow, SensorRow) -> bool
  {
    (a: SensorRow, b: SensorRow) => TimestampKey(a, col) <= TimestampKey(b, col)
  }

  lemma TimestampLeTotalPreorder(col: nat)
    ensures TotalPreorder(TimestampLe(col))
  {
  }

  /**
   * `clean_data(df)` on a batch's motion rows, whose value columns are named
   * by `header`: `drop_duplicates()`, then `dropna()`, then
   * `sort_values("timestamp")` when such a column exists.
   */
  function CleanData(header: seq<string>, rows: seq<SensorRow>): seq<SensorRow>
  {
    var kept := DropNa(Unique(rows));
    if "timestamp" in header then SortWith(kept, TimestampLe(FirstIndex(header, "timestamp"))) else kept
  }

  /**
   * Cleaning keeps exactly the input rows without a missing value, each
   * once; the result is sorted by `timestamp` when that column exists, and
   * otherwise lists the rows in the order of their first occurrence.
   */
  lemma CleanDataFacts(header: seq<string>, rows: seq<SensorRow>)
    ensures Distinct(CleanData(header, rows))
    ensures forall r :: r in CleanData(header, rows) <==> r in rows && NaN !in r.values
    ensures multiset(CleanData(header, rows)) <= multiset(rows)
    ensures "timestamp" in header ==> SortedWith(CleanData(header, rows), TimestampLe(FirstIndex(header, "timestamp")))
    ensures "timestamp" !in header ==> InFirstOccurrenceOrder(CleanData(header, rows), rows)
  {
    var u := Unique(rows);
    var kept := DropNa(u);
    UniqueFirstOccurrences(rows);
    DropNaSubsequence(u);
    SubsequenceMultiset(kept, u);
    SubsequenceDistinct(kept, u);
    DropNaMembers(u);
    var out := CleanData(header, rows);
    if "timestamp" in header {
      var col := FirstIndex(header, "timestamp");
      TimestampLeTotalPreorder(col);
      SortWithSorted(kept, TimestampLe(col));
      SubMultisetDistinct(kept, out);
      forall r ensures r in out <==> r in kept {
        assert r in out <==> r in multiset(out);
      }
    } else {
      SubsequenceFirstOccurrence(kept, u, rows);
    }
  }

  /** Cleaning an already cleaned table changes nothing. */
  lemma CleanDataIdempotent(header: seq<string>, rows: seq<SensorRow>)
    ensures CleanData(header, CleanData(header, rows)) == CleanData(header, rows)
  {
    var c := CleanData(header, rows);
    CleanDataFacts(header, rows);
    UniqueOfDistinct(c);
    DropNaOfClean(c);
    if "timestamp" in header {
      SortSortedIdentity(c, TimestampLe(FirstIndex(header, "timestamp")));
    }
  }

  /**
   * One batch: sort both files by time, clean the motion rows, and join;
   * `merge_asof` raises when cleaning left the rows out of time order.
   */
  function CleanAlignDir(header: seq<string>, d: BatchDir): Result<seq<AlignedRow>>
  {
    var data := CleanData(header, SortWith(d.motion, RowLe));
    if !SortedWith(data, RowLe) then Err(LeftKeysNotSorted(d.name))
    else Ok(AlignBatch(data, SortWith(d.annotations, EventLe), d.name))
  }

  /** The batches aligned in order; the first batch that fails stops the loop. */
  function CleanAlignAll(header: seq<string>, ds: seq<BatchDir>): Result<seq<seq<AlignedRow>>>
  {
    Sequenced(Map(ds, d => CleanAlignDir(header, d)))
  }

  function Names(ds: seq<BatchDir>): (ns: seq<string>)
    ensures |ns| == |ds|
    ensures forall k :: 0 <= k < |ds| ==> ns[k] == ds[k].name
  {
    if ds == [] then [] else Names(ds[..|ds| - 1]) + [ds[|ds| - 1].name]
  }

  /** What `load_batches` returns: the concatenated table and the batch names, or the error it raises. */
  function LoadedBatches(header: seq<string>, root: seq<BatchDir>): Result<(seq<AlignedRow>, seq<string>)>
  {
    var ds := BatchDirs(root);
    match CleanAlignAll(header, ds)
    case Err(e) => Err(e)
    case Ok(ts) => if ts == [] then Err(NoObjectsToConcatenate) else Ok((Flatten(ts), Names(ds)))
  }

  /** One more batch aligned: the loop either stops with its error or appends its table. */
  lemma CleanAlignAllStep(header: seq<string>, ds: seq<BatchDir>, i: nat, done: seq<seq<AlignedRow>>)
    requires i < |ds| && CleanAlignAll(header, ds[..i]) == Ok(done)
    ensures CleanAlignAll(header, ds[..i + 1]) ==
      match CleanAlignDir(header, ds[i])
      case Err(e) => Err(e)
      case Ok(t) => Ok(done + [t])
  {
    var f := d => CleanAlignDir(header, d);
    var rs := Map(ds[..i + 1], f);
    assert rs[..i] == Map(ds[..i], f);
    assert rs[i] == CleanAlignDir(header, ds[i]);
  }

  lemma CleanAlignAllStops(header: seq<string>, ds: seq<BatchDir>, n: nat)
    requires n <= |ds| && CleanAlignAll(header, ds[..n]).Err?
    ensures CleanAlignAll(header, ds) == CleanAlignAll(header, ds[..n])
  {
    var f := d => CleanAlignDir(header, d);
    MapPrefix(ds, f, n);
    SequencedStops(Map(ds, f), n);
  }

  /** `load_batches(data_root)`: appends each batch's name and aligned table, then concatenates. */
  method LoadBatches(header: seq<string>, root: seq<BatchDir>) returns (r: Result<(seq<AlignedRow>, seq<string>)>)
    ensures r == LoadedBatches(header, root)
  {
    var dirs := BatchDirs(root);
    var allBatches: seq<seq<AlignedRow>> := [];
    var batchNames: seq<string> := [];
    var i := 0;
    while i < |dirs|
      invariant i <= |dirs|
      invariant CleanAlignAll(header, dirs[..i]) == Ok(allBatches)
      invariant batchNames == Names(dirs[..i])
    {
      assert dirs[..i + 1][..i] == dirs[..i];
      CleanAlignAllStep(header, dirs, i, allBatches);
      batchNames := batchNames + [dirs[i].name];
      var data := CleanData(header, SortWith(dirs[i].motion, RowLe));
      if !SortedWith(data, RowLe) {
        assert CleanAlignDir(header, dirs[i]) == Err(LeftKeysNotSorted(dirs[i].name));
        CleanAlignAllStops(header, dirs, i + 1);
        return Err(LeftKeysNotSorted(dirs[i].name));
      }
      var aligned := AlignBatch(data, SortWith(dirs[i].annotations, EventLe), dirs[i].name);
      assert CleanAlignDir(header, dirs[i]) == Ok(aligned);
      allBatches := allBatches + [aligned];
      i := i + 1;
    }
    assert dirs[..|dirs|] == dirs;
    if allBatches == [] {
      return Err(NoObjectsToConcatenate);
    }
    r := Ok((Flatten(allBatches), batchNames));
  }

  /** Without a `timestamp` column cleaning never reorders a batch, so the join never raises. */
  lemma NoTimestampKeepsTimeOrder(header: seq<string>, d: BatchDir)
    requires "timestamp" !in header
    ensures CleanAlignDir(header, d).Ok?
  {
    var sorted := SortWith(d.motion, RowLe);
    RowLeTotalPreorder();
    SortWithSorted(d.motion, RowLe);
    var u := Unique(sorted);
    UniqueFirstOccurrences(sorted);
    FirstOccurrenceOrderSorted(u, sorted, RowLe);
    DropNaSubsequence(u);
    SubsequenceSorted(DropNa(u), u, RowLe);
  }

  /** Without a `timestamp` column the loader fails only when there is no batch directory. */
  lemma NoTimestampLoads(header: seq<string>, root: seq<BatchDir>)
    requires "timestamp" !in header
    ensures LoadedBatches(header, root).Err? <==> GlobBatches(root) == []
  {
    var ds := BatchDirs(root);
    BatchDirsSorted(root);
    if CleanAlignAll(header, ds).Err? {
      var k :| 0 <= k < |ds| && CleanAlignDir(header, ds[k]) == Err(CleanAlignAll(header, ds).error);
      NoTimestampKeepsTimeOrder(header, ds[k]);
    }
    if ds != [] {
      assert ds[0] in GlobBatches(root);
    }
  }

  /** A batch that aligns yields cleaned, labelled rows of that batch, in time order. */
  lemma CleanAlignDirFacts(header: seq<string>, d: BatchDir)
    requires CleanAlignDir(header, d).Ok?
    ensures SortedWith(CleanAlignDir(header, d).value, AlignedLe)
    ensures forall o :: o in CleanAlignDir(header, d).value ==>
      o.batchId == d.name && o.y in {0, 1} && NaN !in o.values && SensorRow(o.time, o.values) in d.motion
  {
    var sorted := SortWith(d.motion, RowLe);
    var data := CleanData(header, sorted);
    var out := AlignBatch(data, SortWith(d.annotations, EventLe), d.name);
    assert CleanAlignDir(header, d) == Ok(out);
    AlignBatchSorted(data, SortWith(d.annotations, EventLe), d.name);
    CleanDataFacts(header, sorted);
    forall o | o in out
      ensures NaN !in o.values && SensorRow(o.time, o.values) in d.motion
    {
      assert SensorRow(o.time, o.values) in multiset(sorted);
    }
  }

  /**
   * Every loaded row comes from a `batch_*` directory: it carries that
   * directory's name, a 0/1 label and no missing value, and its time and
   * values are a row of the directory's motion file.
   */
  lemma LoadedRowsFacts(header: seq<string>, root: seq<BatchDir>)
    requires LoadedBatches(header, root).Ok?
    ensures forall o :: o in LoadedBatches(header, root).value.0 ==>
      exists d :: (d in root && IsBatchDirName(d.name) && o.batchId == d.name && o.y in {0, 1}
        && NaN !in o.values && SensorRow(o.time, o.values) in d.motion)
  {
    var ds := BatchDirs(root);
    BatchDirsSorted(root);
    var ts := CleanAlignAll(header, ds).value;
    forall o | o in LoadedBatches(header, root).value.0
      ensures exists d :: (d in root && IsBatchDirName(d.name) && o.batchId == d.name && o.y in {0, 1}
        && NaN !in o.values && SensorRow(o.time, o.values) in d.motion)
    {
      FlattenMember(ts, o);
      var k :| 0 <= k < |ts| && o in ts[k];
      assert Map(ds, d => CleanAlignDir(header, d))[k] == Ok(ts[k]);
      CleanAlignDirFacts(header, ds[k]);
      assert ds[k] in ds;
    }
  }

  lemma BatchDirNamesSorted(root: seq<BatchDir>)
    ensures SortedWith(Names(BatchDirs(root)), NameLe)
  {
    var ds := BatchDirs(root);
    BatchDirsSorted(root);
    forall i, j | 0 <= i < j < |ds| ensures NameLe(Names(ds)[i], Names(ds)[j]) {
      assert DirLe(ds[i], ds[j]);
    }
  }

  lemma BatchDirNamesMembers(root: seq<BatchDir>, n: string)
    ensures n in Names(BatchDirs(root)) <==> exists d :: d in root && IsBatchDirName(d.name) && d.name == n
  {
    var ds := BatchDirs(root);
    var names := Names(ds);
    BatchDirsSorted(root);
    if n in names {
      var k :| 0 <= k < |names| && names[k] == n;
      assert ds[k] in ds;
    }
    if exists d :: d in root && IsBatchDirName(d.name) && d.name == n {
      var d :| d in root && IsBatchDirName(d.name) && d.name == n;
      assert d in ds;
      var k :| 0 <= k < |ds| && ds[k] == d;
      assert names[k] == n;
    }
  }

  lemma BatchDirNamesDistinct(root: seq<BatchDir>)
    requires Distinct(Names(root))
    ensures Distinct(Names(BatchDirs(root)))
  {
    var ds := BatchDirs(root);
    BatchDirsSorted(root);
    assert multiset(ds) <= multiset(root);
    NamesDistinctDirs(root);
    SubMultisetDistinct(root, ds);
    forall i, j | 0 <= i < j < |ds| ensures Names(ds)[i] != Names(ds)[j] {
      DistinctDirsFromRoot(root, ds, i, j);
    }
  }

  /** Two different directories drawn from a root with unique names have different names. */
  lemma DistinctDirsFromRoot(root: seq<BatchDir>, ds: seq<BatchDir>, i: nat, j: nat)
    requires Distinct(Names(root)) && Distinct(ds) && multiset(ds) <= multiset(root)
    requires i < j < |ds|
    ensures ds[i].name != ds[j].name
  {
    assert ds[i] in multiset(root) && ds[j] in multiset(root);
    var p :| 0 <= p < |root| && root[p] == ds[i];
    var q :| 0 <= q < |root| && root[q] == ds[j];
    assert Names(root)[p] == ds[i].name && Names(root)[q] == ds[j].name;
  }

  /**
   * The returned batch names are the `batch_*` directories, every one of
   * them (also those whose aligned table is empty), in sorted order, and
   * each once when directory names are unique.
   */
  lemma BatchNamesListed(header: seq<string>, root: seq<BatchDir>)
    requires LoadedBatches(header, root).Ok?
    ensures var names := LoadedBatches(header, root).value.1;
      && SortedWith(names, NameLe)
      && (forall n :: n in names <==> exists d :: d in root && IsBatchDirName(d.name) && d.name == n)
      && (Distinct(Names(root)) ==> Distinct(names))
  {
    assert LoadedBatches(header, root).value.1 == Names(BatchDirs(root));
    BatchDirNamesSorted(root);
    forall n ensures n in Names(BatchDirs(root)) <==> exists d :: d in root && IsBatchDirName(d.name) && d.name == n {
      BatchDirNamesMembers(root, n);
    }
    if Distinct(Names(root)) {
      BatchDirNamesDistinct(root);
    }
  }

  lemma NamesDistinctDirs(ds: seq<BatchDir>)
    requires Distinct(Names(ds))
    ensures Distinct(ds)
  {
    forall i, j | 0 <= i < j < |ds| ensures ds[i] != ds[j] {
      assert Names(ds)[i] != Names(ds)[j];
    }
  }
}
