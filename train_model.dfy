// habittracker-ml/src/models/train_model.py: the `train` loop, a
// leave-one-batch-out cross-validation followed by a final fit on every
// row. The classifier and the metric routines are taken as given.

module TrainModel {
  import opened Sequences

  /** The features table: one row of features per window, its label and its batch id. */
  datatype Table<R> = Table(xs: seq<R>, ys: seq<int>, batchIds: seq<string>)

  predicate WellFormed<R>(t: Table<R>)
  {
    |t.xs| == |t.ys| == |t.batchIds|
  }

  /**
   * The classifier and the fold metrics. A classifier built with fixed
   * parameters and a fixed random state fits deterministically, so fitting
   * is a function of the training rows; `score` stands for
   * `log_fold_metrics`, which returns the fold's accuracy and F1.
   */
  datatype Learner<!R, !M> = Learner(
    fit: (seq<R>, seq<int>) -> M,
    predict: (M, seq<R>) -> seq<int>,
    score: (seq<int>, seq<int>, nat) -> (real, real))

  /** `predict` returns one label per row it is given. */
  ghost predicate PredictsEachRow<R(!new), M(!new)>(l: Learner<R, M>)
  {
    forall m, rows :: |l.predict(m, rows)| == |rows|
  }

  /**
   * `s[batch_ids == b]` (keep) or `s[batch_ids != b]` (not keep): the rows
   * whose batch id is b, or the others, in table order.
   */
  function Where<T>(s: seq<T>, ids: seq<string>, b: string, keep: bool): (r: seq<T>)
    requires |s| == |ids|
    ensures |r| <= |s|
  {
    if s == [] then []
    else
      var n := |s| - 1;
      var init := Where(s[..n], ids[..n], b, keep);
      if (ids[n] == b) == keep then init + [s[n]] else init
  }

  /** The rows whose batch id lies in `bs`, in table order. */
  function WhereIn<T>(s: seq<T>, ids: seq<string>, bs: set<string>): (r: seq<T>)
    requires |s| == |ids|
    ensures |r| <= |s|
  {
    if s == [] then []
    else
      var n := |s| - 1;
      var init := WhereIn(s[..n], ids[..n], bs);
      if ids[n] in bs then init + [s[n]] else init
  }

  /** What the cross-validation accumulates: per-fold scores and the pooled held-out labels. */
  datatype CvScores = CvScores(acc: seq<real>, f1: seq<real>, yTrue: seq<int>, yPred: seq<int>)

  /**
   * The folds for the batches `keys`, in order: fold k trains a fresh
   * classifier on every row outside batch keys[k], predicts the rows of
   * that batch, scores them and pools the true and predicted labels.
   */
  function CrossValidation<R, M>(t: Table<R>, l: Learner<R, M>, keys: seq<string>): (cv: CvScores)
    requires WellFormed(t)
    ensures |cv.acc| == |keys| && |cv.f1| == |keys|
  {
    if keys == [] then CvScores([], [], [], [])
    else
      var fold := |keys| - 1;
      var prev := CrossValidation(t, l, keys[..fold]);
      var batch := keys[fold];
      var model := l.fit(Where(t.xs, t.batchIds, batch, false), Where(t.ys, t.batchIds, batch, false));
      var yTest := Where(t.ys, t.batchIds, batch, true);
      var yPred := l.predict(model, Where(t.xs, t.batchIds, batch, true));
      var scores := l.score(yTest, yPred, fold);
      CvScores(prev.acc + [scores.0], prev.f1 + [scores.1], prev.yTrue + yTest, prev.yPred + yPred)
  }

  /**
   * `train(df, cfg)`: one fold per distinct batch id in first-occurrence
   * order, then the final classifier fitted on every row. Metric logging,
   * mlflow and the model export are left out.
   */
  method Train<R, M>(t: Table<R>, l: Learner<R, M>)
    returns (allAcc: seq<real>, allF1: seq<real>, cvYTrue: seq<int>, cvYPred: seq<int>, finalModel: M)
    requires WellFormed(t)
    ensures CvScores(allAcc, allF1, cvYTrue, cvYPred) == CrossValidation(t, l, Unique(t.batchIds))
    ensures finalModel == l.fit(t.xs, t.ys)
  {
    var X, y, batchIds := t.xs, t.ys, t.batchIds;
    allAcc, allF1 := [], [];
    cvYTrue, cvYPred := [], [];
    var batches := Unique(batchIds);
    var fold := 0;
    while fold < |batches|
      invariant fold <= |batches|
      invariant CvScores(allAcc, allF1, cvYTrue, cvYPred) == CrossValidation(t, l, batches[..fold])
    {
      var batch := batches[fold];
      var model := l.fit(Where(X, batchIds, batch, false), Where(y, batchIds, batch, false));
      var yTest := Where(y, batchIds, batch, true);
      var yPred := l.predict(model, Where(X, batchIds, batch, true));
      var scores := l.score(yTest, yPred, fold);
      allAcc := allAcc + [scores.0];
      allF1 := allF1 + [scores.1];
      cvYTrue := cvYTrue + yTest;
      cvYPred := cvYPred + yPred;
      assert batches[..fold + 1][..fold] == batches[..fold];
      fold := fold + 1;
    }
    assert batches[..fold] == batches;
    finalModel := l.fit(X, y);
  }

  // ---------------------------------------------------------------------
  // Folds

  /**
   * `batch_ids.unique()`: the folds are the distinct batch ids, each
   * exactly once, in the order they first occur.
   */
  lemma FoldsAreBatches(ids: seq<string>)
    ensures var keys := Unique(ids);
      && Distinct(keys)
      && (forall b :: b in keys <==> b in ids)
      && InFirstOccurrenceOrder(keys, ids)
  {
    UniqueFirstOccurrences(ids);
  }

  /** The positions 0 .. n - 1. */
  function Range(n: nat): (r: seq<nat>)
    ensures |r| == n && forall i :: 0 <= i < n ==> r[i] == i
  {
    seq(n, i requires 0 <= i < n => i)
  }

  /** Row positions selected by a mask are exactly those whose batch test matches it. */
  lemma {:induction false} WhereRange(ids: seq<string>, b: string, keep: bool, i: nat)
    ensures i in Where(Range(|ids|), ids, b, keep) <==> i < |ids| && (ids[i] == b) == keep
    decreases |ids|
  {
    if ids != [] {
      var n := |ids| - 1;
      assert Range(|ids|)[..n] == Range(n);
      WhereRange(ids[..n], b, keep, i);
    }
  }

  /**
   * `train_idx = batch_ids != b` and `test_idx = batch_ids == b`: every
   * row position is in exactly one of the two, the test rows being those
   * of batch b.
   */
  lemma FoldMasksPartition(ids: seq<string>, b: string)
    ensures var test, train := Where(Range(|ids|), ids, b, true), Where(Range(|ids|), ids, b, false);
      forall i :: 0 <= i < |ids| ==>
        (i in test <==> ids[i] == b) && (i in train <==> ids[i] != b) && (i in test <==> i !in train)
  {
    forall i | 0 <= i < |ids|
      ensures (i in Where(Range(|ids|), ids, b, true) <==> ids[i] == b)
        && (i in Where(Range(|ids|), ids, b, false) <==> ids[i] != b)
    {
      WhereRange(ids, b, true, i);
      WhereRange(ids, b, false, i);
    }
  }

  /** The test and train rows of a fold together are the table's rows, each once. */
  lemma {:induction false} FoldRowsSplit<T>(s: seq<T>, ids: seq<string>, b: string)
    requires |s| == |ids|
    ensures multiset(Where(s, ids, b, true)) + multiset(Where(s, ids, b, false)) == multiset(s)
    ensures |Where(s, ids, b, true)| + |Where(s, ids, b, false)| == |s|
    decreases |s|
  {
    if s != [] {
      var n := |s| - 1;
      FoldRowsSplit(s[..n], ids[..n], b);
      assert s == s[..n] + [s[n]];
      var test, train := Where(s[..n], ids[..n], b, true), Where(s[..n], ids[..n], b, false);
      if ids[n] == b {
        assert Where(s, ids, b, true) == test + [s[n]] && Where(s, ids, b, false) == train;
      } else {
        assert Where(s, ids, b, true) == test && Where(s, ids, b, false) == train + [s[n]];
      }
    }
  }

  // ---------------------------------------------------------------------
  // Pooling

  /** Adding one batch b to a set of batches adds exactly b's rows. */
  lemma {:induction false} WhereInAdd<T>(s: seq<T>, ids: seq<string>, bs: set<string>, b: string)
    requires |s| == |ids| && b !in bs
    ensures multiset(WhereIn(s, ids, bs + {b})) == multiset(WhereIn(s, ids, bs)) + multiset(Where(s, ids, b, true))
    decreases |s|
  {
    if s != [] {
      var n := |s| - 1;
      WhereInAdd(s[..n], ids[..n], bs, b);
    }
  }

  /** Selecting by a set that holds every row's batch keeps the whole table. */
  lemma {:induction false} WhereInAll<T>(s: seq<T>, ids: seq<string>, bs: set<string>)
    requires |s| == |ids| && forall i :: 0 <= i < |ids| ==> ids[i] in bs
    ensures WhereIn(s, ids, bs) == s
    decreases |s|
  {
    if s != [] {
      var n := |s| - 1;
      WhereInAll(s[..n], ids[..n], bs);
      assert s == s[..n] + [s[n]];
    }
  }

  /** Over distinct batches, the pooled true labels are the labels of those batches' rows. */
  lemma {:induction false} PooledOfBatches<R, M>(t: Table<R>, l: Learner<R, M>, keys: seq<string>)
    requires WellFormed(t) && Distinct(keys)
    ensures multiset(CrossValidation(t, l, keys).yTrue) == multiset(WhereIn(t.ys, t.batchIds, set k | k in keys))
  {
    if keys == [] {
      assert (set k | k in keys) == {};
      WhereInNone(t.ys, t.batchIds);
    } else {
      var fold := |keys| - 1;
      var init := keys[..fold];
      PooledOfBatches(t, l, init);
      assert (set k | k in keys) == (set k | k in init) + {keys[fold]};
      WhereInAdd(t.ys, t.batchIds, (set k | k in init), keys[fold]);
    }
  }

  lemma {:induction false} WhereInNone<T>(s: seq<T>, ids: seq<string>)
    requires |s| == |ids|
    ensures WhereIn(s, ids, {}) == []
    decreases |s|
  {
    if s != [] {
      WhereInNone(s[..|s| - 1], ids[..|s| - 1]);
    }
  }

  /**
   * Every row is held out in exactly one fold, so the pooled true labels
   * are a reordering of the label column, of the same length.
   */
  lemma PooledTrueIsPermutation<R, M>(t: Table<R>, l: Learner<R, M>)
    requires WellFormed(t)
    ensures var cv := CrossValidation(t, l, Unique(t.batchIds));
      multiset(cv.yTrue) == multiset(t.ys) && |cv.yTrue| == |t.ys|
  {
    var keys := Unique(t.batchIds);
    PooledOfBatches(t, l, keys);
    forall i | 0 <= i < |t.batchIds| ensures t.batchIds[i] in (set k | k in keys) {
      assert t.batchIds[i] in t.batchIds;
    }
    WhereInAll(t.ys, t.batchIds, (set k | k in keys));
    var cv := CrossValidation(t, l, keys);
    assert |multiset(cv.yTrue)| == |multiset(t.ys)|;
  }

  /** With one prediction per row, the pooled true and predicted labels grow together. */
  lemma {:induction false} PooledLengthsAgree<R(!new), M(!new)>(t: Table<R>, l: Learner<R, M>, keys: seq<string>)
    requires WellFormed(t) && PredictsEachRow(l)
    ensures |CrossValidation(t, l, keys).yPred| == |CrossValidation(t, l, keys).yTrue|
  {
    if keys != [] {
      var fold := |keys| - 1;
      PooledLengthsAgree(t, l, keys[..fold]);
      var batch := keys[fold];
      var model := l.fit(Where(t.xs, t.batchIds, batch, false), Where(t.ys, t.batchIds, batch, false));
      assert |l.predict(model, Where(t.xs, t.batchIds, batch, true))| == |Where(t.xs, t.batchIds, batch, true)|;
      Where2Lengths(t.xs, t.ys, t.batchIds, batch);
    }
  }

  /** The feature rows and the labels of one batch are equally many. */
  lemma {:induction false} Where2Lengths<R>(xs: seq<R>, ys: seq<int>, ids: seq<string>, b: string)
    requires |xs| == |ys| == |ids|
    ensures |Where(xs, ids, b, true)| == |Where(ys, ids, b, true)|
    decreases |ids|
  {
    if ids != [] {
      var n := |ids| - 1;
      Where2Lengths(xs[..n], ys[..n], ids[..n], b);
    }
  }

  /**
   * A table with at least one row gives at least one fold, and one
   * accuracy and one F1 score per distinct batch id.
   */
  lemma OneScorePerFold<R, M>(t: Table<R>, l: Learner<R, M>)
    requires WellFormed(t)
    ensures var cv := CrossValidation(t, l, Unique(t.batchIds));
      |cv.acc| == |cv.f1| == |Unique(t.batchIds)|
      && (|t.batchIds| > 0 ==> |cv.acc| >= 1)
  {
    if |t.batchIds| > 0 {
      assert t.batchIds[0] in Unique(t.batchIds);
    }
  }
}
