// Sliding-window segmentation shared by the three `create_windows`
// variants: the window starts of Python's `range(0, stop, step)`, the two
// window-label votes (`int(mean >= 0.5)` and `Series.mode()[0]`), and the
// window counts of the inclusive (`len - L + 1`) and exclusive (`len - L`)
// loop bounds.

module Windowing {
  import opened Tables
  import opened Sequences

  /**
   * A window-label rule: the label a window gets from its rows' labels.
   * The source has two, `ThresholdLabel` (a tie gives 1) and `ModeLabel`
   * (the most frequent label, the smallest on a tie).
   */
  type Vote = seq<int> -> int

  /** `int(mean(ls) >= 0.5)`; the mean of nothing is NaN, which compares false. */
  function ThresholdLabel(ls: seq<int>): (r: int)
    ensures r == 0 || r == 1
  {
    if |ls| > 0 && 2 * Sum(ls) >= |ls| then 1 else 0
  }

  /** The better of two mode candidates: the more frequent, or the smaller on equal counts. */
  function Better(ls: seq<int>, a: int, b: int): int
  {
    if Count(ls, a) > Count(ls, b) then a
    else if Count(ls, b) > Count(ls, a) then b
    else if a <= b then a else b
  }

  function BestOf(ls: seq<int>, cands: seq<int>): int
    requires |cands| > 0
  {
    if |cands| == 1 then cands[0]
    else Better(ls, BestOf(ls, cands[..|cands| - 1]), cands[|cands| - 1])
  }

  /** The best candidate is one of them, and beats or ties-and-precedes every other. */
  lemma {:induction false} BestOfIsBest(ls: seq<int>, cands: seq<int>)
    requires |cands| > 0
    ensures BestOf(ls, cands) in cands
    ensures forall c :: c in cands ==>
      Count(ls, c) < Count(ls, BestOf(ls, cands)) || (Count(ls, c) == Count(ls, BestOf(ls, cands)) && BestOf(ls, cands) <= c)
  {
    if |cands| > 1 {
      var init, last := cands[..|cands| - 1], cands[|cands| - 1];
      BestOfIsBest(ls, init);
      assert cands == init + [last];
    }
  }

  /**
   * `pd.Series(ls).mode()[0]`: `mode` lists every most frequent value in
   * ascending order, so the first is the smallest of them.
   */
  function ModeLabel(ls: seq<int>): int
  {
    if ls == [] then 0 else BestOf(ls, ls)
  }

  /** The mode is a value of the window, no value is more frequent, and it is the smallest of the most frequent. */
  lemma ModeLabelIsMode(ls: seq<int>)
    requires |ls| > 0
    ensures ModeLabel(ls) in ls
    ensures forall v :: Count(ls, v) <= Count(ls, ModeLabel(ls))
    ensures forall v :: Count(ls, v) == Count(ls, ModeLabel(ls)) ==> ModeLabel(ls) <= v
  {
    var m := ModeLabel(ls);
    BestOfIsBest(ls, ls);
    CountPositive(ls, m);
    forall v ensures Count(ls, v) <= Count(ls, m) && (Count(ls, v) == Count(ls, m) ==> m <= v) {
      CountPositive(ls, v);
    }
  }

  predicate Binary(ls: seq<int>)
  {
    forall i :: 0 <= i < |ls| ==> ls[i] == 0 || ls[i] == 1
  }

  /** Over 0/1 labels the threshold vote gives 1 exactly when 1s are at least as many as 0s. */
  lemma ThresholdBinary(ls: seq<int>)
    requires |ls| > 0 && Binary(ls)
    ensures ThresholdLabel(ls) == 1 <==> Count(ls, 1) >= Count(ls, 0)
  {
    BinarySumCount(ls);
  }

  /** Over 0/1 labels the mode vote gives 1 exactly when 1s strictly outnumber 0s. */
  lemma ModeBinary(ls: seq<int>)
    requires |ls| > 0 && Binary(ls)
    ensures ModeLabel(ls) == 0 || ModeLabel(ls) == 1
    ensures ModeLabel(ls) == 1 <==> Count(ls, 1) > Count(ls, 0)
  {
    var m := ModeLabel(ls);
    ModeLabelIsMode(ls);
    var i :| 0 <= i < |ls| && ls[i] == m;
    assert m == 0 || m == 1;
  }

  /** The two votes disagree exactly on a tie, where the mode gives 0 and the threshold 1. */
  lemma VotesDifferOnlyOnTies(ls: seq<int>)
    requires |ls| > 0 && Binary(ls)
    ensures ModeLabel(ls) != ThresholdLabel(ls) <==> Count(ls, 0) == Count(ls, 1)
    ensures Count(ls, 0) == Count(ls, 1) ==> ModeLabel(ls) == 0 && ThresholdLabel(ls) == 1
  {
    ThresholdBinary(ls);
    ModeBinary(ls);
  }

  // ---------------------------------------------------------------------
  // Window starts and counts

  lemma MulMono(x: int, y: int, b: nat)
    requires x <= y
    ensures x * b <= y * b
  {
    var t := y - x;
    assert y * b == x * b + t * b;
  }

  lemma DivIs(a: int, b: int, q: int)
    requires b > 0 && q * b <= a < q * b + b
    ensures a / b == q
  {
    var d, r := a / b, a % b;
    assert a == d * b + r && 0 <= r < b;
    if d > q {
      MulMono(q + 1, d, b);
    } else if d < q {
      MulMono(d + 1, q, b);
    }
  }

  /** One step of `range`: a span n > 0 has one start more than the span n - step. */
  lemma CeilStep(n: int, step: int)
    requires n > 0 && step >= 1
    ensures (if n - step > 0 then (n - step + step - 1) / step else 0) + 1 == (n + step - 1) / step
  {
    if n - step > 0 {
      var q := (n - 1) / step;
      assert q * step <= n - 1 < q * step + step;
      DivIs(n + step - 1, step, q + 1);
    } else {
      DivIs(n + step - 1, step, 1);
    }
  }

  /** ceil((n + 1) / step) == floor(n / step) + 1 for n >= 0. */
  lemma CeilOfSucc(n: nat, step: int)
    requires step >= 1
    ensures (n + 1 + step - 1) / step == n / step + 1
  {
    var q := n / step;
    assert q * step <= n < q * step + step;
    DivIs(n + step, step, q + 1);
  }

  /**
   * The windows `for start in range(first, stop, step)` cuts from a column
   * matrix and its label column, `L` rows each, labelled by `vote`.
   */
  function Cuts(data: seq<seq<Sample>>, labels: seq<int>, L: nat, step: nat, start: nat, stop: int, vote: Vote): seq<Cut>
    requires |data| == |labels| && L >= 1 && step >= 1 && stop <= |data| - L + 1
    decreases stop - start
  {
    if start >= stop then []
    else
      [Cut(data[start..start + L], vote(labels[start..start + L]))]
      + Cuts(data, labels, L, step, start + step, stop, vote)
  }

  /** The number of elements of `range(0, n, step)`, one start at a time. */
  function WindowCount(n: int, step: nat): nat
    requires step >= 1
    decreases n
  {
    if n <= 0 then 0 else 1 + WindowCount(n - step, step)
  }

  /** `range(0, n, step)` has ceil(n / step) elements when n > 0, else none. */
  lemma {:induction false} WindowCountIs(n: int, step: nat)
    requires step >= 1
    ensures WindowCount(n, step) == if n > 0 then (n + step - 1) / step else 0
    decreases n
  {
    if n > 0 {
      WindowCountIs(n - step, step);
      CeilStep(n, step);
    }
  }

  /** One window per start of `range(start, stop, step)`. */
  lemma {:induction false} CutsLength(data: seq<seq<Sample>>, labels: seq<int>, L: nat, step: nat, start: nat, stop: int, vote: Vote)
    requires |data| == |labels| && L >= 1 && step >= 1 && stop <= |data| - L + 1
    ensures |Cuts(data, labels, L, step, start, stop, vote)| == WindowCount(stop - start, step)
    decreases stop - start
  {
    if start < stop {
      CutsLength(data, labels, L, step, start + step, stop, vote);
      assert stop - (start + step) == (stop - start) - step;
    }
  }

  /** `range(start, stop, step)` has ceil((stop - start) / step) elements when stop > start, else none. */
  lemma CutsCount(data: seq<seq<Sample>>, labels: seq<int>, L: nat, step: nat, start: nat, stop: int, vote: Vote)
    requires |data| == |labels| && L >= 1 && step >= 1 && stop <= |data| - L + 1
    ensures |Cuts(data, labels, L, step, start, stop, vote)| == if start < stop then (stop - start + step - 1) / step else 0
  {
    CutsLength(data, labels, L, step, start, stop, vote);
    WindowCountIs(stop - start, step);
  }

  /** One iteration of the `range` loop: the window at `start` is the next one, and the loop moves on by `step`. */
  lemma CutsNext(data: seq<seq<Sample>>, labels: seq<int>, L: nat, step: nat, start: nat, stop: int, vote: Vote,
                  done: seq<Cut>, window: Window, y: int)
    requires |data| == |labels| && L >= 1 && step >= 1 && stop <= |data| - L + 1
    requires start < stop
    requires window == data[start..start + L] && y == vote(labels[start..start + L])
    requires done + Cuts(data, labels, L, step, start, stop, vote) == Cuts(data, labels, L, step, 0, stop, vote)
    ensures (done + [Cut(window, y)]) + Cuts(data, labels, L, step, start + step, stop, vote)
      == Cuts(data, labels, L, step, 0, stop, vote)
  {
  }

  /** The k-th start of `range(start, stop, step)`, counting `step` up k times. */
  function NthStart(start: nat, step: nat, k: nat): nat
    decreases k
  {
    if k == 0 then start else NthStart(start + step, step, k - 1)
  }

  lemma {:induction false} NthStartIs(start: nat, step: nat, k: nat)
    ensures NthStart(start, step, k) == start + k * step
    decreases k
  {
    if k > 0 {
      NthStartIs(start + step, step, k - 1);
      assert (k - 1) * step + step == k * step;
    }
  }

  /** The k-th window starts at the k-th start of the range, below stop, and holds the L rows from there. */
  lemma {:induction false} CutsAtNth(data: seq<seq<Sample>>, labels: seq<int>, L: nat, step: nat, start: nat, stop: int, vote: Vote, k: nat)
    requires |data| == |labels| && L >= 1 && step >= 1 && stop <= |data| - L + 1
    requires k < |Cuts(data, labels, L, step, start, stop, vote)|
    ensures var p := NthStart(start, step, k);
      && p < stop && p + L <= |data|
      && Cuts(data, labels, L, step, start, stop, vote)[k] == Cut(data[p..p + L], vote(labels[p..p + L]))
    decreases stop - start
  {
    if k > 0 {
      CutsAtNth(data, labels, L, step, start + step, stop, vote, k - 1);
    }
  }

  /** The k-th window starts at start + k*step, below stop, and holds the L rows from there. */
  lemma CutsAt(data: seq<seq<Sample>>, labels: seq<int>, L: nat, step: nat, start: nat, stop: int, vote: Vote, k: nat)
    requires |data| == |labels| && L >= 1 && step >= 1 && stop <= |data| - L + 1
    requires k < |Cuts(data, labels, L, step, start, stop, vote)|
    ensures start + k * step < stop && start + k * step + L <= |data|
    ensures Cuts(data, labels, L, step, start, stop, vote)[k]
      == Cut(data[start + k * step..start + k * step + L], vote(labels[start + k * step..start + k * step + L]))
  {
    CutsAtNth(data, labels, L, step, start, stop, vote, k);
    NthStartIs(start, step, k);
  }

  /** The k-th window of `range(0, stop, step)` starts at k * step. */
  lemma CutsFromZeroAt(data: seq<seq<Sample>>, labels: seq<int>, L: nat, step: nat, stop: int, vote: Vote, k: nat)
    requires |data| == |labels| && L >= 1 && step >= 1 && stop <= |data| - L + 1
    requires k < |Cuts(data, labels, L, step, 0, stop, vote)|
    ensures k * step < stop && k * step + L <= |data|
    ensures Cuts(data, labels, L, step, 0, stop, vote)[k]
      == Cut(data[k * step..k * step + L], vote(labels[k * step..k * step + L]))
  {
    CutsAt(data, labels, L, step, 0, stop, vote, k);
  }

  /** Every window has exactly L rows. */
  lemma CutsHaveLRows(data: seq<seq<Sample>>, labels: seq<int>, L: nat, step: nat, stop: int, vote: Vote)
    requires |data| == |labels| && L >= 1 && step >= 1 && stop <= |data| - L + 1
    ensures forall c :: c in Cuts(data, labels, L, step, 0, stop, vote) ==> |c.window| == L
  {
    var cs := Cuts(data, labels, L, step, 0, stop, vote);
    forall c | c in cs ensures |c.window| == L {
      var k :| 0 <= k < |cs| && cs[k] == c;
      CutsAt(data, labels, L, step, 0, stop, vote, k);
    }
  }

  /**
   * The inclusive bound `range(0, n - L + 1, step)` cuts floor((n - L) / step) + 1
   * windows when n >= L, and none otherwise.
   */
  lemma InclusiveCount(data: seq<seq<Sample>>, labels: seq<int>, L: nat, step: nat, vote: Vote)
    requires |data| == |labels| && L >= 1 && step >= 1
    ensures |Cuts(data, labels, L, step, 0, |data| - L + 1, vote)| == if |data| >= L then (|data| - L) / step + 1 else 0
  {
    CutsCount(data, labels, L, step, 0, |data| - L + 1, vote);
    if |data| >= L {
      CeilOfSucc(|data| - L, step);
    }
  }

  /**
   * The exclusive bound `range(0, n - L, step)` cuts ceil((n - L) / step)
   * windows when n > L, and none otherwise; every start stays below n - L, so
   * the full window that starts at n - L is never cut.
   */
  lemma ExclusiveCount(data: seq<seq<Sample>>, labels: seq<int>, L: nat, step: nat, vote: Vote)
    requires |data| == |labels| && L >= 1 && step >= 1
    ensures |Cuts(data, labels, L, step, 0, |data| - L, vote)| == if |data| > L then (|data| - L + step - 1) / step else 0
    ensures forall k :: 0 <= k < |Cuts(data, labels, L, step, 0, |data| - L, vote)| ==> k * step < |data| - L
  {
    CutsCount(data, labels, L, step, 0, |data| - L, vote);
    forall k | 0 <= k < |Cuts(data, labels, L, step, 0, |data| - L, vote)| ensures k * step < |data| - L {
      CutsAt(data, labels, L, step, 0, |data| - L, vote, k);
    }
  }

  /** 250 rows, windows of 50 and a step of 25 give 9 windows under the inclusive bound. */
  lemma InclusiveCountExample(data: seq<seq<Sample>>, labels: seq<int>, vote: Vote)
    requires |data| == |labels| == 250
    ensures |Cuts(data, labels, 50, 25, 0, |data| - 50 + 1, vote)| == 9
  {
    InclusiveCount(data, labels, 50, 25, vote);
  }

  /** 250 rows under the exclusive bound give one window fewer: 8. */
  lemma ExclusiveCountExample(data: seq<seq<Sample>>, labels: seq<int>, vote: Vote)
    requires |data| == |labels| == 250
    ensures |Cuts(data, labels, 50, 25, 0, |data| - 50, vote)| == 8
  {
    ExclusiveCount(data, labels, 50, 25, vote);
  }

  // ---------------------------------------------------------------------
  // Windows cut from the loaded table

  /** The columns of the loaded table a window may select: the motion columns, then `time` and `label`. */
  function CellNames(header: seq<string>): seq<string>
  {
    header + ["time", "label"]
  }

  /**
   * Cell `c` of a loaded row, numbering its columns in `CellNames` order;
   * a position past the last column reads as NaN (callers select existing
   * columns only).
   */
  function Cell(r: AlignedRow, c: nat): Sample
  {
    if c < |r.values| then r.values[c]
    else if c == |r.values| then Num(r.time as real)
    else if c == |r.values| + 1 then Num(r.y as real)
    else NaN
  }

  /** The positions of the named columns, in the order the names are given. */
  function ColumnIndices(names: seq<string>, wanted: seq<string>): (cols: seq<nat>)
    requires forall w :: w in wanted ==> w in names
    ensures |cols| == |wanted|
    ensures forall k :: 0 <= k < |wanted| ==> cols[k] < |names| && names[cols[k]] == wanted[k]
  {
    if wanted == [] then []
    else ColumnIndices(names, wanted[..|wanted| - 1]) + [FirstIndex(names, wanted[|wanted| - 1])]
  }

  /** `frame[cols].values` over a plain matrix: each row restricted to the columns at `cols`. */
  function Project(vs: seq<seq<Sample>>, cols: seq<nat>): (w: Window)
    requires forall i, k :: 0 <= i < |vs| && 0 <= k < |cols| ==> cols[k] < |vs[i]|
    ensures |w| == |vs| && IsMatrix(w, |cols|)
    ensures forall i, k :: 0 <= i < |vs| && 0 <= k < |cols| ==> w[i][k] == vs[i][cols[k]]
  {
    seq(|vs|, i requires 0 <= i < |vs| => seq(|cols|, k requires 0 <= k < |cols| => vs[i][cols[k]]))
  }

  predicate ColumnsFit(width: nat, cols: seq<nat>)
  {
    forall k :: 0 <= k < |cols| ==> cols[k] < width + 2
  }

  /** `batch_df[cols].values`: the loaded rows restricted to the columns at `cols`. */
  function Select(rows: seq<AlignedRow>, cols: seq<nat>): (w: Window)
    ensures |w| == |rows| && IsMatrix(w, |cols|)
    ensures forall i, k :: 0 <= i < |rows| && 0 <= k < |cols| ==> w[i][k] == Cell(rows[i], cols[k])
  {
    seq(|rows|, i requires 0 <= i < |rows| => seq(|cols|, k requires 0 <= k < |cols| => Cell(rows[i], cols[k])))
  }

  /** Selecting columns commutes with taking a run of consecutive rows. */
  lemma SelectSlice(rows: seq<AlignedRow>, cols: seq<nat>, s: nat, e: nat)
    requires s <= e <= |rows|
    ensures Select(rows, cols)[s..e] == Select(rows[s..e], cols)
  {
    var a, b := Select(rows, cols)[s..e], Select(rows[s..e], cols);
    assert |a| == |b|;
    forall i | 0 <= i < |a| ensures a[i] == b[i] {
      assert |a[i]| == |b[i]|;
    }
  }

  lemma {:induction false} LabelsSlice(rows: seq<AlignedRow>, s: nat, e: nat)
    requires s <= e <= |rows|
    ensures Labels(rows)[s..e] == Labels(rows[s..e])
  {
    var c, d := Labels(rows)[s..e], Labels(rows[s..e]);
    assert |c| == |d|;
    forall i | 0 <= i < |c| ensures c[i] == d[i] {
      assert c[i] == rows[s + i].y;
    }
  }

  /** The loop bound of `range(0, bound, step)`: `n - L + 1` when inclusive, `n - L` otherwise. */
  function Stop(n: nat, L: nat, inclusive: bool): int
  {
    if inclusive then n - L + 1 else n - L
  }

  /** The windows cut from one group of rows (one `batch_df`). */
  function BatchCuts(rows: seq<AlignedRow>, cols: seq<nat>, L: nat, step: nat, vote: Vote, inclusive: bool): seq<Cut>
    requires L >= 1 && step >= 1
  {
    Cuts(Select(rows, cols), Labels(rows), L, step, 0, Stop(|rows|, L, inclusive), vote)
  }

  /** A window tagged with the batch it was cut from. */
  datatype TaggedCut = TaggedCut(window: Window, y: int, batchId: string)

  /** The `X`, `y` and `batch_ids` arrays `create_windows` returns. */
  datatype WindowSet = WindowSet(xs: seq<Window>, ys: seq<int>, batchIds: seq<string>)

  /** Tag every window with batch b. */
  function Tag(cuts: seq<Cut>, b: string): seq<TaggedCut>
  {
    if cuts == [] then [] else Tag(cuts[..|cuts| - 1], b) + [TaggedCut(cuts[|cuts| - 1].window, cuts[|cuts| - 1].y, b)]
  }

  /** Tagging keeps every window and label in place and attaches b to each. */
  lemma {:induction false} TagAt(cuts: seq<Cut>, b: string)
    ensures |Tag(cuts, b)| == |cuts|
    ensures forall k :: 0 <= k < |cuts| ==> Tag(cuts, b)[k] == TaggedCut(cuts[k].window, cuts[k].y, b)
  {
    if cuts != [] {
      TagAt(cuts[..|cuts| - 1], b);
    }
  }

  /** Split tagged windows into three parallel arrays. */
  function Untag(ts: seq<TaggedCut>): WindowSet
  {
    if ts == [] then WindowSet([], [], [])
    else
      var w := Untag(ts[..|ts| - 1]);
      var t := ts[|ts| - 1];
      WindowSet(w.xs + [t.window], w.ys + [t.y], w.batchIds + [t.batchId])
  }

  /** The three arrays are parallel: entry k of each comes from tagged window k. */
  lemma {:induction false} UntagAt(ts: seq<TaggedCut>)
    ensures var w := Untag(ts); |w.xs| == |w.ys| == |w.batchIds| == |ts|
    ensures var w := Untag(ts);
      forall k :: 0 <= k < |ts| ==> w.xs[k] == ts[k].window && w.ys[k] == ts[k].y && w.batchIds[k] == ts[k].batchId
  {
    if ts != [] {
      UntagAt(ts[..|ts| - 1]);
    }
  }

  /**
   * Selecting a batch's rows keeps the table's order and its repeated rows:
   * they are a subsequence of the table, and a row carrying b occurs in them
   * as often as in the table, a row carrying another id not at all.
   */
  lemma {:induction false} RowsOfBatchInOrder(table: seq<AlignedRow>, b: string)
    ensures IsSubsequence(RowsOfBatch(table, b), table)
    ensures forall r :: multiset(RowsOfBatch(table, b))[r] == if r.batchId == b then multiset(table)[r] else 0
  {
    if table != [] {
      var p, last := table[..|table| - 1], table[|table| - 1];
      RowsOfBatchInOrder(p, b);
      var rows := RowsOfBatch(table, b);
      assert table == p + [last];
      if last.batchId == b {
        assert rows[..|rows| - 1] == RowsOfBatch(p, b);
      } else if rows != [] {
        assert IsSubsequence(rows, p);
      }
    }
  }

  /** `df.groupby("batch_id")` visits the distinct batch ids in ascending order. */
  function GroupKeys(table: seq<AlignedRow>): seq<string>
  {
    SortWith(Unique(BatchIds(table)), NameLe)
  }

  lemma GroupKeysFacts(table: seq<AlignedRow>)
    ensures Distinct(GroupKeys(table))
    ensures SortedWith(GroupKeys(table), NameLe)
    ensures forall b :: b in GroupKeys(table) <==> exists r :: r in table && r.batchId == b
    ensures GroupKeys(table) == [] <==> table == []
  {
    var u := Unique(BatchIds(table));
    var keys := GroupKeys(table);
    NameLeTotalPreorder();
    SortWithSorted(u, NameLe);
    SameMembers(u, keys);
    SubMultisetDistinct(u, keys);
    BatchIdsHas(table);
    if table != [] {
      assert table[0].batchId in BatchIds(table);
    }
  }

  /** Sequences holding the same multiset hold the same members. */
  lemma SameMembers<T>(a: seq<T>, b: seq<T>)
    requires multiset(a) == multiset(b)
    ensures forall x :: x in a <==> x in b
  {
    forall x ensures x in a <==> x in b {
      assert x in a <==> x in multiset(a);
      assert x in b <==> x in multiset(b);
    }
  }

  /** A batch id occurs in the id column exactly when some row carries it. */
  lemma BatchIdsHas(table: seq<AlignedRow>)
    ensures forall b :: b in BatchIds(table) <==> exists r :: r in table && r.batchId == b
  {
    forall b ensures b in BatchIds(table) <==> exists r :: r in table && r.batchId == b {
      if b in BatchIds(table) {
        var i :| 0 <= i < |table| && BatchIds(table)[i] == b;
        assert table[i] in table;
      }
      if exists r :: r in table && r.batchId == b {
        var r :| r in table && r.batchId == b;
        var i :| 0 <= i < |table| && table[i] == r;
        assert BatchIds(table)[i] == b;
      }
    }
  }

  /** The windows of every group, group by group, each tagged with its batch id. */
  function GroupedCuts(table: seq<AlignedRow>, keys: seq<string>, cols: seq<nat>,
                       L: nat, step: nat, vote: Vote, inclusive: bool): seq<TaggedCut>
    requires L >= 1 && step >= 1
  {
    if keys == [] then []
    else
      var b := keys[|keys| - 1];
      GroupedCuts(table, keys[..|keys| - 1], cols, L, step, vote, inclusive)
      + Tag(BatchCuts(RowsOfBatch(table, b), cols, L, step, vote, inclusive), b)
  }

  /**
   * `window` and `y` are the window of `rows` that starts at row `s`: the
   * start lies below the loop bound, the L rows from there exist, and they
   * are those rows' selected columns and the vote over their labels.
   */
  predicate WindowAt(rows: seq<AlignedRow>, s: nat, cols: seq<nat>, L: nat, vote: Vote, inclusive: bool, window: Window, y: int)
    requires L >= 1
  {
    s < Stop(|rows|, L, inclusive) && s + L <= |rows|
    && window == Select(rows[s..s + L], cols)
    && y == vote(Labels(rows[s..s + L]))
  }

  lemma BatchCutsStart(rows: seq<AlignedRow>, cols: seq<nat>, L: nat, step: nat, vote: Vote, inclusive: bool, j: nat)
    requires L >= 1 && step >= 1
    requires j < |BatchCuts(rows, cols, L, step, vote, inclusive)|
    ensures j * step < Stop(|rows|, L, inclusive) && j * step + L <= |rows|
    ensures BatchCuts(rows, cols, L, step, vote, inclusive)[j]
      == Cut(Select(rows, cols)[j * step..j * step + L], vote(Labels(rows)[j * step..j * step + L]))
  {
    CutsFromZeroAt(Select(rows, cols), Labels(rows), L, step, Stop(|rows|, L, inclusive), vote, j);
  }

  /** The j-th window of a group starts at row j * step. */
  lemma BatchCutsAt(rows: seq<AlignedRow>, cols: seq<nat>, L: nat, step: nat, vote: Vote, inclusive: bool, j: nat)
    requires L >= 1 && step >= 1
    requires j < |BatchCuts(rows, cols, L, step, vote, inclusive)|
    ensures var c := BatchCuts(rows, cols, L, step, vote, inclusive)[j];
      WindowAt(rows, j * step, cols, L, vote, inclusive, c.window, c.y)
  {
    BatchCutsStart(rows, cols, L, step, vote, inclusive, j);
    var c := BatchCuts(rows, cols, L, step, vote, inclusive)[j];
    var s: nat := j * step;
    SelectSlice(rows, cols, s, s + L);
    LabelsSlice(rows, s, s + L);
    assert c.window == Select(rows[s..s + L], cols);
    assert c.y == vote(Labels(rows[s..s + L]));
  }

  /** Window j of a group starts at row j * step. */
  function RowOfWindow(j: nat, step: nat): nat
  {
    j * step
  }

  /**
   * The row at which the k-th tagged window starts inside its own group:
   * `j * step` for the group's j-th window.
   */
  ghost function StartOf(table: seq<AlignedRow>, keys: seq<string>, cols: seq<nat>,
                         L: nat, step: nat, vote: Vote, inclusive: bool, k: nat): nat
    requires L >= 1 && step >= 1
    requires k < |GroupedCuts(table, keys, cols, L, step, vote, inclusive)|
    decreases |keys|
  {
    if |keys| <= 1 then RowOfWindow(k, step)
    else
      var init := GroupedCuts(table, keys[..|keys| - 1], cols, L, step, vote, inclusive);
      if k < |init| then StartOf(table, keys[..|keys| - 1], cols, L, step, vote, inclusive, k)
      else RowOfWindow(k - |init|, step)
  }

  /**
   * The k-th tagged window is L consecutive rows of one batch group: it
   * carries one of the group keys and is the window of that batch's rows
   * starting at `StartOf`, below the loop bound.
   */
  ghost predicate FromOneBatch(table: seq<AlignedRow>, keys: seq<string>, cols: seq<nat>,
                               L: nat, step: nat, vote: Vote, inclusive: bool, k: nat)
    requires L >= 1 && step >= 1
    requires k < |GroupedCuts(table, keys, cols, L, step, vote, inclusive)|
  {
    var t := GroupedCuts(table, keys, cols, L, step, vote, inclusive)[k];
    t.batchId in keys
    && WindowAt(RowsOfBatch(table, t.batchId), StartOf(table, keys, cols, L, step, vote, inclusive, k),
                cols, L, vote, inclusive, t.window, t.y)
  }

  /** Every tagged window comes from one batch group, so no window crosses batches. */
  lemma {:induction false} GroupedCutsFromOneBatch(table: seq<AlignedRow>, keys: seq<string>, cols: seq<nat>,
                                                   L: nat, step: nat, vote: Vote, inclusive: bool, k: nat)
    requires L >= 1 && step >= 1
    requires k < |GroupedCuts(table, keys, cols, L, step, vote, inclusive)|
    ensures FromOneBatch(table, keys, cols, L, step, vote, inclusive, k)
  {
    var init := GroupedCuts(table, keys[..|keys| - 1], cols, L, step, vote, inclusive);
    if k < |init| {
      GroupedCutsFromOneBatch(table, keys[..|keys| - 1], cols, L, step, vote, inclusive, k);
      FromEarlierGroup(table, keys, cols, L, step, vote, inclusive, k);
    } else {
      FromLastGroup(table, keys, cols, L, step, vote, inclusive, k);
    }
  }

  lemma FromEarlierGroup(table: seq<AlignedRow>, keys: seq<string>, cols: seq<nat>,
                         L: nat, step: nat, vote: Vote, inclusive: bool, k: nat)
    requires L >= 1 && step >= 1 && keys != []
    requires k < |GroupedCuts(table, keys[..|keys| - 1], cols, L, step, vote, inclusive)|
    requires FromOneBatch(table, keys[..|keys| - 1], cols, L, step, vote, inclusive, k)
    ensures k < |GroupedCuts(table, keys, cols, L, step, vote, inclusive)|
    ensures FromOneBatch(table, keys, cols, L, step, vote, inclusive, k)
  {
    var init := GroupedCuts(table, keys[..|keys| - 1], cols, L, step, vote, inclusive);
    var b := keys[|keys| - 1];
    var tags := Tag(BatchCuts(RowsOfBatch(table, b), cols, L, step, vote, inclusive), b);
    assert GroupedCuts(table, keys, cols, L, step, vote, inclusive) == init + tags;
    AppendAt(init, tags, k);
    assert init[k].batchId in keys[..|keys| - 1];
  }

  /** Past the earlier groups, the k-th tagged window is window k - |earlier| of the last group, tagged with its key. */
  lemma LastGroupCut(table: seq<AlignedRow>, keys: seq<string>, cols: seq<nat>,
                     L: nat, step: nat, vote: Vote, inclusive: bool, k: nat)
    requires L >= 1 && step >= 1 && keys != []
    requires |GroupedCuts(table, keys[..|keys| - 1], cols, L, step, vote, inclusive)| <= k
    requires k < |GroupedCuts(table, keys, cols, L, step, vote, inclusive)|
    ensures var j := k - |GroupedCuts(table, keys[..|keys| - 1], cols, L, step, vote, inclusive)|;
      var cuts := BatchCuts(RowsOfBatch(table, keys[|keys| - 1]), cols, L, step, vote, inclusive);
      && j < |cuts|
      && GroupedCuts(table, keys, cols, L, step, vote, inclusive)[k] == TaggedCut(cuts[j].window, cuts[j].y, keys[|keys| - 1])
      && StartOf(table, keys, cols, L, step, vote, inclusive, k) == j * step
  {
    var init := GroupedCuts(table, keys[..|keys| - 1], cols, L, step, vote, inclusive);
    var b := keys[|keys| - 1];
    var cuts := BatchCuts(RowsOfBatch(table, b), cols, L, step, vote, inclusive);
    var tags := Tag(cuts, b);
    assert GroupedCuts(table, keys, cols, L, step, vote, inclusive) == init + tags;
    TagAt(cuts, b);
    AppendAt(init, tags, k);
  }

  lemma FromLastGroup(table: seq<AlignedRow>, keys: seq<string>, cols: seq<nat>,
                      L: nat, step: nat, vote: Vote, inclusive: bool, k: nat)
    requires L >= 1 && step >= 1 && keys != []
    requires |GroupedCuts(table, keys[..|keys| - 1], cols, L, step, vote, inclusive)| <= k
    requires k < |GroupedCuts(table, keys, cols, L, step, vote, inclusive)|
    ensures FromOneBatch(table, keys, cols, L, step, vote, inclusive, k)
  {
    var j := k - |GroupedCuts(table, keys[..|keys| - 1], cols, L, step, vote, inclusive)|;
    LastGroupCut(table, keys, cols, L, step, vote, inclusive, k);
    BatchCutsAt(RowsOfBatch(table, keys[|keys| - 1]), cols, L, step, vote, inclusive, j);
  }

  lemma TagSnoc(cuts: seq<Cut>, c: Cut, b: string)
    ensures Tag(cuts + [c], b) == Tag(cuts, b) + [TaggedCut(c.window, c.y, b)]
  {
    assert (cuts + [c])[..|cuts|] == cuts;
  }

  lemma UntagSnoc(ts: seq<TaggedCut>, t: TaggedCut)
    ensures Untag(ts + [t]) == WindowSet(Untag(ts).xs + [t.window], Untag(ts).ys + [t.y], Untag(ts).batchIds + [t.batchId])
  {
    assert (ts + [t])[..|ts|] == ts;
  }

  /** Splitting tagged windows commutes with concatenation. */
  lemma {:induction false} UntagAppend(a: seq<TaggedCut>, b: seq<TaggedCut>)
    ensures Untag(a + b) == WindowSet(Untag(a).xs + Untag(b).xs, Untag(a).ys + Untag(b).ys, Untag(a).batchIds + Untag(b).batchIds)
  {
    if b == [] {
      assert a + b == a;
    } else {
      var init, t := b[..|b| - 1], b[|b| - 1];
      UntagAppend(a, init);
      assert b == init + [t];
      UntagAppendStep(a, init, t);
    }
  }

  lemma UntagAppendStep(a: seq<TaggedCut>, init: seq<TaggedCut>, t: TaggedCut)
    requires Untag(a + init) == WindowSet(Untag(a).xs + Untag(init).xs, Untag(a).ys + Untag(init).ys,
                                          Untag(a).batchIds + Untag(init).batchIds)
    ensures Untag(a + (init + [t])) == WindowSet(Untag(a).xs + Untag(init + [t]).xs, Untag(a).ys + Untag(init + [t]).ys,
                                                 Untag(a).batchIds + Untag(init + [t]).batchIds)
  {
    assert a + (init + [t]) == (a + init) + [t];
    UntagSnoc(a + init, t);
    UntagSnoc(init, t);
    var v, w := Untag(a), Untag(init);
    assert (v.xs + w.xs) + [t.window] == v.xs + (w.xs + [t.window]);
    assert (v.ys + w.ys) + [t.y] == v.ys + (w.ys + [t.y]);
    assert (v.batchIds + w.batchIds) + [t.batchId] == v.batchIds + (w.batchIds + [t.batchId]);
  }

  /** The windows of a list of cuts, in order (`np.array(X)`). */
  function WindowsOf(cuts: seq<Cut>): seq<Window>
  {
    if cuts == [] then [] else WindowsOf(cuts[..|cuts| - 1]) + [cuts[|cuts| - 1].window]
  }

  /** The labels of a list of cuts, in order (`np.array(y)`). */
  function LabelsOf(cuts: seq<Cut>): seq<int>
  {
    if cuts == [] then [] else LabelsOf(cuts[..|cuts| - 1]) + [cuts[|cuts| - 1].y]
  }

  /** `n` copies of a batch id (`batch_ids.append(batch_id)` once per window). */
  function Copies(b: string, n: nat): seq<string>
  {
    if n == 0 then [] else Copies(b, n - 1) + [b]
  }

  /** Element k of the window and label arrays is cut k's window and label. */
  lemma {:induction false} WindowsOfAt(cuts: seq<Cut>)
    ensures |WindowsOf(cuts)| == |cuts| && |LabelsOf(cuts)| == |cuts|
    ensures forall k :: 0 <= k < |cuts| ==> WindowsOf(cuts)[k] == cuts[k].window && LabelsOf(cuts)[k] == cuts[k].y
  {
    if cuts != [] {
      WindowsOfAt(cuts[..|cuts| - 1]);
    }
  }

  /**
   * A window loop over `range(0, stop, step)` that has reached `start` has
   * cut `cuts`: together with the windows still to come they are all of
   * the loop's windows.
   */
  ghost predicate CutSoFar(data: seq<seq<Sample>>, labels: seq<int>, L: nat, step: nat, start: nat, stop: int, vote: Vote, cuts: seq<Cut>)
  {
    && |data| == |labels| && L >= 1 && step >= 1 && stop <= |data| - L + 1
    && cuts + Cuts(data, labels, L, step, start, stop, vote) == Cuts(data, labels, L, step, 0, stop, vote)
  }

  /**
   * One iteration of a window loop: the window at `start` is cut next, and
   * appending it extends the window and label arrays by one entry each.
   */
  lemma CutLoopStep(data: seq<seq<Sample>>, labels: seq<int>, L: nat, step: nat, start: nat, stop: int, vote: Vote, cuts: seq<Cut>)
    requires CutSoFar(data, labels, L, step, start, stop, vote, cuts) && start < stop
    ensures start + L <= |data| && |labels| == |data| && L >= 1
    ensures var c := Cut(data[start..start + L], vote(labels[start..start + L]));
      && CutSoFar(data, labels, L, step, start + step, stop, vote, cuts + [c])
      && WindowsOf(cuts + [c]) == WindowsOf(cuts) + [c.window]
      && LabelsOf(cuts + [c]) == LabelsOf(cuts) + [c.y]
  {
    var c := Cut(data[start..start + L], vote(labels[start..start + L]));
    CutsNext(data, labels, L, step, start, stop, vote, cuts, c.window, c.y);
    assert (cuts + [c])[..|cuts|] == cuts;
  }

  /** Splitting tagged cuts gives their windows, their labels and one batch id per cut. */
  lemma {:induction false} UntagTagIs(cuts: seq<Cut>, b: string)
    ensures Untag(Tag(cuts, b)) == WindowSet(WindowsOf(cuts), LabelsOf(cuts), Copies(b, |cuts|))
  {
    if cuts != [] {
      var init, last := cuts[..|cuts| - 1], cuts[|cuts| - 1];
      UntagTagIs(init, b);
      assert init + [last] == cuts;
      TagSnoc(init, last, b);
      UntagSnoc(Tag(init, b), TaggedCut(last.window, last.y, b));
    }
  }

  /** When a window loop stops, the windows it cut are all of `range(0, stop, step)`'s. */
  lemma WindowLoopDone(data: seq<seq<Sample>>, labels: seq<int>, L: nat, step: nat, start: nat, stop: int, vote: Vote, cuts: seq<Cut>)
    requires CutSoFar(data, labels, L, step, start, stop, vote, cuts) && start >= stop
    ensures |data| == |labels| && L >= 1 && step >= 1 && stop <= |data| - L + 1
    ensures cuts == Cuts(data, labels, L, step, 0, stop, vote)
  {
    assert Cuts(data, labels, L, step, start, stop, vote) == [];
  }
  /** After the loop, the accumulated windows, labels and batch ids are the tagged windows of the whole range, split. */
  lemma WindowLoopExit(data: seq<seq<Sample>>, labels: seq<int>, L: nat, step: nat, start: nat, stop: int, vote: Vote,
                       cuts: seq<Cut>, b: string)
    requires CutSoFar(data, labels, L, step, start, stop, vote, cuts) && start >= stop
    ensures |data| == |labels| && L >= 1 && step >= 1 && stop <= |data| - L + 1
    ensures Untag(Tag(Cuts(data, labels, L, step, 0, stop, vote), b)) == WindowSet(WindowsOf(cuts), LabelsOf(cuts), Copies(b, |cuts|))
  {
    WindowLoopDone(data, labels, L, step, start, stop, vote, cuts);
    UntagTagIs(cuts, b);
  }


  /** The windows of the first g + 1 groups: those of the first g, then group g's. */
  lemma GroupedCutsSnoc(table: seq<AlignedRow>, keys: seq<string>, cols: seq<nat>,
                        L: nat, step: nat, vote: Vote, inclusive: bool, g: nat)
    requires L >= 1 && step >= 1 && g < |keys|
    ensures GroupedCuts(table, keys[..g + 1], cols, L, step, vote, inclusive)
      == GroupedCuts(table, keys[..g], cols, L, step, vote, inclusive)
         + Tag(BatchCuts(RowsOfBatch(table, keys[g]), cols, L, step, vote, inclusive), keys[g])
  {
    assert keys[..g + 1][..g] == keys[..g];
  }

  /**
   * One iteration of the loop over groups: appending group g's windows,
   * labels and batch ids to those of groups 0 .. g - 1 gives those of
   * groups 0 .. g.
   */
  lemma GroupLoopStep(table: seq<AlignedRow>, keys: seq<string>, cols: seq<nat>, L: nat, step: nat, vote: Vote, inclusive: bool,
                      g: nat, prev: WindowSet, next: WindowSet)
    requires L >= 1 && step >= 1 && g < |keys|
    requires prev == Untag(GroupedCuts(table, keys[..g], cols, L, step, vote, inclusive))
    requires next == Untag(Tag(BatchCuts(RowsOfBatch(table, keys[g]), cols, L, step, vote, inclusive), keys[g]))
    ensures WindowSet(prev.xs + next.xs, prev.ys + next.ys, prev.batchIds + next.batchIds)
      == Untag(GroupedCuts(table, keys[..g + 1], cols, L, step, vote, inclusive))
  {
    var done := GroupedCuts(table, keys[..g], cols, L, step, vote, inclusive);
    var tagged := Tag(BatchCuts(RowsOfBatch(table, keys[g]), cols, L, step, vote, inclusive), keys[g]);
    UntagAppend(done, tagged);
    GroupedCutsSnoc(table, keys, cols, L, step, vote, inclusive, g);
  }

  /**
   * The tagged windows a `for batch_id, batch_df in df.groupby("batch_id")`
   * loop cuts, or the error `range` raises on a zero step once the first
   * group is reached.
   */
  function GroupedWindows(table: seq<AlignedRow>, cols: seq<nat>, L: nat, step: nat, vote: Vote, inclusive: bool): Result<seq<TaggedCut>>
    requires L >= 1
  {
    if step == 0 then (if GroupKeys(table) == [] then Ok([]) else Err(ZeroStep))
    else Ok(GroupedCuts(table, GroupKeys(table), cols, L, step, vote, inclusive))
  }

  /** The number of windows one group yields, under either loop bound. */
  lemma BatchCutsCount(rows: seq<AlignedRow>, cols: seq<nat>, L: nat, step: nat, vote: Vote, inclusive: bool)
    requires L >= 1 && step >= 1
    ensures |BatchCuts(rows, cols, L, step, vote, inclusive)| ==
      if inclusive then (if |rows| >= L then (|rows| - L) / step + 1 else 0)
      else (if |rows| > L then (|rows| - L + step - 1) / step else 0)
  {
    if inclusive {
      InclusiveBatchCount(rows, cols, L, step, vote);
    } else {
      ExclusiveBatchCount(rows, cols, L, step, vote);
    }
  }

  lemma InclusiveBatchCount(rows: seq<AlignedRow>, cols: seq<nat>, L: nat, step: nat, vote: Vote)
    requires L >= 1 && step >= 1
    ensures |BatchCuts(rows, cols, L, step, vote, true)| == if |rows| >= L then (|rows| - L) / step + 1 else 0
  {
    var data, labels := Select(rows, cols), Labels(rows);
    assert BatchCuts(rows, cols, L, step, vote, true) == Cuts(data, labels, L, step, 0, |data| - L + 1, vote);
    InclusiveCount(data, labels, L, step, vote);
  }

  lemma ExclusiveBatchCount(rows: seq<AlignedRow>, cols: seq<nat>, L: nat, step: nat, vote: Vote)
    requires L >= 1 && step >= 1
    ensures |BatchCuts(rows, cols, L, step, vote, false)| == if |rows| > L then (|rows| - L + step - 1) / step else 0
  {
    var data, labels := Select(rows, cols), Labels(rows);
    assert BatchCuts(rows, cols, L, step, vote, false) == Cuts(data, labels, L, step, 0, |data| - L, vote);
    ExclusiveCount(data, labels, L, step, vote);
  }

  /** Every window cut from the groups has L rows of |cols| cells. */
  lemma GroupedCutsShape(table: seq<AlignedRow>, keys: seq<string>, cols: seq<nat>,
                         L: nat, step: nat, vote: Vote, inclusive: bool)
    requires L >= 1 && step >= 1
    ensures forall k :: 0 <= k < |GroupedCuts(table, keys, cols, L, step, vote, inclusive)| ==>
      |GroupedCuts(table, keys, cols, L, step, vote, inclusive)[k].window| == L
      && IsMatrix(GroupedCuts(table, keys, cols, L, step, vote, inclusive)[k].window, |cols|)
  {
    var g := GroupedCuts(table, keys, cols, L, step, vote, inclusive);
    forall k | 0 <= k < |g| ensures |g[k].window| == L && IsMatrix(g[k].window, |cols|) {
      GroupedCutsFromOneBatch(table, keys, cols, L, step, vote, inclusive, k);
    }
  }

  /** Filtering rows that all belong to batch b by b keeps them all. */
  lemma {:induction false} RowsOfOneBatch(rows: seq<AlignedRow>, b: string)
    requires forall r :: r in rows ==> r.batchId == b
    ensures RowsOfBatch(rows, b) == rows
  {
    if rows != [] {
      var init := rows[..|rows| - 1];
      assert forall r :: r in init ==> r in rows;
      RowsOfOneBatch(init, b);
      assert rows == init + [rows[|rows| - 1]];
    }
  }

  /** Batch ids that are all b de-duplicate to the single id b. */
  lemma {:induction false} UniqueOfOneBatch(rows: seq<AlignedRow>, b: string)
    requires forall r :: r in rows ==> r.batchId == b
    ensures Unique(BatchIds(rows)) == if rows == [] then [] else [b]
  {
    if rows != [] {
      var init := rows[..|rows| - 1];
      forall r | r in init ensures r.batchId == b {
        assert r in rows;
      }
      UniqueOfOneBatch(init, b);
      var ids := BatchIds(rows);
      assert rows[|rows| - 1] in rows;
      assert ids[|ids| - 1] == b;
      assert ids[..|ids| - 1] == BatchIds(init);
      var u' := Unique(BatchIds(init));
      assert Unique(ids) == if b in u' then u' else u' + [b];
      if init != [] {
        assert b in u';
      }
    }
  }

  /** The rows of one batch form a single group, keyed by that batch (none when there are no rows). */
  lemma GroupKeysOfOneBatch(rows: seq<AlignedRow>, b: string)
    requires forall r :: r in rows ==> r.batchId == b
    ensures GroupKeys(rows) == if rows == [] then [] else [b]
  {
    UniqueOfOneBatch(rows, b);
    if rows != [] {
      var keys := GroupKeys(rows);
      assert |keys| == 1 && multiset(keys) == multiset{b};
      assert keys[0] in multiset(keys);
      assert keys == [b];
    }
  }

  /** The windows grouping cuts from the rows of a single batch: that batch's windows, tagged with it. */
  lemma GroupedCutsOfOneBatch(rows: seq<AlignedRow>, b: string, cols: seq<nat>, L: nat, step: nat, vote: Vote, inclusive: bool)
    requires L >= 1 && step >= 1
    requires forall r :: r in rows ==> r.batchId == b
    ensures GroupedCuts(rows, GroupKeys(rows), cols, L, step, vote, inclusive)
      == if rows == [] then [] else Tag(BatchCuts(rows, cols, L, step, vote, inclusive), b)
  {
    GroupKeysOfOneBatch(rows, b);
    if rows != [] {
      RowsOfOneBatch(rows, b);
      assert [b][..0] == [];
    }
  }
}
