// src/utils/smoothing.py: causal majority smoothing of 0/1 predictions.

module Smoothing {
  import opened Sequences
  import opened Windowing

  /**
   * `preds[max(0, i - window + 1) : i + 1]`: the trailing window ending at
   * i, at most `window` long; Python's slicing makes it empty when the
   * window is not positive.
   */
  function Trailing(preds: seq<int>, window: int, i: nat): (t: seq<int>)
    requires i < |preds|
    ensures window >= 1 ==> |t| == if i + 1 < window then i + 1 else window
    ensures window < 1 ==> t == []
    ensures forall k :: 0 <= k < |t| ==> t[k] == preds[i + 1 - |t| + k]
  {
    var start := if i - window + 1 > 0 then i - window + 1 else 0;
    var lo := if start <= i + 1 then start else i + 1;
    preds[lo..i + 1]
  }

  /** `int(np.mean(preds[start : i + 1]) >= 0.5)`: the mean of an empty slice is NaN, which compares false. */
  function SmoothedAt(preds: seq<int>, window: int, i: nat): (r: int)
    requires i < |preds|
    ensures r == 0 || r == 1
    ensures var t := Trailing(preds, window, i); r == 1 <==> |t| > 0 && 2 * Sum(t) >= |t|
  {
    ThresholdLabel(Trailing(preds, window, i))
  }

  /** The whole smoothed array: one element per prediction. */
  function Smoothed(preds: seq<int>, window: int): (out: seq<int>)
    ensures |out| == |preds|
    ensures forall i :: 0 <= i < |preds| ==> out[i] == SmoothedAt(preds, window, i)
  {
    seq(|preds|, i requires 0 <= i < |preds| => SmoothedAt(preds, window, i))
  }

  /** `smooth_predictions(preds, window)`. */
  method SmoothPredictions(preds: seq<int>, window: int) returns (smoothed: seq<int>)
    ensures smoothed == Smoothed(preds, window)
  {
    smoothed := [];
    var i := 0;
    while i < |preds|
      invariant i <= |preds|
      invariant smoothed == Smoothed(preds[..i], window)
    {
      var start := if i - window + 1 > 0 then i - window + 1 else 0;
      var lo := if start <= i + 1 then start else i + 1;
      var slice := preds[lo..i + 1];
      var bit := if |slice| > 0 && 2 * Sum(slice) >= |slice| then 1 else 0;
      SmoothedPrefix(preds, window, i);
      smoothed := smoothed + [bit];
      i := i + 1;
    }
    assert preds[..i] == preds;
  }

  /** Smoothing a prefix gives the prefix of the smoothing: one more prediction adds exactly one output. */
  lemma SmoothedPrefix(preds: seq<int>, window: int, i: nat)
    requires i < |preds|
    ensures Smoothed(preds[..i + 1], window) == Smoothed(preds[..i], window) + [SmoothedAt(preds, window, i)]
  {
    var a, b := Smoothed(preds[..i + 1], window), Smoothed(preds[..i], window) + [SmoothedAt(preds, window, i)];
    forall k | 0 <= k < i + 1 ensures a[k] == b[k] {
      SmoothedCausal(preds[..i + 1], preds, window, k);
      if k < i {
        SmoothedCausal(preds[..i], preds, window, k);
      }
    }
  }

  /** Causality: output i depends only on predictions 0 .. i. */
  lemma SmoothedCausal(p: seq<int>, q: seq<int>, window: int, i: nat)
    requires i < |p| && i < |q| && p[..i + 1] == q[..i + 1]
    ensures SmoothedAt(p, window, i) == SmoothedAt(q, window, i)
  {
    var tp, tq := Trailing(p, window, i), Trailing(q, window, i);
    assert |tp| == |tq|;
    forall k | 0 <= k < |tp| ensures tp[k] == tq[k] {
      assert p[..i + 1][i + 1 - |tp| + k] == q[..i + 1][i + 1 - |tp| + k];
    }
  }

  predicate AllEqual(s: seq<int>, v: int)
  {
    forall i :: 0 <= i < |s| ==> s[i] == v
  }

  lemma {:induction false} SumOfConstant(s: seq<int>, v: int)
    requires AllEqual(s, v)
    ensures Sum(s) == v * |s|
  {
    if s != [] {
      SumOfConstant(s[..|s| - 1], v);
    }
  }

  /** Output i is 1 exactly when the 1s in its trailing window are at least as many as the 0s. */
  lemma SmoothedMajority(preds: seq<int>, window: int, i: nat)
    requires i < |preds| && Binary(preds) && window >= 1
    ensures var t := Trailing(preds, window, i);
      SmoothedAt(preds, window, i) == 1 <==> Count(t, 1) >= Count(t, 0)
  {
    var t := Trailing(preds, window, i);
    assert Binary(t) by {
      forall k | 0 <= k < |t| ensures t[k] == 0 || t[k] == 1 {
        assert t[k] == preds[i + 1 - |t| + k];
      }
    }
    ThresholdBinary(t);
  }

  /** A window of one leaves 0/1 predictions unchanged. */
  lemma WidthOneIdentity(preds: seq<int>)
    requires Binary(preds)
    ensures Smoothed(preds, 1) == preds
  {
    forall i | 0 <= i < |preds| ensures SmoothedAt(preds, 1, i) == preds[i] {
      var t := Trailing(preds, 1, i);
      assert t == [preds[i]];
      assert Sum(t) == preds[i] by {
        assert t[..0] == [];
      }
    }
  }

  /** All-zero predictions stay all zero, whatever the window. */
  lemma ZerosStayZeros(preds: seq<int>, window: int)
    requires AllEqual(preds, 0)
    ensures Smoothed(preds, window) == preds
  {
    forall i | 0 <= i < |preds| ensures SmoothedAt(preds, window, i) == 0 {
      var t := Trailing(preds, window, i);
      SumOfConstant(t, 0);
    }
  }

  /**
   * All-one predictions stay all one for a positive window; a window of
   * zero or less leaves every slice empty, so every output is 0.
   */
  lemma OnesStayOnes(preds: seq<int>, window: int)
    requires AllEqual(preds, 1)
    ensures window >= 1 ==> Smoothed(preds, window) == preds
    ensures window < 1 ==> AllEqual(Smoothed(preds, window), 0)
  {
    forall i | 0 <= i < |preds| ensures SmoothedAt(preds, window, i) == if window >= 1 then 1 else 0 {
      var t := Trailing(preds, window, i);
      SumOfConstant(t, 1);
    }
  }
}
