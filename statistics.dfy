// The per-channel statistics the feature extractors compute, over exact
// reals: numpy's mean, population std, min, max, sum of squares and root
// mean square, and scipy's biased skew and Fisher kurtosis. A NaN cell
// makes every statistic NaN, as in numpy. Square root and the rfft power
// sum are taken as parameters.

module Statistics {
  import opened Tables

  /** Column `c` of a window: `window[:, c]`. */
  function Column(w: Window, c: nat): (col: seq<Sample>)
    requires forall r :: 0 <= r < |w| ==> c < |w[r]|
    ensures |col| == |w|
    ensures forall r :: 0 <= r < |w| ==> col[r] == w[r][c]
  {
    if w == [] then [] else Column(w[..|w| - 1], c) + [w[|w| - 1][c]]
  }

  /** The numbers of a NaN-free column. */
  function Reals(s: seq<Sample>): (xs: seq<real>)
    requires NaN !in s
    ensures |xs| == |s|
    ensures forall i :: 0 <= i < |s| ==> s[i] == Num(xs[i])
  {
    if s == [] then [] else Reals(s[..|s| - 1]) + [s[|s| - 1].x]
  }

  function SumR(xs: seq<real>): real
  {
    if xs == [] then 0.0 else SumR(xs[..|xs| - 1]) + xs[|xs| - 1]
  }

  function MeanR(xs: seq<real>): real
    requires |xs| > 0
  {
    SumR(xs) / |xs| as real
  }

  function MinR(xs: seq<real>): (m: real)
    requires |xs| > 0
    ensures m in xs
    ensures forall i :: 0 <= i < |xs| ==> m <= xs[i]
  {
    if |xs| == 1 then xs[0]
    else
      var m := MinR(xs[..|xs| - 1]);
      if xs[|xs| - 1] < m then xs[|xs| - 1] else m
  }

  function MaxR(xs: seq<real>): (m: real)
    requires |xs| > 0
    ensures m in xs
    ensures forall i :: 0 <= i < |xs| ==> xs[i] <= m
  {
    if |xs| == 1 then xs[0]
    else
      var m := MaxR(xs[..|xs| - 1]);
      if xs[|xs| - 1] > m then xs[|xs| - 1] else m
  }

  /** Σ x²: never negative. */
  function SumSqR(xs: seq<real>): (r: real)
    ensures r >= 0.0
  {
    if xs == [] then 0.0 else SumSqR(xs[..|xs| - 1]) + xs[|xs| - 1] * xs[|xs| - 1]
  }

  function Pow(x: real, p: nat): real
  {
    if p == 0 then 1.0 else x * Pow(x, p - 1)
  }

  /** Σ (x - mu)^p. */
  function PowerSum(xs: seq<real>, mu: real, p: nat): real
  {
    if xs == [] then 0.0 else PowerSum(xs[..|xs| - 1], mu, p) + Pow(xs[|xs| - 1] - mu, p)
  }

  /** The p-th central moment, divided by n (numpy's and scipy's biased estimator). */
  function Moment(xs: seq<real>, p: nat): real
    requires |xs| > 0
  {
    PowerSum(xs, MeanR(xs), p) / |xs| as real
  }

  /**
   * The one property of `np.sqrt` the model relies on: the root of a
   * positive number is positive (so a skew denominator is never zero).
   */
  ghost predicate SqrtPositive(sqrt: real -> real)
  {
    forall x :: 0.0 < x ==> 0.0 < sqrt(x)
  }

  predicate Clean(s: seq<Sample>)
  {
    |s| > 0 && NaN !in s
  }

  /** `np.mean`: NaN on an empty column or on any NaN cell. */
  function Mean(s: seq<Sample>): (r: Sample)
    ensures r.NaN? <==> !Clean(s)
  {
    if Clean(s) then Num(MeanR(Reals(s))) else NaN
  }

  /** `np.min` of a non-empty column: NaN if any cell is NaN, else the least number. */
  function Min(s: seq<Sample>): (r: Sample)
    requires |s| > 0
    ensures r.NaN? <==> NaN in s
    ensures r.Num? ==> r in s && forall i :: 0 <= i < |s| ==> r.x <= s[i].x
  {
    if NaN in s then NaN else Num(MinR(Reals(s)))
  }

  /** `np.max` of a non-empty column: NaN if any cell is NaN, else the greatest number. */
  function Max(s: seq<Sample>): (r: Sample)
    requires |s| > 0
    ensures r.NaN? <==> NaN in s
    ensures r.Num? ==> r in s && forall i :: 0 <= i < |s| ==> s[i].x <= r.x
  {
    if NaN in s then NaN else Num(MaxR(Reals(s)))
  }

  /** `np.sum(x**2)`: the energy of a column, 0 when empty, never negative. */
  function SumSquares(s: seq<Sample>): (r: Sample)
    ensures r.NaN? <==> NaN in s
    ensures r.Num? ==> r.x >= 0.0
  {
    if NaN in s then NaN else Num(SumSqR(Reals(s)))
  }

  /** `np.std` (ddof = 0): the square root of the second central moment. */
  function Std(s: seq<Sample>, sqrt: real -> real): (r: Sample)
    ensures r.NaN? <==> !Clean(s)
  {
    if Clean(s) then Num(sqrt(Moment(Reals(s), 2))) else NaN
  }

  /** `np.sqrt(np.mean(x**2))`. */
  function Rms(s: seq<Sample>, sqrt: real -> real): (r: Sample)
    ensures r.NaN? <==> !Clean(s)
  {
    if Clean(s) then Num(sqrt(SumSqR(Reals(s)) / |s| as real)) else NaN
  }

  /**
   * `scipy.stats.skew` (biased): m3 / m2^(3/2), and NaN when the column
   * has no spread (m2 == 0), is empty, or holds a NaN.
   */
  function Skew(s: seq<Sample>, sqrt: real -> real): (r: Sample)
    requires SqrtPositive(sqrt)
    ensures r.NaN? <==> !Clean(s) || Moment(Reals(s), 2) == 0.0
  {
    if !Clean(s) then NaN
    else
      var xs := Reals(s);
      var m2 := Moment(xs, 2);
      if m2 == 0.0 then NaN
      else
        MomentTwoNonNegative(xs);
        assert 0.0 < sqrt(m2);
        assert 0.0 < m2 * sqrt(m2);
        Num(Moment(xs, 3) / (m2 * sqrt(m2)))
  }

  /**
   * `scipy.stats.kurtosis` (Fisher, biased): m4 / m2² - 3, and NaN when the
   * column has no spread, is empty, or holds a NaN.
   */
  function Kurtosis(s: seq<Sample>): (r: Sample)
    ensures r.NaN? <==> !Clean(s) || Moment(Reals(s), 2) == 0.0
  {
    if !Clean(s) then NaN
    else
      var xs := Reals(s);
      var m2 := Moment(xs, 2);
      if m2 == 0.0 then NaN else Num(Moment(xs, 4) / (m2 * m2) - 3.0)
  }

  /** The rfft power sum `np.sum(np.abs(np.fft.rfft(x)) ** 2)`, given the transform's power sum. */
  function SpectralEnergy(s: seq<Sample>, power: seq<real> -> real): (r: Sample)
    ensures r.NaN? <==> NaN in s
  {
    if NaN in s then NaN else Num(power(Reals(s)))
  }

  /** The numeric library routines the model takes as given: `np.sqrt` and the rfft power sum. */
  datatype Numerics = Numerics(sqrt: real -> real, power: seq<real> -> real)

  /** The per-channel statistics the extractors name. */
  datatype StatKind = MeanOf | StdOf | MinOf | MaxOf | RmsOf | SkewOf | KurtosisOf | EnergyOf | SpectralOf

  /** Statistic `k` of one non-empty column. */
  function Statistic(k: StatKind, s: seq<Sample>, num: Numerics): Sample
    requires |s| > 0 && SqrtPositive(num.sqrt)
  {
    match k
    case MeanOf => Mean(s)
    case StdOf => Std(s, num.sqrt)
    case MinOf => Min(s)
    case MaxOf => Max(s)
    case RmsOf => Rms(s, num.sqrt)
    case SkewOf => Skew(s, num.sqrt)
    case KurtosisOf => Kurtosis(s)
    case EnergyOf => SumSquares(s)
    case SpectralOf => SpectralEnergy(s, num.power)
  }

  /** `f(window, axis=0)`: statistic `k` of every channel of a non-empty window, in channel order. */
  function PerChannel(w: Window, width: nat, k: StatKind, num: Numerics): (v: seq<Sample>)
    requires |w| > 0 && IsMatrix(w, width) && SqrtPositive(num.sqrt)
    ensures |v| == width
    ensures forall c :: 0 <= c < width ==> v[c] == Statistic(k, Column(w, c), num)
  {
    seq(width, c requires 0 <= c < width => Statistic(k, Column(w, c), num))
  }

  // ---------------------------------------------------------------------
  // Lemmas

  lemma {:induction false} PowerSumSquaresNonNegative(xs: seq<real>, mu: real)
    ensures PowerSum(xs, mu, 2) >= 0.0
  {
    if xs != [] {
      PowerSumSquaresNonNegative(xs[..|xs| - 1], mu);
      var d := xs[|xs| - 1] - mu;
      assert Pow(d, 1) == d;
      assert Pow(d, 2) == d * d;
    }
  }

  /** The second central moment (the variance) is never negative. */
  lemma MomentTwoNonNegative(xs: seq<real>)
    requires |xs| > 0
    ensures Moment(xs, 2) >= 0.0
  {
    PowerSumSquaresNonNegative(xs, MeanR(xs));
  }

  lemma {:induction false} SumAtLeast(xs: seq<real>, lo: real)
    requires forall i :: 0 <= i < |xs| ==> lo <= xs[i]
    ensures |xs| as real * lo <= SumR(xs)
  {
    if xs != [] {
      var init := xs[..|xs| - 1];
      SumAtLeast(init, lo);
      assert |xs| as real * lo == |init| as real * lo + lo;
    }
  }

  lemma {:induction false} SumAtMost(xs: seq<real>, hi: real)
    requires forall i :: 0 <= i < |xs| ==> xs[i] <= hi
    ensures SumR(xs) <= |xs| as real * hi
  {
    if xs != [] {
      var init := xs[..|xs| - 1];
      SumAtMost(init, hi);
      assert |xs| as real * hi == |init| as real * hi + hi;
    }
  }

  lemma DivBounds(a: real, n: real, lo: real, hi: real)
    requires n > 0.0 && n * lo <= a <= n * hi
    ensures lo <= a / n <= hi
  {
    var q := a / n;
    assert q * n == a;
  }

  /** A mean lies between any lower and upper bound of the values. */
  lemma MeanWithin(xs: seq<real>, lo: real, hi: real)
    requires |xs| > 0
    requires forall i :: 0 <= i < |xs| ==> lo <= xs[i] <= hi
    ensures lo <= MeanR(xs) <= hi
  {
    SumAtLeast(xs, lo);
    SumAtMost(xs, hi);
    DivBounds(SumR(xs), |xs| as real, lo, hi);
  }

  /** Per channel, the minimum is at most the mean and the mean at most the maximum. */
  lemma MinMeanMax(s: seq<Sample>)
    requires Clean(s)
    ensures Min(s).Num? && Mean(s).Num? && Max(s).Num?
    ensures Min(s).x <= Mean(s).x <= Max(s).x
  {
    var xs := Reals(s);
    assert Min(s) == Num(MinR(xs)) && Max(s) == Num(MaxR(xs)) && Mean(s) == Num(MeanR(xs));
    MeanWithin(xs, MinR(xs), MaxR(xs));
  }

  lemma {:induction false} SumConstant(xs: seq<real>, c: real)
    requires forall i :: 0 <= i < |xs| ==> xs[i] == c
    ensures SumR(xs) == |xs| as real * c
  {
    if xs != [] {
      SumConstant(xs[..|xs| - 1], c);
    }
  }

  lemma {:induction false} PowerSumAtConstant(xs: seq<real>, c: real, p: nat)
    requires p >= 1
    requires forall i :: 0 <= i < |xs| ==> xs[i] == c
    ensures PowerSum(xs, c, p) == 0.0
  {
    if xs != [] {
      PowerSumAtConstant(xs[..|xs| - 1], c, p);
      assert Pow(xs[|xs| - 1] - c, p) == 0.0 * Pow(0.0, p - 1);
    }
  }

  /**
   * A constant column has no spread: its std is 0 and scipy's skew and
   * kurtosis are NaN.
   */
  lemma ConstantColumn(s: seq<Sample>, c: real, sqrt: real -> real)
    requires SqrtPositive(sqrt)
    requires |s| > 0 && forall i :: 0 <= i < |s| ==> s[i] == Num(c)
    ensures Std(s, sqrt) == Num(sqrt(0.0))
    ensures Skew(s, sqrt) == NaN && Kurtosis(s) == NaN
  {
    var xs := Reals(s);
    assert NaN !in s by {
      forall i | 0 <= i < |s| ensures s[i] != NaN { }
    }
    SumConstant(xs, c);
    assert MeanR(xs) == c;
    PowerSumAtConstant(xs, c, 2);
    assert Moment(xs, 2) == 0.0;
  }
}
