// The `f"ch{ch}_{stat}"` keys of the feature dictionaries, and why keys
// laid out channel by channel never collide.

module FeatureNames {
  import opened Tables
  import opened Sequences

  /** The key `f"ch{ch}_{stat}"`. */
  function FeatureName(ch: nat, stat: string): string
  {
    "ch" + NatToString(ch) + "_" + stat
  }

  /** The position, in a feature name, of each digit of the channel number and of the `_` after it. */
  lemma FeatureNameChars(ch: nat, stat: string)
    ensures var n, d := FeatureName(ch, stat), NatToString(ch);
      && |n| == 3 + |d| + |stat|
      && n[2 + |d|] == '_'
      && (forall i :: 0 <= i < |d| ==> n[2 + i] == d[i])
      && n[3 + |d|..] == stat
      && n[0] == 'c'
  {
  }

  /** Different channels or different statistics never share a feature name. */
  lemma FeatureNameInjective(c1: nat, s1: string, c2: nat, s2: string)
    requires FeatureName(c1, s1) == FeatureName(c2, s2)
    ensures c1 == c2 && s1 == s2
  {
    var d1, d2 := NatToString(c1), NatToString(c2);
    FeatureNameChars(c1, s1);
    FeatureNameChars(c2, s2);
    assert |d1| == |d2|;
    assert d1 == d2;
    NatToStringInjective(c1, c2);
  }

  /** A position is determined by its block and its offset in the block. */
  lemma DivModDetermines(i: nat, j: nat, k: nat)
    requires k > 0 && i / k == j / k && i % k == j % k
    ensures i == j
  {
    assert i == (i / k) * k + i % k;
    assert j == (j / k) * k + j % k;
  }

  /** Names at two different positions of a channel-by-channel layout differ. */
  lemma LaidOutNamesDiffer(stats: seq<string>, i: nat, j: nat)
    requires |stats| > 0 && Distinct(stats) && i != j
    ensures FeatureName(i / |stats|, stats[i % |stats|]) != FeatureName(j / |stats|, stats[j % |stats|])
  {
    var k := |stats|;
    if FeatureName(i / k, stats[i % k]) == FeatureName(j / k, stats[j % k]) {
      FeatureNameInjective(i / k, stats[i % k], j / k, stats[j % k]);
      DivModDetermines(i, j, k);
    }
  }

  /**
   * Names laid out channel by channel, one per statistic in `stats`, are
   * pairwise different and never `label` or `batch_id`.
   */
  lemma LaidOutNamesDistinct(fs: seq<Feature>, stats: seq<string>)
    requires |stats| > 0 && Distinct(stats)
    requires forall i :: 0 <= i < |fs| ==> fs[i].name == FeatureName(i / |stats|, stats[i % |stats|])
    ensures forall i, j :: 0 <= i < j < |fs| ==> fs[i].name != fs[j].name
    ensures forall i :: 0 <= i < |fs| ==> fs[i].name != "label" && fs[i].name != "batch_id"
  {
    forall i, j | 0 <= i < j < |fs| ensures fs[i].name != fs[j].name {
      LaidOutNamesDiffer(stats, i, j);
    }
    forall i | 0 <= i < |fs| ensures fs[i].name != "label" && fs[i].name != "batch_id" {
      FeatureNameChars(i / |stats|, stats[i % |stats|]);
    }
  }
}
