/**
 * Weighted averages as the consolidators compute them: a running `weighted_sum` of score times
 * weight and a running `total_weight`, divided at the end.
 */
module Weighting {
  import Sums

  /** One term of the weighted average. */
  datatype Contribution = Contribution(name: string, score: real, weight: real)

  /** One term's share of the weighted sum: its score times its weight. */
  function Share(c: Contribution): real
  {
    c.score * c.weight
  }

  /** `weighted_sum`: the sum of score times weight. */
  function WeightedSum(cs: seq<Contribution>): real
  {
    if |cs| == 0 then 0.0 else WeightedSum(cs[..|cs| - 1]) + Share(cs[|cs| - 1])
  }

  /** `total_weight`: the sum of the weights. */
  function TotalWeight(cs: seq<Contribution>): (w: real)
    requires forall i :: 0 <= i < |cs| ==> cs[i].weight > 0.0
    ensures w >= 0.0 && (w > 0.0 <==> |cs| > 0)
  {
    if |cs| == 0 then 0.0 else TotalWeight(cs[..|cs| - 1]) + cs[|cs| - 1].weight
  }

  /**
   * With positive weights and every score in `[lo, hi]`, the weighted sum lies between `lo` and
   * `hi` times the total weight.
   */
  lemma {:induction false} WeightedSumBounds(cs: seq<Contribution>, lo: real, hi: real)
    requires forall i :: 0 <= i < |cs| ==> cs[i].weight > 0.0 && lo <= cs[i].score <= hi
    ensures TotalWeight(cs) * lo <= WeightedSum(cs) <= TotalWeight(cs) * hi
  {
    if |cs| > 0 {
      WeightedSumBounds(cs[..|cs| - 1], lo, hi);
      BoundsStep(cs, lo, hi);
    } else {
      assert TotalWeight(cs) == 0.0 && WeightedSum(cs) == 0.0;
    }
  }

  /** The bounds for all but the last term extend to all terms. */
  lemma {:induction false} BoundsStep(cs: seq<Contribution>, lo: real, hi: real)
    requires |cs| > 0
    requires forall i :: 0 <= i < |cs| ==> cs[i].weight > 0.0 && lo <= cs[i].score <= hi
    requires TotalWeight(cs[..|cs| - 1]) * lo <= WeightedSum(cs[..|cs| - 1]) <= TotalWeight(cs[..|cs| - 1]) * hi
    ensures TotalWeight(cs) * lo <= WeightedSum(cs) <= TotalWeight(cs) * hi
  {
    var init := cs[..|cs| - 1];
    var c := cs[|cs| - 1];
    assert lo <= c.score <= hi && c.weight > 0.0;
    SumsSnoc(cs);
    WeightedStep(WeightedSum(init), TotalWeight(init), c, lo, hi, WeightedSum(cs), TotalWeight(cs));
  }

  /** Both running sums grow by the last term. */
  lemma {:induction false} SumsSnoc(cs: seq<Contribution>)
    requires |cs| > 0
    requires forall i :: 0 <= i < |cs| ==> cs[i].weight > 0.0
    ensures WeightedSum(cs) == WeightedSum(cs[..|cs| - 1]) + Share(cs[|cs| - 1])
    ensures TotalWeight(cs) == TotalWeight(cs[..|cs| - 1]) + cs[|cs| - 1].weight
  {
  }

  lemma {:induction false} WeightedStep(sum: real, total: real, c: Contribution, lo: real, hi: real, sum': real, total': real)
    requires total * lo <= sum <= total * hi
    requires lo <= c.score <= hi && c.weight > 0.0
    requires sum' == sum + Share(c) && total' == total + c.weight
    ensures total' * lo <= sum' <= total' * hi
  {
    var s, w := c.score, c.weight;
    assert Share(c) == s * w;
    assert (total + w) * lo == total * lo + w * lo;
    assert (total + w) * hi == total * hi + w * hi;
    assert s * w - w * lo == (s - lo) * w;
    assert w * hi - s * w == (hi - s) * w;
  }

  /** `individual_scores`: agent name to score, in table order. */
  function Individual(cs: seq<Contribution>): (r: seq<(string, real)>)
    ensures |r| == |cs| && forall i :: 0 <= i < |cs| ==> r[i] == (cs[i].name, cs[i].score)
  {
    seq(|cs|, i requires 0 <= i < |cs| => (cs[i].name, cs[i].score))
  }

  /** A weighted average with positive weights lies within any bounds of its terms. */
  lemma {:induction false} AverageWithin(cs: seq<Contribution>, lo: real, hi: real)
    requires |cs| > 0
    requires forall i :: 0 <= i < |cs| ==> cs[i].weight > 0.0 && lo <= cs[i].score <= hi
    ensures lo <= WeightedSum(cs) / TotalWeight(cs) <= hi
  {
    WeightedSumBounds(cs, lo, hi);
    Sums.DivBounds(WeightedSum(cs), TotalWeight(cs), lo, hi);
  }
}
