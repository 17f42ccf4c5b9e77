/** The percentage helper used when the final split is reported. Rounding
    to two decimals is a parameter `round2`. */
module Utils {
  import opened Stats
  import FitnessEvaluator

  /** Each value as a percentage of the total, or 0 everywhere when the total
      is 0. The guard is a truth test on the total, so a negative total is
      divided by. */
  function ScaleToPercent(values: seq<real>, round2: real -> real): (r: seq<real>)
    ensures |r| == |values|
    ensures Sum(values) == 0.0 ==> forall i :: 0 <= i < |values| ==> r[i] == 0.0
    ensures Sum(values) != 0.0 ==>
      forall i :: 0 <= i < |values| ==> r[i] == round2(values[i] / Sum(values) * 100.0)
  {
    var total := Sum(values);
    seq(|values|, i requires 0 <= i < |values| =>
      if total != 0.0 then round2(values[i] / total * 100.0) else 0.0)
  }

  /** Non-negative values with a positive total give percentages in [0, 100],
      given that rounding keeps a value of [0, 100] inside it. */
  lemma PercentBounds(values: seq<real>, round2: real -> real)
    requires forall i :: 0 <= i < |values| ==> values[i] >= 0.0
    requires Sum(values) > 0.0
    requires forall x :: 0.0 <= x <= 100.0 ==> 0.0 <= round2(x) <= 100.0
    ensures forall i :: 0 <= i < |values| ==> 0.0 <= ScaleToPercent(values, round2)[i] <= 100.0
  {
    var t := Sum(values);
    forall i | 0 <= i < |values| ensures 0.0 <= values[i] / t * 100.0 <= 100.0 {
      TermAtMostSum(values, i);
      RatioInUnitInterval(values[i], t);
    }
  }

  /** Multiplying every value by one positive constant changes no percentage. */
  lemma PercentScaleInvariant(values: seq<real>, c: real, round2: real -> real)
    requires c > 0.0
    ensures ScaleToPercent(Scaled(values, c), round2) == ScaleToPercent(values, round2)
  {
    SumScaled(values, c);
    var ys := Scaled(values, c);
    if Sum(values) != 0.0 {
      forall i | 0 <= i < |values| ensures ys[i] / Sum(ys) == values[i] / Sum(values) {
        CancelFactor(c, values[i], Sum(values));
      }
    }
  }

  /** With a positive total, the percentages are the rounded traffic shares
      of the fitness evaluator's normalisation. */
  lemma PercentAgreesWithShares(values: seq<real>, round2: real -> real)
    requires |values| > 0 && Sum(values) > 0.0
    ensures forall i :: 0 <= i < |values| ==>
      ScaleToPercent(values, round2)[i] == round2(FitnessEvaluator.Normalize(values)[i] * 100.0)
  {
  }

  /** With a negative total the two guards part ways: the truth test divides
      by the total, while the normalisation falls back to equal shares. */
  lemma NegativeTotalGuardsDisagree(values: seq<real>, round2: real -> real)
    requires |values| > 0 && Sum(values) < 0.0
    ensures forall i :: 0 <= i < |values| ==>
      ScaleToPercent(values, round2)[i] == round2(values[i] / Sum(values) * 100.0)
    ensures forall i :: 0 <= i < |values| ==>
      FitnessEvaluator.Normalize(values)[i] == 1.0 / |values| as real
  {
    FitnessEvaluator.NormalizeEntries(values);
  }

  /** For instance [-1, -3] is reported as 25 % and 75 %, while the
      normalisation gives [0.5, 0.5]. */
  lemma NegativeTotalExample(round2: real -> real)
    ensures ScaleToPercent([-1.0, -3.0], round2) == [round2(25.0), round2(75.0)]
    ensures FitnessEvaluator.Normalize([-1.0, -3.0]) == [0.5, 0.5]
  {
    var xs := [-1.0, -3.0];
    assert xs[..1] == [-1.0];
    assert Sum(xs) == -4.0;
  }
}
