/** The running loss shown during training: `avg_loss`, updated after every training
    step with the weight `1 / (it + 1)` where `it` is the step's index in its epoch. */
module RunningLoss {

  /** The value `avg_loss` holds before the first training step; any negative value
      is taken as "unset". */
  const Unset: real := -1.0

  /** One update of `avg_loss` with the loss of step `it` of the current epoch. */
  function AvgUpdate(avg: real, loss: real, it: nat): (r: real)
    ensures it == 0 ==> r == loss
    ensures avg == loss ==> r == loss
    ensures avg >= 0.0 && loss >= 0.0 ==> r >= 0.0
  {
    if avg < 0.0 then loss
    else
      var factor := 1.0 / (it + 1) as real;
      assert 0.0 < factor <= 1.0;
      assert avg * (1.0 - factor) + avg * factor == avg;
      assert avg >= 0.0 ==> avg * (1.0 - factor) >= 0.0;
      assert loss >= 0.0 ==> loss * factor >= 0.0;
      avg * (1.0 - factor) + loss * factor
  }

  /** The sum of a sequence of losses. */
  function Sum(losses: seq<real>): real
  {
    if losses == [] then 0.0 else Sum(losses[..|losses| - 1]) + losses[|losses| - 1]
  }

  predicate AllNonNegative(losses: seq<real>)
  {
    forall i :: 0 <= i < |losses| ==> losses[i] >= 0.0
  }

  /** `avg_loss` after the steps of one epoch, starting from `start`. */
  function AvgAfter(start: real, losses: seq<real>): real
  {
    if losses == [] then start
    else AvgUpdate(AvgAfter(start, losses[..|losses| - 1]), losses[|losses| - 1], |losses| - 1)
  }

  lemma {:induction false} SumNonNegative(losses: seq<real>)
    requires AllNonNegative(losses)
    ensures Sum(losses) >= 0.0
  {
    if losses != [] {
      SumNonNegative(losses[..|losses| - 1]);
    }
  }

  /** Folding one more value into the mean of `k` values gives the mean of `k + 1`. */
  lemma MeanStep(sum: real, x: real, k: real)
    requires k >= 1.0
    ensures (sum / k) * (1.0 - 1.0 / (k + 1.0)) + x * (1.0 / (k + 1.0)) == (sum + x) / (k + 1.0)
  {
    var n := k + 1.0;
    assert 1.0 - 1.0 / n == k / n;
    assert (sum / k) * (k / n) == sum / n by {
      assert (sum / k) * k == sum;
    }
  }

  /** Over the reals, and for the non-negative losses of a language model, `avg_loss`
      at the end of an epoch is the mean of that epoch's losses, whatever it was before. */
  lemma {:induction false} EpochAverageIsMean(start: real, losses: seq<real>)
    requires |losses| > 0 && AllNonNegative(losses)
    ensures AvgAfter(start, losses) == Sum(losses) / |losses| as real
  {
    var n := |losses|;
    var front, x := losses[..n - 1], losses[n - 1];
    if n == 1 {
      assert front == [];
    } else {
      assert AllNonNegative(front);
      EpochAverageIsMean(start, front);
      SumNonNegative(front);
      var k := (n - 1) as real;
      var prev := Sum(front) / k;
      assert prev >= 0.0;
      assert ((n - 1) + 1) as real == k + 1.0;
      assert AvgAfter(start, losses) == AvgUpdate(prev, x, n - 1);
      MeanStep(Sum(front), x, k);
    }
  }

  /** A constant loss keeps `avg_loss` at that constant from the first step of an epoch on. */
  lemma {:induction false} ConstantLossIsFixed(start: real, c: real, losses: seq<real>)
    requires |losses| > 0
    requires forall i :: 0 <= i < |losses| ==> losses[i] == c
    ensures AvgAfter(start, losses) == c
  {
    var n := |losses|;
    if n > 1 {
      ConstantLossIsFixed(start, c, losses[..n - 1]);
    }
  }
}
