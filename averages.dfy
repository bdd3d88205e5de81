/**
  Running averages of durations (integer nanoseconds, never negative, so
  Go's truncating division agrees with Dafny's).

  The captcha and browser controllers count a sample first and then fold
  it in with `(avg * total + d) / (total + 1)`, where `total` already
  includes the new sample (`AsWritten`). A running mean folds the new
  sample in with the count of samples it now covers (`RunningMean`).
*/
module Averages {
  /** The update of `updateMetrics` in the captcha and browser controllers;
      `total` is the count after it was incremented. */
  function AsWritten(avg: int, total: nat, d: int): int
  {
    (avg * total + d) / (total + 1)
  }

  /** The running mean of `total` samples: the mean of the first
      `total - 1` folded with the sample `d`. */
  function RunningMean(avg: int, total: nat, d: int): int
    requires total >= 1
  {
    (avg * (total - 1) + d) / total
  }

  /** The value after folding `samples` in turn from a zero average, with
      the count incremented before each update. */
  function FoldAsWritten(samples: seq<nat>): int
  {
    if |samples| == 0 then 0
    else AsWritten(FoldAsWritten(samples[..|samples| - 1]), |samples|, samples[|samples| - 1])
  }

  /** The running mean of `samples`, folded from the first. */
  function FoldMean(samples: seq<nat>): int
  {
    if |samples| == 0 then 0
    else RunningMean(FoldMean(samples[..|samples| - 1]), |samples|, samples[|samples| - 1])
  }

  /** The recorded "average" of one sample of duration `d` is `d / 2`: for
      any positive `d` it is below the only sample. */
  lemma AsWrittenFirstSample(d: nat)
    ensures FoldAsWritten([d]) == d / 2
    ensures d > 0 ==> FoldAsWritten([d]) < d
  {
    assert [d][..0] == [];
  }

  /** The running mean of one sample is that sample. */
  lemma RunningMeanFirstSample(d: nat)
    ensures FoldMean([d]) == d
  {
    assert [d][..0] == [];
  }

  lemma {:induction false} MulLe(a: int, b: int, c: nat)
    requires a <= b
    ensures a * c <= b * c
  {
    if c > 0 {
      MulLe(a, b, c - 1);
      assert a * c == a * (c - 1) + a;
      assert b * c == b * (c - 1) + b;
    }
  }

  /** `x / k` is at least `lo` when `x` is at least `lo * k`. */
  lemma DivAtLeast(x: int, k: int, lo: int)
    requires k > 0 && lo * k <= x
    ensures lo <= x / k
  {
    var q := x / k;
    if q < lo {
      assert (q + 1) * k == q * k + k;
      MulLe(q + 1, lo, k);
    }
  }

  /** `x / k` is at most `hi` when `x` is at most `hi * k`. */
  lemma DivAtMost(x: int, k: int, hi: int)
    requires k > 0 && x <= hi * k
    ensures x / k <= hi
  {
  }

  /** One update keeps the mean between any bounds that the previous mean
      (when there is one) and the new sample respect. */
  lemma {:induction false} RunningMeanStep(avg: int, total: nat, d: int, lo: int, hi: int)
    requires total >= 1
    requires (total == 1 || lo <= avg <= hi) && lo <= d <= hi
    ensures lo <= RunningMean(avg, total, d) <= hi
  {
    if total > 1 {
      MulLe(lo, avg, total - 1);
      MulLe(avg, hi, total - 1);
      assert lo * total == lo * (total - 1) + lo;
      assert hi * total == hi * (total - 1) + hi;
      DivAtLeast(avg * (total - 1) + d, total, lo);
      DivAtMost(avg * (total - 1) + d, total, hi);
    }
  }

  /** The running mean of any non-empty run of samples lies between their
      least and greatest value; in particular a constant run of `c` has
      mean `c`. */
  lemma {:induction false} FoldMeanBounded(samples: seq<nat>, lo: int, hi: int)
    requires |samples| >= 1
    requires forall i :: 0 <= i < |samples| ==> lo <= samples[i] <= hi
    ensures lo <= FoldMean(samples) <= hi
  {
    var init := samples[..|samples| - 1];
    if |init| >= 1 {
      FoldMeanBounded(init, lo, hi);
    }
    RunningMeanStep(FoldMean(init), |samples|, samples[|samples| - 1], lo, hi);
  }
}
