/** Performance metrics over an equity curve: total return, maximum
    drawdown, annualized return and the Sharpe ratio. The square root and
    the real power are parameters of the model. */
module Metrics {
  import opened Wrappers

  /** `total_return`: the last value of the curve, 0.0 for an empty one. */
  function TotalReturn(equity: seq<real>): (r: real)
    ensures |equity| == 0 ==> r == 0.0
    ensures |equity| > 0 ==> r == equity[|equity| - 1]
  {
    if |equity| > 0 then equity[|equity| - 1] else 0.0
  }

  /** `np.maximum.accumulate`: the running maximum, the high-water mark
      after every point. */
  function HighWater(equity: seq<real>): (hw: seq<real>)
    ensures |hw| == |equity|
  {
    if |equity| == 0 then []
    else
      var prev := HighWater(equity[..|equity| - 1]);
      var last := equity[|equity| - 1];
      prev + [if |prev| == 0 then last else Max(prev[|prev| - 1], last)]
  }

  /** The smallest value of a non-empty sequence. */
  function MinOf(s: seq<real>): (m: real)
    requires |s| > 0
    ensures forall k :: 0 <= k < |s| ==> m <= s[k]
    ensures exists k :: 0 <= k < |s| && m == s[k]
  {
    if |s| == 1 then s[0]
    else
      var rest := MinOf(s[..|s| - 1]);
      assert forall k :: 0 <= k < |s| - 1 ==> s[..|s| - 1][k] == s[k];
      Min(rest, s[|s| - 1])
  }

  /** `max_drawdown`: the lowest `equity[i] - max(equity[..i+1])`, and
      0.0 for an empty curve. */
  function MaxDrawdown(equity: seq<real>): (r: real)
    ensures |equity| == 0 ==> r == 0.0
  {
    if |equity| == 0 then 0.0
    else
      MinOf(Drawdowns(equity))
  }

  /** The drawdown at point `i`: how far the curve is below the highest
      value seen so far. */
  ghost function DrawdownAt(equity: seq<real>, i: nat): real
    requires i < |equity|
  {
    equity[i] - SeqMax(equity[..i + 1])
  }

  /** The largest value of a non-empty sequence. */
  ghost function SeqMax(s: seq<real>): real
    requires |s| > 0
  {
    if |s| == 1 then s[0] else Max(SeqMax(s[..|s| - 1]), s[|s| - 1])
  }

  /** `SeqMax` is an upper bound that is reached. */
  lemma {:induction false} SeqMaxIsMax(s: seq<real>)
    requires |s| > 0
    ensures forall k :: 0 <= k < |s| ==> s[k] <= SeqMax(s)
    ensures exists k :: 0 <= k < |s| && SeqMax(s) == s[k]
  {
    if |s| > 1 {
      var front := s[..|s| - 1];
      SeqMaxIsMax(front);
      assert forall k :: 0 <= k < |s| - 1 ==> front[k] == s[k];
      var k :| 0 <= k < |front| && SeqMax(front) == front[k];
      if SeqMax(s) != s[|s| - 1] {
        assert SeqMax(s) == s[k];
      } else {
        assert SeqMax(s) == s[|s| - 1];
      }
    } else {
      assert SeqMax(s) == s[0];
    }
  }

  /** The running maximum at `i` is the largest of the first `i + 1`
      points. */
  lemma {:induction false} HighWaterIsPrefixMax(equity: seq<real>, i: nat)
    requires i < |equity|
    ensures HighWater(equity)[i] == SeqMax(equity[..i + 1])
    decreases |equity|
  {
    var n := |equity|;
    var prev := equity[..n - 1];
    if i < n - 1 {
      HighWaterIsPrefixMax(prev, i);
      HighWaterUnfold(equity);
      assert HighWater(equity)[i] == HighWater(equity)[..n - 1][i];
      assert prev[..i + 1] == equity[..i + 1];
    } else if n > 1 {
      HighWaterIsPrefixMax(prev, n - 2);
      HighWaterUnfold(equity);
      assert prev[..n - 1] == prev;
      assert equity[..n] == equity;
    } else {
      assert equity[..1] == [equity[0]];
    }
  }

  /** One step of the running maximum. */
  lemma HighWaterUnfold(equity: seq<real>)
    requires |equity| > 1
    ensures var n := |equity|;
      var prev := HighWater(equity[..n - 1]);
      && HighWater(equity)[..n - 1] == prev
      && HighWater(equity)[n - 1] == Max(prev[n - 2], equity[n - 1])
  {
  }

  /** The drawdowns `equity - high_water`. */
  function Drawdowns(equity: seq<real>): (dd: seq<real>)
    ensures |dd| == |equity|
  {
    var hw := HighWater(equity);
    seq(|equity|, i requires 0 <= i < |equity| => equity[i] - hw[i])
  }

  /** The maximum drawdown is the minimum over `i` of the drawdown at
      `i`: no drawdown is below it and one equals it. */
  lemma MaxDrawdownIsLowestDrawdown(equity: seq<real>)
    requires |equity| > 0
    ensures forall i :: 0 <= i < |equity| ==> MaxDrawdown(equity) <= DrawdownAt(equity, i)
    ensures exists i :: 0 <= i < |equity| && MaxDrawdown(equity) == DrawdownAt(equity, i)
  {
    var dd := Drawdowns(equity);
    forall i | 0 <= i < |equity|
      ensures dd[i] == DrawdownAt(equity, i)
    {
      HighWaterIsPrefixMax(equity, i);
    }
    var k :| 0 <= k < |dd| && MinOf(dd) == dd[k];
    assert MaxDrawdown(equity) == DrawdownAt(equity, k);
  }

  /** A non-empty curve never has a positive maximum drawdown. */
  lemma MaxDrawdownNonPositive(equity: seq<real>)
    requires |equity| > 0
    ensures MaxDrawdown(equity) <= 0.0
  {
    HighWaterIsPrefixMax(equity, 0);
    assert equity[..1] == [equity[0]];
    assert Drawdowns(equity)[0] == 0.0;
  }

  /** A curve that never falls has no drawdown. */
  lemma NonDecreasingHasNoDrawdown(equity: seq<real>)
    requires |equity| > 0
    requires forall i, j :: 0 <= i <= j < |equity| ==> equity[i] <= equity[j]
    ensures MaxDrawdown(equity) == 0.0
  {
    var dd := Drawdowns(equity);
    forall i | 0 <= i < |equity|
      ensures dd[i] == 0.0
    {
      HighWaterIsPrefixMax(equity, i);
      var s := equity[..i + 1];
      SeqMaxIsMax(s);
      var k :| 0 <= k < |s| && SeqMax(s) == s[k];
      assert s[i] <= SeqMax(s);
    }
  }

  /** `annualized_return`, with `pow(x, y)` standing for `x ** y`: 0.0
      for fewer than two points, otherwise the total return compounded
      over `periods_per_year / len(equity)` periods, minus one. */
  function AnnualizedReturn(equity: seq<real>, periodsPerYear: int, pow: (real, real) -> real): (r: real)
    ensures |equity| < 2 ==> r == 0.0
    ensures |equity| >= 2 ==>
              r == pow(1.0 + TotalReturn(equity), periodsPerYear as real / |equity| as real) - 1.0
  {
    if |equity| < 2 then 0.0
    else
      var total := equity[|equity| - 1];
      pow(1.0 + total, periodsPerYear as real / |equity| as real) - 1.0
  }

  /** `np.diff`: the step from each point to the next. */
  function Diff(equity: seq<real>): (d: seq<real>)
    ensures |d| == if |equity| == 0 then 0 else |equity| - 1
    ensures forall k :: 0 <= k < |d| ==> d[k] == equity[k + 1] - equity[k]
  {
    if |equity| < 2 then []
    else seq(|equity| - 1, k requires 0 <= k < |equity| - 1 => equity[k + 1] - equity[k])
  }

  function Sum(s: seq<real>): real
  {
    if |s| == 0 then 0.0 else Sum(s[..|s| - 1]) + s[|s| - 1]
  }

  /** numpy's `mean` of a non-empty array. */
  function Mean(s: seq<real>): real
    requires |s| > 0
  {
    Sum(s) / |s| as real
  }

  /** numpy's default `var`: the mean squared deviation from the mean. */
  function Variance(s: seq<real>): real
    requires |s| > 0
  {
    var m := Mean(s);
    Sum(seq(|s|, k requires 0 <= k < |s| => (s[k] - m) * (s[k] - m))) / |s| as real
  }

  /** `sharpe_ratio`, with `sqrt` standing for `np.sqrt`: 0.0 for fewer
      than two points or when the standard deviation of the steps is
      zero, otherwise the mean step over its standard deviation, scaled
      by the square root of the periods per year. The risk-free rate is
      accepted and not used. */
  function SharpeRatio(equity: seq<real>, riskFree: real, periodsPerYear: int, sqrt: real -> real): (r: real)
    ensures |equity| < 2 ==> r == 0.0
    ensures |equity| >= 2 && sqrt(Variance(Diff(equity))) == 0.0 ==> r == 0.0
    ensures |equity| >= 2 && sqrt(Variance(Diff(equity))) != 0.0 ==>
              r == Mean(Diff(equity)) / sqrt(Variance(Diff(equity))) * sqrt(periodsPerYear as real)
  {
    if |equity| < 2 then 0.0
    else
      var steps := Diff(equity);
      var std := sqrt(Variance(steps));
      if std == 0.0 then 0.0
      else Mean(steps) / std * sqrt(periodsPerYear as real)
  }

  /** Sum of a constant sequence. */
  lemma {:induction false} SumConstant(s: seq<real>, c: real)
    requires forall k :: 0 <= k < |s| ==> s[k] == c
    ensures Sum(s) == |s| as real * c
  {
    if |s| > 0 {
      SumConstant(s[..|s| - 1], c);
    }
  }

  /** The mean of a constant non-empty sequence is that constant. */
  lemma MeanConstant(s: seq<real>, c: real)
    requires |s| > 0 && forall k :: 0 <= k < |s| ==> s[k] == c
    ensures Mean(s) == c
  {
    SumConstant(s, c);
    var n := |s| as real;
    assert (n * c) / n == c;
  }

  /** A constant non-empty sequence has zero variance. */
  lemma VarianceConstant(s: seq<real>, c: real)
    requires |s| > 0 && forall k :: 0 <= k < |s| ==> s[k] == c
    ensures Variance(s) == 0.0
  {
    MeanConstant(s, c);
    var m := Mean(s);
    var sq := seq(|s|, k requires 0 <= k < |s| => (s[k] - m) * (s[k] - m));
    SumConstant(sq, 0.0);
  }

  /** A curve that moves by the same step every period has zero spread,
      so with `sqrt(0) == 0` its Sharpe ratio is 0.0. */
  lemma ConstantStepsHaveZeroSharpe(equity: seq<real>, step: real, riskFree: real, periodsPerYear: int, sqrt: real -> real)
    requires |equity| >= 2 && sqrt(0.0) == 0.0
    requires forall k :: 0 <= k < |equity| - 1 ==> equity[k + 1] - equity[k] == step
    ensures Variance(Diff(equity)) == 0.0
    ensures SharpeRatio(equity, riskFree, periodsPerYear, sqrt) == 0.0
  {
    VarianceConstant(Diff(equity), step);
  }
}
