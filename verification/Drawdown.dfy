/**
 Maximum drawdown, computed three ways: the proof tab's single pass, the deepest point of its chart
 series, and the bridge's compounded daily returns against their running maximum.
 */
module Drawdown {
  import opened Numbers

  // ----- the quadratic definition -----

  /** The loss from a positive earlier value to a later one, as a fraction of the earlier. */
  function LossBetween(v: seq<real>, i: nat, j: nat): real
    requires i <= j < |v| && v[i] != 0.0
  {
    (v[i] - v[j]) / v[i]
  }

  /** `d` is the largest loss between any two values in order, zero when nothing was ever lost. */
  ghost predicate IsMaxDrawdown(v: seq<real>, d: real) {
    && (forall i, j | 0 <= i <= j < |v| && v[i] > 0.0 :: LossBetween(v, i, j) <= d)
    && (d == 0.0 || exists i, j | 0 <= i <= j < |v| && v[i] > 0.0 :: LossBetween(v, i, j) == d)
    && d >= 0.0
  }

  lemma MaxDrawdownUnique(v: seq<real>, d: real, e: real)
    requires IsMaxDrawdown(v, d) && IsMaxDrawdown(v, e)
    ensures d == e
  {
  }

  ghost predicate NonNegative(v: seq<real>) {
    forall i :: 0 <= i < |v| ==> v[i] >= 0.0
  }

  // ----- the running peak -----

  function Peak(v: seq<real>): real
    requires v != []
  {
    if |v| == 1 then v[0] else MaxR(Peak(v[..|v| - 1]), v[|v| - 1])
  }

  /** `(value - peak) / peak`, nothing lost while the peak is zero. */
  function Depth(value: real, peak: real): real {
    if peak == 0.0 then 0.0 else (value - peak) / peak
  }

  /** The most negative depth below the running peak. */
  function Worst(v: seq<real>): real {
    if v == [] then 0.0 else MinR(Worst(v[..|v| - 1]), Depth(v[|v| - 1], Peak(v)))
  }

  method MaxDrawdown(values: seq<real>) returns (d: real)
    ensures d == AbsR(Worst(values))
    ensures NonNegative(values) ==> IsMaxDrawdown(values, d)
  {
    if NonNegative(values) {
      SinglePassIsMaxDrawdown(values);
    }
    if |values| == 0 {
      return 0.0;
    }
    var peak, worst := values[0], 0.0;
    for i := 0 to |values|
      invariant peak == if i == 0 then values[0] else Peak(values[..i])
      invariant worst == Worst(values[..i])
    {
      assert values[..i + 1][..i] == values[..i];
      peak := MaxR(peak, values[i]);
      worst := MinR(worst, Depth(values[i], peak));
    }
    assert values[..|values|] == values;
    return AbsR(worst);
  }

  function AbsR(x: real): real {
    if x >= 0.0 then x else -x
  }

  // ----- the single pass meets the definition -----

  lemma {:induction false} PeakIsMax(v: seq<real>)
    requires v != []
    ensures forall i :: 0 <= i < |v| ==> v[i] <= Peak(v)
    ensures exists i :: 0 <= i < |v| && v[i] == Peak(v)
  {
    if |v| == 1 {
      assert v[0] == Peak(v);
    } else {
      PeakIsMax(v[..|v| - 1]);
      var i :| 0 <= i < |v| - 1 && v[..|v| - 1][i] == Peak(v[..|v| - 1]);
      assert v[i] == Peak(v[..|v| - 1]);
      assert v[|v| - 1] == Peak(v) || v[i] == Peak(v);
    }
  }

  /** A loss is largest when measured from the highest value. */
  lemma HigherPeakDeeperLoss(a: real, peak: real, x: real)
    requires 0.0 < a <= peak && x >= 0.0
    ensures (a - x) / a <= (peak - x) / peak
  {
    var p, q := (a - x) / a, (peak - x) / peak;
    assert p * a == a - x && q * peak == peak - x;
    assert (1.0 - p) * a == x && (1.0 - q) * peak == x;
    if p > q {
      assert (1.0 - p) * a <= (1.0 - p) * peak < (1.0 - q) * peak by {
        NonNegativeFactor(1.0 - p, a, x);
        assert (1.0 - p) * (peak - a) >= 0.0;
        assert (p - q) * peak > 0.0;
      }
    }
  }

  lemma NonNegativeFactor(f: real, a: real, x: real)
    requires a > 0.0 && x >= 0.0 && f * a == x
    ensures f >= 0.0
  {
  }

  lemma DepthOfPeak(value: real, peak: real)
    requires peak > 0.0
    ensures -Depth(value, peak) == (peak - value) / peak
    ensures value >= 0.0 ==> Depth(value, peak) >= -1.0
    ensures value <= peak ==> Depth(value, peak) <= 0.0
  {
    var d := (value - peak) / peak;
    assert d * peak == value - peak;
    assert (-d) * peak == peak - value;
    assert (d + 1.0) * peak == value;
  }

  /** The proof tab's maximum drawdown is the quadratic one, on every non-negative series. */
  lemma {:induction false} SinglePassIsMaxDrawdown(v: seq<real>)
    requires NonNegative(v)
    ensures IsMaxDrawdown(v, -Worst(v))
  {
    if v != [] {
      var n := |v| - 1;
      var init := v[..n];
      SinglePassIsMaxDrawdown(init);
      PeakIsMax(v);
      LastDepth(v);
      forall i, j | 0 <= i <= j < |v| && v[i] > 0.0
        ensures LossBetween(v, i, j) <= -Worst(v)
      {
        if j < n {
          assert LossBetween(init, i, j) == LossBetween(v, i, j);
        }
      }
      if Worst(v) == Worst(init) {
        if Worst(v) != 0.0 {
          var i, j :| 0 <= i <= j < |init| && init[i] > 0.0 && LossBetween(init, i, j) == -Worst(init);
          assert LossBetween(v, i, j) == -Worst(v);
        }
      }
    }
  }

  /** Among the losses that end at the last value, the one from the peak is the largest. */
  lemma LastDepth(v: seq<real>)
    requires v != [] && NonNegative(v)
    ensures var d := -Depth(v[|v| - 1], Peak(v));
            && (forall i | 0 <= i < |v| && v[i] > 0.0 :: LossBetween(v, i, |v| - 1) <= d)
            && (d == 0.0 || exists i | 0 <= i < |v| && v[i] > 0.0 :: LossBetween(v, i, |v| - 1) == d)
            && d >= 0.0
  {
    PeakIsMax(v);
    var x, peak := v[|v| - 1], Peak(v);
    if peak > 0.0 {
      DepthOfPeak(x, peak);
      forall i | 0 <= i < |v| && v[i] > 0.0 ensures LossBetween(v, i, |v| - 1) <= -Depth(x, peak) {
        HigherPeakDeeperLoss(v[i], peak, x);
      }
      var i :| 0 <= i < |v| && v[i] == peak;
      assert LossBetween(v, i, |v| - 1) == -Depth(x, peak);
    }
  }

  // ----- the chart -----

  /** The running peak of the chart, which starts from one when the first value is zero. */
  function ChartPeak(v: seq<real>): real
    requires v != []
  {
    var first := if v[0] == 0.0 then 1.0 else v[0];
    if |v| == 1 then MaxR(first, v[0]) else MaxR(ChartPeak(v[..|v| - 1]), v[|v| - 1])
  }

  function ChartSeries(v: seq<real>): (c: seq<real>)
    ensures |c| == |v|
  {
    if v == [] then []
    else ChartSeries(v[..|v| - 1]) + [Depth(v[|v| - 1], ChartPeak(v)) * 100.0]
  }

  method DrawdownSeries(equity: seq<real>) returns (series: seq<real>)
    requires equity != []
    ensures series == ChartSeries(equity)
  {
    var peak := if equity[0] == 0.0 then 1.0 else equity[0];
    ghost var first := peak;
    series := [];
    for i := 0 to |equity|
      invariant peak == if i == 0 then first else ChartPeak(equity[..i])
      invariant series == ChartSeries(equity[..i])
    {
      assert equity[..i + 1][..i] == equity[..i];
      peak := MaxR(peak, equity[i]);
      series := series + [Depth(equity[i], peak) * 100.0];
    }
    assert equity[..|equity|] == equity;
  }

  /** The least element of a series. */
  function Deepest(c: seq<real>): real
    requires c != []
  {
    if |c| == 1 then c[0] else MinR(Deepest(c[..|c| - 1]), c[|c| - 1])
  }

  lemma {:induction false} ChartPeakFromPositive(v: seq<real>)
    requires v != [] && v[0] > 0.0
    ensures ChartPeak(v) == Peak(v) && Peak(v) > 0.0
  {
    if |v| > 1 {
      ChartPeakFromPositive(v[..|v| - 1]);
    }
  }

  lemma {:induction false} DeepestIsWorst(v: seq<real>)
    requires v != [] && v[0] > 0.0
    ensures Deepest(ChartSeries(v)) == Worst(v) * 100.0
  {
    ChartPeakFromPositive(v);
    var init := v[..|v| - 1];
    assert ChartSeries(v)[..|v| - 1] == ChartSeries(init);
    if |v| > 1 {
      DeepestIsWorst(init);
    } else {
      assert Depth(v[0], v[0]) == 0.0;
    }
  }

  lemma {:induction false} DeepestFromZero(v: seq<real>)
    requires v != [] && v[0] == 0.0 && NonNegative(v)
    ensures ChartPeak(v) >= 1.0 && Deepest(ChartSeries(v)) == -100.0
  {
    var init := v[..|v| - 1];
    assert ChartSeries(v)[..|v| - 1] == ChartSeries(init);
    if |v| > 1 {
      DeepestFromZero(init);
    }
    DepthOfPeak(v[|v| - 1], ChartPeak(v));
  }

  /**
   The chart's deepest point is the maximum drawdown unless the series starts at zero; it then reads a total
   loss at the first point, which is right only for a series that does lose everything later.
   */
  lemma ChartAgreesIff(v: seq<real>, d: real)
    requires v != [] && NonNegative(v) && IsMaxDrawdown(v, d)
    ensures Deepest(ChartSeries(v)) / -100.0 == d <==> v[0] > 0.0 || TotalLoss(v)
  {
    SinglePassIsMaxDrawdown(v);
    MaxDrawdownUnique(v, d, -Worst(v));
    if v[0] > 0.0 {
      DeepestIsWorst(v);
    } else {
      DeepestFromZero(v);
      TotalLossIsOne(v, d);
    }
  }

  lemma {:induction false} ChartAt(v: seq<real>, i: nat)
    requires i < |v|
    ensures v[..i + 1] != [] && ChartSeries(v)[i] == Depth(v[i], ChartPeak(v[..i + 1])) * 100.0
  {
    if i < |v| - 1 {
      ChartAt(v[..|v| - 1], i);
      assert v[..|v| - 1][..i + 1] == v[..i + 1];
    } else {
      assert v[..i + 1] == v;
    }
  }

  /** `d` is the largest loss from a value up to the i-th to the i-th. */
  ghost predicate IsLossAt(v: seq<real>, i: nat, d: real)
    requires i < |v|
  {
    && (forall j | 0 <= j <= i && v[j] > 0.0 :: LossBetween(v, j, i) <= d)
    && (exists j | 0 <= j <= i && v[j] > 0.0 :: LossBetween(v, j, i) == d)
  }

  lemma LastIsLoss(u: seq<real>)
    requires u != [] && NonNegative(u) && Peak(u) > 0.0
    ensures IsLossAt(u, |u| - 1, -Depth(u[|u| - 1], Peak(u)))
  {
    LastDepth(u);
    PeakIsMax(u);
    hide Peak;
    var k :| 0 <= k < |u| && u[k] == Peak(u);
    DepthOfPeak(u[|u| - 1], Peak(u));
    assert LossBetween(u, k, |u| - 1) == -Depth(u[|u| - 1], Peak(u));
  }

  lemma LossOfPrefix(v: seq<real>, i: nat, d: real)
    requires i < |v| && IsLossAt(v[..i + 1], i, d)
    ensures IsLossAt(v, i, d)
  {
    var u := v[..i + 1];
    forall j | 0 <= j <= i && v[j] > 0.0 ensures LossBetween(v, j, i) <= d {
      assert LossBetween(u, j, i) == LossBetween(v, j, i);
    }
    var k :| 0 <= k <= i && u[k] > 0.0 && LossBetween(u, k, i) == d;
    assert LossBetween(v, k, i) == d;
  }

  /** Every point of the chart is the loss from the best value so far, for a series that starts above zero. */
  lemma ChartPointIsLoss(v: seq<real>, i: nat)
    requires NonNegative(v) && i < |v| && v[0] > 0.0
    ensures IsLossAt(v, i, ChartSeries(v)[i] / -100.0)
  {
    hide IsLossAt, ChartSeries, ChartPeak, Peak, Depth;
    var u := v[..i + 1];
    ChartAt(v, i);
    ChartPeakFromPositive(u);
    LastIsLoss(u);
    LossOfPrefix(v, i, -Depth(v[i], Peak(u)));
  }

  lemma {:induction false} PeakFromZero(v: seq<real>)
    requires v != [] && v[0] == 0.0
    ensures ChartPeak([1.0] + v) == ChartPeak(v)
  {
    var w := [1.0] + v;
    assert w[..|w| - 1] == [1.0] + v[..|v| - 1];
    if |v| > 1 {
      PeakFromZero(v[..|v| - 1]);
    } else {
      assert v[..0] == [] && [1.0] + [] == [1.0];
      assert ChartPeak([1.0]) == 1.0;
    }
  }

  /** A series that starts at zero is drawn as if it had come down from one. */
  lemma ChartFromZero(v: seq<real>, i: nat)
    requires i < |v| && v[0] == 0.0
    ensures ChartSeries(v)[i] == ChartSeries([1.0] + v)[i + 1]
  {
    ChartAt(v, i);
    ChartAt([1.0] + v, i + 1);
    assert ([1.0] + v)[..i + 2] == [1.0] + v[..i + 1];
    PeakFromZero(v[..i + 1]);
  }

  ghost predicate TotalLoss(v: seq<real>) {
    exists i, j :: 0 <= i < j < |v| && v[i] > 0.0 && v[j] == 0.0
  }

  lemma TotalLossIsOne(v: seq<real>, d: real)
    requires NonNegative(v) && IsMaxDrawdown(v, d)
    ensures d == 1.0 <==> TotalLoss(v)
    ensures d <= 1.0
  {
    forall i, j | 0 <= i <= j < |v| && v[i] > 0.0
      ensures LossBetween(v, i, j) <= 1.0
      ensures LossBetween(v, i, j) == 1.0 <==> v[j] == 0.0
    {
      FullLoss(v[i], v[j]);
    }
    if TotalLoss(v) {
      var i, j :| 0 <= i < j < |v| && v[i] > 0.0 && v[j] == 0.0;
      assert LossBetween(v, i, j) == 1.0;
    }
    if d == 1.0 {
      var i, j :| 0 <= i <= j < |v| && v[i] > 0.0 && LossBetween(v, i, j) == d;
      assert v[j] == 0.0;
      assert i < j;
    }
  }

  lemma FullLoss(a: real, x: real)
    requires a > 0.0 && x >= 0.0
    ensures (a - x) / a <= 1.0
    ensures (a - x) / a == 1.0 <==> x == 0.0
  {
    var p := (a - x) / a;
    assert p * a == a - x;
    assert (1.0 - p) * a == x;
  }

  // ----- the bridge -----

  /** `pct_change`, with the infinite and the undefined changes set to zero. */
  function DailyReturn(v: seq<real>, i: nat): real
    requires i < |v|
  {
    if i == 0 || v[i - 1] == 0.0 then 0.0 else v[i] / v[i - 1] - 1.0
  }

  /** `(1 + daily_ret).cumprod()` at the last row. */
  function Cumulative(v: seq<real>): real {
    if v == [] then 1.0 else Cumulative(v[..|v| - 1]) * (1.0 + DailyReturn(v, |v| - 1))
  }

  /** `cumulative.cummax()` at the last row; the first row of `cumulative` is one. */
  function RollingMax(v: seq<real>): (m: real)
    requires v != []
    ensures m >= 1.0
  {
    if |v| == 1 then
      assert Cumulative(v[..0]) == 1.0;
      Cumulative(v)
    else MaxR(RollingMax(v[..|v| - 1]), Cumulative(v))
  }

  /** `((cumulative - rolling_max) / rolling_max).min()`. */
  function BridgeMaxDd(v: seq<real>): real
    requires v != []
  {
    var dd := (Cumulative(v) - RollingMax(v)) / RollingMax(v);
    if |v| == 1 then dd else MinR(BridgeMaxDd(v[..|v| - 1]), dd)
  }

  // The compounded returns telescope to multiples of the first positive value until a zero is met,
  // and stay at zero from then on.

  /** Only zeros so far. */
  ghost predicate Flat(v: seq<real>)
    requires v != []
  {
    && v[|v| - 1] == 0.0 && Peak(v) == 0.0 && Worst(v) == 0.0
    && Cumulative(v) == 1.0 && RollingMax(v) == 1.0 && BridgeMaxDd(v) == 0.0
  }

  /** In units of `base`, the first positive value. */
  ghost predicate Scaled(v: seq<real>, base: real)
    requires v != []
  {
    && base > 0.0 && v[|v| - 1] > 0.0 && Peak(v) > 0.0
    && Cumulative(v) == v[|v| - 1] / base && RollingMax(v) == Peak(v) / base
    && BridgeMaxDd(v) == Worst(v) >= -1.0
  }

  /** Everything was lost once. */
  ghost predicate Ruined(v: seq<real>)
    requires v != []
  {
    Peak(v) > 0.0 && Worst(v) == -1.0 && Cumulative(v) == 0.0 && BridgeMaxDd(v) == -1.0
  }

  lemma Quotients(last: real, peak: real, x: real, base: real)
    requires base > 0.0 && last > 0.0 && peak > 0.0
    ensures last / base * (1.0 + (x / last - 1.0)) == x / base
    ensures MaxR(peak / base, x / base) == MaxR(peak, x) / base
  {
    var c, r := last / base, x / last;
    assert c * base == last && r * last == x;
    assert c * r * base == x;
    if peak <= x {
      DivMonotone(peak, x, base);
    } else {
      DivMonotone(x, peak, base);
    }
  }

  lemma DepthInUnits(x: real, peak: real, base: real)
    requires base > 0.0 && peak > 0.0 && peak / base > 0.0
    ensures (x / base - peak / base) / (peak / base) == (x - peak) / peak
  {
    var d, p, q := (x - peak) / peak, peak / base, x / base;
    assert d * peak == x - peak && p * base == peak && q * base == x;
    assert d * p * base == (q - p) * base;
    assert d * p == q - p;
  }

  lemma StepFlat(v: seq<real>)
    requires |v| > 1 && NonNegative(v) && Flat(v[..|v| - 1])
    ensures Flat(v) || Scaled(v, v[|v| - 1])
  {
    var x := v[|v| - 1];
    assert DailyReturn(v, |v| - 1) == 0.0;
    if x > 0.0 {
      assert x / x == 1.0;
      assert Depth(x, x) == 0.0;
    }
  }

  lemma LastRow(v: seq<real>)
    requires |v| > 1
    ensures var init, x := v[..|v| - 1], v[|v| - 1];
            && Cumulative(v) == Cumulative(init) * (1.0 + DailyReturn(v, |v| - 1))
            && RollingMax(v) == MaxR(RollingMax(init), Cumulative(v))
            && BridgeMaxDd(v) == MinR(BridgeMaxDd(init), (Cumulative(v) - RollingMax(v)) / RollingMax(v))
            && Peak(v) == MaxR(Peak(init), x)
            && Worst(v) == MinR(Worst(init), Depth(x, Peak(v)))
  {
  }

  lemma StepScaled(v: seq<real>, base: real)
    requires |v| > 1 && NonNegative(v) && Scaled(v[..|v| - 1], base)
    ensures Scaled(v, base) || Ruined(v)
  {
    hide Cumulative, RollingMax, BridgeMaxDd, Peak, Worst;
    var init, x := v[..|v| - 1], v[|v| - 1];
    LastRow(v);
    Quotients(v[|v| - 2], Peak(init), x, base);
    assert DailyReturn(v, |v| - 1) == x / v[|v| - 2] - 1.0;
    assert Cumulative(v) == x / base;
    assert RollingMax(v) == Peak(v) / base;
    DepthInUnits(x, Peak(v), base);
    DepthOfPeak(x, Peak(v));
    assert BridgeMaxDd(v) == Worst(v);
  }

  lemma StepRuined(v: seq<real>)
    requires |v| > 1 && NonNegative(v) && Ruined(v[..|v| - 1])
    ensures Ruined(v)
  {
    assert Cumulative(v) == 0.0 * (1.0 + DailyReturn(v, |v| - 1)) == 0.0;
    DepthOfPeak(v[|v| - 1], Peak(v));
    DepthOfPeak(0.0, RollingMax(v));
  }

  lemma {:induction false} BridgePhases(v: seq<real>)
    requires v != [] && NonNegative(v)
    ensures Flat(v) || Ruined(v) || exists base :: Scaled(v, base)
  {
    var init := v[..|v| - 1];
    if |v| == 1 {
      assert init == [];
      assert Cumulative(v) == 1.0;
      if v[0] > 0.0 {
        assert v[0] / v[0] == 1.0 && Depth(v[0], v[0]) == 0.0;
        assert Scaled(v, v[0]);
      }
    } else {
      BridgePhases(init);
      if Flat(init) {
        StepFlat(v);
      } else if Ruined(init) {
        StepRuined(v);
      } else {
        var base :| Scaled(init, base);
        StepScaled(v, base);
      }
    }
  }

  /** The bridge's figure is the negated maximum drawdown, on every non-negative series. */
  lemma BridgeIsMaxDrawdown(v: seq<real>)
    requires v != [] && NonNegative(v)
    ensures BridgeMaxDd(v) == Worst(v) && IsMaxDrawdown(v, -BridgeMaxDd(v))
  {
    BridgePhases(v);
    SinglePassIsMaxDrawdown(v);
  }
}
