/** The summary's figures and the gate's verdict, from the returns themselves. */
module ReportLaws {
  import opened Numbers
  import opened Returns
  import opened Report

  // ----- sums -----

  lemma SumOne(x: real)
    ensures Sum([x]) == x && Growth([x]) == 1.0 + x
  {
    assert [x][..0] == [];
  }

  function Squared(x: real): real {
    x * x
  }

  function SumOfSquares(rs: seq<real>): real {
    if rs == [] then 0.0 else SumOfSquares(rs[..|rs| - 1]) + Squared(rs[|rs| - 1])
  }

  function Deviations(rs: seq<real>, m: real): (ds: seq<real>)
    ensures |ds| == |rs|
  {
    if rs == [] then [] else Deviations(rs[..|rs| - 1], m) + [Squared(rs[|rs| - 1] - m)]
  }

  lemma {:induction false} DeviationAt(rs: seq<real>, m: real, i: nat)
    requires i < |rs|
    ensures Deviations(rs, m)[i] == Squared(rs[i] - m)
  {
    hide Squared;
    if i < |rs| - 1 {
      DeviationAt(rs[..|rs| - 1], m, i);
    }
  }

  /** The sum of squared deviations, from the sum of squares and the sum. */
  function Expansion(squares: real, sum: real, n: real, m: real): real {
    squares - 2.0 * m * sum + n * Squared(m)
  }

  lemma ExpansionStep(squares: real, sum: real, n: real, m: real, x: real)
    ensures Expansion(squares + Squared(x), sum + x, n + 1.0, m) == Expansion(squares, sum, n, m) + Squared(x - m)
  {
  }

  lemma {:induction false} SumOfDeviations(rs: seq<real>, m: real)
    ensures Sum(Deviations(rs, m)) == Expansion(SumOfSquares(rs), Sum(rs), |rs| as real, m)
  {
    hide Squared;
    if rs != [] {
      hide Expansion;
      var init, x := rs[..|rs| - 1], rs[|rs| - 1];
      SumOfDeviations(init, m);
      assert Deviations(rs, m)[..|init|] == Deviations(init, m);
      ExpansionStep(SumOfSquares(init), Sum(init), |init| as real, m, x);
    }
  }

  /** The variance is the mean of the squares less the square of the mean. */
  lemma VarianceIs(rs: seq<real>)
    requires rs != []
    ensures Variance(rs) == SumOfSquares(rs) / |rs| as real - Squared(Mean(rs))
  {
    hide Sum, Mean, SumOfSquares, Variance, Deviations, Expansion, Squared;
    var m := Mean(rs);
    VarianceIsMean(rs);
    SumOfDeviations(rs, m);
    MeanOf(Deviations(rs, m));
    assert Variance(rs) == Expansion(SumOfSquares(rs), Sum(rs), |rs| as real, m) / |rs| as real;
    SumFromMean(rs);
    MeanOfExpansion(SumOfSquares(rs), Sum(rs), |rs| as real, m);
  }

  lemma VarianceIsMean(rs: seq<real>)
    ensures Variance(rs) == Mean(Deviations(rs, Mean(rs)))
  {
    var m := Mean(rs);
    forall i | 0 <= i < |rs| ensures Deviations(rs, m)[i] == SquaredDeviations(rs)[i] {
      DeviationAt(rs, m, i);
    }
    assert Deviations(rs, m) == SquaredDeviations(rs);
  }

  lemma MeanOf(rs: seq<real>)
    requires rs != []
    ensures Mean(rs) == Sum(rs) / |rs| as real
  {
  }

  lemma MeanOfExpansion(squares: real, sum: real, n: real, m: real)
    requires n > 0.0 && sum == m * n
    ensures Expansion(squares, sum, n, m) / n == squares / n - Squared(m)
  {
    var q := squares / n;
    assert q * n == squares;
    assert Expansion(squares, sum, n, m) == (q - Squared(m)) * n;
  }

  // ----- the summary -----

  /** The printed figures are within half a unit of the exact ones. */
  lemma FiguresAreNear(sqrt: Sqrt, rs: seq<real>)
    ensures var a := SummarizeReturns(sqrt, rs);
            && Near(a.avgReturn, Mean(rs), 1000000)
            && Near(a.totalCompounded, Growth(rs) - 1.0, 1000000)
            && Near(a.worst, Lowest(rs), 1000000)
            && (|rs| < 2 || sqrt(Variance(rs)) <= 0.0 ==> a.sharpeProxy == 0.0)
            && (|rs| >= 2 && sqrt(Variance(rs)) > 0.0 ==>
                  Near(a.sharpeProxy, Mean(rs) / sqrt(Variance(rs)), 10000))
  {
    hide Mean, Growth, Lowest, Variance, Round, Near;
    RoundIsNear(Mean(rs), 1000000);
    RoundIsNear(Growth(rs) - 1.0, 1000000);
    RoundIsNear(Lowest(rs), 1000000);
    RoundExact(0, 10000);
    if |rs| >= 2 && sqrt(Variance(rs)) > 0.0 {
      RoundIsNear(Mean(rs) / sqrt(Variance(rs)), 10000);
    }
  }

  // ----- the gate -----

  const IN_ORDER: seq<Reason> := [
    NoSignalsLoaded, ExecutableTradeSampleTooSmall, BelowResearchSampleTarget, EntryDisciplineRejectsMostSignals,
    NegativeExecutableExpectancy, NegativeExecutableCompoundedReturn, SharpeProxyBelowFloor,
    SingleTradeTailLossTooLarge]

  /** Each reason of a gate, with its floor. */
  lemma ReasonsAre(g: Gate, signals: nat, trades: nat, a: Aggregate)
    requires GateFor(g, signals, trades, a)
    ensures NoSignalsLoaded in g.reasons <==> signals == 0
    ensures ExecutableTradeSampleTooSmall in g.reasons <==> trades < 8
    ensures BelowResearchSampleTarget in g.reasons <==> trades < 20
    ensures EntryDisciplineRejectsMostSignals in g.reasons <==> g.fillRate < 0.35
    ensures NegativeExecutableExpectancy in g.reasons <==> a.avgReturn <= 0.0
    ensures NegativeExecutableCompoundedReturn in g.reasons <==> a.totalCompounded <= 0.0
    ensures SharpeProxyBelowFloor in g.reasons <==> a.sharpeProxy < 0.25
    ensures SingleTradeTailLossTooLarge in g.reasons <==> a.worst <= -0.08
    ensures Near(g.fillRate, trades as real / (if signals == 0 then 1 else signals) as real, 10000)
  {
    hide Near, Round;
    RoundIsNear(trades as real / (if signals > 1 then signals else 1) as real, 10000);
  }

  lemma PlaceOf(r: Reason)
    ensures Position(r) < 8 && IN_ORDER[Position(r)] == r
  {
  }

  /** The first reason is considered before the second. */
  ghost predicate Precedes(r: Reason, q: Reason) {
    exists x, y :: 0 <= x < y < 8 && IN_ORDER[x] == r && IN_ORDER[y] == q
  }

  lemma ReasonsInOrder(g: Gate, signals: nat, trades: nat, a: Aggregate)
    requires GateFor(g, signals, trades, a)
    ensures forall i, j :: 0 <= i < j < |g.reasons| ==> Precedes(g.reasons[i], g.reasons[j])
  {
    hide Position, Applies, Rejects;
    forall i, j | 0 <= i < j < |g.reasons| ensures Precedes(g.reasons[i], g.reasons[j]) {
      PlaceOf(g.reasons[i]);
      PlaceOf(g.reasons[j]);
    }
  }

  /** The verdict, from the figures alone. */
  lemma VerdictIs(g: Gate, signals: nat, trades: nat, a: Aggregate)
    requires GateFor(g, signals, trades, a)
    ensures g.status == REJECT <==>
              a.avgReturn <= 0.0 || a.totalCompounded <= 0.0 || a.sharpeProxy < 0.25 || a.worst <= -0.08
    ensures g.status == PASS <==>
              trades >= 20 && a.avgReturn > 0.0 && a.totalCompounded > 0.0 && a.sharpeProxy >= 0.6 && a.worst > -0.08
  {
    var e, c, s, w := NegativeExecutableExpectancy, NegativeExecutableCompoundedReturn, SharpeProxyBelowFloor,
                      SingleTradeTailLossTooLarge;
    assert Rejects(e) && Rejects(c) && Rejects(s) && Rejects(w);
    assert Applies(e, signals, trades, a) <==> a.avgReturn <= 0.0;
    assert Applies(c, signals, trades, a) <==> a.totalCompounded <= 0.0;
    assert Applies(s, signals, trades, a) <==> a.sharpeProxy < 0.25;
    assert Applies(w, signals, trades, a) <==> a.worst <= -0.08;
  }

  /** A full sample that gains on average and compounded, without a tail loss. */
  ghost predicate Gains(rs: seq<real>) {
    && |rs| >= 20 && Mean(rs) > 0.0 && Growth(rs) > 1.0
    && forall i :: 0 <= i < |rs| ==> rs[i] >= -0.08
  }

  /** What a pass guarantees about the returns before rounding. */
  lemma PassMeansGain(sqrt: Sqrt, signals: nat, rs: seq<real>)
    ensures forall g :: GateFor(g, signals, |rs|, SummarizeReturns(sqrt, rs)) && g.status == PASS ==> Gains(rs)
  {
    hide Mean, Growth, Round, Variance, Stdev, Lowest, GateFor, Near;
    var a := SummarizeReturns(sqrt, rs);
    forall g | GateFor(g, signals, |rs|, a) && g.status == PASS ensures Gains(rs) {
      VerdictIs(g, signals, |rs|, a);
      PositiveBeforeRounding(Mean(rs));
      PositiveBeforeRounding(Growth(rs) - 1.0);
      AboveTail(Lowest(rs));
    }
  }

  lemma PositiveBeforeRounding(x: real)
    ensures Round(x, 1000000) > 0.0 ==> x > 0.0
  {
    if x <= 0.0 {
      RoundNotPositive(x, 1000000);
    }
  }

  lemma AboveTail(x: real)
    requires Round(x, 1000000) > -0.08
    ensures x >= -0.08
  {
    if x < -0.08 {
      RoundMonotone(x, -0.08, 1000000);
      RoundExact(-80000, 1000000);
      assert false;
    }
  }
}
