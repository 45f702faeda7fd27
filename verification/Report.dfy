/** Aggregation of replay outcomes: summary figures, groups, skip counts and the quality gate. */
module Report {
  import opened Numbers
  import opened Replay
  import opened Returns

  // ----- summary figures -----

  function ReturnsOf(ts: seq<Trade>): (rs: seq<real>)
    ensures |rs| == |ts| && forall i :: 0 <= i < |ts| ==> rs[i] == ts[i].returnPct
  {
    seq(|ts|, i requires 0 <= i < |ts| => ts[i].returnPct)
  }

  /** `Math.sqrt`; nothing proved here depends on which function it is. */
  type Sqrt = real -> real

  function SquaredDeviations(rs: seq<real>): (ds: seq<real>)
    ensures |ds| == |rs|
  {
    var avg := Mean(rs);
    seq(|rs|, i requires 0 <= i < |rs| => (rs[i] - avg) * (rs[i] - avg))
  }

  function Variance(rs: seq<real>): real {
    Mean(SquaredDeviations(rs))
  }

  function Stdev(sqrt: Sqrt, rs: seq<real>): real {
    if |rs| < 2 then 0.0 else sqrt(Variance(rs))
  }

  function Lowest(rs: seq<real>): (m: real)
    ensures m <= 0.0 && (m == 0.0 || m in rs)
    ensures forall i :: 0 <= i < |rs| ==> m <= rs[i]
  {
    if rs == [] then 0.0 else MinR(rs[0], Lowest(rs[1..]))
  }

  /** The figures the gate reads, rounded as printed. */
  datatype Aggregate = Aggregate(avgReturn: real, totalCompounded: real, sharpeProxy: real, worst: real)

  function SummarizeReturns(sqrt: Sqrt, rs: seq<real>): Aggregate {
    var v := Stdev(sqrt, rs);
    Aggregate(
      Round(Mean(rs), 1000000),
      Round(Growth(rs) - 1.0, 1000000),
      Round(if v > 0.0 then Mean(rs) / v else 0.0, 10000),
      Round(Lowest(rs), 1000000))
  }

  // ----- quality gate -----

  datatype Reason =
    | NoSignalsLoaded | ExecutableTradeSampleTooSmall | BelowResearchSampleTarget
    | EntryDisciplineRejectsMostSignals | NegativeExecutableExpectancy
    | NegativeExecutableCompoundedReturn | SharpeProxyBelowFloor | SingleTradeTailLossTooLarge

  datatype Status = PASS | WATCH | REJECT

  datatype Gate = Gate(status: Status, reasons: seq<Reason>, fillRate: real)

  const MIN_SAMPLE_TARGET: nat := 20

  function FillRate(signals: nat, trades: nat): real {
    Round(trades as real / (if signals > 1 then signals else 1) as real, 10000)
  }

  predicate Applies(r: Reason, signals: nat, trades: nat, a: Aggregate) {
    match r
    case NoSignalsLoaded => signals == 0
    case ExecutableTradeSampleTooSmall => trades < 8
    case BelowResearchSampleTarget => trades < MIN_SAMPLE_TARGET
    case EntryDisciplineRejectsMostSignals => FillRate(signals, trades) < 0.35
    case NegativeExecutableExpectancy => a.avgReturn <= 0.0
    case NegativeExecutableCompoundedReturn => a.totalCompounded <= 0.0
    case SharpeProxyBelowFloor => a.sharpeProxy < 0.25
    case SingleTradeTailLossTooLarge => a.worst <= -0.08
  }

  predicate Rejects(r: Reason) {
    r in {NegativeExecutableExpectancy, NegativeExecutableCompoundedReturn, SharpeProxyBelowFloor,
          SingleTradeTailLossTooLarge}
  }

  /** The gate lists exactly the reasons that apply, in order, and its verdict follows from them. */
  ghost predicate GateFor(g: Gate, signals: nat, trades: nat, a: Aggregate) {
    && (forall r :: r in g.reasons <==> Applies(r, signals, trades, a))
    && (forall i, j :: 0 <= i < j < |g.reasons| ==> Position(g.reasons[i]) < Position(g.reasons[j]))
    && (g.status == REJECT <==> exists r :: Rejects(r) && Applies(r, signals, trades, a))
    && (g.status == PASS <==> g.status != REJECT && trades >= MIN_SAMPLE_TARGET && a.sharpeProxy >= 0.6)
    && g.fillRate == FillRate(signals, trades)
  }

  function Position(r: Reason): nat {
    match r
    case NoSignalsLoaded => 0
    case ExecutableTradeSampleTooSmall => 1
    case BelowResearchSampleTarget => 2
    case EntryDisciplineRejectsMostSignals => 3
    case NegativeExecutableExpectancy => 4
    case NegativeExecutableCompoundedReturn => 5
    case SharpeProxyBelowFloor => 6
    case SingleTradeTailLossTooLarge => 7
  }

  /** The list once the first `n` reasons have been considered. */
  ghost predicate Listed(reasons: seq<Reason>, n: nat, signals: nat, trades: nat, a: Aggregate) {
    && (forall r :: r in reasons <==> Position(r) < n && Applies(r, signals, trades, a))
    && (forall i, j :: 0 <= i < j < |reasons| ==> Position(reasons[i]) < Position(reasons[j]))
  }

  /** One `if (...) reasons.push(r)`. */
  method PushIf(reasons: seq<Reason>, condition: bool, r: Reason, signals: nat, trades: nat, a: Aggregate)
    returns (longer: seq<Reason>)
    requires Listed(reasons, Position(r), signals, trades, a)
    requires condition == Applies(r, signals, trades, a)
    ensures Listed(longer, Position(r) + 1, signals, trades, a)
  {
    longer := if condition then reasons + [r] else reasons;
    assert forall q :: Position(q) == Position(r) ==> q == r;
  }

  method EvaluateQualityGate(signals: nat, trades: nat, a: Aggregate) returns (g: Gate)
    ensures GateFor(g, signals, trades, a)
  {
    hide Listed, GateFor;
    var fillRate := FillRate(signals, trades);
    NothingListed(signals, trades, a);
    var reasons := PushIf([], signals == 0, NoSignalsLoaded, signals, trades, a);
    reasons := PushIf(reasons, trades < 8, ExecutableTradeSampleTooSmall, signals, trades, a);
    reasons := PushIf(reasons, trades < MIN_SAMPLE_TARGET, BelowResearchSampleTarget, signals, trades, a);
    reasons := PushIf(reasons, fillRate < 0.35, EntryDisciplineRejectsMostSignals, signals, trades, a);
    reasons := PushIf(reasons, a.avgReturn <= 0.0, NegativeExecutableExpectancy, signals, trades, a);
    reasons := PushIf(reasons, a.totalCompounded <= 0.0, NegativeExecutableCompoundedReturn, signals, trades, a);
    reasons := PushIf(reasons, a.sharpeProxy < 0.25, SharpeProxyBelowFloor, signals, trades, a);
    reasons := PushIf(reasons, a.worst <= -0.08, SingleTradeTailLossTooLarge, signals, trades, a);
    var status := if exists r | r in reasons :: Rejects(r) then REJECT
                  else if trades >= MIN_SAMPLE_TARGET && a.sharpeProxy >= 0.6 then PASS
                  else WATCH;
    g := Gate(status, reasons, fillRate);
    AllListed(g, signals, trades, a);
  }

  lemma NothingListed(signals: nat, trades: nat, a: Aggregate)
    ensures Listed([], 0, signals, trades, a)
  {
  }

  lemma AllListed(g: Gate, signals: nat, trades: nat, a: Aggregate)
    requires Listed(g.reasons, 8, signals, trades, a)
    requires g.status == (if exists r | r in g.reasons :: Rejects(r) then REJECT
                          else if trades >= MIN_SAMPLE_TARGET && a.sharpeProxy >= 0.6 then PASS
                          else WATCH)
    requires g.fillRate == FillRate(signals, trades)
    ensures GateFor(g, signals, trades, a)
  {
  }

  predicate RejectsLosses(g: Gate) {
    && g.status == REJECT
    && NegativeExecutableExpectancy in g.reasons
    && NegativeExecutableCompoundedReturn in g.reasons
    && SharpeProxyBelowFloor in g.reasons
  }

  /**
   A mean of at most zero rejects, and shows up in all three of the gate's return figures, when no return or an
   odd number of them is worse than a total loss; `CompoundingReasonIff` shows that the number decides.
   */
  lemma NegativeExpectancyRejects(sqrt: Sqrt, signals: nat, rs: seq<real>)
    requires NoneOrOddRuins(rs) && Mean(rs) <= 0.0
    ensures forall g :: GateFor(g, signals, |rs|, SummarizeReturns(sqrt, rs)) ==> RejectsLosses(g)
  {
    var a := SummarizeReturns(sqrt, rs);
    assert a.avgReturn <= 0.0 by {
      RoundNotPositive(Mean(rs), 1000000);
    }
    assert a.totalCompounded <= 0.0 by {
      SumFromMean(rs);
      NoneOrOddRuinsDoNotGain(rs);
      RoundNotPositive(Growth(rs) - 1.0, 1000000);
    }
    assert a.sharpeProxy <= 0.0 by {
      var v := Stdev(sqrt, rs);
      if v > 0.0 {
        NotPositiveOver(Mean(rs), v);
      }
      RoundNotPositive(if v > 0.0 then Mean(rs) / v else 0.0, 10000);
    }
    assert Applies(NegativeExecutableExpectancy, signals, |rs|, a) && Rejects(NegativeExecutableExpectancy);
  }

  lemma NotPositiveOver(x: real, v: real)
    requires x <= 0.0 && v > 0.0
    ensures x / v <= 0.0
  {
  }

  lemma RoundNotPositive(x: real, scale: nat)
    requires x <= 0.0 && scale > 0
    ensures Round(x, scale) <= 0.0
  {
    RoundMonotone(x, 0.0, scale);
    RoundExact(0, scale);
  }

  lemma SumFromMean(rs: seq<real>)
    ensures Sum(rs) == Mean(rs) * |rs| as real
    ensures Mean(rs) <= 0.0 <==> Sum(rs) <= 0.0
    ensures Mean(rs) > 0.0 <==> Sum(rs) > 0.0
  {
    if rs != [] {
      var m, n := Mean(rs), |rs| as real;
      assert m * n == Sum(rs);
    }
  }

  // ----- what rounding does to the two reasons -----

  /** The returns the report aggregates are multiples of a millionth. */
  ghost predicate OnGrid(rs: seq<real>) {
    forall i :: 0 <= i < |rs| ==> IsMillionths(rs[i])
  }

  ghost predicate IsMillionths(x: real) {
    exists n: int :: x == Millionths(n)
  }

  function Millionths(n: int): real {
    n as real / 1000000.0
  }

  lemma {:induction false} SumOnGrid(rs: seq<real>) returns (n: int)
    requires OnGrid(rs)
    ensures Sum(rs) == Millionths(n)
  {
    if rs == [] {
      n := 0;
    } else {
      var m := SumOnGrid(rs[..|rs| - 1]);
      var k: int :| rs[|rs| - 1] == Millionths(k);
      n := m + k;
    }
  }

  /** The expectancy reason comes with the compounding reason, as printed. */
  ghost predicate ReasonsAgree(rs: seq<real>) {
    Round(Mean(rs), 1000000) <= 0.0 ==> Round(Growth(rs) - 1.0, 1000000) <= 0.0
  }

  ghost predicate ReasonsAgreeAt(n: nat) {
    forall rs :: |rs| == n && OnGrid(rs) && NoneOrOddRuins(rs) ==> ReasonsAgree(rs)
  }

  /**
   On rounded figures the two reasons come together for at most two trades only: with three, a millionth
   gained once rounds away in the mean and stays visible in the compounded return.
   */
  lemma ReasonsAgreeUpToTwoTrades(n: nat)
    ensures ReasonsAgreeAt(n) <==> n <= 2
  {
    if n <= 2 {
      forall rs | |rs| == n && OnGrid(rs) && NoneOrOddRuins(rs) ensures ReasonsAgree(rs) {
        if Round(Mean(rs), 1000000) <= 0.0 {
          SmallMeanOnGrid(rs);
          NoneOrOddRuinsDoNotGain(rs);
          RoundNotPositive(Growth(rs) - 1.0, 1000000);
        }
      }
    } else {
      OneMillionthGained(n);
    }
  }

  lemma SmallMeanOnGrid(rs: seq<real>)
    requires |rs| <= 2 && OnGrid(rs) && Round(Mean(rs), 1000000) <= 0.0
    ensures Sum(rs) <= 0.0
  {
    var m := SumOnGrid(rs);
    assert Ticks(Mean(rs), 1000000) <= 0;
    assert Mean(rs) * 1000000.0 < 0.5;
  }

  function OneGain(n: nat): (rs: seq<real>)
    requires n > 0
    ensures |rs| == n && rs[0] == Millionths(1) && forall i :: 1 <= i < n ==> rs[i] == Millionths(0)
  {
    if n == 1 then [Millionths(1)] else OneGain(n - 1) + [Millionths(0)]
  }

  lemma {:induction false} OneGainTotals(n: nat)
    requires n > 0
    ensures Sum(OneGain(n)) == Millionths(1) && Growth(OneGain(n)) == 1.0 + Millionths(1)
  {
    if n == 1 {
      GrowthOne(Millionths(1));
      SplitSum(OneGain(1), 0);
    } else {
      OneGainTotals(n - 1);
      assert OneGain(n)[..n - 1] == OneGain(n - 1);
      DropZero(OneGain(n));
    }
  }

  lemma OneMillionthGained(n: nat)
    requires n > 2
    ensures !ReasonsAgreeAt(n)
  {
    var rs := OneGain(n);
    OneGainTotals(n);
    RoundExact(1, 1000000);
    assert Round(Growth(rs) - 1.0, 1000000) == Millionths(1);
    assert Round(Mean(rs), 1000000) == 0.0 by {
      ThirdOfAMillionth(n);
    }
    assert IsMillionths(Millionths(0)) && IsMillionths(Millionths(1));
    assert OnGrid(rs);
    NoRuins(rs);
    assert !ReasonsAgree(rs);
  }

  lemma ThirdOfAMillionth(n: nat)
    requires n > 2
    ensures Round(Millionths(1) / n as real, 1000000) == 0.0
  {
    var x := Millionths(1) / n as real;
    assert x * n as real == Millionths(1);
    assert x * 3.0 <= x * n as real by {
      assert x >= 0.0;
    }
    assert 0.0 <= x * 1000000.0 + 0.5 < 1.0;
  }

  // ----- when a return is worse than a total loss -----

  /** Only a short whose exit is above twice its entry loses more than was put in. */
  lemma TotalLossBound(short: bool, entry: real, exit: real)
    requires entry > 0.0 && exit > 0.0
    ensures ReturnOf(short, entry, exit) >= -1.0 <==> !short || exit <= 2.0 * entry
  {
    var r := (exit - entry) / entry;
    assert r * entry == exit - entry;
    if r > 1.0 {
      assert (r - 1.0) * entry > 0.0;
    } else {
      assert (1.0 - r) * entry >= 0.0;
      assert (r + 1.0) * entry > 0.0;
    }
  }

  /** Such a short passes every check of the entry-zone replay: a stop may lie at any distance above the entry. */
  lemma RuinedShortReplays(o: Options) returns (s: Signal, bars: seq<Bar>)
    requires o.mode.EntryZone? && o.maxHoldBars >= 1.0
    ensures ReplaySignal(s, bars, o).Traded? && ReplaySignal(s, bars, o).trade.returnPct == -3.0
  {
    s := Signal("", "", "", "", 0, "SHORT", Fin(100.0), Fin(100.0), Fin(400.0), ZERO, ZERO);
    var b := Bar(1, Fin(100.0), Fin(400.0), Fin(100.0), Fin(400.0));
    bars := [b];
    var p, z := PlanOf(s), Zone(100.0, 100.0);
    assert FirstTradable(bars, 0) == 0 && bars[0..] == bars;
    assert Take(bars, WaitBars(o)) == bars && bars[..0] == [];
    assert ScanEntry(p, z, bars) == Filled(0, 100.0);
    assert SignalEntryZone(s) == Some(z) && Midpoint(z) == 100.0;
    assert ReplaySignal(s, bars, o) == Finish(s, bars, 0, Fin(100.0), o);
    assert Take(bars[0..], HoldBars(o)) == bars;
    assert WalkExit(p, Fin(400.0), bars) == Exit(0, Fin(400.0), Stop);
    assert ReturnOf(true, 100.0, 400.0) == -3.0;
  }

  /**
   An even number of shorts stopped out at four times their entry: each loses three times its stake, and
   compounding turns the losses into a gain the gate does not object to.
   */
  lemma EvenRuinsCompoundToAGain(sqrt: Sqrt, k: nat)
    requires k > 0 && k % 2 == 0
    ensures var rs := Ruinous(k);
            forall g :: GateFor(g, k, k, SummarizeReturns(sqrt, rs)) ==>
              NegativeExecutableExpectancy in g.reasons && NegativeExecutableCompoundedReturn !in g.reasons
  {
    hide GateFor, Stdev, Lowest, Applies, Round;
    var rs := Ruinous(k);
    RuinousFigures(sqrt, k);
    forall g | GateFor(g, k, k, SummarizeReturns(sqrt, rs))
      ensures NegativeExecutableExpectancy in g.reasons <==> SummarizeReturns(sqrt, rs).avgReturn <= 0.0
      ensures NegativeExecutableCompoundedReturn in g.reasons <==> SummarizeReturns(sqrt, rs).totalCompounded <= 0.0
    {
      GateReasons(g, k, k, SummarizeReturns(sqrt, rs));
    }
  }

  lemma RuinousFigures(sqrt: Sqrt, k: nat)
    requires k > 0 && k % 2 == 0
    ensures SummarizeReturns(sqrt, Ruinous(k)).avgReturn <= 0.0
    ensures SummarizeReturns(sqrt, Ruinous(k)).totalCompounded >= 3.0
  {
    hide Stdev, Lowest, Round, Mean;
    var rs := Ruinous(k);
    RuinousTotals(k);
    SumFromMean(rs);
    RoundNotPositive(Mean(rs), 1000000);
    RoundExact(3000000, 1000000);
    RoundMonotone(3.0, Growth(rs) - 1.0, 1000000);
  }

  /** Every list of returns that loses on average and has `k` ruined ones gets the compounding reason. */
  ghost predicate CompoundingReasonGiven(sqrt: Sqrt, signals: nat, k: nat) {
    forall rs :: Ruins(rs) == k && Mean(rs) <= 0.0 ==>
      Applies(NegativeExecutableCompoundedReturn, signals, |rs|, SummarizeReturns(sqrt, rs))
  }

  /** The expectancy reason brings the compounding reason with it exactly without ruins or with an odd number. */
  lemma CompoundingReasonIff(sqrt: Sqrt, signals: nat, k: nat)
    ensures CompoundingReasonGiven(sqrt, signals, k) <==> k == 0 || k % 2 == 1
  {
    hide Stdev, Lowest, Round, Mean;
    if k == 0 || k % 2 == 1 {
      forall rs | Ruins(rs) == k && Mean(rs) <= 0.0
        ensures Applies(NegativeExecutableCompoundedReturn, signals, |rs|, SummarizeReturns(sqrt, rs))
      {
        SumFromMean(rs);
        NoneOrOddRuinsDoNotGain(rs);
        RoundNotPositive(Growth(rs) - 1.0, 1000000);
      }
    } else {
      RuinousTotals(k);
      SumFromMean(Ruinous(k));
      RuinousFigures(sqrt, k);
    }
  }

  lemma GateReasons(g: Gate, signals: nat, trades: nat, a: Aggregate)
    requires GateFor(g, signals, trades, a)
    ensures NegativeExecutableExpectancy in g.reasons <==> a.avgReturn <= 0.0
    ensures NegativeExecutableCompoundedReturn in g.reasons <==> a.totalCompounded <= 0.0
  {
  }
}
