/**
 The replay has no unit of price: rescaling every price rescales the fills and nothing else.
 The loops only compare prices, so they are followed under any order-preserving change of unit `g`
 that fixes zero; the midpoint and the return then single out multiplication by a positive factor.
 */
module ReplayScaling {
  import opened Numbers
  import opened Replay

  type Unit = real -> real

  ghost predicate KeepsOrder(g: Unit) {
    g(0.0) == 0.0 && forall x, y :: g(x) < g(y) <==> x < y
  }

  function ScaleNum(g: Unit, a: Num): Num {
    if a.Fin? then Fin(g(a.v)) else a
  }

  function ScaleBar(g: Unit, b: Bar): Bar {
    Bar(b.ts, ScaleNum(g, b.open), ScaleNum(g, b.high), ScaleNum(g, b.low), ScaleNum(g, b.close))
  }

  function ScaleBars(g: Unit, bars: seq<Bar>): (r: seq<Bar>)
    ensures |r| == |bars|
  {
    seq(|bars|, i requires 0 <= i < |bars| => ScaleBar(g, bars[i]))
  }

  function ScaleSignal(g: Unit, s: Signal): Signal {
    s.(entryLow := ScaleNum(g, s.entryLow), entryHigh := ScaleNum(g, s.entryHigh),
       stopPrice := ScaleNum(g, s.stopPrice),
       invalidation := ScaleNum(g, s.invalidation), tp1Price := ScaleNum(g, s.tp1Price))
  }

  function ScalePlan(g: Unit, p: Plan): Plan {
    p.(stop := ScaleNum(g, p.stop), tp1 := ScaleNum(g, p.tp1))
  }

  function ScaleZone(g: Unit, z: Zone): Zone {
    Zone(g(z.low), g(z.high))
  }

  function ScaleScan(g: Unit, r: Scan): Scan {
    if r.Filled? then r.(price := g(r.price)) else r
  }

  function ScaleExit(g: Unit, x: Exit): Exit {
    x.(price := ScaleNum(g, x.price))
  }

  /** Same dates, same reason, same return; entry and exit prices in the new unit. */
  function ScaleOutcome(g: Unit, r: Outcome): Outcome {
    match r
    case Skipped(s, why) => Skipped(ScaleSignal(g, s), why)
    case Traded(t) => Traded(t.(signal := ScaleSignal(g, t.signal), entry := g(t.entry), exit := g(t.exit)))
  }

  // ----- comparisons do not see the unit -----

  lemma ScaleOrder(g: Unit, a: Num, b: Num)
    requires KeepsOrder(g)
    ensures Lt(ScaleNum(g, a), ScaleNum(g, b)) == Lt(a, b)
    ensures Le(ScaleNum(g, a), ScaleNum(g, b)) == Le(a, b)
  {
  }

  lemma ScaleSign(g: Unit, a: Num)
    requires KeepsOrder(g)
    ensures ScaleNum(g, ZERO) == ZERO
    ensures Lt(ZERO, ScaleNum(g, a)) == Lt(ZERO, a)
    ensures Truthy(ScaleNum(g, a)) == Truthy(a)
    ensures GoodPrice(ScaleNum(g, a)) == GoodPrice(a)
  {
  }

  lemma ScalePlanOf(g: Unit, s: Signal)
    requires KeepsOrder(g)
    ensures PlanOf(ScaleSignal(g, s)) == ScalePlan(g, PlanOf(s))
  {
    ScaleSign(g, s.stopPrice);
    ScaleSign(g, s.invalidation);
    ScaleSign(g, s.tp1Price);
  }

  lemma ScaleZoneOf(g: Unit, s: Signal)
    requires KeepsOrder(g)
    ensures SignalEntryZone(ScaleSignal(g, s)) ==
            (match SignalEntryZone(s) case None => None case Some(z) => Some(ScaleZone(g, z)))
  {
  }

  lemma ScaleSetup(g: Unit, p: Plan, e: real)
    requires KeepsOrder(g)
    ensures SetupBoundsAreValid(ScalePlan(g, p), g(e)) == SetupBoundsAreValid(p, e)
  {
    ScaleSign(g, Fin(e));
    ScaleSign(g, p.stop);
    ScaleSign(g, p.tp1);
    ScaleOrder(g, Fin(e), p.stop);
    ScaleOrder(g, p.stop, Fin(e));
    ScaleOrder(g, Fin(e), p.tp1);
    ScaleOrder(g, p.tp1, Fin(e));
  }

  lemma ScaleGap(g: Unit, p: Plan, open: Num)
    requires KeepsOrder(g)
    ensures GapInvalidatesEntry(ScalePlan(g, p), ScaleNum(g, open)) == GapInvalidatesEntry(p, open)
  {
    ScaleSign(g, open);
    ScaleSign(g, p.stop);
    ScaleSign(g, p.tp1);
    ScaleOrder(g, open, p.stop);
    ScaleOrder(g, p.stop, open);
    ScaleOrder(g, open, p.tp1);
    ScaleOrder(g, p.tp1, open);
  }

  lemma ScaleFill(g: Unit, bar: Bar, z: Zone)
    requires KeepsOrder(g)
    ensures EntryFillPrice(ScaleBar(g, bar), ScaleZone(g, z)) ==
            (match EntryFillPrice(bar, z) case None => None case Some(x) => Some(g(x)))
  {
  }

  lemma ScaleTouch(g: Unit, p: Plan, b: Bar)
    requires KeepsOrder(g)
    ensures StopHit(ScalePlan(g, p), ScaleBar(g, b)) == StopHit(p, b)
    ensures TargetHit(ScalePlan(g, p), ScaleBar(g, b)) == TargetHit(p, b)
  {
    ScaleSign(g, p.stop);
    ScaleSign(g, p.tp1);
    ScaleOrder(g, p.stop, b.high);
    ScaleOrder(g, b.low, p.stop);
    ScaleOrder(g, b.low, p.tp1);
    ScaleOrder(g, p.tp1, b.high);
  }

  // ----- so neither do the loops -----

  lemma {:induction false} ScaleScanEntry(g: Unit, p: Plan, z: Zone, w: seq<Bar>)
    requires KeepsOrder(g)
    ensures ScanEntry(ScalePlan(g, p), ScaleZone(g, z), ScaleBars(g, w)) == ScaleScan(g, ScanEntry(p, z, w))
  {
    if w != [] {
      var n := |w| - 1;
      assert ScaleBars(g, w)[..n] == ScaleBars(g, w[..n]);
      ScaleScanEntry(g, p, z, w[..n]);
      ScaleGap(g, p, w[n].open);
      ScaleFill(g, w[n], z);
    }
  }

  lemma {:induction false} ScaleWalkExit(g: Unit, p: Plan, c: Num, path: seq<Bar>)
    requires KeepsOrder(g)
    ensures WalkExit(ScalePlan(g, p), ScaleNum(g, c), ScaleBars(g, path)) == ScaleExit(g, WalkExit(p, c, path))
  {
    if path != [] {
      var n := |path| - 1;
      assert ScaleBars(g, path)[..n] == ScaleBars(g, path[..n]);
      ScaleWalkExit(g, p, c, path[..n]);
      ScaleTouch(g, p, path[n]);
    }
  }

  /** What multiplication by a positive factor adds to keeping the order. */
  ghost predicate KeepsReturns(g: Unit) {
    forall short, e, x :: e > 0.0 && g(e) > 0.0 ==> ReturnOf(short, g(e), g(x)) == ReturnOf(short, e, x)
  }

  lemma ScaleFinish(g: Unit, s: Signal, tail: seq<Bar>, i: nat, entry: Num, o: Options)
    requires KeepsOrder(g) && KeepsReturns(g) && i < |tail|
    ensures Finish(ScaleSignal(g, s), ScaleBars(g, tail), i, ScaleNum(g, entry), o)
         == ScaleOutcome(g, Finish(s, tail, i, entry, o))
  {
    var p, path := PlanOf(s), Take(tail[i..], HoldBars(o));
    var x := WalkExit(p, tail[i].close, path);
    WalkShape(p, tail[i].close, path);
    ScalePlanOf(g, s);
    assert Take(ScaleBars(g, tail)[i..], HoldBars(o)) == ScaleBars(g, path);
    ScaleWalkExit(g, p, tail[i].close, path);
    ScaleSign(g, entry);
    ScaleSign(g, x.price);
  }

  lemma ScaleInZone(g: Unit, s: Signal, z: Zone, tail: seq<Bar>, o: Options)
    requires KeepsOrder(g) && KeepsReturns(g)
    ensures ReplayInZone(ScaleSignal(g, s), ScaleZone(g, z), ScaleBars(g, tail), o)
         == ScaleOutcome(g, ReplayInZone(s, z, tail, o))
  {
    var p, w := PlanOf(s), Take(tail, WaitBars(o));
    ScalePlanOf(g, s);
    assert Take(ScaleBars(g, tail), WaitBars(o)) == ScaleBars(g, w);
    ScaleScanEntry(g, p, z, w);
    ScanShape(p, z, w);
    var scan := ScanEntry(p, z, w);
    if scan.Filled? {
      ScaleFinish(g, s, tail, scan.at, Fin(scan.price), o);
    }
  }

  lemma ScaleTail(g: Unit, s: Signal, tail: seq<Bar>, o: Options)
    requires KeepsOrder(g) && KeepsReturns(g) && tail != []
    requires SignalEntryZone(s).Some? ==>
               Midpoint(ScaleZone(g, SignalEntryZone(s).value)) == g(Midpoint(SignalEntryZone(s).value))
    ensures ReplayTail(ScaleSignal(g, s), ScaleBars(g, tail), o) == ScaleOutcome(g, ReplayTail(s, tail, o))
  {
    if o.mode.NextOpen? {
      ScaleFinish(g, s, tail, 0, tail[0].open, o);
    } else {
      ScaleZoneOf(g, s);
      ScalePlanOf(g, s);
      if SignalEntryZone(s).Some? {
        var z := SignalEntryZone(s).value;
        ScaleSetup(g, PlanOf(s), Midpoint(z));
        ScaleInZone(g, s, z, tail, o);
      }
    }
  }

  lemma {:induction false} ScaleFirstTradable(g: Unit, bars: seq<Bar>, t: int)
    ensures FirstTradable(ScaleBars(g, bars), t) == FirstTradable(bars, t)
  {
    if bars != [] {
      assert ScaleBars(g, bars)[1..] == ScaleBars(g, bars[1..]);
      ScaleFirstTradable(g, bars[1..], t);
    }
  }

  function Times(k: real): Unit {
    x => k * x
  }

  lemma TimesKeepsOrder(k: real)
    requires k > 0.0
    ensures KeepsOrder(Times(k))
  {
    forall x, y ensures Times(k)(x) < Times(k)(y) <==> x < y {
      assert k * y - k * x == k * (y - x);
    }
  }

  lemma TimesKeepsReturns(k: real)
    requires k > 0.0
    ensures KeepsReturns(Times(k))
  {
    forall short, e, x | e > 0.0 && Times(k)(e) > 0.0
      ensures ReturnOf(short, Times(k)(e), Times(k)(x)) == ReturnOf(short, e, x)
    {
      TimesKeepsRatio(k, e, x);
    }
  }

  lemma TimesKeepsRatio(k: real, e: real, x: real)
    requires k > 0.0 && e > 0.0 && k * e > 0.0
    ensures (k * x - k * e) / (k * e) == (x - e) / e
  {
    var r := (x - e) / e;
    assert r * e == x - e;
    assert r * (k * e) == k * (r * e) == k * (x - e);
  }

  /** Scale invariance, in both entry modes and on every path, skips included. */
  lemma ScaleInvariance(k: real, s: Signal, bars: seq<Bar>, o: Options)
    requires k > 0.0
    ensures ReplaySignal(ScaleSignal(Times(k), s), ScaleBars(Times(k), bars), o)
         == ScaleOutcome(Times(k), ReplaySignal(s, bars, o))
  {
    var g := Times(k);
    TimesKeepsOrder(k);
    TimesKeepsReturns(k);
    ScaleFirstTradable(g, bars, s.createdAt);
    var f := FirstTradable(bars, s.createdAt);
    if f < |bars| {
      assert ScaleBars(g, bars)[f..] == ScaleBars(g, bars[f..]);
      ScaleTail(g, s, bars[f..], o);
    }
  }
}
