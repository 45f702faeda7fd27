/** Where fills, exits and returns can lie, and when the walk stops. */
module ReplayBounds {
  import opened Numbers
  import opened Replay

  // ----- the fill -----

  /** A bar the gap check lets through fills strictly inside, even when the zone reaches past stop or target. */
  lemma FillInside(p: Plan, z: Zone, bar: Bar)
    requires 0.0 < z.low <= z.high && SetupBoundsAreValid(p, Midpoint(z))
    requires GapInvalidatesEntry(p, bar.open).None? && EntryFillPrice(bar, z).Some?
    ensures Inside(p, Fin(EntryFillPrice(bar, z).value))
    ensures z.low <= EntryFillPrice(bar, z).value <= z.high
  {
    var m := Midpoint(z);
    assert z.low <= m <= z.high;
    if p.short {
      assert p.stop == PosInf || (p.stop.Fin? && p.stop.v > m);
    } else {
      assert p.stop.Fin? && 0.0 < p.stop.v < m;
    }
  }

  /** The fill is the zone price nearest to the open; without one, neither the open nor the bar reaches the zone. */
  lemma FillIsNearestToOpen(z: Zone, bar: Bar)
    requires z.low <= z.high && bar.open.Fin? && bar.high.Fin? && bar.low.Fin?
    ensures EntryFillPrice(bar, z).None? <==>
              !PriceInZone(bar.open.v, z) && (bar.low.v > z.high || bar.high.v < z.low)
    ensures EntryFillPrice(bar, z).Some? ==>
              (PriceInZone(EntryFillPrice(bar, z).value, z) &&
               forall y :: PriceInZone(y, z) ==>
                  Distance(bar.open.v, EntryFillPrice(bar, z).value) <= Distance(bar.open.v, y))
  {
  }

  function Distance(x: real, y: real): real {
    if x <= y then y - x else x - y
  }

  /** For a sound setup the gap check passes exactly the good opens that lie strictly between stop and target. */
  lemma GapCheckMeansInside(p: Plan, e: real, open: Num)
    requires SetupBoundsAreValid(p, e)
    ensures GapInvalidatesEntry(p, open).None? <==> GoodPrice(open) && Inside(p, open)
    ensures GapInvalidatesEntry(p, open) == Some(GapThroughStop) <==>
              GoodPrice(open) && if p.short then Le(p.stop, open) else Le(open, p.stop)
    ensures GapInvalidatesEntry(p, open) == Some(BadPrice) <==> !GoodPrice(open)
  {
  }

  /** Every entry-zone fill lies strictly between the stop and the target. */
  lemma EntryStrictlyInside(s: Signal, bars: seq<Bar>, o: Options)
    requires o.mode.EntryZone? && Select(s, bars, o).Entered?
    ensures Select(s, bars, o).entry.Fin? && Select(s, bars, o).entry.v > 0.0
    ensures Inside(PlanOf(s), Select(s, bars, o).entry)
  {
    var p, z := PlanOf(s), SignalEntryZone(s).value;
    var w := Take(bars[FirstTradable(bars, s.createdAt)..], WaitBars(o));
    ScanShape(p, z, w);
    FillInside(p, z, w[ScanEntry(p, z, w).at]);
  }

  /** The window's first bar that gaps or fills is the one that decides, and no earlier bar did either. */
  lemma EntryIsFirst(s: Signal, bars: seq<Bar>, o: Options)
    requires o.mode.EntryZone? && Select(s, bars, o).Entered?
    ensures var i := Select(s, bars, o).index;
            var f := FirstTradable(bars, s.createdAt);
            && f <= i < f + WaitBars(o)
            && Some(Select(s, bars, o).entry.v) == EntryFillPrice(bars[i], SignalEntryZone(s).value)
            && GapInvalidatesEntry(PlanOf(s), bars[i].open).None?
            && forall j :: f <= j < i ==>
                 (GapInvalidatesEntry(PlanOf(s), bars[j].open).None? &&
                  EntryFillPrice(bars[j], SignalEntryZone(s).value).None?)
  {
    hide GapInvalidatesEntry, EntryFillPrice, PlanOf, ScanEntry;
    var p, z, f := PlanOf(s), SignalEntryZone(s).value, FirstTradable(bars, s.createdAt);
    var w := Take(bars[f..], WaitBars(o));
    ScanShape(p, z, w);
    forall j | f <= j < Select(s, bars, o).index
      ensures GapInvalidatesEntry(p, bars[j].open).None? && EntryFillPrice(bars[j], z).None?
    {
      assert w[j - f] == bars[j];
      assert StepEntry(p, z, w[j - f], j - f).Unfilled?;
    }
  }

  // ----- the exit -----

  predicate Ordered(b: Bar) {
    b.low.Fin? && b.close.Fin? && b.high.Fin? && b.low.v <= b.close.v <= b.high.v
  }

  predicate AllOrdered(bars: seq<Bar>) {
    forall i :: 0 <= i < |bars| ==> Ordered(bars[i])
  }

  /** The exit index and exit of the trade opened at `bars[i]`. */
  function ExitOf(s: Signal, bars: seq<Bar>, i: nat, o: Options): (x: Exit)
    requires i < |bars|
    ensures i + x.at < |bars|
  {
    WalkShape(PlanOf(s), bars[i].close, Take(bars[i..], HoldBars(o)));
    WalkExit(PlanOf(s), bars[i].close, Take(bars[i..], HoldBars(o)))
  }

  /**
   First touch, for a position opened at any bar: the exit bar is the first held bar that touches a level,
   with the stop preferred when it touches both; a time exit means that no held bar touched either, and is
   taken on the last held bar.
   */
  lemma ExitIsFirstTouch(s: Signal, bars: seq<Bar>, i: nat, o: Options)
    requires i < |bars|
    ensures var x := ExitOf(s, bars, i, o);
            var p := PlanOf(s);
            && (forall j :: i <= j < i + x.at ==> !Touched(p, bars[j]))
            && (x.reason.Stop? ==> StopHit(p, bars[i + x.at]) && x.price == p.stop)
            && (x.reason.Tp1? ==> TargetHit(p, bars[i + x.at]) && !StopHit(p, bars[i + x.at]) && x.price == p.tp1)
            && (x.reason.TimeExit? ==> x.price == bars[i + x.at].close)
    ensures ExitOf(s, bars, i, o).reason.TimeExit? ==>
              var end := if i + HoldBars(o) <= |bars| then i + HoldBars(o) else |bars|;
              && (forall j :: i <= j < end ==> !Touched(PlanOf(s), bars[j]))
              && (HoldBars(o) >= 1 ==> i + ExitOf(s, bars, i, o).at == end - 1)
              && (HoldBars(o) == 0 ==> ExitOf(s, bars, i, o).at == 0)
  {
    var p, h := PlanOf(s), HoldBars(o);
    var path := Take(bars[i..], h);
    WalkShape(p, bars[i].close, path);
    var x := ExitOf(s, bars, i, o);
    forall j | i <= j < i + |path| && (j < i + x.at || x.reason.TimeExit?)
      ensures !Touched(p, bars[j])
    {
      assert path[j - i] == bars[j];
    }
    if path != [] {
      assert path[x.at] == bars[i + x.at];
    }
  }

  /** The close of an ordered bar that touches neither level lies strictly between them. */
  lemma TimeExitInside(p: Plan, entry: Num, b: Bar)
    requires GoodPrice(entry) && Inside(p, entry)
    requires Ordered(b) && GoodPrice(b.close) && !Touched(p, b)
    ensures Inside(p, b.close)
  {
  }

  lemma WalkIsExit(s: Signal, bars: seq<Bar>, i: nat, o: Options)
    requires i < |bars|
    ensures ExitOf(s, bars, i, o) == WalkExit(PlanOf(s), bars[i].close, Take(bars[i..], HoldBars(o)))
  {
  }

  lemma ReturnMonotone(short: bool, entry: real, a: real, b: real)
    requires entry > 0.0 && a <= b
    ensures short ==> ReturnOf(short, entry, b) <= ReturnOf(short, entry, a)
    ensures !short ==> ReturnOf(short, entry, a) <= ReturnOf(short, entry, b)
    ensures a < b && short ==> ReturnOf(short, entry, b) < ReturnOf(short, entry, a)
    ensures a < b && !short ==> ReturnOf(short, entry, a) < ReturnOf(short, entry, b)
  {
    var x, y := (a - entry) / entry, (b - entry) / entry;
    assert x * entry == a - entry && y * entry == b - entry;
    assert (y - x) * entry == b - a;
  }

  /** A level's return: what leaving at that price gives, when the price is finite. */
  function LevelReturn(p: Plan, entry: real, level: Num): real
    requires entry > 0.0 && level.Fin?
  {
    ReturnOf(p.short, entry, level.v)
  }

  /** The bounds a trade of an ordered series keeps, read off its exit reason. */
  predicate ReturnWithin(p: Plan, t: Trade)
    requires t.entry > 0.0
  {
    && (p.stop.Fin? ==>
         var low := LevelReturn(p, t.entry, p.stop);
         low < 0.0 && (if t.reason.Stop? then t.returnPct == low else t.returnPct > low))
    && (Truthy(p.tp1) && p.tp1.Fin? ==>
         var high := LevelReturn(p, t.entry, p.tp1);
         high > 0.0 && (if t.reason.Tp1? then t.returnPct == high else t.returnPct < high))
    && (t.reason.Stop? ==> p.stop.Fin?)
    && (t.reason.Tp1? ==> p.tp1.Fin? && Truthy(p.tp1))
  }

  /** The exit price of an ordered bar sequence lies between the levels, strictly so on a time exit. */
  lemma ExitWithin(s: Signal, bars: seq<Bar>, o: Options)
    requires o.mode.EntryZone? && o.maxHoldBars >= 1.0 && AllOrdered(bars)
    requires ReplaySignal(s, bars, o).Traded?
    ensures var t := ReplaySignal(s, bars, o).trade;
            && t.entry > 0.0 && Inside(PlanOf(s), Fin(t.entry))
            && t.returnPct == ReturnOf(PlanOf(s).short, t.entry, t.exit)
            && (t.reason.TimeExit? ==> Inside(PlanOf(s), Fin(t.exit)))
            && (t.reason.Stop? ==> Fin(t.exit) == PlanOf(s).stop)
            && (t.reason.Tp1? ==> Fin(t.exit) == PlanOf(s).tp1)
  {
    SelectionGivesOutcome(s, bars, o);
    EntryStrictlyInside(s, bars, o);
    hide Select, ReplaySignal, PlanOf, WalkExit, ReturnOf, ExitOf, Inside, Touched, StopHit, TargetHit;
    var i := Select(s, bars, o).index;
    ExitIsFirstTouch(s, bars, i, o);
    var x := ExitOf(s, bars, i, o);
    WalkIsExit(s, bars, i, o);
    if x.reason.TimeExit? && GoodPrice(x.price) {
      TimeExitInside(PlanOf(s), Select(s, bars, o).entry, bars[i + x.at]);
    }
    assert Ordered(bars[i + x.at]);
    assert HoldBars(o) >= 1;
  }

  /**
   Return bounds: stop exits attain the stop's (negative) return, target exits the target's (positive)
   return, and every other return lies strictly between them.
   */
  lemma ReturnBounds(s: Signal, bars: seq<Bar>, o: Options)
    requires o.mode.EntryZone? && o.maxHoldBars >= 1.0 && AllOrdered(bars)
    requires ReplaySignal(s, bars, o).Traded?
    ensures ReplaySignal(s, bars, o).trade.entry > 0.0
    ensures ReturnWithin(PlanOf(s), ReplaySignal(s, bars, o).trade)
  {
    ExitWithin(s, bars, o);
    var p, t := PlanOf(s), ReplaySignal(s, bars, o).trade;
    assert ReturnOf(p.short, t.entry, t.entry) == 0.0;
    if p.stop.Fin? {
      Between(p.short, t.entry, p.stop.v, t.entry);
      Between(p.short, t.entry, p.stop.v, t.exit);
    }
    if Truthy(p.tp1) && p.tp1.Fin? {
      Between(p.short, t.entry, t.entry, p.tp1.v);
      Between(p.short, t.entry, t.exit, p.tp1.v);
    }
    if t.reason.Stop? && Truthy(p.tp1) && p.tp1.Fin? {
      Between(p.short, t.entry, p.stop.v, p.tp1.v);
    }
    if t.reason.Tp1? && p.stop.Fin? {
      Between(p.short, t.entry, p.stop.v, p.tp1.v);
    }
  }

  /** Returns follow prices, in the direction of the trade. */
  lemma Between(short: bool, entry: real, a: real, b: real)
    requires entry > 0.0
    ensures (if short then a > b else a < b) ==> ReturnOf(short, entry, a) < ReturnOf(short, entry, b)
  {
    if a < b {
      ReturnMonotone(short, entry, a, b);
    } else {
      ReturnMonotone(short, entry, b, a);
    }
  }

  /** Pessimism on ties: leaving at any level the first touched bar touches does no worse than the replay. */
  lemma PessimisticTies(s: Signal, bars: seq<Bar>, o: Options, level: Num)
    requires o.mode.EntryZone? && Select(s, bars, o).Entered?
    requires ReplaySignal(s, bars, o).Traded? && !ReplaySignal(s, bars, o).trade.reason.TimeExit?
    requires var i := Select(s, bars, o).index;
             var b := bars[i + ExitOf(s, bars, i, o).at];
             level.Fin? && ((StopHit(PlanOf(s), b) && level == PlanOf(s).stop) ||
                             (TargetHit(PlanOf(s), b) && level == PlanOf(s).tp1))
    ensures var t := ReplaySignal(s, bars, o).trade;
            t.entry > 0.0 && t.returnPct <= ReturnOf(PlanOf(s).short, t.entry, level.v)
  {
    SelectionGivesOutcome(s, bars, o);
    EntryStrictlyInside(s, bars, o);
    ExitIsFirstTouch(s, bars, Select(s, bars, o).index, o);
    var t := ReplaySignal(s, bars, o).trade;
    Between(PlanOf(s).short, t.entry, t.exit, level.v);
  }

  // ----- holding less than one bar -----

  /** Time exits of ordered series lie strictly between stop and target. */
  ghost predicate TimeExitsInside(o: Options) {
    forall s, bars ::
      AllOrdered(bars) && ReplaySignal(s, bars, o).Traded? && ReplaySignal(s, bars, o).trade.reason.TimeExit?
      ==> Inside(PlanOf(s), Fin(ReplaySignal(s, bars, o).trade.exit))
  }

  /**
   The command line accepts a holding window below one bar. The walk then looks at no bar at all, and the
   position is marked at its entry bar's close even where that bar went through the stop.
   */
  lemma TimeExitsInsideIffHoldsABar(o: Options)
    requires o.mode.EntryZone?
    ensures TimeExitsInside(o) <==> o.maxHoldBars >= 1.0
  {
    if o.maxHoldBars >= 1.0 {
      forall s, bars | AllOrdered(bars) && ReplaySignal(s, bars, o).Traded?
                       && ReplaySignal(s, bars, o).trade.reason.TimeExit?
        ensures Inside(PlanOf(s), Fin(ReplaySignal(s, bars, o).trade.exit))
      {
        ExitWithin(s, bars, o);
      }
    } else {
      CrashedEntryBar(o);
    }
  }

  lemma CrashedEntryBar(o: Options)
    requires o.mode.EntryZone? && o.maxHoldBars < 1.0
    ensures !TimeExitsInside(o)
  {
    var s := Signal("", "", "", "", 0, "LONG", Fin(100.0), Fin(100.0), Fin(90.0), ZERO, ZERO);
    var b := Bar(1, Fin(100.0), Fin(100.0), Fin(80.0), Fin(80.0));
    var p, z := PlanOf(s), Zone(100.0, 100.0);
    var tail := [b];
    assert FirstTradable(tail, 0) == 0 && tail[0..] == tail;
    assert Take(tail, WaitBars(o)) == tail && tail[..0] == [];
    assert ScanEntry(p, z, tail) == Filled(0, 100.0);
    assert SignalEntryZone(s) == Some(z) && Midpoint(z) == 100.0;
    assert ReplaySignal(s, tail, o) == Finish(s, tail, 0, Fin(100.0), o);
    assert Take(tail[0..], HoldBars(o)) == [];
    assert ReplaySignal(s, tail, o).Traded? && ReplaySignal(s, tail, o).trade.exit == 80.0;
    assert AllOrdered(tail);
    assert !Inside(p, Fin(80.0));
  }
}
