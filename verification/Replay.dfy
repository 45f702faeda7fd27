/**
 Replay of one trading signal over a sequence of bars: the entry search inside a waiting window,
 then the walk to a stop, a target or the end of the holding window.

 The functions are the specification; the two methods at the end are the script's loops.
 Both folds (`ScanEntry`, `WalkExit`) recurse on the bars already seen, as the loops do.
 */
module Replay {
  import opened Numbers

  // ----- data -----

  datatype Bar = Bar(ts: int, open: Num, high: Num, low: Num, close: Num)

  /** The fields of a stored signal the replay reads; `direction` is already upper-case, null is zero. */
  datatype Signal = Signal(
    id: string, symbol: string, family: string, strategyId: string, createdAt: int, direction: string,
    entryLow: Num, entryHigh: Num, stopPrice: Num, invalidation: Num, tp1Price: Num)

  datatype EntryMode = EntryZone | NextOpen

  /** What the command line lets through: any positive number, fractions included. */
  type BarCount = r: real | r > 0.0 witness 1.0

  datatype Options = Options(mode: EntryMode, maxEntryWaitBars: BarCount, maxHoldBars: BarCount)

  datatype Zone = Zone(low: real, high: real)

  /** Direction and protective levels after defaulting. */
  datatype Plan = Plan(short: bool, stop: Num, tp1: Num)

  datatype SkipReason =
    | NoEntryBar | NoEntryZone | EntryNotFilled | MalformedSignalBounds
    | GapThroughStop | GapThroughTarget | BadPrice

  datatype ExitReason = Stop | Tp1 | TimeExit

  datatype Trade = Trade(
    signal: Signal, entryAt: int, exitAt: int, entry: real, exit: real, returnPct: real, reason: ExitReason)

  datatype Outcome = Traded(trade: Trade) | Skipped(signal: Signal, why: SkipReason)

  /** Where the scan of the entry window stopped. */
  datatype Scan = Filled(at: nat, price: real) | Refused(at: nat, why: SkipReason) | Unfilled

  /** Where the walk stopped: `at` counts from the entry bar. */
  datatype Exit = Exit(at: nat, price: Num, reason: ExitReason)

  // ----- windows -----

  /** Indices `first <= index < first + max(1, wait)`. */
  function WaitBars(o: Options): (n: nat)
    ensures n >= 1 && n as real >= o.maxEntryWaitBars && (n as real) < MaxR(1.0, o.maxEntryWaitBars) + 1.0
  {
    -((-MaxR(1.0, o.maxEntryWaitBars)).Floor)
  }

  /** `slice(entry, entry + hold)` drops the fraction of `hold`. */
  function HoldBars(o: Options): (n: nat)
    ensures n as real <= o.maxHoldBars < n as real + 1.0
  {
    o.maxHoldBars.Floor
  }

  function Take(bars: seq<Bar>, n: nat): seq<Bar> {
    if n <= |bars| then bars[..n] else bars
  }

  /** First bar after the signal; the number of bars when there is none. */
  function FirstTradable(bars: seq<Bar>, t: int): (i: nat)
    ensures i <= |bars| && (i < |bars| ==> bars[i].ts > t)
    ensures forall j :: 0 <= j < i ==> bars[j].ts <= t
  {
    if bars == [] || bars[0].ts > t then 0 else 1 + FirstTradable(bars[1..], t)
  }

  // ----- signal -----

  function PlanOf(s: Signal): Plan {
    Plan(s.direction == "SHORT", Or(Or(s.stopPrice, s.invalidation), ZERO), Or(s.tp1Price, ZERO))
  }

  function SignalEntryZone(s: Signal): (z: Option<Zone>)
    ensures z.Some? ==> 0.0 < z.value.low <= z.value.high
    ensures z.Some? ==> {s.entryLow, s.entryHigh} == {Fin(z.value.low), Fin(z.value.high)}
    ensures z.None? <==> !(s.entryLow.Fin? && s.entryHigh.Fin? && s.entryLow.v > 0.0 && s.entryHigh.v > 0.0)
  {
    if !s.entryLow.Fin? || !s.entryHigh.Fin? || s.entryLow.v <= 0.0 || s.entryHigh.v <= 0.0 then None
    else if s.entryLow.v <= s.entryHigh.v then Some(Zone(s.entryLow.v, s.entryHigh.v))
    else Some(Zone(s.entryHigh.v, s.entryLow.v))
  }

  function Midpoint(z: Zone): real {
    (z.low + z.high) / 2.0
  }

  /** `price` lies strictly between stop and target; an absent target sets no bound. */
  predicate Inside(p: Plan, price: Num) {
    if p.short then Lt(price, p.stop) && (Truthy(p.tp1) ==> Lt(p.tp1, price))
    else Lt(p.stop, price) && (Truthy(p.tp1) ==> Lt(price, p.tp1))
  }

  predicate SetupBoundsAreValid(p: Plan, e: real) {
    if e <= 0.0 then false
    else if p.short then Lt(Fin(e), p.stop) && (!Truthy(p.tp1) || Lt(p.tp1, Fin(e)))
    else Lt(ZERO, p.stop) && Lt(p.stop, Fin(e)) && (!Truthy(p.tp1) || Lt(Fin(e), p.tp1))
  }

  // ----- entry -----

  predicate GoodPrice(x: Num) {
    x.Fin? && x.v > 0.0
  }

  function GapInvalidatesEntry(p: Plan, open: Num): Option<SkipReason> {
    if !GoodPrice(open) then Some(BadPrice)
    else if p.short then
      if Lt(ZERO, p.stop) && Le(p.stop, open) then Some(GapThroughStop)
      else if Lt(ZERO, p.tp1) && Le(open, p.tp1) then Some(GapThroughTarget)
      else None
    else
      if Lt(ZERO, p.stop) && Le(open, p.stop) then Some(GapThroughStop)
      else if Lt(ZERO, p.tp1) && Le(p.tp1, open) then Some(GapThroughTarget)
      else None
  }

  predicate PriceInZone(x: real, z: Zone) {
    z.low <= x <= z.high
  }

  function EntryFillPrice(bar: Bar, z: Zone): Option<real> {
    if !bar.open.Fin? || !bar.high.Fin? || !bar.low.Fin? then None
    else if PriceInZone(bar.open.v, z) then Some(bar.open.v)
    else if !(bar.low.v <= z.high && bar.high.v >= z.low) then None
    else if bar.open.v > z.high then Some(z.high)
    else if bar.open.v < z.low then Some(z.low)
    else Some(MinR(z.high, MaxR(z.low, bar.open.v)))
  }

  function StepEntry(p: Plan, z: Zone, bar: Bar, k: nat): Scan {
    match GapInvalidatesEntry(p, bar.open)
    case Some(why) => Refused(k, why)
    case None =>
      match EntryFillPrice(bar, z)
      case Some(price) => Filled(k, price)
      case None => Unfilled
  }

  function ScanEntry(p: Plan, z: Zone, w: seq<Bar>): Scan {
    if w == [] then Unfilled
    else
      var n := |w| - 1;
      var before := ScanEntry(p, z, w[..n]);
      if before.Unfilled? then StepEntry(p, z, w[n], n) else before
  }

  // ----- exit -----

  predicate StopHit(p: Plan, b: Bar) {
    Lt(ZERO, p.stop) && if p.short then Le(p.stop, b.high) else Le(b.low, p.stop)
  }

  predicate TargetHit(p: Plan, b: Bar) {
    Lt(ZERO, p.tp1) && if p.short then Le(b.low, p.tp1) else Le(p.tp1, b.high)
  }

  predicate Touched(p: Plan, b: Bar) {
    StopHit(p, b) || TargetHit(p, b)
  }

  function StepExit(p: Plan, b: Bar, k: nat): Exit {
    if Touched(p, b) then
      Exit(k, if StopHit(p, b) then p.stop else p.tp1, if StopHit(p, b) then Stop else Tp1)
    else Exit(k, b.close, TimeExit)
  }

  /** `entryClose` is what the exit price is before the first bar of the path is looked at. */
  function WalkExit(p: Plan, entryClose: Num, path: seq<Bar>): Exit {
    if path == [] then Exit(0, entryClose, TimeExit)
    else
      var n := |path| - 1;
      var before := WalkExit(p, entryClose, path[..n]);
      if before.reason.TimeExit? then StepExit(p, path[n], n) else before
  }

  // ----- outcome -----

  function ReturnOf(short: bool, entry: real, exit: real): real
    requires entry > 0.0
  {
    (exit - entry) / entry * (if short then -1.0 else 1.0)
  }

  /** `tail` starts at the first tradable bar; the trade was entered at `tail[k]`. */
  function Finish(s: Signal, tail: seq<Bar>, k: nat, entry: Num, o: Options): (r: Outcome)
    requires k < |tail|
  {
    var p := PlanOf(s);
    var x := WalkExit(p, tail[k].close, Take(tail[k..], HoldBars(o)));
    WalkShape(p, tail[k].close, Take(tail[k..], HoldBars(o)));
    if !GoodPrice(entry) || !GoodPrice(x.price) then Skipped(s, BadPrice)
    else Traded(Trade(s, tail[k].ts, tail[k + x.at].ts, entry.v, x.price.v,
                      ReturnOf(p.short, entry.v, x.price.v), x.reason))
  }

  /** The entry-zone search over the bars from the first tradable one on. */
  function ReplayInZone(s: Signal, z: Zone, tail: seq<Bar>, o: Options): Outcome {
    var p := PlanOf(s);
    ScanShape(p, z, Take(tail, WaitBars(o)));
    match ScanEntry(p, z, Take(tail, WaitBars(o)))
    case Refused(_, why) => Skipped(s, why)
    case Unfilled => Skipped(s, EntryNotFilled)
    case Filled(k, price) => Finish(s, tail, k, Fin(price), o)
  }

  function ReplayTail(s: Signal, tail: seq<Bar>, o: Options): Outcome
    requires tail != []
  {
    if o.mode.NextOpen? then Finish(s, tail, 0, tail[0].open, o)
    else
      match SignalEntryZone(s)
      case None => Skipped(s, NoEntryZone)
      case Some(z) =>
        if !SetupBoundsAreValid(PlanOf(s), Midpoint(z)) then Skipped(s, MalformedSignalBounds)
        else ReplayInZone(s, z, tail, o)
  }

  /** The outcome before the printed figures are rounded. */
  function ReplaySignal(s: Signal, bars: seq<Bar>, o: Options): Outcome {
    var f := FirstTradable(bars, s.createdAt);
    if f == |bars| then Skipped(s, NoEntryBar) else ReplayTail(s, bars[f..], o)
  }

  /** Prices to four digits, the return to six. */
  function Published(r: Outcome): Outcome {
    match r
    case Skipped(_, _) => r
    case Traded(t) =>
      Traded(t.(entry := Round(t.entry, 10000), exit := Round(t.exit, 10000), returnPct := Round(t.returnPct, 1000000)))
  }

  // ----- what the folds return -----

  lemma {:induction false} WalkShape(p: Plan, c: Num, path: seq<Bar>)
    ensures var x := WalkExit(p, c, path);
            && (path == [] ==> x.at == 0)
            && (path != [] ==> x.at < |path| && x == StepExit(p, path[x.at], x.at))
            && (path != [] && x.reason.TimeExit? ==> x.at == |path| - 1)
            && (forall j :: 0 <= j < |path| && (j < x.at || x.reason.TimeExit?) ==> !Touched(p, path[j]))
  {
    if path != [] {
      WalkShape(p, c, path[..|path| - 1]);
    }
  }

  lemma {:induction false} ScanShape(p: Plan, z: Zone, w: seq<Bar>)
    ensures var r := ScanEntry(p, z, w);
            && (!r.Unfilled? ==> r.at < |w| && r == StepEntry(p, z, w[r.at], r.at))
            && (forall j :: 0 <= j < |w| && (r.Unfilled? || j < r.at) ==> StepEntry(p, z, w[j], j).Unfilled?)
  {
    if w != [] {
      ScanShape(p, z, w[..|w| - 1]);
    }
  }

  // ----- the script's loops -----

  datatype Selection = Entered(index: nat, entry: Num) | Turned(why: SkipReason)

  /** The entry the script selects, by index into all bars. */
  function Select(s: Signal, bars: seq<Bar>, o: Options): (r: Selection)
    ensures r.Entered? ==> r.index < |bars|
  {
    var f := FirstTradable(bars, s.createdAt);
    var p := PlanOf(s);
    if f == |bars| then Turned(NoEntryBar)
    else if o.mode.NextOpen? then Entered(f, bars[f].open)
    else
      match SignalEntryZone(s)
      case None => Turned(NoEntryZone)
      case Some(z) =>
        if !SetupBoundsAreValid(p, Midpoint(z)) then Turned(MalformedSignalBounds)
        else
          ScanShape(p, z, Take(bars[f..], WaitBars(o)));
          match ScanEntry(p, z, Take(bars[f..], WaitBars(o)))
          case Refused(_, why) => Turned(why)
          case Unfilled => Turned(EntryNotFilled)
          case Filled(k, price) => Entered(f + k, Fin(price))
  }

  /** The entry loop: the first bar of the window that gaps or fills, by offset. */
  method ScanWindow(p: Plan, z: Zone, w: seq<Bar>) returns (r: Scan)
    ensures r == ScanEntry(p, z, w)
  {
    for k := 0 to |w|
      invariant ScanEntry(p, z, w[..k]).Unfilled?
    {
      hide GapInvalidatesEntry, EntryFillPrice;
      assert w[..k + 1][..k] == w[..k];
      var gap := GapInvalidatesEntry(p, w[k].open);
      if gap.Some? {
        r := Refused(k, gap.value);
        ScanExtends(p, z, w, k + 1);
        return;
      }
      var entry := EntryFillPrice(w[k], z);
      if entry.Some? {
        r := Filled(k, entry.value);
        ScanExtends(p, z, w, k + 1);
        return;
      }
    }
    assert w[..|w|] == w;
    r := Unfilled;
  }

  method SelectEntry(s: Signal, bars: seq<Bar>, p: Plan, o: Options) returns (r: Selection)
    requires p == PlanOf(s)
    ensures r == Select(s, bars, o)
  {
    hide ScanEntry, SetupBoundsAreValid, PlanOf;
    var first := FirstTradable(bars, s.createdAt);
    if first == |bars| {
      return Turned(NoEntryBar);
    }
    if o.mode.NextOpen? {
      return Entered(first, bars[first].open);
    }
    var zone := SignalEntryZone(s);
    if zone.None? {
      return Turned(NoEntryZone);
    }
    if !SetupBoundsAreValid(p, Midpoint(zone.value)) {
      return Turned(MalformedSignalBounds);
    }
    var scan := ScanWindow(p, zone.value, Take(bars[first..], WaitBars(o)));
    match scan {
      case Refused(_, why) => r := Turned(why);
      case Filled(k, price) => r := Entered(first + k, Fin(price));
      case Unfilled => r := Turned(EntryNotFilled);
    }
  }

  /** The holding loop: the index of the exit bar, the exit price and the reason. */
  method WalkToExit(p: Plan, bars: seq<Bar>, entryIndex: nat, o: Options)
    returns (exitIndex: nat, exit: Num, reason: ExitReason)
    requires entryIndex < |bars|
    ensures entryIndex <= exitIndex < |bars|
    ensures WalkExit(p, bars[entryIndex].close, Take(bars[entryIndex..], HoldBars(o)))
         == Exit(exitIndex - entryIndex, exit, reason)
  {
    var close := bars[entryIndex].close;
    exitIndex, exit, reason := entryIndex, close, TimeExit;
    var path := Take(bars[entryIndex..], HoldBars(o));
    for i := 0 to |path|
      invariant entryIndex <= exitIndex < |bars|
      invariant WalkExit(p, close, path[..i]) == Exit(exitIndex - entryIndex, exit, TimeExit)
      invariant reason == TimeExit
    {
      var b := path[i];
      assert path[..i + 1][..i] == path[..i];
      var stopHit, targetHit := StopHit(p, b), TargetHit(p, b);
      exitIndex := entryIndex + i;
      if stopHit || targetHit {
        exit := if stopHit then p.stop else p.tp1;
        reason := if stopHit then Stop else Tp1;
        WalkExtends(p, close, path, i + 1);
        return;
      }
      exit := b.close;
    }
    assert path[..|path|] == path;
  }

  method ReplaySignalOutcome(s: Signal, bars: seq<Bar>, o: Options) returns (r: Outcome)
    ensures r == Published(ReplaySignal(s, bars, o))
  {
    var p := PlanOf(s);
    var selection := SelectEntry(s, bars, p, o);
    SelectionGivesOutcome(s, bars, o);
    if selection.Turned? {
      return Skipped(s, selection.why);
    }
    var entryIndex, entry := selection.index, selection.entry;
    var exitIndex, exit, reason := WalkToExit(p, bars, entryIndex, o);
    if !GoodPrice(entry) || !GoodPrice(exit) {
      return Skipped(s, BadPrice);
    }
    return Traded(Trade(s, bars[entryIndex].ts, bars[exitIndex].ts, Round(entry.v, 10000), Round(exit.v, 10000),
                        Round(ReturnOf(p.short, entry.v, exit.v), 1000000), reason));
  }

  /** A scan that has stopped is not reopened by later bars of the window. */
  lemma {:induction false} ScanExtends(p: Plan, z: Zone, w: seq<Bar>, n: nat)
    requires n <= |w| && !ScanEntry(p, z, w[..n]).Unfilled?
    ensures ScanEntry(p, z, w) == ScanEntry(p, z, w[..n])
  {
    if n == |w| {
      assert w[..n] == w;
    } else {
      var v := w[..|w| - 1];
      assert v[..n] == w[..n];
      ScanExtends(p, z, v, n);
    }
  }

  /** A walk that has hit a level is not reopened by later bars of the path. */
  lemma {:induction false} WalkExtends(p: Plan, c: Num, path: seq<Bar>, n: nat)
    requires n <= |path| && !WalkExit(p, c, path[..n]).reason.TimeExit?
    ensures WalkExit(p, c, path) == WalkExit(p, c, path[..n])
  {
    if n == |path| {
      assert path[..n] == path;
    } else {
      var v := path[..|path| - 1];
      assert v[..n] == path[..n];
      WalkExtends(p, c, v, n);
    }
  }

  lemma SelectionGivesOutcome(s: Signal, bars: seq<Bar>, o: Options)
    ensures var r := Select(s, bars, o);
            match r
            case Turned(why) => ReplaySignal(s, bars, o) == Skipped(s, why)
            case Entered(i, entry) =>
              var x := WalkExit(PlanOf(s), bars[i].close, Take(bars[i..], HoldBars(o)));
              i + x.at < |bars| &&
              ReplaySignal(s, bars, o) ==
              if !GoodPrice(entry) || !GoodPrice(x.price) then Skipped(s, BadPrice)
              else Traded(Trade(s, bars[i].ts, bars[i + x.at].ts, entry.v, x.price.v,
                                ReturnOf(PlanOf(s).short, entry.v, x.price.v), x.reason))
  {
    var r := Select(s, bars, o);
    var f := FirstTradable(bars, s.createdAt);
    if r.Entered? {
      var k := r.index - f;
      assert bars[f..][k..] == bars[r.index..];
      WalkShape(PlanOf(s), bars[r.index].close, Take(bars[r.index..], HoldBars(o)));
    }
  }
}
