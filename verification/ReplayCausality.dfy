/** Which bars an outcome depends on, and what larger windows can change. */
module ReplayCausality {
  import opened Numbers
  import opened Replay

  // ----- the past -----

  lemma {:induction false} FirstTradableSkipsPrefix(pre: seq<Bar>, rest: seq<Bar>, t: int)
    requires forall j :: 0 <= j < |pre| ==> pre[j].ts <= t
    ensures FirstTradable(pre + rest, t) == |pre| + FirstTradable(rest, t)
  {
    if pre == [] {
      assert pre + rest == rest;
    } else {
      assert (pre + rest)[1..] == pre[1..] + rest;
      FirstTradableSkipsPrefix(pre[1..], rest, t);
    }
  }

  lemma OnlyTailMatters(s: Signal, before: seq<Bar>, rest: seq<Bar>, o: Options)
    requires forall j :: 0 <= j < |before| ==> before[j].ts <= s.createdAt
    ensures ReplaySignal(s, before + rest, o) == ReplaySignal(s, rest, o)
  {
    hide ReplayTail, FirstTradable;
    FirstTradableSkipsPrefix(before, rest, s.createdAt);
    var f := FirstTradable(rest, s.createdAt);
    assert (before + rest)[|before| + f..] == rest[f..];
  }

  /** Bars no later than the signal, however many and whatever their prices, never matter. */
  lemma PastIsIrrelevant(s: Signal, before: seq<Bar>, before': seq<Bar>, rest: seq<Bar>, o: Options)
    requires forall j :: 0 <= j < |before| ==> before[j].ts <= s.createdAt
    requires forall j :: 0 <= j < |before'| ==> before'[j].ts <= s.createdAt
    ensures ReplaySignal(s, before + rest, o) == ReplaySignal(s, before' + rest, o)
  {
    OnlyTailMatters(s, before, rest, o);
    OnlyTailMatters(s, before', rest, o);
  }

  // ----- the future -----

  /** The bar, counted from the entry, after which nothing can change a position opened at `tail[k]`. */
  function DecidingExit(p: Plan, tail: seq<Bar>, k: nat, entry: Num, o: Options): Option<nat>
    requires k < |tail|
  {
    var x := WalkExit(p, tail[k].close, Take(tail[k..], HoldBars(o)));
    if !GoodPrice(entry) || HoldBars(o) == 0 then Some(k)
    else if !x.reason.TimeExit? then Some(k + x.at)
    else if HoldBars(o) <= |tail| - k then Some(k + HoldBars(o) - 1)
    else None
  }

  function DecidingInZone(s: Signal, z: Zone, tail: seq<Bar>, o: Options): Option<nat> {
    var p := PlanOf(s);
    ScanShape(p, z, Take(tail, WaitBars(o)));
    match ScanEntry(p, z, Take(tail, WaitBars(o)))
    case Refused(k, _) => Some(k)
    case Unfilled => if WaitBars(o) <= |tail| then Some(WaitBars(o) - 1) else None
    case Filled(k, price) => DecidingExit(p, tail, k, Fin(price), o)
  }

  /**
   The deciding bar, by index into the bars from the first tradable one on: the touched bar, the
   gapping bar, the last bar of a full entry window or of a full holding window.
   */
  function DecidingBar(s: Signal, tail: seq<Bar>, o: Options): Option<nat>
    requires tail != []
  {
    if o.mode.NextOpen? then DecidingExit(PlanOf(s), tail, 0, tail[0].open, o)
    else
      match SignalEntryZone(s)
      case None => Some(0)
      case Some(z) =>
        if !SetupBoundsAreValid(PlanOf(s), Midpoint(z)) then Some(0)
        else DecidingInZone(s, z, tail, o)
  }

  lemma DecidedExit(s: Signal, tail: seq<Bar>, k: nat, entry: Num, o: Options, more: seq<Bar>)
    requires k < |tail| && DecidingExit(PlanOf(s), tail, k, entry, o).Some?
    ensures var d := DecidingExit(PlanOf(s), tail, k, entry, o).value;
            && k <= d < |tail|
            && Finish(s, tail[..d + 1] + more, k, entry, o) == Finish(s, tail, k, entry, o)
  {
    var p, h, c := PlanOf(s), HoldBars(o), tail[k].close;
    var path := Take(tail[k..], h);
    WalkShape(p, c, path);
    var x := WalkExit(p, c, path);
    var d := DecidingExit(p, tail, k, entry, o).value;
    var tail' := tail[..d + 1] + more;
    assert tail'[k..] == tail[k..d + 1] + more;
    var path' := Take(tail'[k..], h);
    if GoodPrice(entry) && h != 0 {
      if x.reason.TimeExit? {
        assert path' == path;
      } else {
        assert path'[..x.at + 1] == tail[k..d + 1] == path[..x.at + 1];
        DecidedWalk(p, c, path, path', x.at + 1);
      }
    }
  }

  lemma DecidedWalk(p: Plan, c: Num, path: seq<Bar>, path': seq<Bar>, n: nat)
    requires n <= |path| && n <= |path'| && path[..n] == path'[..n]
    requires !WalkExit(p, c, path).reason.TimeExit? && WalkExit(p, c, path).at == n - 1
    ensures WalkExit(p, c, path') == WalkExit(p, c, path)
  {
    WalkShape(p, c, path);
    WalkShape(p, c, path[..n]);
    var y := WalkExit(p, c, path[..n]);
    assert path[..n][n - 1] == path[n - 1];
    assert Touched(p, path[..n][n - 1]);
    assert !y.reason.TimeExit?;
    WalkExtends(p, c, path, n);
    WalkExtends(p, c, path', n);
  }

  lemma DecidedScan(p: Plan, z: Zone, w: seq<Bar>, w': seq<Bar>, n: nat)
    requires n <= |w| && n <= |w'| && w[..n] == w'[..n]
    requires !ScanEntry(p, z, w).Unfilled? && ScanEntry(p, z, w).at < n
    ensures ScanEntry(p, z, w') == ScanEntry(p, z, w)
  {
    ScanShape(p, z, w);
    ScanShape(p, z, w[..n]);
    var k := ScanEntry(p, z, w).at;
    assert w[..n][k] == w[k];
    assert !StepEntry(p, z, w[..n][k], k).Unfilled?;
    ScanExtends(p, z, w, n);
    ScanExtends(p, z, w', n);
  }

  lemma DecidedInZone(s: Signal, z: Zone, tail: seq<Bar>, o: Options, more: seq<Bar>)
    requires DecidingInZone(s, z, tail, o).Some?
    ensures var d := DecidingInZone(s, z, tail, o).value;
            d < |tail| && ReplayInZone(s, z, tail[..d + 1] + more, o) == ReplayInZone(s, z, tail, o)
  {
    hide Finish, DecidingExit, StepEntry, PlanOf, ScanEntry;
    var p, n := PlanOf(s), WaitBars(o);
    var w := Take(tail, n);
    ScanShape(p, z, w);
    var scan := ScanEntry(p, z, w);
    if scan.Filled? {
      DecidedExit(s, tail, scan.at, Fin(scan.price), o, more);
    }
    var d := DecidingInZone(s, z, tail, o).value;
    var w' := Take(tail[..d + 1] + more, n);
    if scan.Unfilled? {
      assert w' == w;
    } else {
      assert w[..scan.at + 1] == tail[..scan.at + 1] == w'[..scan.at + 1];
      DecidedScan(p, z, w, w', scan.at + 1);
    }
  }

  /** Past the deciding bar every continuation gives the same outcome. */
  lemma DecidedTail(s: Signal, tail: seq<Bar>, o: Options, more: seq<Bar>)
    requires tail != [] && DecidingBar(s, tail, o).Some?
    ensures var d := DecidingBar(s, tail, o).value;
            d < |tail| && ReplayTail(s, tail[..d + 1] + more, o) == ReplayTail(s, tail, o)
  {
    hide Finish, DecidingExit, ReplayInZone, DecidingInZone, SetupBoundsAreValid, PlanOf;
    if o.mode.NextOpen? {
      DecidedExit(s, tail, 0, tail[0].open, o, more);
    } else if SignalEntryZone(s).Some? {
      var z := SignalEntryZone(s).value;
      if SetupBoundsAreValid(PlanOf(s), Midpoint(z)) {
        DecidedInZone(s, z, tail, o, more);
      }
    }
  }

  /** A bar that opens badly, closes badly and touches nothing. */
  const VOID: Bar := Bar(0, NaN, NaN, NaN, NaN)

  /** A bar that opens badly, touches nothing and closes at one. */
  const FLAT: Bar := Bar(0, NaN, NaN, NaN, Fin(1.0))

  lemma UndecidedExit(s: Signal, tail: seq<Bar>, k: nat, entry: Num, o: Options)
    requires k < |tail| && DecidingExit(PlanOf(s), tail, k, entry, o).None?
    ensures Finish(s, tail + [VOID], k, entry, o) != Finish(s, tail, k, entry, o)
         || Finish(s, tail + [FLAT], k, entry, o) != Finish(s, tail, k, entry, o)
  {
    var p, h, c := PlanOf(s), HoldBars(o), tail[k].close;
    var path := tail[k..];
    assert Take(path, h) == path;
    assert (tail + [VOID])[k..] == path + [VOID] && (path + [VOID])[..|path|] == path;
    assert (tail + [FLAT])[k..] == path + [FLAT] && (path + [FLAT])[..|path|] == path;
    assert Take((tail + [VOID])[k..], h) == path + [VOID];
    assert Take((tail + [FLAT])[k..], h) == path + [FLAT];
    assert WalkExit(p, c, path + [VOID]).price == NaN;
    assert WalkExit(p, c, path + [FLAT]).price == Fin(1.0);
  }

  lemma UndecidedInZone(s: Signal, z: Zone, tail: seq<Bar>, o: Options)
    requires DecidingInZone(s, z, tail, o).None?
    ensures ReplayInZone(s, z, tail + [VOID], o) != ReplayInZone(s, z, tail, o)
         || ReplayInZone(s, z, tail + [FLAT], o) != ReplayInZone(s, z, tail, o)
  {
    var p, n := PlanOf(s), WaitBars(o);
    var w := Take(tail, n);
    ScanShape(p, z, w);
    var scan := ScanEntry(p, z, w);
    if scan.Filled? {
      UndecidedExit(s, tail, scan.at, Fin(scan.price), o);
      DecidedScan(p, z, w, Take(tail + [VOID], n), scan.at + 1);
      DecidedScan(p, z, w, Take(tail + [FLAT], n), scan.at + 1);
    } else {
      assert w == tail && (tail + [VOID])[..|tail|] == tail;
      assert Take(tail + [VOID], n) == tail + [VOID];
      assert ScanEntry(p, z, tail + [VOID]) == Refused(|tail|, BadPrice);
    }
  }

  /** Without a deciding bar some next bar does change the outcome. */
  lemma UndecidedTail(s: Signal, tail: seq<Bar>, o: Options)
    requires tail != [] && DecidingBar(s, tail, o).None?
    ensures ReplayTail(s, tail + [VOID], o) != ReplayTail(s, tail, o)
         || ReplayTail(s, tail + [FLAT], o) != ReplayTail(s, tail, o)
  {
    if o.mode.NextOpen? {
      UndecidedExit(s, tail, 0, tail[0].open, o);
    } else {
      UndecidedInZone(s, SignalEntryZone(s).value, tail, o);
    }
  }

  /** The deciding bar by index into all bars. */
  function DecidingIndex(s: Signal, bars: seq<Bar>, o: Options): Option<nat> {
    var f := FirstTradable(bars, s.createdAt);
    if f == |bars| then None
    else
      match DecidingBar(s, bars[f..], o)
      case None => None
      case Some(d) => Some(f + d)
  }

  /** Cutting the bars at the first tradable one. */
  lemma FromFirstTradable(s: Signal, before: seq<Bar>, tail: seq<Bar>, o: Options)
    requires forall j :: 0 <= j < |before| ==> before[j].ts <= s.createdAt
    requires tail != [] && tail[0].ts > s.createdAt
    ensures FirstTradable(before + tail, s.createdAt) == |before|
    ensures ReplaySignal(s, before + tail, o) == ReplayTail(s, tail, o)
  {
    FirstTradableSkipsPrefix(before, tail, s.createdAt);
    assert (before + tail)[|before|..] == tail;
  }

  lemma FutureOfTail(s: Signal, before: seq<Bar>, tail: seq<Bar>, d: nat, o: Options, more: seq<Bar>)
    requires forall j :: 0 <= j < |before| ==> before[j].ts <= s.createdAt
    requires tail != [] && tail[0].ts > s.createdAt
    requires DecidingBar(s, tail, o) == Some(d)
    ensures d < |tail|
    ensures ReplaySignal(s, before + (tail[..d + 1] + more), o) == ReplaySignal(s, before + tail, o)
  {
    DecidedTail(s, tail, o, more);
    FromFirstTradable(s, before, tail, o);
    FromFirstTradable(s, before, tail[..d + 1] + more, o);
  }

  /** No look-ahead: whatever follows the deciding bar, replaced, removed or added, the outcome is the same. */
  lemma FutureIsIrrelevant(s: Signal, bars: seq<Bar>, other: seq<Bar>, o: Options, i: nat)
    requires DecidingIndex(s, bars, o) == Some(i)
    requires i < |bars| && i < |other| && other[..i + 1] == bars[..i + 1]
    ensures ReplaySignal(s, other, o) == ReplaySignal(s, bars, o)
  {
    var f := FirstTradable(bars, s.createdAt);
    FutureOfTail(s, bars[..f], bars[f..], i - f, o, other[i + 1..]);
    PrefixSplit(bars, other, f, i);
  }

  lemma PrefixSplit<T>(a: seq<T>, b: seq<T>, f: nat, i: nat)
    requires f <= i < |a| && i < |b| && a[..i + 1] == b[..i + 1]
    ensures a == a[..f] + a[f..]
    ensures b == a[..f] + (a[f..][..i - f + 1] + b[i + 1..])
  {
    assert a[f..][..i - f + 1] == b[..i + 1][f..];
    assert a[..f] == b[..i + 1][..f];
  }

  lemma DecidingIndexInRange(s: Signal, bars: seq<Bar>, o: Options)
    requires DecidingIndex(s, bars, o).Some?
    ensures DecidingIndex(s, bars, o).value < |bars|
  {
    var f := FirstTradable(bars, s.createdAt);
    DecidedTail(s, bars[f..], o, []);
  }

  lemma UndecidedWithoutTail(s: Signal, bars: seq<Bar>, o: Options) returns (b: Bar)
    requires FirstTradable(bars, s.createdAt) == |bars|
    ensures ReplaySignal(s, bars + [b], o) != ReplaySignal(s, bars, o)
  {
    b := Bar(s.createdAt + 1, NaN, NaN, NaN, NaN);
    FromFirstTradable(s, bars, [b], o);
    if SignalEntryZone(s).Some? {
      ScanShape(PlanOf(s), SignalEntryZone(s).value, Take([b], WaitBars(o)));
      assert ReplayInZone(s, SignalEntryZone(s).value, [b], o) == Skipped(s, BadPrice);
    }
  }

  lemma UndecidedWithTail(s: Signal, before: seq<Bar>, tail: seq<Bar>, o: Options) returns (b: Bar)
    requires forall j :: 0 <= j < |before| ==> before[j].ts <= s.createdAt
    requires tail != [] && tail[0].ts > s.createdAt
    requires DecidingBar(s, tail, o).None?
    ensures ReplaySignal(s, before + (tail + [b]), o) != ReplaySignal(s, before + tail, o)
  {
    UndecidedTail(s, tail, o);
    b := if ReplayTail(s, tail + [VOID], o) != ReplayTail(s, tail, o) then VOID else FLAT;
    FromFirstTradable(s, before, tail, o);
    FromFirstTradable(s, before, tail + [b], o);
  }

  lemma UndecidedBars(s: Signal, bars: seq<Bar>, o: Options) returns (b: Bar)
    requires DecidingIndex(s, bars, o).None?
    ensures ReplaySignal(s, bars + [b], o) != ReplaySignal(s, bars, o)
  {
    var f := FirstTradable(bars, s.createdAt);
    if f == |bars| {
      b := UndecidedWithoutTail(s, bars, o);
    } else {
      b := UndecidedWithTail(s, bars[..f], bars[f..], o);
      Appended(bars, f, b);
    }
  }

  lemma Appended<T>(a: seq<T>, f: nat, b: T)
    requires f <= |a|
    ensures a == a[..f] + a[f..]
    ensures a + [b] == a[..f] + (a[f..] + [b])
  {
  }

  lemma LaterBarsAdded(s: Signal, bars: seq<Bar>, o: Options, more: seq<Bar>)
    requires DecidingIndex(s, bars, o).Some?
    ensures ReplaySignal(s, bars + more, o) == ReplaySignal(s, bars, o)
  {
    DecidingIndexInRange(s, bars, o);
    var i := DecidingIndex(s, bars, o).value;
    assert (bars + more)[..i + 1] == bars[..i + 1];
    FutureIsIrrelevant(s, bars, bars + more, o, i);
  }

  ghost predicate NoLookAhead(s: Signal, bars: seq<Bar>, o: Options) {
    forall more :: ReplaySignal(s, bars + more, o) == ReplaySignal(s, bars, o)
  }

  /** The deciding bar is exact: there is one if and only if no continuation changes the outcome. */
  lemma DecidedIffNoLookAhead(s: Signal, bars: seq<Bar>, o: Options)
    ensures DecidingIndex(s, bars, o).Some? <==> NoLookAhead(s, bars, o)
  {
    if DecidingIndex(s, bars, o).Some? {
      forall more ensures ReplaySignal(s, bars + more, o) == ReplaySignal(s, bars, o) {
        LaterBarsAdded(s, bars, o, more);
      }
    } else {
      var b := UndecidedBars(s, bars, o);
    }
  }

  // ----- the same for the bars the query returns -----

  predicate RealBar(b: Bar) {
    && b.open.Fin? && b.high.Fin? && b.low.Fin? && b.close.Fin?
    && 0.0 < b.low.v <= b.open.v <= b.high.v && b.low.v <= b.close.v <= b.high.v
  }

  /** In time order, with positive prices inside each bar's range. */
  ghost predicate RealBars(bars: seq<Bar>) {
    && (forall i :: 0 <= i < |bars| ==> RealBar(bars[i]))
    && (forall i, j :: 0 <= i < j < |bars| ==> bars[i].ts <= bars[j].ts)
  }

  function FlatBar(ts: int, price: real): Bar {
    Bar(ts, Fin(price), Fin(price), Fin(price), Fin(price))
  }

  /** One more held bar moves the exit. */
  lemma LaterExit(s: Signal, tail: seq<Bar>, k: nat, entry: Num, o: Options, b: Bar)
    requires k < |tail| && DecidingExit(PlanOf(s), tail, k, entry, o).None?
    requires GoodPrice(tail[|tail| - 1].close) && tail[|tail| - 1].ts < b.ts
    ensures Finish(s, tail + [b], k, entry, o) != Finish(s, tail, k, entry, o)
  {
    var p, h, c := PlanOf(s), HoldBars(o), tail[k].close;
    var path := tail[k..];
    assert Take(path, h) == path;
    assert (tail + [b])[k..] == path + [b] && (path + [b])[..|path|] == path;
    assert Take((tail + [b])[k..], h) == path + [b];
    WalkShape(p, c, path);
    assert path[|path| - 1] == tail[|tail| - 1];
    assert Finish(s, tail, k, entry, o).Traded?;
    assert Finish(s, tail, k, entry, o).trade.exitAt == tail[|tail| - 1].ts;
    assert WalkExit(p, c, path + [b]).at == |path|;
  }

  /** A flat bar in the middle of the zone fills an entry that is still waiting. */
  lemma MidpointFills(s: Signal, z: Zone, tail: seq<Bar>, o: Options, ts: int)
    requires 0.0 < z.low <= z.high && SetupBoundsAreValid(PlanOf(s), Midpoint(z))
    requires ScanEntry(PlanOf(s), z, Take(tail, WaitBars(o))).Unfilled? && |tail| < WaitBars(o)
    ensures ReplayInZone(s, z, tail + [FlatBar(ts, Midpoint(z))], o) != Skipped(s, EntryNotFilled)
  {
    hide Finish;
    var p, n, b := PlanOf(s), WaitBars(o), FlatBar(ts, Midpoint(z));
    assert Take(tail, n) == tail && (tail + [b])[..|tail|] == tail;
    assert Take(tail + [b], n) == tail + [b];
    assert StepEntry(p, z, b, |tail|) == Filled(|tail|, Midpoint(z));
    assert ScanEntry(p, z, tail + [b]) == Filled(|tail|, Midpoint(z));
    FinishTradesOrIsBad(s, tail + [b], |tail|, Fin(Midpoint(z)), o);
  }

  lemma FinishTradesOrIsBad(s: Signal, tail: seq<Bar>, k: nat, entry: Num, o: Options)
    requires k < |tail|
    ensures Finish(s, tail, k, entry, o).Traded? || Finish(s, tail, k, entry, o) == Skipped(s, BadPrice)
  {
  }

  lemma LaterBarInZone(s: Signal, z: Zone, tail: seq<Bar>, o: Options, ts: int)
    requires tail != [] && DecidingInZone(s, z, tail, o).None?
    requires 0.0 < z.low <= z.high && SetupBoundsAreValid(PlanOf(s), Midpoint(z))
    requires GoodPrice(tail[|tail| - 1].close) && tail[|tail| - 1].ts < ts
    ensures ReplayInZone(s, z, tail + [FlatBar(ts, Midpoint(z))], o) != ReplayInZone(s, z, tail, o)
  {
    hide Finish, SetupBoundsAreValid, DecidingExit, ScanEntry, StepEntry;
    var p, n, b := PlanOf(s), WaitBars(o), FlatBar(ts, Midpoint(z));
    var w := Take(tail, n);
    ScanShape(p, z, w);
    var scan := ScanEntry(p, z, w);
    if scan.Filled? {
      LaterExit(s, tail, scan.at, Fin(scan.price), o, b);
      var w' := Take(tail + [b], n);
      assert w'[..scan.at + 1] == w[..scan.at + 1];
      DecidedScan(p, z, w, w', scan.at + 1);
    } else {
      MidpointFills(s, z, tail, o, ts);
    }
  }

  /** The bar that changes an undecided outcome: in the middle of the zone when there is one. */
  function NextBar(s: Signal, ts: int): Bar {
    FlatBar(ts, if SignalEntryZone(s).Some? then Midpoint(SignalEntryZone(s).value) else 1.0)
  }

  lemma LaterBarMatters(s: Signal, tail: seq<Bar>, o: Options, ts: int)
    requires tail != [] && DecidingBar(s, tail, o).None?
    requires GoodPrice(tail[|tail| - 1].close) && tail[|tail| - 1].ts < ts
    ensures ReplayTail(s, tail + [NextBar(s, ts)], o) != ReplayTail(s, tail, o)
  {
    hide Finish, SetupBoundsAreValid, DecidingExit, ReplayInZone, DecidingInZone;
    if o.mode.NextOpen? {
      LaterExit(s, tail, 0, tail[0].open, o, NextBar(s, ts));
    } else {
      LaterBarInZone(s, SignalEntryZone(s).value, tail, o, ts);
    }
  }

  lemma ZoneHasEntryBar(s: Signal, z: Zone, tail: seq<Bar>, o: Options)
    ensures ReplayInZone(s, z, tail, o) != Skipped(s, NoEntryBar)
  {
    hide Finish;
    var p, w := PlanOf(s), Take(tail, WaitBars(o));
    ScanShape(p, z, w);
    var scan := ScanEntry(p, z, w);
    if scan.Filled? {
      FinishTradesOrIsBad(s, tail, scan.at, Fin(scan.price), o);
    }
  }

  lemma FirstBarMatters(s: Signal, bars: seq<Bar>, o: Options, b: Bar)
    requires FirstTradable(bars, s.createdAt) == |bars| && s.createdAt < b.ts
    ensures ReplaySignal(s, bars + [b], o) != ReplaySignal(s, bars, o)
  {
    hide Finish, ReplayInZone, SetupBoundsAreValid;
    FromFirstTradable(s, bars, [b], o);
    FinishTradesOrIsBad(s, [b], 0, b.open, o);
    if SignalEntryZone(s).Some? {
      ZoneHasEntryBar(s, SignalEntryZone(s).value, [b], o);
    }
  }

  lemma RealBarAppended(bars: seq<Bar>, b: Bar)
    requires RealBars(bars) && RealBar(b) && (bars != [] ==> bars[|bars| - 1].ts <= b.ts)
    ensures RealBars(bars + [b])
  {
    hide RealBar;
  }

  lemma NextBarIsReal(s: Signal, ts: int)
    ensures RealBar(NextBar(s, ts)) && NextBar(s, ts).ts == ts
  {
  }

  lemma LaterBarAfterAll(s: Signal, bars: seq<Bar>, f: nat, o: Options, b: Bar)
    requires f == FirstTradable(bars, s.createdAt) && f < |bars|
    requires ReplayTail(s, bars[f..] + [b], o) != ReplayTail(s, bars[f..], o)
    ensures ReplaySignal(s, bars + [b], o) != ReplaySignal(s, bars, o)
  {
    hide ReplayTail;
    var before, tail := bars[..f], bars[f..];
    FromFirstTradable(s, before, tail, o);
    FromFirstTradable(s, before, tail + [b], o);
    Appended(bars, f, b);
  }

  lemma UndecidedRealBars(s: Signal, bars: seq<Bar>, o: Options) returns (b: Bar)
    requires RealBars(bars) && DecidingIndex(s, bars, o).None?
    ensures RealBars(bars + [b]) && ReplaySignal(s, bars + [b], o) != ReplaySignal(s, bars, o)
  {
    hide ReplayTail, DecidingBar, ReplaySignal, NextBar;
    var f, n := FirstTradable(bars, s.createdAt), |bars|;
    var ts := if bars != [] && bars[n - 1].ts > s.createdAt then bars[n - 1].ts + 1 else s.createdAt + 1;
    b := NextBar(s, ts);
    NextBarIsReal(s, ts);
    if f == n {
      FirstBarMatters(s, bars, o, b);
    } else {
      assert bars[f..][n - f - 1] == bars[n - 1] && RealBar(bars[n - 1]);
      LaterBarMatters(s, bars[f..], o, ts);
      LaterBarAfterAll(s, bars, f, o, b);
    }
    hide RealBars, RealBar;
    RealBarAppended(bars, b);
  }

  ghost predicate NoRealLookAhead(s: Signal, bars: seq<Bar>, o: Options) {
    forall more :: RealBars(bars + more) ==> ReplaySignal(s, bars + more, o) == ReplaySignal(s, bars, o)
  }

  /** Among ordered bars with real prices, too, there is a deciding bar exactly when no later bar matters. */
  lemma DecidedIffNoRealLookAhead(s: Signal, bars: seq<Bar>, o: Options)
    requires RealBars(bars)
    ensures DecidingIndex(s, bars, o).Some? <==> NoRealLookAhead(s, bars, o)
  {
    if DecidingIndex(s, bars, o).Some? {
      forall more | RealBars(bars + more) ensures ReplaySignal(s, bars + more, o) == ReplaySignal(s, bars, o) {
        LaterBarsAdded(s, bars, o, more);
      }
    } else {
      var b := UndecidedRealBars(s, bars, o);
    }
  }

  // ----- larger windows -----

  lemma WaitBarsMonotone(o: Options, o': Options)
    requires o.maxEntryWaitBars <= o'.maxEntryWaitBars
    ensures WaitBars(o) <= WaitBars(o')
  {
  }

  lemma HoldBarsMonotone(o: Options, o': Options)
    requires o.maxHoldBars <= o'.maxHoldBars
    ensures HoldBars(o) <= HoldBars(o')
  {
  }

  /** Waiting longer changes nothing but an entry that was not filled. */
  lemma LongerWait(s: Signal, bars: seq<Bar>, o: Options, wait: BarCount)
    requires o.maxEntryWaitBars <= wait
    ensures ReplaySignal(s, bars, o) == Skipped(s, EntryNotFilled)
         || ReplaySignal(s, bars, o.(maxEntryWaitBars := wait)) == ReplaySignal(s, bars, o)
  {
    var o' := o.(maxEntryWaitBars := wait);
    WaitBarsMonotone(o, o');
    var f := FirstTradable(bars, s.createdAt);
    var p := PlanOf(s);
    if f < |bars| && o.mode.EntryZone? && SignalEntryZone(s).Some? {
      var z := SignalEntryZone(s).value;
      var w, w' := Take(bars[f..], WaitBars(o)), Take(bars[f..], WaitBars(o'));
      if !ScanEntry(p, z, w).Unfilled? {
        assert w'[..|w|] == w;
        ScanExtends(p, z, w', |w|);
      }
    }
  }

  lemma LongerHoldFinish(s: Signal, tail: seq<Bar>, k: nat, entry: Num, o: Options, o': Options)
    requires k < |tail| && o.maxHoldBars <= o'.maxHoldBars
    requires Finish(s, tail, k, entry, o).Traded? && !Finish(s, tail, k, entry, o).trade.reason.TimeExit?
    ensures Finish(s, tail, k, entry, o') == Finish(s, tail, k, entry, o)
  {
    HoldBarsMonotone(o, o');
    var path, path' := Take(tail[k..], HoldBars(o)), Take(tail[k..], HoldBars(o'));
    assert path'[..|path|] == path;
    WalkExtends(PlanOf(s), tail[k].close, path', |path|);
  }

  /** Holding longer changes no trade that was stopped out or reached its target. */
  lemma LongerHold(s: Signal, bars: seq<Bar>, o: Options, hold: BarCount)
    requires o.maxHoldBars <= hold
    requires ReplaySignal(s, bars, o).Traded? && !ReplaySignal(s, bars, o).trade.reason.TimeExit?
    ensures ReplaySignal(s, bars, o.(maxHoldBars := hold)) == ReplaySignal(s, bars, o)
  {
    var o' := o.(maxHoldBars := hold);
    var tail := bars[FirstTradable(bars, s.createdAt)..];
    if o.mode.NextOpen? {
      LongerHoldFinish(s, tail, 0, tail[0].open, o, o');
    } else {
      var p, z := PlanOf(s), SignalEntryZone(s).value;
      ScanShape(p, z, Take(tail, WaitBars(o)));
      var scan := ScanEntry(p, z, Take(tail, WaitBars(o)));
      assert WaitBars(o') == WaitBars(o);
      LongerHoldFinish(s, tail, scan.at, Fin(scan.price), o, o');
    }
  }
}
