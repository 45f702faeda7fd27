/**
 What the outcome of a signal is, told without loops or windows: by the first bar that decides the entry, and the
 first that decides the exit. The replay computes exactly this outcome.
 */
module ReplayReference {
  import opened Numbers
  import opened Replay

  // ----- the signal's levels -----

  predicate IsShort(s: Signal) {
    s.direction == "SHORT"
  }

  /** The stop price, else the invalidation level, else none. */
  function GivenStop(s: Signal): Num {
    if Truthy(s.stopPrice) then s.stopPrice else if Truthy(s.invalidation) then s.invalidation else ZERO
  }

  function GivenTarget(s: Signal): Num {
    if Truthy(s.tp1Price) then s.tp1Price else ZERO
  }

  /** The price is at the stop or beyond it. */
  predicate AtStop(s: Signal, x: Num) {
    Lt(ZERO, GivenStop(s)) && if IsShort(s) then Le(GivenStop(s), x) else Le(x, GivenStop(s))
  }

  predicate AtTarget(s: Signal, x: Num) {
    Lt(ZERO, GivenTarget(s)) && if IsShort(s) then Le(x, GivenTarget(s)) else Le(GivenTarget(s), x)
  }

  /** A bar is judged by its worst price against the stop and by its best one against the target. */
  predicate ReachesStop(s: Signal, b: Bar) {
    AtStop(s, if IsShort(s) then b.high else b.low)
  }

  predicate ReachesTarget(s: Signal, b: Bar) {
    AtTarget(s, if IsShort(s) then b.low else b.high)
  }

  // ----- the entry -----

  /** The first bar after the signal. */
  ghost predicate StartsAt(bars: seq<Bar>, t: int, f: nat) {
    && f <= |bars| && (forall j :: 0 <= j < f ==> bars[j].ts <= t)
    && (f < |bars| ==> bars[f].ts > t)
  }

  /** The zone's prices in ascending order. */
  ghost predicate ZoneIs(s: Signal, lo: real, hi: real) {
    && 0.0 < lo <= hi
    && ((s.entryLow == Fin(lo) && s.entryHigh == Fin(hi)) || (s.entryLow == Fin(hi) && s.entryHigh == Fin(lo)))
  }

  /** The middle of the zone lies strictly between the stop and the target, on the right sides. */
  predicate IsSound(s: Signal, lo: real, hi: real) {
    var middle := Fin((lo + hi) / 2.0);
    if IsShort(s) then Lt(middle, GivenStop(s)) && (GivenTarget(s) == ZERO || Lt(GivenTarget(s), middle))
    else Lt(ZERO, GivenStop(s)) && Lt(GivenStop(s), middle) && (GivenTarget(s) == ZERO || Lt(middle, GivenTarget(s)))
  }

  predicate Meets(b: Bar, lo: real, hi: real) {
    && b.open.Fin? && b.high.Fin? && b.low.Fin?
    && (lo <= b.open.v <= hi || (b.low.v <= hi && lo <= b.high.v))
  }

  /** The zone price nearest to the open. */
  function Nearest(open: real, lo: real, hi: real): real {
    if open < lo then lo else if open > hi then hi else open
  }

  /** The bar neither refuses nor fills the entry. */
  predicate Passes(s: Signal, b: Bar, lo: real, hi: real) {
    GoodPrice(b.open) && !AtStop(s, b.open) && !AtTarget(s, b.open) && !Meets(b, lo, hi)
  }

  predicate InWait(bars: seq<Bar>, f: nat, i: int, o: Options) {
    f <= i < |bars| && (i - f) as real < MaxR(1.0, o.maxEntryWaitBars)
  }

  /** The first bar that refuses or fills the entry, or the end of the wait. */
  ghost predicate DecidesEntry(s: Signal, bars: seq<Bar>, f: nat, lo: real, hi: real, o: Options, i: nat) {
    && f <= i && (forall j :: f <= j < i ==> InWait(bars, f, j, o) && Passes(s, bars[j], lo, hi))
    && (InWait(bars, f, i, o) ==> !Passes(s, bars[i], lo, hi))
  }

  // ----- the exit -----

  predicate Held(bars: seq<Bar>, i: nat, k: int, o: Options) {
    i <= k < |bars| && (k - i) as real + 1.0 <= o.maxHoldBars
  }

  /** The first held bar that reaches a level, or the end of the holding. */
  ghost predicate DecidesExit(s: Signal, bars: seq<Bar>, i: nat, o: Options, k: nat) {
    && i <= k
    && (forall j :: i <= j < k ==> Held(bars, i, j, o) && !ReachesStop(s, bars[j]) && !ReachesTarget(s, bars[j]))
    && (Held(bars, i, k, o) ==> ReachesStop(s, bars[k]) || ReachesTarget(s, bars[k]))
  }

  /** Leaving on bar `x` at that price, for that reason. */
  ghost predicate Leaves(s: Signal, bars: seq<Bar>, i: nat, entry: Num, x: nat, price: Num, why: ExitReason, r: Outcome)
    requires i < |bars| && x < |bars|
  {
    if GoodPrice(entry) && GoodPrice(price) then
      && r.Traded? && r.trade.signal == s && r.trade.reason == why
      && r.trade.entryAt == bars[i].ts && r.trade.exitAt == bars[x].ts
      && r.trade.entry == entry.v && r.trade.exit == price.v
      && Settles(s, r.trade)
    else r == Skipped(s, BadPrice)
  }

  /** The return takes the entry price to the exit price, or the other way round for a short. */
  predicate Settles(s: Signal, t: Trade) {
    t.entry > 0.0
    && if IsShort(s) then t.entry * (1.0 - t.returnPct) == t.exit else t.entry * (1.0 + t.returnPct) == t.exit
  }

  /** The outcome of a position opened on bar `i`. */
  ghost predicate HoldsTo(s: Signal, bars: seq<Bar>, i: nat, entry: Num, o: Options, k: nat, r: Outcome)
    requires i < |bars| && DecidesExit(s, bars, i, o, k)
  {
    if Held(bars, i, k, o) then
      if ReachesStop(s, bars[k]) then Leaves(s, bars, i, entry, k, GivenStop(s), Stop, r)
      else Leaves(s, bars, i, entry, k, GivenTarget(s), Tp1, r)
    else if k == i then Leaves(s, bars, i, entry, i, bars[i].close, TimeExit, r)
    else
      assert Held(bars, i, k - 1, o);
      Leaves(s, bars, i, entry, k - 1, bars[k - 1].close, TimeExit, r)
  }

  ghost predicate OpenedAt(s: Signal, bars: seq<Bar>, i: nat, entry: Num, o: Options, r: Outcome)
    requires i < |bars|
  {
    exists k :: DecidesExit(s, bars, i, o, k) && HoldsTo(s, bars, i, entry, o, k, r)
  }

  /** What the deciding bar of the entry does. */
  ghost predicate EntersOrNot(s: Signal, bars: seq<Bar>, f: nat, lo: real, hi: real, o: Options, i: nat, r: Outcome)
    requires DecidesEntry(s, bars, f, lo, hi, o, i)
  {
    if !InWait(bars, f, i, o) then r == Skipped(s, EntryNotFilled)
    else if !GoodPrice(bars[i].open) then r == Skipped(s, BadPrice)
    else if AtStop(s, bars[i].open) then r == Skipped(s, GapThroughStop)
    else if AtTarget(s, bars[i].open) then r == Skipped(s, GapThroughTarget)
    else OpenedAt(s, bars, i, Fin(Nearest(bars[i].open.v, lo, hi)), o, r)
  }

  ghost predicate ZoneOutcome(s: Signal, bars: seq<Bar>, f: nat, o: Options, r: Outcome) {
    if !exists lo, hi :: ZoneIs(s, lo, hi) then r == Skipped(s, NoEntryZone)
    else
      forall lo, hi :: ZoneIs(s, lo, hi) ==>
        if !IsSound(s, lo, hi) then r == Skipped(s, MalformedSignalBounds)
        else exists i :: DecidesEntry(s, bars, f, lo, hi, o, i) && EntersOrNot(s, bars, f, lo, hi, o, i, r)
  }

  /** `r` is what becomes of the signal. */
  ghost predicate IsOutcome(s: Signal, bars: seq<Bar>, o: Options, r: Outcome) {
    forall f: nat :: StartsAt(bars, s.createdAt, f) ==>
      if f == |bars| then r == Skipped(s, NoEntryBar)
      else if o.mode.NextOpen? then OpenedAt(s, bars, f, bars[f].open, o, r)
      else ZoneOutcome(s, bars, f, o, r)
  }

  // ----- the replay's checks are these -----

  lemma SameChecks(s: Signal, b: Bar)
    ensures var p := PlanOf(s);
            && p.short == IsShort(s) && p.stop == GivenStop(s) && p.tp1 == GivenTarget(s)
            && StopHit(p, b) == ReachesStop(s, b) && TargetHit(p, b) == ReachesTarget(s, b)
            && GapInvalidatesEntry(p, b.open)
            == (if !GoodPrice(b.open) then Some(BadPrice) else if AtStop(s, b.open) then Some(GapThroughStop)
                else if AtTarget(s, b.open) then Some(GapThroughTarget) else None)
  {
  }

  lemma SameZone(s: Signal, lo: real, hi: real)
    ensures ZoneIs(s, lo, hi) <==> SignalEntryZone(s) == Some(Zone(lo, hi))
    ensures SignalEntryZone(s).Some? ==> ZoneIs(s, SignalEntryZone(s).value.low, SignalEntryZone(s).value.high)
  {
  }

  lemma SameSoundness(s: Signal, lo: real, hi: real)
    requires 0.0 < lo <= hi
    ensures SetupBoundsAreValid(PlanOf(s), Midpoint(Zone(lo, hi))) == IsSound(s, lo, hi)
  {
  }

  lemma SameFill(b: Bar, lo: real, hi: real)
    requires lo <= hi
    ensures EntryFillPrice(b, Zone(lo, hi)) == if Meets(b, lo, hi) then Some(Nearest(b.open.v, lo, hi)) else None
  {
  }

  lemma ReturnSettles(short: bool, entry: real, exit: real)
    requires entry > 0.0
    ensures var r := ReturnOf(short, entry, exit);
            if short then entry * (1.0 - r) == exit else entry * (1.0 + r) == exit
  {
    var q := (exit - entry) / entry;
    assert q * entry == exit - entry;
    assert ReturnOf(short, entry, exit) == if short then -q else q;
    assert entry * (1.0 + q) == exit;
  }

  /** Two returns that settle the same trade are equal. */
  lemma OneReturn(entry: real, a: real, b: real)
    requires entry > 0.0 && entry * (1.0 + a) == entry * (1.0 + b)
    ensures a == b
  {
    assert entry * (a - b) == 0.0;
  }

  // ----- the exit -----

  /** The bar that ends the walk, or the end of its path. */
  function ExitIndex(s: Signal, bars: seq<Bar>, i: nat, o: Options): nat
    requires i < |bars|
  {
    var path := Take(bars[i..], HoldBars(o));
    var x := WalkExit(PlanOf(s), bars[i].close, path);
    i + if x.reason.TimeExit? then |path| else x.at
  }

  lemma HeldBars(bars: seq<Bar>, i: nat, o: Options, k: int)
    requires i < |bars|
    ensures Held(bars, i, k, o) <==> i <= k < i + |Take(bars[i..], HoldBars(o))|
  {
  }

  lemma WalkDecides(s: Signal, bars: seq<Bar>, i: nat, o: Options)
    requires i < |bars|
    ensures DecidesExit(s, bars, i, o, ExitIndex(s, bars, i, o))
  {
    var path := Take(bars[i..], HoldBars(o));
    var p := PlanOf(s);
    var x := WalkExit(p, bars[i].close, path);
    WalkShape(p, bars[i].close, path);
    hide StopHit, TargetHit, ReachesStop, ReachesTarget, PlanOf, WalkExit, Held;
    var k := ExitIndex(s, bars, i, o);
    forall j | i <= j < k
      ensures Held(bars, i, j, o) && !ReachesStop(s, bars[j]) && !ReachesTarget(s, bars[j])
    {
      HeldBars(bars, i, o, j);
      assert path[j - i] == bars[j];
      SameChecks(s, bars[j]);
    }
    HeldBars(bars, i, o, k);
    if Held(bars, i, k, o) {
      assert path[k - i] == bars[k];
      SameChecks(s, bars[k]);
    }
  }

  /** The walk from bar `i` and what is made of it, by index into all bars. */
  lemma FinishIs(s: Signal, bars: seq<Bar>, f: nat, i: nat, entry: Num, o: Options) returns (x: Exit)
    requires f <= i < |bars|
    ensures x == WalkExit(PlanOf(s), bars[i].close, Take(bars[i..], HoldBars(o))) && i + x.at < |bars|
    ensures Finish(s, bars[f..], i - f, entry, o)
         == if !GoodPrice(entry) || !GoodPrice(x.price) then Skipped(s, BadPrice)
            else Traded(Trade(s, bars[i].ts, bars[i + x.at].ts, entry.v, x.price.v,
                              ReturnOf(PlanOf(s).short, entry.v, x.price.v), x.reason))
  {
    hide WalkExit, PlanOf, ReturnOf;
    var tail := bars[f..];
    assert tail[i - f..] == bars[i..];
    WalkShape(PlanOf(s), bars[i].close, Take(bars[i..], HoldBars(o)));
    x := WalkExit(PlanOf(s), bars[i].close, Take(bars[i..], HoldBars(o)));
  }

  lemma SettlesFor(s: Signal, entry: Num, price: Num)
    requires GoodPrice(entry)
    requires price.Fin?
    ensures var t := Trade(s, 0, 0, entry.v, price.v, ReturnOf(PlanOf(s).short, entry.v, price.v), TimeExit);
            Settles(s, t)
  {
    hide ReturnOf;
    ReturnSettles(PlanOf(s).short, entry.v, price.v);
  }

  /** Where the walk from bar `i` ends, told by the held bars. */
  lemma WalkEnds(s: Signal, bars: seq<Bar>, i: nat, o: Options, x: Exit)
    requires i < |bars| && x == WalkExit(PlanOf(s), bars[i].close, Take(bars[i..], HoldBars(o)))
    ensures var k := ExitIndex(s, bars, i, o);
            && i + x.at < |bars|
            && (Held(bars, i, k, o) ==>
                  && k == i + x.at
                  && x.reason == (if ReachesStop(s, bars[k]) then Stop else Tp1)
                  && x.price == if ReachesStop(s, bars[k]) then GivenStop(s) else GivenTarget(s))
            && (!Held(bars, i, k, o) ==>
                  && i + x.at == (if k == i then i else k - 1)
                  && x.reason == TimeExit && x.price == bars[i + x.at].close)
  {
    var path := Take(bars[i..], HoldBars(o));
    WalkShape(PlanOf(s), bars[i].close, path);
    HeldBars(bars, i, o, ExitIndex(s, bars, i, o));
    assert path != [] ==> path[x.at] == bars[i + x.at];
    SameChecks(s, bars[i + x.at]);
    hide StopHit, TargetHit, ReachesStop, ReachesTarget, PlanOf, Held;
  }

  lemma FinishHolds(s: Signal, bars: seq<Bar>, f: nat, i: nat, entry: Num, o: Options)
    requires f <= i < |bars|
    ensures OpenedAt(s, bars, i, entry, o, Finish(s, bars[f..], i - f, entry, o))
  {
    hide ReachesStop, ReachesTarget, PlanOf, WalkExit, Held, ReturnOf, DecidesExit, ExitIndex, Finish, Take;
    var x := FinishIs(s, bars, f, i, entry, o);
    WalkDecides(s, bars, i, o);
    WalkEnds(s, bars, i, o, x);
    if GoodPrice(entry) && GoodPrice(x.price) {
      SettlesFor(s, entry, x.price);
    }
    var k := ExitIndex(s, bars, i, o);
    assert HoldsTo(s, bars, i, entry, o, k, Finish(s, bars[f..], i - f, entry, o));
  }

  // ----- the entry -----

  lemma WaitingBars(bars: seq<Bar>, f: nat, o: Options, i: int)
    requires f < |bars|
    ensures InWait(bars, f, i, o) <==> f <= i < f + |Take(bars[f..], WaitBars(o))|
  {
  }

  lemma ScanDecides(s: Signal, bars: seq<Bar>, f: nat, lo: real, hi: real, o: Options) returns (i: nat)
    requires f < |bars| && lo <= hi
    ensures var w := Take(bars[f..], WaitBars(o));
            var scan := ScanEntry(PlanOf(s), Zone(lo, hi), w);
            i == f + if scan.Unfilled? then |w| else scan.at
    ensures DecidesEntry(s, bars, f, lo, hi, o, i)
    ensures var w := Take(bars[f..], WaitBars(o));
            var scan := ScanEntry(PlanOf(s), Zone(lo, hi), w);
            InWait(bars, f, i, o) <==> !scan.Unfilled?
    ensures InWait(bars, f, i, o) ==>
              (ScanEntry(PlanOf(s), Zone(lo, hi), Take(bars[f..], WaitBars(o)))
               == StepEntry(PlanOf(s), Zone(lo, hi), bars[i], i - f))
  {
    var p, z, w := PlanOf(s), Zone(lo, hi), Take(bars[f..], WaitBars(o));
    ScanShape(p, z, w);
    var scan := ScanEntry(p, z, w);
    i := f + if scan.Unfilled? then |w| else scan.at;
    hide GapInvalidatesEntry, EntryFillPrice, PlanOf, AtStop, AtTarget, Meets, InWait, ScanEntry;
    forall j | f <= j < i ensures InWait(bars, f, j, o) && Passes(s, bars[j], lo, hi) {
      WaitingBars(bars, f, o, j);
      assert w[j - f] == bars[j];
      assert StepEntry(p, z, w[j - f], j - f).Unfilled?;
      SameChecks(s, bars[j]);
      SameFill(bars[j], lo, hi);
    }
    WaitingBars(bars, f, o, i);
    if InWait(bars, f, i, o) {
      assert w[i - f] == bars[i];
      SameChecks(s, bars[i]);
      SameFill(bars[i], lo, hi);
    }
  }

  lemma ScanEnters(s: Signal, bars: seq<Bar>, f: nat, z: Zone, o: Options)
    requires f < |bars| && z.low <= z.high
    ensures exists i :: DecidesEntry(s, bars, f, z.low, z.high, o, i)
                     && EntersOrNot(s, bars, f, z.low, z.high, o, i, ReplayInZone(s, z, bars[f..], o))
  {
    hide Finish, GapInvalidatesEntry, EntryFillPrice, PlanOf, AtStop, AtTarget, Meets, InWait, ScanEntry, OpenedAt;
    var i := ScanDecides(s, bars, f, z.low, z.high, o);
    hide DecidesEntry;
    assert z == Zone(z.low, z.high);
    if InWait(bars, f, i, o) {
      WaitingBars(bars, f, o, i);
      SameChecks(s, bars[i]);
      SameFill(bars[i], z.low, z.high);
      if EntryFillPrice(bars[i], z).Some? {
        FinishHolds(s, bars, f, i, Fin(EntryFillPrice(bars[i], z).value), o);
      }
    }
    assert EntersOrNot(s, bars, f, z.low, z.high, o, i, ReplayInZone(s, z, bars[f..], o));
  }

  lemma ReplayIsOutcome(s: Signal, bars: seq<Bar>, o: Options)
    ensures IsOutcome(s, bars, o, ReplaySignal(s, bars, o))
  {
    hide ReplayTail, OpenedAt, ZoneOutcome;
    var r := ReplaySignal(s, bars, o);
    forall f: nat | StartsAt(bars, s.createdAt, f)
      ensures if f == |bars| then r == Skipped(s, NoEntryBar)
              else if o.mode.NextOpen? then OpenedAt(s, bars, f, bars[f].open, o, r)
              else ZoneOutcome(s, bars, f, o, r)
    {
      assert f == FirstTradable(bars, s.createdAt);
      if f < |bars| {
        TailIsOutcome(s, bars, f, o);
      }
    }
  }

  lemma TailIsOutcome(s: Signal, bars: seq<Bar>, f: nat, o: Options)
    requires f < |bars|
    ensures var r := ReplayTail(s, bars[f..], o);
            if o.mode.NextOpen? then OpenedAt(s, bars, f, bars[f].open, o, r) else ZoneOutcome(s, bars, f, o, r)
  {
    hide Finish, ReplayInZone, OpenedAt, DecidesEntry, EntersOrNot, IsSound, SetupBoundsAreValid, PlanOf, ZoneIs;
    if o.mode.NextOpen? {
      FinishHolds(s, bars, f, f, bars[f].open, o);
    } else {
      forall lo, hi ensures ZoneIs(s, lo, hi) <==> SignalEntryZone(s) == Some(Zone(lo, hi)) {
        SameZone(s, lo, hi);
      }
      if SignalEntryZone(s).Some? {
        var z := SignalEntryZone(s).value;
        assert ZoneIs(s, z.low, z.high);
        SameSoundness(s, z.low, z.high);
        ScanEnters(s, bars, f, z, o);
      }
    }
  }

  // ----- and there is only one -----

  lemma OneLeave(s: Signal, bars: seq<Bar>, i: nat, entry: Num, x: nat, price: Num, why: ExitReason,
                 r: Outcome, q: Outcome)
    requires i < |bars| && x < |bars|
    requires Leaves(s, bars, i, entry, x, price, why, r) && Leaves(s, bars, i, entry, x, price, why, q)
    ensures r == q
  {
    if r.Traded? {
      var e, a, b := r.trade.entry, r.trade.returnPct, q.trade.returnPct;
      if IsShort(s) {
        OneReturn(e, -a, -b);
      } else {
        OneReturn(e, a, b);
      }
    }
  }

  lemma OneOpening(s: Signal, bars: seq<Bar>, i: nat, entry: Num, o: Options, r: Outcome, q: Outcome)
    requires i < |bars| && OpenedAt(s, bars, i, entry, o, r) && OpenedAt(s, bars, i, entry, o, q)
    ensures r == q
  {
    hide Leaves, ReachesStop, ReachesTarget, Held;
    var k :| DecidesExit(s, bars, i, o, k) && HoldsTo(s, bars, i, entry, o, k, r);
    var l :| DecidesExit(s, bars, i, o, l) && HoldsTo(s, bars, i, entry, o, l, q);
    assert k == l;
    SameHold(s, bars, i, entry, o, k, r, q);
  }

  lemma SameHold(s: Signal, bars: seq<Bar>, i: nat, entry: Num, o: Options, k: nat, r: Outcome, q: Outcome)
    requires i < |bars| && DecidesExit(s, bars, i, o, k)
    requires HoldsTo(s, bars, i, entry, o, k, r) && HoldsTo(s, bars, i, entry, o, k, q)
    ensures r == q
  {
    hide Leaves, ReachesStop, ReachesTarget;
    if Held(bars, i, k, o) {
      if ReachesStop(s, bars[k]) {
        OneLeave(s, bars, i, entry, k, GivenStop(s), Stop, r, q);
      } else {
        OneLeave(s, bars, i, entry, k, GivenTarget(s), Tp1, r, q);
      }
    } else if k == i {
      OneLeave(s, bars, i, entry, i, bars[i].close, TimeExit, r, q);
    } else {
      assert Held(bars, i, k - 1, o);
      OneLeave(s, bars, i, entry, k - 1, bars[k - 1].close, TimeExit, r, q);
    }
  }

  lemma OneZoneOutcome(s: Signal, bars: seq<Bar>, f: nat, o: Options, r: Outcome, q: Outcome)
    requires f < |bars| && ZoneOutcome(s, bars, f, o, r) && ZoneOutcome(s, bars, f, o, q)
    ensures r == q
  {
    hide OpenedAt, IsSound, Passes, InWait, ZoneIs, AtStop, AtTarget;
    if lo, hi :| ZoneIs(s, lo, hi) {
      if IsSound(s, lo, hi) {
        var i :| DecidesEntry(s, bars, f, lo, hi, o, i) && EntersOrNot(s, bars, f, lo, hi, o, i, r);
        var j :| DecidesEntry(s, bars, f, lo, hi, o, j) && EntersOrNot(s, bars, f, lo, hi, o, j, q);
        assert i == j;
        SameEntry(s, bars, f, lo, hi, o, i, r, q);
      }
    }
  }

  lemma SameEntry(s: Signal, bars: seq<Bar>, f: nat, lo: real, hi: real, o: Options, i: nat, r: Outcome, q: Outcome)
    requires DecidesEntry(s, bars, f, lo, hi, o, i)
    requires EntersOrNot(s, bars, f, lo, hi, o, i, r) && EntersOrNot(s, bars, f, lo, hi, o, i, q)
    ensures r == q
  {
    hide OpenedAt, Passes, AtStop, AtTarget;
    if InWait(bars, f, i, o) && GoodPrice(bars[i].open) && !AtStop(s, bars[i].open) && !AtTarget(s, bars[i].open) {
      OneOpening(s, bars, i, Fin(Nearest(bars[i].open.v, lo, hi)), o, r, q);
    }
  }

  /** The replay's outcome is the one described above, and no other outcome is. */
  lemma ReplayIffOutcome(s: Signal, bars: seq<Bar>, o: Options, r: Outcome)
    ensures r == ReplaySignal(s, bars, o) <==> IsOutcome(s, bars, o, r)
  {
    hide OpenedAt, ZoneOutcome, ReplaySignal;
    var q := ReplaySignal(s, bars, o);
    ReplayIsOutcome(s, bars, o);
    var f := FirstTradable(bars, s.createdAt);
    assert StartsAt(bars, s.createdAt, f);
    if IsOutcome(s, bars, o, r) && f < |bars| {
      if o.mode.NextOpen? {
        OneOpening(s, bars, f, bars[f].open, o, r, q);
      } else {
        OneZoneOutcome(s, bars, f, o, r, q);
      }
    }
  }

  // ----- what is published -----

  /** In either entry mode the return of a trade takes its entry price to its exit price. */
  lemma ReturnsSettle(s: Signal, bars: seq<Bar>, o: Options)
    requires ReplaySignal(s, bars, o).Traded?
    ensures var t := ReplaySignal(s, bars, o).trade;
            && t.entry > 0.0
            && (s.direction != "SHORT" ==> t.entry * (1.0 + t.returnPct) == t.exit)
            && (s.direction == "SHORT" ==> t.entry * (1.0 - t.returnPct) == t.exit)
  {
    hide ReplaySignal, ReturnOf;
    TradeReturn(s, bars, o);
    var t := ReplaySignal(s, bars, o).trade;
    ReturnSettles(IsShort(s), t.entry, t.exit);
  }

  lemma TradeReturn(s: Signal, bars: seq<Bar>, o: Options)
    requires ReplaySignal(s, bars, o).Traded?
    ensures var t := ReplaySignal(s, bars, o).trade;
            t.entry > 0.0 && t.returnPct == ReturnOf(IsShort(s), t.entry, t.exit)
  {
    hide ReplaySignal, ReturnOf, Select, WalkExit;
    SelectionGivesOutcome(s, bars, o);
  }

  /** The printed prices are within half a ten-thousandth, the printed return within half a millionth. */
  lemma PublishedIsNear(s: Signal, bars: seq<Bar>, o: Options)
    ensures var r, q := ReplaySignal(s, bars, o), Published(ReplaySignal(s, bars, o));
            if r.Skipped? then q == r
            else
              && q.Traded? && Near(q.trade.entry, r.trade.entry, 10000) && Near(q.trade.exit, r.trade.exit, 10000)
              && Near(q.trade.returnPct, r.trade.returnPct, 1000000)
              && q.trade == r.trade.(entry := q.trade.entry, exit := q.trade.exit, returnPct := q.trade.returnPct)
  {
    hide ReplaySignal, Near, Round;
    var r := ReplaySignal(s, bars, o);
    if r.Traded? {
      RoundIsNear(r.trade.entry, 10000);
      RoundIsNear(r.trade.exit, 10000);
      RoundIsNear(r.trade.returnPct, 1000000);
    }
  }
}
