/** Grouped summaries and skip counts: what a report partitions, and what the parts add up to. */
module Groups {
  import opened Numbers
  import opened Replay
  import opened Returns
  import opened Report

  // ----- grouping -----

  type KeyOf = Trade -> string

  /** A missing key is filed under `unknown`. */
  function Label(key: KeyOf, t: Trade): string {
    if key(t) == "" then "unknown" else key(t)
  }

  /** The trades filed under `name`, in their order. */
  function Rows(key: KeyOf, name: string, ts: seq<Trade>): seq<Trade> {
    if ts == [] then []
    else
      var init, t := ts[..|ts| - 1], ts[|ts| - 1];
      if Label(key, t) == name then Rows(key, name, init) + [t] else Rows(key, name, init)
  }

  ghost predicate Distinct<T(!new)>(xs: seq<T>) {
    forall i, j :: 0 <= i < j < |xs| ==> xs[i] != xs[j]
  }

  /** `names` are the labels of the trades, each once. */
  ghost predicate LabelsOf(names: seq<string>, key: KeyOf, ts: seq<Trade>) {
    Distinct(names) && forall n :: n in names <==> exists i :: 0 <= i < |ts| && Label(key, ts[i]) == n
  }

  /** The map holds each label's rows, under the labels that occur. */
  ghost predicate Grouped(names: seq<string>, groups: map<string, seq<Trade>>, key: KeyOf, ts: seq<Trade>) {
    && LabelsOf(names, key, ts)
    && (forall n :: n in groups <==> n in names)
    && (forall n :: n in groups ==> groups[n] == Rows(key, n, ts))
    && (forall n :: n !in groups ==> Rows(key, n, ts) == [])
  }

  method SummarizeGroup(key: KeyOf, trades: seq<Trade>) returns (names: seq<string>, groups: map<string, seq<Trade>>)
    ensures Grouped(names, groups, key, trades)
  {
    names, groups := [], map[];
    for i := 0 to |trades|
      invariant Grouped(names, groups, key, trades[..i])
    {
      hide Grouped, Label;
      ghost var before, earlier := groups, names;
      var value := Label(key, trades[i]);
      if value !in groups {
        names := names + [value];
      }
      groups := groups[value := (if value in groups then groups[value] else []) + [trades[i]]];
      FileTrade(earlier, before, names, groups, key, trades[..i], trades[i]);
      assert trades[..i] + [trades[i]] == trades[..i + 1];
    }
    assert trades[..|trades|] == trades;
  }

  lemma FileTrade(names: seq<string>, groups: map<string, seq<Trade>>, names': seq<string>,
                  groups': map<string, seq<Trade>>,
                  key: KeyOf, ts: seq<Trade>, t: Trade)
    requires Grouped(names, groups, key, ts)
    requires names' == if Label(key, t) !in groups then names + [Label(key, t)] else names
    requires groups' == groups[Label(key, t) := (if Label(key, t) in groups then groups[Label(key, t)] else []) + [t]]
    ensures Grouped(names', groups', key, ts + [t])
  {
    LabelsGrow(names, key, ts, t);
    hide Rows, Label, LabelsOf;
    forall n
      ensures n in groups' <==> n in names'
      ensures n in groups' ==> groups'[n] == Rows(key, n, ts + [t])
      ensures n !in groups' ==> Rows(key, n, ts + [t]) == []
    {
      RowsGrow(key, n, ts, t);
    }
  }

  lemma RowsGrow(key: KeyOf, n: string, ts: seq<Trade>, t: Trade)
    ensures Rows(key, n, ts + [t]) == if Label(key, t) == n then Rows(key, n, ts) + [t] else Rows(key, n, ts)
  {
    hide Label;
    assert (ts + [t])[..|ts|] == ts;
  }

  lemma LabelsGrow(names: seq<string>, key: KeyOf, ts: seq<Trade>, t: Trade)
    requires LabelsOf(names, key, ts)
    ensures LabelsOf(if Label(key, t) in names then names else names + [Label(key, t)], key, ts + [t])
  {
    var names' := if Label(key, t) in names then names else names + [Label(key, t)];
    forall n ensures n in names' <==> exists i :: 0 <= i < |ts + [t]| && Label(key, (ts + [t])[i]) == n {
      if n in names {
        var i :| 0 <= i < |ts| && Label(key, ts[i]) == n;
        assert (ts + [t])[i] == ts[i];
      }
      assert (ts + [t])[|ts|] == t;
    }
  }

  /** Two trades are filed together when their keys are equal, or one is missing and the other is `unknown`. */
  lemma FiledTogether(key: KeyOf, t: Trade, u: Trade)
    ensures Label(key, t) == Label(key, u) <==>
              (key(t) == key(u) || {key(t), key(u)} == {"", "unknown"})
    ensures Label(key, t) != ""
  {
    assert key(t) == "" && key(u) == "unknown" ==> {key(t), key(u)} == {"", "unknown"};
    assert key(u) == "" && key(t) == "unknown" ==> {key(t), key(u)} == {"", "unknown"};
    assert {key(t), key(u)} == {"", "unknown"} ==>
      key(t) in {"", "unknown"} && key(u) in {"", "unknown"} && "" in {key(t), key(u)} && "unknown" in {key(t), key(u)};
  }

  /** A group has exactly the trades of its label, each right after those of the label before it. */
  lemma {:induction false} GroupRowAt(key: KeyOf, name: string, ts: seq<Trade>, i: nat)
    requires i < |ts|
    ensures |Rows(key, name, ts[..i + 1])|
         == |Rows(key, name, ts[..i])| + (if Label(key, ts[i]) == name then 1 else 0)
    ensures Label(key, ts[i]) == name ==>
              |Rows(key, name, ts[..i])| < |Rows(key, name, ts)|
              && Rows(key, name, ts)[|Rows(key, name, ts[..i])|] == ts[i]
  {
    hide Label;
    var init := ts[..|ts| - 1];
    assert ts[..i + 1][..i] == ts[..i];
    if i < |ts| - 1 {
      GroupRowAt(key, name, init, i);
      assert init[..i] == ts[..i];
    } else {
      assert ts[..i + 1] == ts;
    }
  }

  // ----- the groups partition the trades -----

  type Measure = Trade -> real

  function Total(m: Measure, ts: seq<Trade>): real {
    if ts == [] then 0.0 else Total(m, ts[..|ts| - 1]) + m(ts[|ts| - 1])
  }

  /** The groups' totals, added up. */
  function GroupTotals(names: seq<string>, key: KeyOf, m: Measure, ts: seq<Trade>): real {
    if names == [] then 0.0 else Total(m, Rows(key, names[0], ts)) + GroupTotals(names[1..], key, m, ts)
  }

  lemma {:induction false} OneMoreTrade(names: seq<string>, key: KeyOf, m: Measure, ts: seq<Trade>, t: Trade)
    requires Distinct(names)
    ensures GroupTotals(names, key, m, ts + [t])
         == GroupTotals(names, key, m, ts) + (if Label(key, t) in names then m(t) else 0.0)
  {
    assert (ts + [t])[..|ts|] == ts;
    if names != [] {
      OneMoreTrade(names[1..], key, m, ts, t);
      var rows := Rows(key, names[0], ts);
      assert (rows + [t])[..|rows|] == rows;
    }
  }

  lemma {:induction false} NoTrades(names: seq<string>, key: KeyOf, m: Measure)
    ensures GroupTotals(names, key, m, []) == 0.0
  {
    if names != [] {
      NoTrades(names[1..], key, m);
    }
  }

  /** Any figure that adds up over trades adds up over the groups: the groups partition the trades. */
  lemma {:induction false} GroupsConserveTotals(names: seq<string>, key: KeyOf, m: Measure, ts: seq<Trade>)
    requires Distinct(names) && forall i :: 0 <= i < |ts| ==> Label(key, ts[i]) in names
    ensures GroupTotals(names, key, m, ts) == Total(m, ts)
  {
    if ts == [] {
      NoTrades(names, key, m);
    } else {
      var init, t := ts[..|ts| - 1], ts[|ts| - 1];
      assert ts == init + [t];
      GroupsConserveTotals(names, key, m, init);
      OneMoreTrade(names, key, m, init, t);
    }
  }

  // ----- counts, means and growth -----

  function GroupSizes(names: seq<string>, key: KeyOf, ts: seq<Trade>): nat {
    if names == [] then 0 else |Rows(key, names[0], ts)| + GroupSizes(names[1..], key, ts)
  }

  /** The group means, each weighted by its group's size. */
  function WeightedMeans(names: seq<string>, key: KeyOf, ts: seq<Trade>): real {
    if names == [] then 0.0
    else
      var rows := Rows(key, names[0], ts);
      |rows| as real * Mean(ReturnsOf(rows)) + WeightedMeans(names[1..], key, ts)
  }

  function GroupGrowth(names: seq<string>, key: KeyOf, ts: seq<Trade>): real {
    if names == [] then 1.0
    else Growth(ReturnsOf(Rows(key, names[0], ts))) * GroupGrowth(names[1..], key, ts)
  }

  const ONE: Measure := (t: Trade) => 1.0
  const RETURN: Measure := (t: Trade) => t.returnPct

  lemma {:induction false} TotalOfOnes(ts: seq<Trade>)
    ensures Total(ONE, ts) == |ts| as real
  {
    if ts != [] {
      TotalOfOnes(ts[..|ts| - 1]);
    }
  }

  lemma {:induction false} TotalOfReturns(ts: seq<Trade>)
    ensures Total(RETURN, ts) == Sum(ReturnsOf(ts))
  {
    if ts != [] {
      var init := ts[..|ts| - 1];
      TotalOfReturns(init);
      assert ReturnsOf(ts)[..|ts| - 1] == ReturnsOf(init);
    }
  }

  lemma {:induction false} SizesAsTotals(names: seq<string>, key: KeyOf, ts: seq<Trade>)
    ensures GroupSizes(names, key, ts) as real == GroupTotals(names, key, ONE, ts)
    ensures WeightedMeans(names, key, ts) == GroupTotals(names, key, RETURN, ts)
  {
    if names != [] {
      var rows := Rows(key, names[0], ts);
      SizesAsTotals(names[1..], key, ts);
      TotalOfOnes(rows);
      TotalOfReturns(rows);
      SumFromMean(ReturnsOf(rows));
    }
  }

  lemma {:induction false} OneMoreFactor(names: seq<string>, key: KeyOf, ts: seq<Trade>, t: Trade)
    requires Distinct(names)
    ensures GroupGrowth(names, key, ts + [t])
         == GroupGrowth(names, key, ts) * (if Label(key, t) in names then 1.0 + t.returnPct else 1.0)
  {
    hide Growth, Label, Rows, ReturnsOf;
    if names != [] {
      OneMoreFactor(names[1..], key, ts, t);
      RowsGrow(key, names[0], ts, t);
      GrowthOfAppended(Rows(key, names[0], ts), t);
      var a, a' := Growth(ReturnsOf(Rows(key, names[0], ts))), Growth(ReturnsOf(Rows(key, names[0], ts + [t])));
      var b, b' := GroupGrowth(names[1..], key, ts), GroupGrowth(names[1..], key, ts + [t]);
      Recombine(a, a', b, b', if Label(key, t) in names then 1.0 + t.returnPct else 1.0);
    }
  }

  lemma Recombine(a: real, a': real, b: real, b': real, f: real)
    requires (a' == a * f && b' == b * 1.0) || (a' == a && b' == b * f)
    ensures a' * b' == a * b * f
  {
  }

  lemma GrowthOfAppended(rows: seq<Trade>, t: Trade)
    ensures Growth(ReturnsOf(rows + [t])) == Growth(ReturnsOf(rows)) * (1.0 + t.returnPct)
  {
    assert ReturnsOf(rows + [t]) == ReturnsOf(rows) + [t.returnPct];
    assert (ReturnsOf(rows) + [t.returnPct])[..|rows|] == ReturnsOf(rows);
  }

  lemma GrowthOfNothing()
    ensures Growth(ReturnsOf([])) == 1.0
  {
    assert ReturnsOf([]) == [];
  }

  lemma {:induction false} EmptyGrowth(names: seq<string>, key: KeyOf)
    ensures GroupGrowth(names, key, []) == 1.0
  {
    if names != [] {
      EmptyGrowth(names[1..], key);
      assert ReturnsOf([]) == [];
    }
  }

  lemma {:induction false} GroupsConserveGrowth(names: seq<string>, key: KeyOf, ts: seq<Trade>)
    requires Distinct(names) && forall i :: 0 <= i < |ts| ==> Label(key, ts[i]) in names
    ensures GroupGrowth(names, key, ts) == Growth(ReturnsOf(ts))
  {
    hide Growth;
    if ts == [] {
      EmptyGrowth(names, key);
      GrowthOfNothing();
    } else {
      var init, t := ts[..|ts| - 1], ts[|ts| - 1];
      assert ts == init + [t];
      GroupsConserveGrowth(names, key, init);
      OneMoreFactor(names, key, init, t);
      GrowthOfAppended(init, t);
    }
  }

  /** Group sizes, size-weighted group means and group growth factors recombine to the overall figures. */
  lemma GroupsRecombine(names: seq<string>, key: KeyOf, ts: seq<Trade>)
    requires LabelsOf(names, key, ts)
    ensures GroupSizes(names, key, ts) == |ts|
    ensures WeightedMeans(names, key, ts) == |ts| as real * Mean(ReturnsOf(ts))
    ensures GroupGrowth(names, key, ts) == Growth(ReturnsOf(ts))
  {
    hide Growth, Mean, Sum, Total, Rows, GroupSizes, GroupTotals, GroupGrowth, WeightedMeans;
    SizesAsTotals(names, key, ts);
    GroupsConserveTotals(names, key, ONE, ts);
    TotalOfOnes(ts);
    GroupsConserveTotals(names, key, RETURN, ts);
    TotalOfReturns(ts);
    SumFromMean(ReturnsOf(ts));
    GroupsConserveGrowth(names, key, ts);
  }

  // ----- trades and skips -----

  function Trades(rs: seq<Outcome>): seq<Trade> {
    if rs == [] then []
    else Trades(rs[..|rs| - 1]) + (if rs[|rs| - 1].Traded? then [rs[|rs| - 1].trade] else [])
  }

  function Skips(rs: seq<Outcome>): seq<SkipReason> {
    if rs == [] then []
    else Skips(rs[..|rs| - 1]) + (if rs[|rs| - 1].Skipped? then [rs[|rs| - 1].why] else [])
  }

  lemma {:induction false} TradesAndSkips(rs: seq<Outcome>)
    ensures |Trades(rs)| + |Skips(rs)| == |rs|
  {
    if rs != [] {
      TradesAndSkips(rs[..|rs| - 1]);
    }
  }

  /** Each outcome is listed with its own kind, right after those of that kind before it. */
  lemma {:induction false} OutcomeAt(rs: seq<Outcome>, i: nat)
    requires i < |rs|
    ensures rs[i].Traded? ==>
              |Trades(rs[..i])| < |Trades(rs)| && Trades(rs)[|Trades(rs[..i])|] == rs[i].trade
    ensures rs[i].Skipped? ==>
              |Skips(rs[..i])| < |Skips(rs)| && Skips(rs)[|Skips(rs[..i])|] == rs[i].why
  {
    var init := rs[..|rs| - 1];
    if i < |rs| - 1 {
      OutcomeAt(init, i);
      assert init[..i] == rs[..i];
    }
  }

  const ALL_SKIPS: seq<SkipReason> := [
    NoEntryBar, NoEntryZone, EntryNotFilled, MalformedSignalBounds, GapThroughStop, GapThroughTarget, BadPrice]

  function CountOf(counts: map<SkipReason, nat>, why: SkipReason): nat {
    if why in counts then counts[why] else 0
  }

  function CountsTotal(counts: map<SkipReason, nat>, order: seq<SkipReason>): nat {
    if order == [] then 0 else CountOf(counts, order[0]) + CountsTotal(counts, order[1..])
  }

  lemma {:induction false} BumpOne(counts: map<SkipReason, nat>, order: seq<SkipReason>, why: SkipReason)
    requires Distinct(order)
    ensures CountsTotal(counts[why := CountOf(counts, why) + 1], order)
         == CountsTotal(counts, order) + (if why in order then 1 else 0)
  {
    if order != [] {
      BumpOne(counts, order[1..], why);
    }
  }

  lemma {:induction false} EmptyCounts(order: seq<SkipReason>)
    ensures CountsTotal(map[], order) == 0
  {
    if order != [] {
      EmptyCounts(order[1..]);
    }
  }

  ghost predicate Counted(counts: map<SkipReason, nat>, skips: seq<SkipReason>) {
    && (forall why :: CountOf(counts, why) == multiset(skips)[why])
    && (forall why :: why in counts <==> why in skips)
    && CountsTotal(counts, ALL_SKIPS) == |skips|
  }

  /** The counts are the multiplicities of the reasons, and they add up to the number of skips. */
  method SummarizeSkips(skips: seq<SkipReason>) returns (counts: map<SkipReason, nat>)
    ensures Counted(counts, skips)
  {
    hide Counted, CountOf;
    counts := map[];
    NothingCounted();
    assert skips[..0] == [];
    for i := 0 to |skips|
      invariant Counted(counts, skips[..i])
    {
      ghost var before := counts;
      counts := counts[skips[i] := CountOf(counts, skips[i]) + 1];
      CountSkip(before, skips[..i], skips[i]);
      assert skips[..i + 1] == skips[..i] + [skips[i]];
    }
    assert skips[..|skips|] == skips;
  }

  lemma NothingCounted()
    ensures Counted(map[], [])
  {
    EmptyCounts(ALL_SKIPS);
  }

  lemma CountSkip(counts: map<SkipReason, nat>, skips: seq<SkipReason>, why: SkipReason)
    requires Counted(counts, skips)
    ensures Counted(counts[why := CountOf(counts, why) + 1], skips + [why])
  {
    AllSkips(why);
    BumpOne(counts, ALL_SKIPS, why);
  }

  lemma AllSkips(why: SkipReason)
    ensures Distinct(ALL_SKIPS) && why in ALL_SKIPS
  {
    assert ALL_SKIPS[0] == NoEntryBar && ALL_SKIPS[1] == NoEntryZone && ALL_SKIPS[2] == EntryNotFilled
        && ALL_SKIPS[3] == MalformedSignalBounds && ALL_SKIPS[4] == GapThroughStop
        && ALL_SKIPS[5] == GapThroughTarget && ALL_SKIPS[6] == BadPrice;
  }
}
