/** The data sync: database rows grouped by symbol, their daily changes, and the files handed to the dumper. */
module Sync {
  import opened Numbers
  import Calendar
  import Store
  import StoreLaws
  import DiskLaws

  // ----- rows -----

  /** One database row; the symbol is already upper-case, a missing figure reads as zero. */
  datatype RawRow = RawRow(symbol: string, ts: int, open: real, high: real, low: real, close: real, volume: real)

  /** One line of a symbol's file. */
  datatype Line = Line(date: int, open: real, high: real, low: real, close: real, volume: real, change: real)

  const MILLISECONDS_FROM: int := 1_000_000_000_000

  /** The first and the last second of the years 1 to 9999, counted from 1970. */
  const FIRST_SECOND: int := -62_135_596_800
  const LAST_SECOND: int := 253_402_300_799

  /** Timestamps that `datetime.fromtimestamp` takes, as milliseconds above 10^12 and as seconds otherwise. */
  predicate Datable(ts: int) {
    if ts > MILLISECONDS_FROM then ts / 1000 <= LAST_SECOND else FIRST_SECOND <= ts <= LAST_SECOND
  }

  /** The UTC day of a datable timestamp, and a number without meaning for any other. */
  function DayOf(ts: int): int {
    if ts > MILLISECONDS_FROM then ts / 86_400_000 else ts / 86_400
  }

  /** The change from the previous close of the same symbol, zero without a positive one. */
  function ChangeFrom(lines: seq<Line>, close: real): real {
    if lines != [] && lines[|lines| - 1].close > 0.0 then close / lines[|lines| - 1].close - 1.0 else 0.0
  }

  function LineFor(lines: seq<Line>, r: RawRow): Line {
    Line(DayOf(r.ts), r.open, r.high, r.low, r.close, r.volume, ChangeFrom(lines, r.close))
  }

  /** The lines of one symbol after some rows have been read. */
  function LinesOf(rows: seq<RawRow>, s: string): seq<Line> {
    if rows == [] then []
    else
      var before, r := LinesOf(rows[..|rows| - 1], s), rows[|rows| - 1];
      if r.symbol == s then before + [LineFor(before, r)] else before
  }

  /** The rows of one symbol, in the order read. */
  function RowsOf(rows: seq<RawRow>, s: string): seq<RawRow> {
    if rows == [] then []
    else
      var before, r := RowsOf(rows[..|rows| - 1], s), rows[|rows| - 1];
      if r.symbol == s then before + [r] else before
  }

  /** The grouping dictionary: its symbols, each once, and each symbol's lines. */
  ghost predicate GroupedBy(order: seq<string>, grouped: map<string, seq<Line>>, rows: seq<RawRow>) {
    && (forall i, j :: 0 <= i < j < |order| ==> order[i] != order[j])
    && (forall s :: s in grouped <==> s in order)
    && (forall s :: s in grouped ==> grouped[s] == LinesOf(rows, s) != [])
    && (forall s :: s !in grouped ==> LinesOf(rows, s) == [])
  }

  /** Raises, here `!ok`, at the first timestamp that is no date. */
  method ReadOhlcv(rows: seq<RawRow>) returns (ok: bool, order: seq<string>, grouped: map<string, seq<Line>>)
    ensures ok <==> forall i :: 0 <= i < |rows| ==> Datable(rows[i].ts)
    ensures ok ==> GroupedBy(order, grouped, rows)
  {
    ok, order, grouped := true, [], map[];
    for i := 0 to |rows|
      invariant ok && GroupedBy(order, grouped, rows[..i])
      invariant forall j :: 0 <= j < i ==> Datable(rows[j].ts)
    {
      hide GroupedBy, LineFor, Datable, LinesOf;
      if !Datable(rows[i].ts) {
        ok := false;
        return;
      }
      ghost var earlier, before := order, grouped;
      var r := rows[i];
      var lines := if r.symbol in grouped then grouped[r.symbol] else [];
      if r.symbol !in grouped {
        order := order + [r.symbol];
      }
      grouped := grouped[r.symbol := lines + [LineFor(lines, r)]];
      OneMoreRow(earlier, before, order, grouped, rows[..i], r);
      assert rows[..i] + [r] == rows[..i + 1];
    }
    assert rows[..|rows|] == rows;
  }

  lemma OneMoreRow(order: seq<string>, grouped: map<string, seq<Line>>, order': seq<string>,
                   grouped': map<string, seq<Line>>, rows: seq<RawRow>, r: RawRow)
    requires GroupedBy(order, grouped, rows)
    requires order' == if r.symbol !in grouped then order + [r.symbol] else order
    requires var lines := if r.symbol in grouped then grouped[r.symbol] else [];
             grouped' == grouped[r.symbol := lines + [LineFor(lines, r)]]
    ensures GroupedBy(order', grouped', rows + [r])
  {
    hide LinesOf, LineFor;
    forall s
      ensures s in grouped' <==> s in order'
      ensures s in grouped' ==> grouped'[s] == LinesOf(rows + [r], s) != []
      ensures s !in grouped' ==> LinesOf(rows + [r], s) == []
    {
      LinesGrow(rows, r, s);
    }
  }

  lemma LinesGrow(rows: seq<RawRow>, r: RawRow, s: string)
    ensures LinesOf(rows + [r], s)
         == if r.symbol == s then LinesOf(rows, s) + [LineFor(LinesOf(rows, s), r)] else LinesOf(rows, s)
  {
    hide LineFor;
    assert (rows + [r])[..|rows|] == rows;
  }

  // ----- column integrity -----

  /** What the i-th row of a symbol becomes. */
  function LineAt(own: seq<RawRow>, i: nat): Line
    requires i < |own|
  {
    var r := own[i];
    Line(DayOf(r.ts), r.open, r.high, r.low, r.close, r.volume,
         if i > 0 && own[i - 1].close > 0.0 then r.close / own[i - 1].close - 1.0 else 0.0)
  }

  /** Each symbol's file is the exact subsequence of the rows read for it. */
  lemma {:induction false} LinesAreSubsequence(rows: seq<RawRow>, s: string)
    ensures |LinesOf(rows, s)| == |RowsOf(rows, s)|
    ensures forall i :: 0 <= i < |RowsOf(rows, s)| ==> RowsOf(rows, s)[i].symbol == s
    ensures forall i :: 0 <= i < |LinesOf(rows, s)| ==> LinesOf(rows, s)[i] == LineAt(RowsOf(rows, s), i)
  {
    if rows != [] {
      var init, r := rows[..|rows| - 1], rows[|rows| - 1];
      LinesAreSubsequence(init, s);
      if r.symbol == s {
        AppendLine(LinesOf(init, s), RowsOf(init, s), r);
      }
    }
  }

  /** A row of the symbol comes right after those read before it. */
  lemma {:induction false} OwnRowInOrder(rows: seq<RawRow>, s: string, i: nat)
    requires i < |rows| && rows[i].symbol == s
    ensures |RowsOf(rows[..i], s)| < |RowsOf(rows, s)| && RowsOf(rows, s)[|RowsOf(rows[..i], s)|] == rows[i]
    ensures |RowsOf(rows[..i + 1], s)| == |RowsOf(rows[..i], s)| + 1
  {
    var init := rows[..|rows| - 1];
    assert rows[..i + 1][..i] == rows[..i];
    if i < |rows| - 1 {
      OwnRowInOrder(init, s, i);
      assert init[..i] == rows[..i];
    }
  }

  lemma AppendLine(lines: seq<Line>, own: seq<RawRow>, r: RawRow)
    requires |lines| == |own| && forall i :: 0 <= i < |lines| ==> lines[i] == LineAt(own, i)
    ensures forall i :: 0 <= i < |lines + [LineFor(lines, r)]| ==>
              (lines + [LineFor(lines, r)])[i] == LineAt(own + [r], i)
  {
    forall i | 0 <= i <= |lines| ensures (lines + [LineFor(lines, r)])[i] == LineAt(own + [r], i) {
      if i > 0 {
        assert (own + [r])[i - 1] == own[i - 1];
      }
    }
  }

  /** The product of (1 + change) over the lines after the first. */
  function Compounded(lines: seq<Line>): real {
    if |lines| <= 1 then 1.0 else Compounded(lines[..|lines| - 1]) * (1.0 + lines[|lines| - 1].change)
  }

  /** Positive closes telescope: each is the first one compounded by the changes up to it. */
  lemma {:induction false} ChangesTelescope(rows: seq<RawRow>, s: string, k: nat)
    requires k < |LinesOf(rows, s)|
    requires forall i :: 0 <= i <= k ==> LinesOf(rows, s)[i].close > 0.0
    ensures LinesOf(rows, s)[k].close == LinesOf(rows, s)[0].close * Compounded(LinesOf(rows, s)[..k + 1])
  {
    var lines := LinesOf(rows, s);
    LinesAreSubsequence(rows, s);
    if k > 0 {
      ChangesTelescope(rows, s, k - 1);
      assert lines[..k + 1][..k] == lines[..k];
      CompoundOnce(lines[0].close, Compounded(lines[..k]), lines[k - 1].close, lines[k].close);
    }
  }

  lemma CompoundOnce(first: real, c: real, previous: real, close: real)
    requires previous > 0.0 && previous == first * c
    ensures first * (c * (1.0 + (close / previous - 1.0))) == close
  {
    var q := close / previous;
    assert q * previous == close;
    assert first * (c * q) == first * c * q;
  }

  // ----- the date sort -----

  ghost predicate ByDate(lines: seq<Line>) {
    forall i, j :: 0 <= i < j < |lines| ==> lines[i].date <= lines[j].date
  }

  /** `rows.sort(key=date)`: stable. */
  function SortByDate(lines: seq<Line>): (r: seq<Line>)
    ensures multiset(r) == multiset(lines)
  {
    if lines == [] then []
    else
      assert lines == lines[..|lines| - 1] + [lines[|lines| - 1]];
      InsertByDate(SortByDate(lines[..|lines| - 1]), lines[|lines| - 1])
  }

  function InsertByDate(lines: seq<Line>, x: Line): (r: seq<Line>)
    ensures multiset(r) == multiset(lines) + multiset{x}
  {
    if lines == [] || lines[|lines| - 1].date <= x.date then lines + [x]
    else
      assert lines == lines[..|lines| - 1] + [lines[|lines| - 1]];
      InsertByDate(lines[..|lines| - 1], x) + [lines[|lines| - 1]]
  }

  lemma {:induction false} InsertSorted(lines: seq<Line>, x: Line)
    requires ByDate(lines)
    ensures ByDate(InsertByDate(lines, x))
    ensures forall y :: y in InsertByDate(lines, x) <==> y in lines || y == x
  {
    if lines != [] && lines[|lines| - 1].date > x.date {
      var init, last := lines[..|lines| - 1], lines[|lines| - 1];
      InsertSorted(init, x);
      assert lines == init + [last];
      forall i | 0 <= i < |InsertByDate(init, x)| ensures InsertByDate(init, x)[i].date <= last.date {
        assert InsertByDate(init, x)[i] in InsertByDate(init, x);
      }
    }
  }

  lemma {:induction false} SortSorts(lines: seq<Line>)
    ensures ByDate(SortByDate(lines))
  {
    if lines != [] {
      SortSorts(lines[..|lines| - 1]);
      InsertSorted(SortByDate(lines[..|lines| - 1]), lines[|lines| - 1]);
    }
  }

  /** Lines already in date order do not move. */
  lemma {:induction false} SortLeavesOrdered(lines: seq<Line>)
    requires ByDate(lines)
    ensures SortByDate(lines) == lines
  {
    if lines != [] {
      SortLeavesOrdered(lines[..|lines| - 1]);
      assert lines == lines[..|lines| - 1] + [lines[|lines| - 1]];
    }
  }

  function OnDate(lines: seq<Line>, d: int): seq<Line> {
    if lines == [] then []
    else
      var init, x := OnDate(lines[..|lines| - 1], d), lines[|lines| - 1];
      if x.date == d then init + [x] else init
  }

  lemma {:induction false} InsertIsStable(lines: seq<Line>, x: Line, d: int)
    ensures OnDate(InsertByDate(lines, x), d) == OnDate(lines, d) + (if x.date == d then [x] else [])
  {
    if lines == [] || lines[|lines| - 1].date <= x.date {
      assert (lines + [x])[..|lines|] == lines;
    } else {
      var init, last := lines[..|lines| - 1], lines[|lines| - 1];
      InsertIsStable(init, x, d);
      assert (InsertByDate(init, x) + [last])[..|InsertByDate(init, x)|] == InsertByDate(init, x);
    }
  }

  /** Lines of one date stay in the order in which they were read. */
  lemma {:induction false} SortIsStable(lines: seq<Line>, d: int)
    ensures OnDate(SortByDate(lines), d) == OnDate(lines, d)
  {
    if lines != [] {
      SortIsStable(lines[..|lines| - 1], d);
      InsertIsStable(SortByDate(lines[..|lines| - 1]), lines[|lines| - 1], d);
    }
  }

  /** The timestamps that are taken are those of the days from 0001-01-01 to 9999-12-31. */
  lemma DatableDays(ts: int)
    ensures Datable(ts) <==> -719_162 <= DayOf(ts) <= 2_932_896
  {
  }

  /** Timestamps of one unit keep their order as days. */
  lemma DaysMonotone(a: int, b: int)
    requires a <= b && (a > MILLISECONDS_FROM || b <= MILLISECONDS_FROM)
    ensures DayOf(a) <= DayOf(b)
  {
  }

  /** Of two timestamps on either side of the switch of units, the later one is not on an earlier day. */
  predicate SwitchInOrder(a: int, b: int) {
    a <= MILLISECONDS_FROM < b ==> a / 86_400 <= b / 86_400_000
  }

  /**
   The date sort leaves a symbol's rows, read in timestamp order, where they were read if and only if no row in
   milliseconds is on an earlier day than a row in seconds before it.
   */
  lemma ReadOrderKeptIff(rows: seq<RawRow>, s: string)
    requires var own := RowsOf(rows, s); forall i, j :: 0 <= i < j < |own| ==> own[i].ts <= own[j].ts
    ensures var own := RowsOf(rows, s);
            SortByDate(LinesOf(rows, s)) == LinesOf(rows, s)
            <==> forall i, j :: 0 <= i < j < |own| ==> SwitchInOrder(own[i].ts, own[j].ts)
  {
    var own, lines := RowsOf(rows, s), LinesOf(rows, s);
    LinesAreSubsequence(rows, s);
    forall i, j | 0 <= i < j < |own|
      ensures lines[i].date <= lines[j].date <==> SwitchInOrder(own[i].ts, own[j].ts)
    {
      if own[i].ts > MILLISECONDS_FROM || own[j].ts <= MILLISECONDS_FROM {
        DaysMonotone(own[i].ts, own[j].ts);
      }
    }
    SortSorts(lines);
    if ByDate(lines) {
      SortLeavesOrdered(lines);
    }
  }

  lemma TwoRows(a: RawRow, b: RawRow)
    requires a.symbol == b.symbol
    ensures RowsOf([a, b], a.symbol) == [a, b]
  {
    assert [a, b][..1] == [a] && [a][..0] == [];
    assert RowsOf([a], a.symbol) == [a];
  }

  /** Both timestamps are datable: the last second of 9999, then a millisecond past 10^12, in 2001. */
  lemma SwitchMovesRows(early: RawRow, late: RawRow)
    requires early.ts == LAST_SECOND && late.ts == MILLISECONDS_FROM + 1 && early.symbol == late.symbol
    ensures Datable(early.ts) && Datable(late.ts) && early.ts < late.ts
    ensures SortByDate(LinesOf([early, late], early.symbol)) != LinesOf([early, late], early.symbol)
  {
    hide RowsOf, LinesOf, SortByDate;
    var rows := [early, late];
    TwoRows(early, late);
    ReadOrderKeptIff(rows, early.symbol);
    assert !SwitchInOrder(rows[0].ts, rows[1].ts);
  }

  // ----- the files and the instrument list -----

  function TotalLines(order: seq<string>, rows: seq<RawRow>): nat {
    if order == [] then 0 else TotalLines(order[..|order| - 1], rows) + |LinesOf(rows, order[|order| - 1])|
  }

  function Csvs(order: seq<string>, rows: seq<RawRow>): map<string, seq<Line>> {
    map s | s in order :: SortByDate(LinesOf(rows, s))
  }

  function Listed(csvs: map<string, seq<Line>>): map<string, Store.Span> {
    map s | s in csvs && csvs[s] != [] :: FirstToLast(csvs[s])
  }

  /** The symbols that also get an instrument file of their own. */
  predicate IsBenchmark(s: string) {
    s == "SPY" || s == "QQQ"
  }

  function Benchmarks(listed: map<string, Store.Span>): map<string, Store.Span> {
    map s | s in listed && IsBenchmark(s) :: listed[s]
  }

  /**
   What the script writes: each symbol's sorted lines, its first and last date in `all.txt`, and the same for each
   benchmark in its own file.
   */
  method WriteCsvs(order: seq<string>, grouped: map<string, seq<Line>>, ghost rows: seq<RawRow>)
    returns (csvs: map<string, seq<Line>>, listed: map<string, Store.Span>, benchmarks: map<string, Store.Span>,
             total: nat)
    requires GroupedBy(order, grouped, rows)
    ensures csvs == Csvs(order, rows) && listed == Listed(csvs) && benchmarks == Benchmarks(listed)
    ensures total == TotalLines(order, rows)
  {
    hide GroupedBy, LinesOf, SortByDate, FirstToLast, Csvs, Listed;
    csvs, listed, benchmarks, total := map[], map[], map[], 0;
    NoFiles(rows);
    assert order[..0] == [];
    for i := 0 to |order|
      invariant csvs == Csvs(order[..i], rows) && listed == Listed(csvs) && benchmarks == Benchmarks(listed)
      invariant total == TotalLines(order[..i], rows)
    {
      var s := order[i];
      NextSymbol(order, grouped, rows, i);
      assert order[..i + 1] == order[..i] + [s];
      assert order[..i + 1][..i] == order[..i];
      OneMoreFile(order[..i], rows, s);
      csvs := csvs[s := SortByDate(grouped[s])];
      total := total + |grouped[s]|;
      if csvs[s] != [] {
        OneMoreBenchmark(listed, s, FirstToLast(csvs[s]));
        listed := listed[s := FirstToLast(csvs[s])];
        if IsBenchmark(s) {
          benchmarks := benchmarks[s := FirstToLast(csvs[s])];
        }
      }
    }
    assert order[..|order|] == order;
  }

  /** SPY and QQQ, when they have lines, and nothing else; with the dates that are listed for them. */
  lemma BenchmarkFiles(listed: map<string, Store.Span>)
    ensures Benchmarks(listed).Keys == listed.Keys * {"SPY", "QQQ"}
    ensures forall s :: s in Benchmarks(listed) ==> Benchmarks(listed)[s] == listed[s]
  {
  }

  lemma OneMoreBenchmark(listed: map<string, Store.Span>, s: string, span: Store.Span)
    ensures Benchmarks(listed[s := span])
         == if IsBenchmark(s) then Benchmarks(listed)[s := span] else Benchmarks(listed)
  {
  }

  lemma NoFiles(rows: seq<RawRow>)
    ensures Csvs([], rows) == map[] && Listed(map[]) == map[]
  {
  }

  lemma NextSymbol(order: seq<string>, grouped: map<string, seq<Line>>, rows: seq<RawRow>, i: nat)
    requires GroupedBy(order, grouped, rows) && i < |order|
    ensures order[i] in grouped && grouped[order[i]] == LinesOf(rows, order[i])
    ensures order[i] !in order[..i]
  {
    hide LinesOf;
  }

  lemma OneMoreFile(order: seq<string>, rows: seq<RawRow>, s: string)
    requires s !in order
    ensures var lines := SortByDate(LinesOf(rows, s));
            && Csvs(order + [s], rows) == Csvs(order, rows)[s := lines]
            && Listed(Csvs(order + [s], rows))
            == if lines == [] then Listed(Csvs(order, rows)) else Listed(Csvs(order, rows))[s := FirstToLast(lines)]
  {
    hide SortByDate, LinesOf, FirstToLast;
  }

  function FirstToLast(lines: seq<Line>): Store.Span
    requires lines != []
  {
    Store.Span(lines[0].date, lines[|lines| - 1].date)
  }

  /** Every row read ends up in exactly one file. */
  lemma {:induction false} AllLinesWritten(order: seq<string>, rows: seq<RawRow>)
    requires forall i, j :: 0 <= i < j < |order| ==> order[i] != order[j]
    requires forall i :: 0 <= i < |rows| ==> rows[i].symbol in order
    ensures TotalLines(order, rows) == |rows|
  {
    if rows == [] {
      NoLines(order);
    } else {
      AllLinesWritten(order, rows[..|rows| - 1]);
      OneMoreLine(order, rows);
    }
  }

  lemma {:induction false} NoLines(order: seq<string>)
    ensures TotalLines(order, []) == 0
  {
    if order != [] {
      NoLines(order[..|order| - 1]);
    }
  }

  lemma {:induction false} OneMoreLine(order: seq<string>, rows: seq<RawRow>)
    requires rows != [] && forall i, j :: 0 <= i < j < |order| ==> order[i] != order[j]
    ensures TotalLines(order, rows)
         == TotalLines(order, rows[..|rows| - 1]) + (if rows[|rows| - 1].symbol in order then 1 else 0)
  {
    if order != [] {
      assert order == order[..|order| - 1] + [order[|order| - 1]];
      OneMoreLine(order[..|order| - 1], rows);
    }
  }

  // ----- what the dumper makes of the files -----

  const COLUMNS: set<string> := {"open", "high", "low", "close", "volume", "factor", "change"}

  function Cells(l: Line): map<string, Store.Cell> {
    map["open" := Store.Num(l.open), "high" := Store.Num(l.high), "low" := Store.Num(l.low),
        "close" := Store.Num(l.close),
        "volume" := Store.Num(l.volume), "factor" := Store.Num(1.0), "change" := Store.Num(l.change)]
  }

  function TableOf(lines: seq<Line>): Store.Table {
    Store.Table(COLUMNS, seq(|lines|, i requires 0 <= i < |lines| => Store.Row(lines[i].date, Cells(lines[i]))))
  }

  function SourceOf(csvs: map<string, seq<Line>>): Store.Source {
    map s | s in csvs :: TableOf(csvs[s])
  }

  lemma SpanOfLines(lines: seq<Line>)
    requires lines != [] && ByDate(lines)
    ensures TableOf(lines).rows != [] && Store.SpanOf(TableOf(lines).rows) == FirstToLast(lines)
  {
    hide Cells;
    var rows := TableOf(lines).rows;
    assert rows[0].date == lines[0].date && rows[|rows| - 1].date == lines[|lines| - 1].date;
    StoreLaws.SameRange(rows, lines[0].date, lines[|lines| - 1].date);
  }

  /** The ranges listed in `all.txt` are those a full dump derives from the files written beside it. */
  lemma ListedRangesAreDumped(order: seq<string>, rows: seq<RawRow>)
    ensures Listed(Csvs(order, rows)) == Store.Spans(SourceOf(Csvs(order, rows)))
  {
    hide Store.SpanOf, FirstToLast, SortByDate, LinesOf;
    var csvs := Csvs(order, rows);
    forall s | s in csvs && csvs[s] != [] ensures Store.SpanOf(TableOf(csvs[s]).rows) == FirstToLast(csvs[s]) {
      SortSorts(LinesOf(rows, s));
      SpanOfLines(csvs[s]);
    }
  }

  lemma ColumnComesBack(c: Store.Config, d: Store.Disk, csvs: map<string, seq<Line>>, s: string, i: nat, p: nat,
                        f: string, v: real)
    requires StoreLaws.ExactIndices(c) && c.includeFields == COLUMNS
    requires |Store.FullCalendar(SourceOf(csvs))| <= 0x100_0000
    requires s in csvs && i < |csvs[s]|
    requires forall j :: 0 <= j < i ==> csvs[s][j].date != csvs[s][i].date
    requires p < |Store.FullCalendar(SourceOf(csvs))| && Store.FullCalendar(SourceOf(csvs))[p] == csvs[s][i].date
    requires f in COLUMNS && f in Cells(csvs[s][i]) && Cells(csvs[s][i])[f] == Store.Num(v)
    ensures StoreLaws.ReadAt(Store.DumpAllSpec(c, d, SourceOf(csvs)), s, f, p)
         == StoreLaws.Present(Store.Num(c.narrow(v)))
  {
    hide Store.DumpAllSpec, Store.FullCalendar, StoreLaws.ReadAt, StoreLaws.Expected, Cells;
    var src := SourceOf(csvs);
    var rows := src[s].rows;
    assert StoreLaws.FirstOfDate(rows, i, csvs[s][i].date) && DiskLaws.HasValue(rows[i], f, v);
    DiskLaws.DumpAllReads(c, d, src, s, f, p);
  }

  /**
   From the file to the reader, on any disk: each line comes back from the dumped store on its own date, every
   figure in its own column and narrowed.
   */
  lemma LineComesBack(c: Store.Config, d: Store.Disk, csvs: map<string, seq<Line>>, s: string, i: nat, p: nat)
    requires StoreLaws.ExactIndices(c) && c.includeFields == COLUMNS
    requires |Store.FullCalendar(SourceOf(csvs))| <= 0x100_0000
    requires s in csvs && i < |csvs[s]|
    requires forall j :: 0 <= j < i ==> csvs[s][j].date != csvs[s][i].date
    requires p < |Store.FullCalendar(SourceOf(csvs))| && Store.FullCalendar(SourceOf(csvs))[p] == csvs[s][i].date
    ensures var e, l := Store.DumpAllSpec(c, d, SourceOf(csvs)), csvs[s][i];
            && StoreLaws.ReadAt(e, s, "open", p) == StoreLaws.Present(Store.Num(c.narrow(l.open)))
            && StoreLaws.ReadAt(e, s, "high", p) == StoreLaws.Present(Store.Num(c.narrow(l.high)))
            && StoreLaws.ReadAt(e, s, "low", p) == StoreLaws.Present(Store.Num(c.narrow(l.low)))
            && StoreLaws.ReadAt(e, s, "close", p) == StoreLaws.Present(Store.Num(c.narrow(l.close)))
            && StoreLaws.ReadAt(e, s, "volume", p) == StoreLaws.Present(Store.Num(c.narrow(l.volume)))
            && StoreLaws.ReadAt(e, s, "factor", p) == StoreLaws.Present(Store.Num(c.narrow(1.0)))
            && StoreLaws.ReadAt(e, s, "change", p) == StoreLaws.Present(Store.Num(c.narrow(l.change)))
  {
    hide Store.DumpAllSpec, Store.FullCalendar, StoreLaws.ReadAt, SourceOf;
    var l := csvs[s][i];
    ColumnComesBack(c, d, csvs, s, i, p, "open", l.open);
    ColumnComesBack(c, d, csvs, s, i, p, "high", l.high);
    ColumnComesBack(c, d, csvs, s, i, p, "low", l.low);
    ColumnComesBack(c, d, csvs, s, i, p, "close", l.close);
    ColumnComesBack(c, d, csvs, s, i, p, "volume", l.volume);
    ColumnComesBack(c, d, csvs, s, i, p, "factor", 1.0);
    ColumnComesBack(c, d, csvs, s, i, p, "change", l.change);
  }
}
