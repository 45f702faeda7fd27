/** The incremental update against the rebuild it saves. */
module UpdateLaws {
  import opened Calendar
  import opened Store
  import opened StoreLaws

  // ----- old and new rows together -----

  /** Rows one after the other; the columns are those of the frames that have rows. */
  function MergeTables(before: Table, incoming: Table): Table {
    Table(if before.rows == [] then incoming.columns
          else if incoming.rows == [] then before.columns
          else before.columns + incoming.columns,
          before.rows + incoming.rows)
  }

  /** The old rows of every symbol followed by the incoming ones. */
  function Merge(hist: Source, inc: Source): Source {
    map s | s in hist.Keys + inc.Keys ::
      if s !in hist then inc[s] else if s !in inc then hist[s] else MergeTables(hist[s], inc[s])
  }

  lemma MergedDates(hist: Source, inc: Source)
    ensures AllDates(Merge(hist, inc)) == AllDates(hist) + AllDates(inc)
  {
    var m := Merge(hist, inc);
    forall x ensures x in AllDates(m) <==> x in AllDates(hist) || x in AllDates(inc) {
      if x in AllDates(hist) {
        var s, i :| s in hist && 0 <= i < |hist[s].rows| && hist[s].rows[i].date == x;
        assert m[s].rows[i].date == x;
      }
      if x in AllDates(inc) {
        var s, i :| s in inc && 0 <= i < |inc[s].rows| && inc[s].rows[i].date == x;
        var k := if s in hist then |hist[s].rows| + i else i;
        assert m[s].rows[k].date == x;
      }
      if x in AllDates(m) {
        var s, i :| s in m && 0 <= i < |m[s].rows| && m[s].rows[i].date == x;
        if s in hist && i < |hist[s].rows| {
          assert hist[s].rows[i].date == x;
        } else if s in hist {
          assert inc[s].rows[i - |hist[s].rows|].date == x;
        } else {
          assert inc[s].rows[i].date == x;
        }
      }
    }
  }

  // ----- when an update may stand in for a rebuild -----

  /** No incoming date at or before the calendar's end is missing from the calendar. */
  ghost predicate NoLateDates(cal: seq<int>, inc: Source)
    requires cal != []
  {
    forall d :: d in AllDates(inc) && d <= Last(cal) ==> d in cal
  }

  /** Incoming rows up to the recorded end repeat dates the symbol already has. */
  ghost predicate NoBackfill(hist: seq<Row>, inc: seq<Row>)
    requires hist != []
  {
    forall d :: d in DatesOf(inc) && d <= MaxDate(hist) ==> d in DatesOf(hist)
  }

  /** The fields that an update dumps are those the symbol's files were written for. */
  ghost predicate SameFields(c: Config, hist: Source, inc: Source) {
    forall s :: Live(inc, s) ==>
      Fields(c, UnionColumns(inc)) == Fields(c, if Live(hist, s) then hist[s].columns else inc[s].columns)
  }

  /** Everything but contiguity: checked on the incoming rows and the stored calendar. */
  ghost predicate Appendable(c: Config, hist: Source, inc: Source) {
    && FullCalendar(hist) != []
    && (exists s :: Live(inc, s))
    && NoLateDates(FullCalendar(hist), inc)
    && SameFields(c, hist, inc)
    && forall s :: Live(hist, s) && Live(inc, s) ==> NoBackfill(hist[s].rows, inc[s].rows)
  }

  /** The symbol's new dates are exactly the new calendar's days after its recorded end, up to its last date. */
  ghost predicate Contiguous(hist: Source, inc: Source, s: string)
    requires FullCalendar(hist) != [] && Live(hist, s) && Live(inc, s)
  {
    var end := MaxDate(hist[s].rows);
    UpdateDates(inc[s].rows, end) == Between(NewCalendar(FullCalendar(hist), inc), end + 1, MaxDate(inc[s].rows))
  }

  ghost predicate UpdateOk(c: Config, hist: Source, inc: Source) {
    Appendable(c, hist, inc) && forall s :: Live(hist, s) && Live(inc, s) ==> Contiguous(hist, inc, s)
  }

  // ----- the calendar -----

  /** The new calendar is the rebuilt one, and extends the old. */
  lemma CalendarRefines(hist: Source, inc: Source)
    requires FullCalendar(hist) != [] && NoLateDates(FullCalendar(hist), inc)
    ensures NewCalendar(FullCalendar(hist), inc) == FullCalendar(Merge(hist, inc))
    ensures Increasing(NewCalendar(FullCalendar(hist), inc))
  {
    var cal := FullCalendar(hist);
    var later := Sorted(set x | x in AllDates(inc) && x > Last(cal));
    IncreasingConcat(cal, later);
    MergedDates(hist, inc);
    forall x ensures x in cal + later <==> x in FullCalendar(Merge(hist, inc)) {
      assert x in cal + later <==> x in cal || x in later;
    }
    SameElements(cal + later, FullCalendar(Merge(hist, inc)));
  }

  // ----- the symbol's own new dates -----

  lemma {:induction false} LaterThanDates(rows: seq<Row>, end: int)
    ensures forall d :: d in LaterThan(rows, end) <==> d in DatesOf(rows) && d > end
  {
    if rows != [] {
      var init, x := rows[..|rows| - 1], rows[|rows| - 1];
      LaterThanDates(init, end);
      assert rows == init + [x];
      DatesConcat(init, [x]);
      assert DatesOf([x]) == {x.date};
    }
  }

  lemma UpdateDatesElements(rows: seq<Row>, end: int)
    ensures forall d :: d in UpdateDates(rows, end) <==> d in DatesOf(rows) && d > end
  {
    LaterThanDates(rows, end);
    SortedListKeeps(LaterThan(rows, end));
  }

  /** No date occurs twice in a symbol's rows. */
  ghost predicate UniqueDates(rows: seq<Row>) {
    forall i, j :: 0 <= i < j < |rows| ==> rows[i].date != rows[j].date
  }

  lemma {:induction false} LaterThanUnique(rows: seq<Row>, end: int)
    requires UniqueDates(rows)
    ensures NoRepeats(LaterThan(rows, end))
  {
    if rows != [] {
      var init := rows[..|rows| - 1];
      LaterThanUnique(init, end);
      LaterThanDates(init, end);
      forall d | d in LaterThan(init, end) ensures d != rows[|rows| - 1].date {
        var i :| 0 <= i < |init| && init[i].date == d;
        assert rows[i].date == d;
      }
      NoRepeatsAppended(LaterThan(init, end), rows[|rows| - 1].date);
    }
  }

  lemma UpdateDatesIncreasing(rows: seq<Row>, end: int)
    requires UniqueDates(rows)
    ensures Increasing(UpdateDates(rows, end))
  {
    LaterThanUnique(rows, end);
    SortedListKeeps(LaterThan(rows, end));
  }

  // ----- one field file -----

  lemma ColumnConcat(c: Config, rows: seq<Row>, a: seq<int>, b: seq<int>, f: string)
    ensures Column(c, rows, a + b, f) == Column(c, rows, a, f) + Column(c, rows, b, f)
  {
  }

  /** On days where the old rows decide, the old rows and the merged ones give the same column. */
  lemma ColumnOfOld(c: Config, h: seq<Row>, n: seq<Row>, days: seq<int>, f: string)
    requires forall d :: d in days && d in DatesOf(n) ==> d in DatesOf(h)
    ensures Column(c, h + n, days, f) == Column(c, h, days, f)
  {
    forall i | 0 <= i < |days| ensures CellAt(h + n, days[i], f) == CellAt(h, days[i], f) {
      CellAtConcat(h, n, days[i], f);
      if days[i] !in DatesOf(h) {
        CellAtMissing(h, days[i], f);
        CellAtMissing(n, days[i], f);
      }
    }
  }

  lemma ColumnOfNew(c: Config, h: seq<Row>, n: seq<Row>, days: seq<int>, f: string)
    requires forall d :: d in days ==> d !in DatesOf(h)
    ensures Column(c, h + n, days, f) == Column(c, n, days, f)
  {
    forall i | 0 <= i < |days| ensures CellAt(h + n, days[i], f) == CellAt(n, days[i], f) {
      CellAtConcat(h, n, days[i], f);
    }
  }

  /** The old rows, the incoming rows and the two calendars of one known symbol. */
  ghost predicate Known(h: seq<Row>, n: seq<Row>, cal: seq<int>, later: seq<int>) {
    && h != [] && n != []
    && Increasing(cal + later) && Increasing(cal)
    && (forall d :: d in DatesOf(h) ==> d in cal)
    && NoBackfill(h, n)
  }

  /** The merged range: from the old start to the later of the two ends. */
  lemma MergedRange(h: seq<Row>, n: seq<Row>)
    requires h != [] && n != [] && NoBackfill(h, n)
    ensures MinDate(h + n) == MinDate(h)
    ensures MaxDate(h + n) == if MaxDate(n) > MaxDate(h) then MaxDate(n) else MaxDate(h)
  {
    RangeOf(h);
    RangeOf(n);
    DatesConcat(h, n);
    SameRange(h + n, MinDate(h), if MaxDate(n) > MaxDate(h) then MaxDate(n) else MaxDate(h));
  }

  /** The merged days are the old days followed by the new calendar's days after the recorded end. */
  lemma MergedDays(h: seq<Row>, n: seq<Row>, cal: seq<int>, later: seq<int>)
    requires Known(h, n, cal, later)
    ensures Days(h + n, cal + later) == Days(h, cal) + Between(cal + later, MaxDate(h) + 1, MaxDate(n))
    ensures MinDate(h) in Days(h, cal)
  {
    hide MinDate, MaxDate;
    RangeOf(h);
    MergedRange(h, n);
    BetweenSplits(cal, later, MinDate(h), MaxDate(h), MaxDate(n));
  }

  lemma MergedColumn(c: Config, h: seq<Row>, n: seq<Row>, a: seq<int>, b: seq<int>, f: string)
    requires h != [] && NoBackfill(h, n)
    requires forall d :: d in a ==> d <= MaxDate(h)
    requires forall d :: d in b ==> d > MaxDate(h)
    ensures Column(c, h + n, a + b, f) == Column(c, h, a, f) + Column(c, n, b, f)
  {
    hide MaxDate;
    RangeOf(h);
    ColumnConcat(c, h + n, a, b, f);
    ColumnOfOld(c, h, n, a, f);
    ColumnOfNew(c, h, n, b, f);
  }

  /** A rebuild of the merged rows is the old file, then the incoming column over the days after the old end. */
  lemma RebuiltFile(c: Config, h: Table, m: Table, n: seq<Row>, cal: seq<int>, later: seq<int>, f: string)
    requires Known(h.rows, n, cal, later) && m.rows == h.rows + n
    ensures Writes(h, cal) && Writes(m, cal + later)
    ensures Encode(c, m, cal + later, f)
         == Encode(c, h, cal, f) + Column(c, n, Between(cal + later, MaxDate(h.rows) + 1, MaxDate(n)), f)
  {
    hide MinDate, MaxDate, Column;
    MergedDays(h.rows, n, cal, later);
    var a, b := Days(h.rows, cal), Between(cal + later, MaxDate(h.rows) + 1, MaxDate(n));
    MergedColumn(c, h.rows, n, a, b, f);
    IndexKept(cal, later, a[0]);
    assert (a + b)[0] == a[0];
  }

  /** Dumping the group against its own update days appends exactly those days. */
  lemma OwnDays(n: seq<Row>, end: int)
    requires n != []
    ensures Days(n, UpdateDates(n, end)) == UpdateDates(n, end)
  {
    RangeOf(n);
    UpdateDatesElements(n, end);
    var u := UpdateDates(n, end);
    forall i | 0 <= i < |u| ensures MinDate(n) <= u[i] <= MaxDate(n) {
      assert u[i] in u;
    }
    BetweenAll(u, MinDate(n), MaxDate(n));
  }

  // ----- the whole store -----

  lemma MergedRows(hist: Source, inc: Source, s: string)
    requires s in inc
    ensures s in Merge(hist, inc)
    ensures Merge(hist, inc)[s].rows == (if s in hist then hist[s].rows else []) + inc[s].rows
    ensures !Live(hist, s) ==> Merge(hist, inc)[s] == inc[s]
    ensures Live(hist, s) && Live(inc, s) ==> Merge(hist, inc)[s].columns == hist[s].columns + inc[s].columns
  {
    if s in hist {
      assert [] + inc[s].rows == inc[s].rows;
    }
  }

  /** What is dumped of the merged rows: the old fields and those of the incoming frame. */
  lemma MergedFields(c: Config, hist: Source, inc: Source, s: string)
    requires Live(hist, s) && Live(inc, s)
    ensures s in Merge(hist, inc)
    ensures Fields(c, Merge(hist, inc)[s].columns) == Fields(c, hist[s].columns) + Fields(c, inc[s].columns)
    ensures Fields(c, inc[s].columns) <= Fields(c, UnionColumns(inc))
  {
    MergedRows(hist, inc, s);
  }

  /** A symbol without live incoming rows is not touched by the merge. */
  lemma UnmergedRows(hist: Source, inc: Source, s: string)
    requires Live(hist, s) && !Live(inc, s)
    ensures s in Merge(hist, inc) && Merge(hist, inc)[s] == hist[s]
  {
    if s in inc {
      assert hist[s].rows + [] == hist[s].rows;
    }
  }

  /** What `later` is in the new calendar. */
  function LaterDays(cal: seq<int>, inc: Source): seq<int>
    requires cal != []
  {
    Sorted(set x | x in AllDates(inc) && x > Last(cal))
  }

  lemma KnownSymbol(c: Config, hist: Source, inc: Source, s: string)
    requires Appendable(c, hist, inc) && Live(hist, s) && Live(inc, s)
    ensures Known(hist[s].rows, inc[s].rows, FullCalendar(hist), LaterDays(FullCalendar(hist), inc))
  {
    CalendarRefines(hist, inc);
    DatesInCalendar(hist, s);
  }

  /** The file of a symbol that is in the store before the update. */
  function OldFile(c: Config, hist: Source, s: string, f: string): seq<Cell>
    requires Live(hist, s) && Writes(hist[s], FullCalendar(hist))
  {
    Encode(c, hist[s], FullCalendar(hist), f)
  }

  /** Whether an update dumps this field of this symbol. */
  predicate Touches(c: Config, d: Disk, inc: Source, s: string, f: string)
    requires d.calendar != []
  {
    s in inc && Updates(d, inc, s) && Writes(Group(inc, s), UpdateCalendar(d, inc, s))
    && f in Fields(c, UnionColumns(inc))
  }

  lemma UpdateHas(c: Config, d: Disk, inc: Source, s: string, f: string)
    requires CanUpdate(d, inc)
    ensures DumpUpdateSpec(c, d, inc).calendar == NewCalendar(d.calendar, inc)
    ensures s in DumpUpdateSpec(c, d, inc).instruments <==> s in d.instruments || (s in inc && Updates(d, inc, s))
    ensures s in DumpUpdateSpec(c, d, inc).instruments ==>
              DumpUpdateSpec(c, d, inc).instruments[s] ==
              if s in inc && Updates(d, inc, s) then UpdatedSpan(d, inc, s) else d.instruments[s]
    ensures Key(s, f) in DumpUpdateSpec(c, d, inc).files <==> Key(s, f) in d.files || Touches(c, d, inc, s, f)
  {
    hide Updates, Writes, UpdateCalendar, UnionColumns, Fields, FileFor, UpdatedSpan, NewCalendar;
  }

  lemma UpdateAt(c: Config, d: Disk, inc: Source, s: string, f: string)
    requires CanUpdate(d, inc) && (Key(s, f) in d.files || Touches(c, d, inc, s, f))
    ensures Key(s, f) in DumpUpdateSpec(c, d, inc).files
    ensures DumpUpdateSpec(c, d, inc).files[Key(s, f)] ==
            if Touches(c, d, inc, s, f) then FileFor(c, d.files, s, Group(inc, s), UpdateCalendar(d, inc, s), true, f)
            else d.files[Key(s, f)]
  {
    hide Updates, Writes, UpdateCalendar, UnionColumns, Fields, FileFor, UpdatedSpan, NewCalendar;
  }

  /** The update dates of a symbol, measured from the end of its old rows. */
  function NewDates(hist: Source, inc: Source, s: string): seq<int>
    requires Live(hist, s) && Live(inc, s)
  {
    UpdateDates(inc[s].rows, MaxDate(hist[s].rows))
  }

  /** The days an update appends to one of the symbol's files. */
  function AppendedDays(c: Config, hist: Source, inc: Source, s: string, f: string): seq<int>
    requires Live(hist, s) && Live(inc, s)
  {
    if f in Fields(c, UnionColumns(inc)) then NewDates(hist, inc, s) else []
  }

  /**
   What the update leaves in a known symbol's files, whatever comes in. A stored field's file gets the column over
   the symbol's own new dates. A field without a file is written from the first position of those dates alone, so
   its cells read as the first days of the whole calendar.
   */
  lemma KnownFiles(c: Config, hist: Source, inc: Source, s: string, f: string)
    requires FullCalendar(hist) != [] && Live(hist, s) && Live(inc, s)
    ensures Writes(hist[s], FullCalendar(hist))
    ensures var D, stored := DumpUpdateSpec(c, Rebuild(c, hist), inc), f in Fields(c, hist[s].columns);
            && (Key(s, f) in D.files <==> stored || AppendedDays(c, hist, inc, s, f) != [])
            && (Key(s, f) in D.files ==>
                  var appended := Column(c, inc[s].rows, AppendedDays(c, hist, inc, s, f), f);
                  D.files[Key(s, f)] == (if stored then OldFile(c, hist, s, f) else [Header(c, 0)]) + appended)
  {
    hide Encode, Column, UpdateDates, DumpUpdateSpec, Rebuild, Fields, UnionColumns;
    var d, n := Rebuild(c, hist), inc[s].rows;
    RebuildHas(c, hist, s, f);
    LiveWrites(hist, s);
    OwnDays(n, MaxDate(hist[s].rows));
    UpdateHas(c, d, inc, s, f);
    ColumnOfNoDays(c, n, f);
    if f in Fields(c, hist[s].columns) {
      RebuildAt(c, hist, s, f);
      UpdateAt(c, d, inc, s, f);
    } else if AppendedDays(c, hist, inc, s, f) != [] {
      UpdateAt(c, d, inc, s, f);
      EncodedAlone(c, Group(inc, s), NewDates(hist, inc, s), f);
    }
  }

  lemma EncodedAlone(c: Config, t: Table, days: seq<int>, f: string)
    requires t.rows != [] && days != [] && Days(t.rows, days) == days
    ensures Encode(c, t, days, f) == [Header(c, 0)] + Column(c, t.rows, days, f)
  {
  }

  /** With the field set unchanged: the old cells, then the column over the symbol's own new dates. */
  lemma UpdatedFile(c: Config, hist: Source, inc: Source, s: string, f: string)
    requires Appendable(c, hist, inc) && Live(hist, s) && Live(inc, s) && f in Fields(c, hist[s].columns)
    ensures Writes(hist[s], FullCalendar(hist))
    ensures Key(s, f) in DumpUpdateSpec(c, Rebuild(c, hist), inc).files
    ensures DumpUpdateSpec(c, Rebuild(c, hist), inc).files[Key(s, f)]
         == OldFile(c, hist, s, f) + Column(c, inc[s].rows, NewDates(hist, inc, s), f)
  {
    hide DumpUpdateSpec, Rebuild, Fields, UnionColumns, Column, NewDates;
    KnownFiles(c, hist, inc, s, f);
  }

  lemma ColumnOfNoDays(c: Config, rows: seq<Row>, f: string)
    ensures Column(c, rows, [], f) == []
  {
  }

  lemma AppendableCalendar(c: Config, hist: Source, inc: Source)
    requires Appendable(c, hist, inc)
    ensures FullCalendar(hist) != []
    ensures FullCalendar(hist) + LaterDays(FullCalendar(hist), inc) == FullCalendar(Merge(hist, inc))
  {
    CalendarRefines(hist, inc);
  }

  /** What a rebuild writes there: the old cells, then the column over the new calendar's days. */
  lemma RebuiltKnownFile(c: Config, hist: Source, inc: Source, s: string, f: string)
    requires Appendable(c, hist, inc) && Live(hist, s) && Live(inc, s) && f in Fields(c, hist[s].columns)
    ensures Writes(hist[s], FullCalendar(hist))
    ensures Key(s, f) in Rebuild(c, Merge(hist, inc)).files
    ensures Rebuild(c, Merge(hist, inc)).files[Key(s, f)]
         == OldFile(c, hist, s, f)
          + Column(c, inc[s].rows,
                   Between(NewCalendar(FullCalendar(hist), inc), MaxDate(hist[s].rows) + 1, MaxDate(inc[s].rows)), f)
  {
    hide Encode, Column, MinDate, MaxDate, Rebuild, Fields, FullCalendar, Known, Appendable, Between, Days;
    AppendableCalendar(c, hist, inc);
    KnownSymbol(c, hist, inc, s);
    MergedRows(hist, inc, s);
    MergedFields(c, hist, inc, s);
    RebuildAt(c, Merge(hist, inc), s, f);
    RebuiltFile(c, hist[s], Merge(hist, inc)[s], inc[s].rows, FullCalendar(hist),
                LaterDays(FullCalendar(hist), inc), f);
  }

  lemma MergedLive(hist: Source, inc: Source, s: string)
    ensures Live(Merge(hist, inc), s) <==> Live(hist, s) || Live(inc, s)
  {
  }

  /** A symbol has update dates exactly when its rows reach past its recorded end. */
  lemma UpdatesIffLater(rows: seq<Row>, end: int)
    requires rows != []
    ensures UpdateDates(rows, end) != [] <==> MaxDate(rows) > end
  {
    hide MaxDate, UpdateDates;
    UpdateDatesElements(rows, end);
    RangeOf(rows);
    var u, m := UpdateDates(rows, end), MaxDate(rows);
    HeadIsIn(u);
    assert m in u <==> m > end;
    if u != [] {
      assert end < u[0] <= m;
    }
  }

  lemma SpanRefines(c: Config, hist: Source, inc: Source, s: string)
    requires Appendable(c, hist, inc)
    ensures var D, R := DumpUpdateSpec(c, Rebuild(c, hist), inc), Rebuild(c, Merge(hist, inc));
            && (s in D.instruments <==> s in R.instruments)
            && (s in D.instruments ==> D.instruments[s] == R.instruments[s])
  {
    hide DumpUpdateSpec, Rebuild, UpdateDates, MinDate, MaxDate, UnionColumns, Fields;
    RebuildHas(c, hist, s, "");
    RebuildHas(c, Merge(hist, inc), s, "");
    UpdateHas(c, Rebuild(c, hist), inc, s, "");
    MergedLive(hist, inc, s);
    if Live(inc, s) {
      MergedRows(hist, inc, s);
      if Live(hist, s) {
        UpdatesIffLater(inc[s].rows, MaxDate(hist[s].rows));
        MergedRange(hist[s].rows, inc[s].rows);
      }
    } else if Live(hist, s) {
      UnmergedRows(hist, inc, s);
    }
  }

  /** A new symbol is dumped against the whole new calendar, as a rebuild does. */
  lemma NewFile(c: Config, hist: Source, inc: Source, s: string, f: string)
    requires Appendable(c, hist, inc) && !Live(hist, s) && Live(inc, s)
    ensures var D, R := DumpUpdateSpec(c, Rebuild(c, hist), inc), Rebuild(c, Merge(hist, inc));
            && (Key(s, f) in D.files <==> Key(s, f) in R.files)
            && (Key(s, f) in D.files ==> D.files[Key(s, f)] == R.files[Key(s, f)])
  {
    hide DumpUpdateSpec, Rebuild, UpdateDates, MinDate, MaxDate, UnionColumns, Fields, Days, Column;
    CalendarRefines(hist, inc);
    MergedRows(hist, inc, s);
    MergedLive(hist, inc, s);
    RebuildHas(c, hist, s, f);
    RebuildHas(c, Merge(hist, inc), s, f);
    LiveWrites(Merge(hist, inc), s);
    UpdateHas(c, Rebuild(c, hist), inc, s, f);
    if f in Fields(c, inc[s].columns) {
      RebuildAt(c, Merge(hist, inc), s, f);
      UpdateAt(c, Rebuild(c, hist), inc, s, f);
    }
  }

  /** A symbol without incoming rows keeps its files, which a rebuild over the longer calendar writes again. */
  lemma UntouchedFile(c: Config, hist: Source, inc: Source, s: string, f: string)
    requires Appendable(c, hist, inc) && Live(hist, s) && !Live(inc, s)
    ensures var D, R := DumpUpdateSpec(c, Rebuild(c, hist), inc), Rebuild(c, Merge(hist, inc));
            && (Key(s, f) in D.files <==> Key(s, f) in R.files)
            && (Key(s, f) in D.files ==> D.files[Key(s, f)] == R.files[Key(s, f)])
  {
    hide DumpUpdateSpec, Rebuild, UpdateDates, UnionColumns, Fields, Encode;
    CalendarRefines(hist, inc);
    UnmergedRows(hist, inc, s);
    MergedLive(hist, inc, s);
    RebuildHas(c, hist, s, f);
    RebuildHas(c, Merge(hist, inc), s, f);
    UpdateHas(c, Rebuild(c, hist), inc, s, f);
    if f in Fields(c, hist[s].columns) {
      RebuildAt(c, hist, s, f);
      RebuildAt(c, Merge(hist, inc), s, f);
      UpdateAt(c, Rebuild(c, hist), inc, s, f);
      DatesInCalendar(hist, s);
      LongerCalendar(c, hist[s], FullCalendar(hist), LaterDays(FullCalendar(hist), inc), f);
    }
  }

  lemma LongerCalendar(c: Config, t: Table, cal: seq<int>, later: seq<int>, f: string)
    requires t.rows != [] && Increasing(cal) && Increasing(cal + later)
    requires forall d :: d in DatesOf(t.rows) ==> d in cal
    ensures Writes(t, cal) && Writes(t, cal + later)
    ensures Encode(c, t, cal + later, f) == Encode(c, t, cal, f)
  {
    hide MinDate, MaxDate, Column;
    RangeOf(t.rows);
    var end := MaxDate(t.rows);
    BetweenSplits(cal, later, MinDate(t.rows), end, end);
    HeadIsIn(Between(cal + later, end + 1, end));
    assert Days(t.rows, cal) + [] == Days(t.rows, cal);
    assert MinDate(t.rows) in Days(t.rows, cal);
    IndexKept(cal, later, Days(t.rows, cal)[0]);
  }

  /** A known symbol with contiguous new dates. */
  lemma ContiguousFile(c: Config, hist: Source, inc: Source, s: string, f: string)
    requires Appendable(c, hist, inc) && Live(hist, s) && Live(inc, s) && Contiguous(hist, inc, s)
    ensures var D, R := DumpUpdateSpec(c, Rebuild(c, hist), inc), Rebuild(c, Merge(hist, inc));
            && (Key(s, f) in D.files <==> Key(s, f) in R.files)
            && (Key(s, f) in D.files ==> D.files[Key(s, f)] == R.files[Key(s, f)])
  {
    hide DumpUpdateSpec, Rebuild, UpdateDates, UnionColumns, Fields, Encode, Column, MinDate, MaxDate;
    MergedLive(hist, inc, s);
    MergedFields(c, hist, inc, s);
    RebuildHas(c, hist, s, f);
    RebuildHas(c, Merge(hist, inc), s, f);
    UpdateHas(c, Rebuild(c, hist), inc, s, f);
    if f in Fields(c, hist[s].columns) {
      UpdatedFile(c, hist, inc, s, f);
      RebuiltKnownFile(c, hist, inc, s, f);
    }
  }

  /**
   The incremental update refines the rebuild it saves: same calendar, same instruments, and the same
   cells in every file.
   */
  lemma UpdateRefinesRebuild(c: Config, hist: Source, inc: Source)
    requires UpdateOk(c, hist, inc)
    ensures DumpUpdateSpec(c, Rebuild(c, hist), inc) == Rebuild(c, Merge(hist, inc))
  {
    hide DumpUpdateSpec, Rebuild, UpdateOk, NewCalendar, FullCalendar;
    var D, R := DumpUpdateSpec(c, Rebuild(c, hist), inc), Rebuild(c, Merge(hist, inc));
    forall s ensures (s in D.instruments <==> s in R.instruments)
                  && (s in D.instruments ==> D.instruments[s] == R.instruments[s]) {
      AppendableWhenOk(c, hist, inc);
      SpanRefines(c, hist, inc, s);
    }
    forall k ensures (k in D.files <==> k in R.files) && (k in D.files ==> D.files[k] == R.files[k]) {
      FileRefines(c, hist, inc, k.symbol, k.field);
    }
    SameCalendars(c, hist, inc);
    SameDisk(D, R);
  }

  lemma AppendableWhenOk(c: Config, hist: Source, inc: Source)
    requires UpdateOk(c, hist, inc)
    ensures Appendable(c, hist, inc)
  {
  }

  lemma SameCalendars(c: Config, hist: Source, inc: Source)
    requires UpdateOk(c, hist, inc)
    ensures DumpUpdateSpec(c, Rebuild(c, hist), inc).calendar == Rebuild(c, Merge(hist, inc)).calendar
  {
    hide DumpUpdateSpec, Rebuild;
    RebuildHas(c, hist, "", "");
    RebuildHas(c, Merge(hist, inc), "", "");
    UpdateHas(c, Rebuild(c, hist), inc, "", "");
    CalendarRefines(hist, inc);
  }

  lemma FileRefines(c: Config, hist: Source, inc: Source, s: string, f: string)
    requires UpdateOk(c, hist, inc)
    ensures var D, R := DumpUpdateSpec(c, Rebuild(c, hist), inc), Rebuild(c, Merge(hist, inc));
            && (Key(s, f) in D.files <==> Key(s, f) in R.files)
            && (Key(s, f) in D.files ==> D.files[Key(s, f)] == R.files[Key(s, f)])
  {
    if Live(hist, s) {
      if Live(inc, s) {
        ContiguousFile(c, hist, inc, s, f);
      } else {
        UntouchedFile(c, hist, inc, s, f);
      }
    } else if Live(inc, s) {
      NewFile(c, hist, inc, s, f);
    } else {
      hide DumpUpdateSpec, Rebuild, UpdateDates, UnionColumns, Fields;
      MergedLive(hist, inc, s);
      RebuildHas(c, hist, s, f);
      RebuildHas(c, Merge(hist, inc), s, f);
      UpdateHas(c, Rebuild(c, hist), inc, s, f);
    }
  }
}
