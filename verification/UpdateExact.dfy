/** Exactly when an update reads like the rebuild it saves, for one symbol that the store knows. */
module UpdateExact {
  import opened Calendar
  import opened Store
  import opened StoreLaws
  import opened UpdateLaws

  // ----- what it takes -----

  /** The symbol's rows reach past its recorded end, so the update writes its files. */
  predicate Reaches(hist: Source, inc: Source, s: string)
    requires Live(hist, s) && Live(inc, s)
  {
    MaxDate(inc[s].rows) > MaxDate(hist[s].rows)
  }

  /** The incoming frames dump the fields the symbol has files for; without new dates its own frame adds none. */
  predicate FieldsKept(c: Config, hist: Source, inc: Source, s: string)
    requires Live(hist, s) && Live(inc, s)
  {
    if Reaches(hist, inc, s) then Fields(c, UnionColumns(inc)) == Fields(c, hist[s].columns)
    else Fields(c, inc[s].columns) <= Fields(c, hist[s].columns)
  }

  /** An incoming row on a day up to the recorded end that the symbol had no row for. */
  predicate Backfills(hist: Source, inc: Source, s: string, d: int)
    requires Live(hist, s) && Live(inc, s)
  {
    d in DatesOf(inc[s].rows) && d <= MaxDate(hist[s].rows) && d !in DatesOf(hist[s].rows)
  }

  /** The update drops such rows; that goes unnoticed inside the symbol's range when they have no values. */
  ghost predicate BackfillVoid(c: Config, hist: Source, inc: Source, s: string)
    requires Live(hist, s) && Live(inc, s)
  {
    forall d :: Backfills(hist, inc, s, d) ==>
      MinDate(hist[s].rows) <= d && forall f :: f in Fields(c, hist[s].columns) ==> CellAt(inc[s].rows, d, f) == NaN
  }

  /** The update and the rebuild read alike: in every field, at every calendar position. */
  ghost predicate ReadAlike(c: Config, hist: Source, inc: Source, s: string)
    requires FullCalendar(hist) != []
  {
    forall f, p: nat :: p < |NewCalendar(FullCalendar(hist), inc)| ==> AlikeAt(c, hist, inc, s, f, p)
  }

  predicate AlikeAt(c: Config, hist: Source, inc: Source, s: string, f: string, p: nat) {
    ReadAt(DumpUpdateSpec(c, Rebuild(c, hist), inc), s, f, p) == ReadAt(Rebuild(c, Merge(hist, inc)), s, f, p)
  }

  /** A known symbol with dumped fields and one incoming row a day, and no incoming day missing from the calendar. */
  ghost predicate KnownUpdate(c: Config, hist: Source, inc: Source, s: string) {
    && FullCalendar(hist) != [] && Live(hist, s) && Live(inc, s)
    && NoLateDates(FullCalendar(hist), inc) && UniqueDates(inc[s].rows)
    && Fields(c, hist[s].columns) != {}
    && ExactIndices(c) && |NewCalendar(FullCalendar(hist), inc)| <= 0x100_0000
  }

  // ----- the calendar -----

  /** The extended calendar is the rebuilt one exactly when no incoming day before its end is missing from it. */
  lemma CalendarRefinesIff(hist: Source, inc: Source)
    requires FullCalendar(hist) != []
    ensures NewCalendar(FullCalendar(hist), inc) == FullCalendar(Merge(hist, inc))
         <==> NoLateDates(FullCalendar(hist), inc)
  {
    var cal := FullCalendar(hist);
    if NoLateDates(cal, inc) {
      CalendarRefines(hist, inc);
    } else {
      var d :| d in AllDates(inc) && d <= Last(cal) && d !in cal;
      MergedDates(hist, inc);
      assert d in FullCalendar(Merge(hist, inc));
      assert d !in LaterDays(cal, inc);
    }
  }

  // ----- positions in the new calendar -----

  /** The new calendar, and in it the first and the last old day of the symbol and its last incoming one. */
  datatype Places = Places(cal: seq<int>, start: nat, end: nat, last: nat)

  ghost predicate At(hist: Source, inc: Source, s: string, x: Places)
    requires FullCalendar(hist) != [] && Live(hist, s) && Live(inc, s)
  {
    && x.cal == NewCalendar(FullCalendar(hist), inc) && Increasing(x.cal)
    && x.start <= x.end < |x.cal| && x.last < |x.cal|
    && x.cal[x.start] == MinDate(hist[s].rows) && x.cal[x.end] == MaxDate(hist[s].rows)
    && x.cal[x.last] == MaxDate(inc[s].rows)
    && (forall d :: d in DatesOf(inc[s].rows) ==> d in x.cal)
    && x.end < |FullCalendar(hist)| && x.cal[..|FullCalendar(hist)|] == FullCalendar(hist)
  }

  lemma IncomingInNewCalendar(hist: Source, inc: Source, s: string)
    requires FullCalendar(hist) != [] && NoLateDates(FullCalendar(hist), inc) && Live(inc, s)
    ensures forall d :: d in DatesOf(inc[s].rows) ==> d in NewCalendar(FullCalendar(hist), inc)
    ensures Increasing(NewCalendar(FullCalendar(hist), inc))
  {
    hide FullCalendar, NewCalendar;
    CalendarRefines(hist, inc);
    MergedRows(hist, inc, s);
    DatesInCalendar(Merge(hist, inc), s);
    DatesConcat(if s in hist then hist[s].rows else [], inc[s].rows);
  }

  lemma FindPlaces(hist: Source, inc: Source, s: string) returns (x: Places)
    requires FullCalendar(hist) != [] && Live(hist, s) && Live(inc, s) && NoLateDates(FullCalendar(hist), inc)
    ensures At(hist, inc, s, x)
  {
    hide FullCalendar, MinDate, MaxDate;
    IncomingInNewCalendar(hist, inc, s);
    DatesInCalendar(hist, s);
    RangeOf(hist[s].rows);
    RangeOf(inc[s].rows);
    var was, cal := FullCalendar(hist), NewCalendar(FullCalendar(hist), inc);
    x := Places(cal, IndexOf(was, MinDate(hist[s].rows)), IndexOf(was, MaxDate(hist[s].rows)),
                IndexOf(cal, MaxDate(inc[s].rows)));
    assert cal[..|was|] == was;
    assert cal[x.start] == was[x.start] && cal[x.end] == was[x.end];
  }

  lemma NewDatesInside(hist: Source, inc: Source, s: string, x: Places)
    requires FullCalendar(hist) != [] && Live(hist, s) && Live(inc, s) && UniqueDates(inc[s].rows)
    requires At(hist, inc, s, x)
    ensures var u, b := NewDates(hist, inc, s), Between(x.cal, MaxDate(hist[s].rows) + 1, MaxDate(inc[s].rows));
            |u| <= |b| && (|u| == |b| ==> u == b)
  {
    hide UpdateDates, MinDate, MaxDate, FullCalendar, NewCalendar, Between, UniqueDates;
    var n, end := inc[s].rows, MaxDate(hist[s].rows);
    UpdateDatesIncreasing(n, end);
    UpdateDatesElements(n, end);
    BetweenIncreasing(x.cal, end + 1, MaxDate(n));
    RangeOf(n);
    SubsequenceShorter(NewDates(hist, inc, s), Between(x.cal, end + 1, MaxDate(n)));
  }

  /** The days that a rebuild adds. */
  lemma MissingDaysAt(hist: Source, inc: Source, s: string, x: Places)
    requires FullCalendar(hist) != [] && Live(hist, s) && Live(inc, s) && At(hist, inc, s, x)
    ensures Reaches(hist, inc, s) <==> x.last > x.end
    ensures Between(x.cal, MaxDate(hist[s].rows) + 1, MaxDate(inc[s].rows))
         == if x.last > x.end then x.cal[x.end + 1..x.last + 1] else []
    ensures Contiguous(hist, inc, s)
         <==> NewDates(hist, inc, s) == Between(x.cal, MaxDate(hist[s].rows) + 1, MaxDate(inc[s].rows))
  {
    hide MinDate, MaxDate, FullCalendar, NewCalendar, Between, UpdateDates;
    AfterIsSlice(x.cal, x.end, x.last);
    assert x.last > x.end <==> x.cal[x.last] > x.cal[x.end];
  }

  /** Contiguous new dates are the slice of the calendar after the recorded end; others are fewer. */
  lemma NewDatesAt(hist: Source, inc: Source, s: string, x: Places)
    requires FullCalendar(hist) != [] && Live(hist, s) && Live(inc, s) && UniqueDates(inc[s].rows)
    requires At(hist, inc, s, x)
    ensures var u := NewDates(hist, inc, s);
            && (u != [] <==> Reaches(hist, inc, s)) && (Reaches(hist, inc, s) <==> x.last > x.end)
            && |u| <= (if x.last > x.end then x.last - x.end else 0)
            && (Contiguous(hist, inc, s) <==> u == if x.last > x.end then x.cal[x.end + 1..x.last + 1] else [])
            && (!Contiguous(hist, inc, s) ==> |u| < x.last - x.end)
  {
    NewDatesInside(hist, inc, s, x);
    MissingDaysAt(hist, inc, s, x);
    UpdatesIffLater(inc[s].rows, MaxDate(hist[s].rows));
    hide UpdateDates, MinDate, MaxDate, FullCalendar, NewCalendar, Between, UniqueDates, At, Contiguous;
  }

  // ----- what the two stores read -----

  /** A file of one header and two columns. */
  lemma DecodeColumns(c: Config, i: nat, a: seq<Cell>, b: seq<Cell>, p: nat)
    requires ExactIndices(c) && i <= 0x100_0000
    ensures Decode([Header(c, i)] + a + b, p)
         == if p < i || p >= i + |a| + |b| then Absent
            else Present(if p < i + |a| then a[p - i] else b[p - i - |a|])
  {
    assert Header(c, i) == Num(i as real);
    assert (i as real).Floor == i;
  }

  /** The same places in the old calendar. */
  lemma PlacesBefore(hist: Source, inc: Source, s: string, x: Places)
    requires FullCalendar(hist) != [] && Live(hist, s) && Live(inc, s) && At(hist, inc, s, x)
    ensures var was := FullCalendar(hist);
            && Increasing(was) && x.start <= x.end < |was| && x.end < |x.cal|
            && MinDate(hist[s].rows) in was && IndexOf(was, MinDate(hist[s].rows)) == x.start
            && MaxDate(hist[s].rows) in was && IndexOf(was, MaxDate(hist[s].rows)) == x.end
            && was[x.start..x.end + 1] == x.cal[x.start..x.end + 1]
  {
    hide MinDate, MaxDate, FullCalendar, NewCalendar;
    var was := FullCalendar(hist);
    DatesInCalendar(hist, s);
    assert was[x.start] == x.cal[x.start] && was[x.end] == x.cal[x.end];
    IndexUnique(was, x.start);
    IndexUnique(was, x.end);
    assert was[x.start..x.end + 1] == x.cal[x.start..x.end + 1];
  }

  lemma OldFileAt(c: Config, hist: Source, inc: Source, s: string, f: string, x: Places)
    requires FullCalendar(hist) != [] && Live(hist, s) && Live(inc, s) && At(hist, inc, s, x)
    ensures Writes(hist[s], FullCalendar(hist)) && x.start <= x.end < |x.cal|
    ensures OldFile(c, hist, s, f) == [Header(c, x.start)] + Column(c, hist[s].rows, x.cal[x.start..x.end + 1], f)
  {
    hide MinDate, MaxDate, Encode, Column, Header, FullCalendar, NewCalendar, At, Increasing;
    PlacesBefore(hist, inc, s, x);
    EncodedShape(c, hist[s], FullCalendar(hist), f);
  }

  /** What a reader of the updated store gets in a stored field. */
  function UpdateReading(c: Config, hist: Source, inc: Source, s: string, f: string, x: Places, p: nat): Reading
    requires Live(hist, s) && Live(inc, s) && p < |x.cal|
  {
    var u := AppendedDays(c, hist, inc, s, f);
    if x.start <= p <= x.end then Present(Narrowed(c, CellAt(hist[s].rows, x.cal[p], f)))
    else if x.end < p <= x.end + |u| then Present(Narrowed(c, CellAt(inc[s].rows, u[p - x.end - 1], f)))
    else Absent
  }

  lemma DecodeRows(c: Config, i: nat, h: seq<Row>, n: seq<Row>, days: seq<int>, u: seq<int>, f: string, p: nat)
    requires ExactIndices(c) && i <= 0x100_0000
    ensures Decode([Header(c, i)] + Column(c, h, days, f) + Column(c, n, u, f), p)
         == if p < i || p >= i + |days| + |u| then Absent
            else Present(Narrowed(c, if p < i + |days| then CellAt(h, days[p - i], f)
                                     else CellAt(n, u[p - i - |days|], f)))
  {
    hide Decode, CellAt, Narrowed, Header;
    DecodeColumns(c, i, Column(c, h, days, f), Column(c, n, u, f), p);
  }

  lemma StoredReads(c: Config, hist: Source, inc: Source, s: string, f: string, x: Places, p: nat)
    requires KnownUpdate(c, hist, inc, s) && At(hist, inc, s, x) && p < |x.cal| && f in Fields(c, hist[s].columns)
    ensures ReadAt(DumpUpdateSpec(c, Rebuild(c, hist), inc), s, f, p) == UpdateReading(c, hist, inc, s, f, x, p)
  {
    hide DumpUpdateSpec, Rebuild, Fields, AppendedDays, Decode, FullCalendar, NewCalendar, MinDate, MaxDate, CellAt;
    hide Column, Narrowed, Header, Increasing, OldFile, At;
    OldFileAt(c, hist, inc, s, f, x);
    var days, u := x.cal[x.start..x.end + 1], AppendedDays(c, hist, inc, s, f);
    KnownFiles(c, hist, inc, s, f);
    StartFits(c, hist, inc, s, x);
    DecodeRows(c, x.start, hist[s].rows, inc[s].rows, days, u, f, p);
    assert x.start <= p <= x.end ==> days[p - x.start] == x.cal[p];
  }

  lemma StartFits(c: Config, hist: Source, inc: Source, s: string, x: Places)
    requires KnownUpdate(c, hist, inc, s) && At(hist, inc, s, x)
    ensures x.start <= 0x100_0000 && ExactIndices(c)
  {
    hide FullCalendar, NewCalendar, ExactIndices;
  }

  lemma OtherReads(c: Config, hist: Source, inc: Source, s: string, f: string, p: nat)
    requires KnownUpdate(c, hist, inc, s) && f !in Fields(c, hist[s].columns)
    ensures ReadAt(DumpUpdateSpec(c, Rebuild(c, hist), inc), s, f, p) != Absent
         <==> p < |AppendedDays(c, hist, inc, s, f)|
  {
    hide DumpUpdateSpec, Rebuild, Fields, AppendedDays, Decode, FullCalendar, NewCalendar, CellAt, Narrowed, Header;
    var u := AppendedDays(c, hist, inc, s, f);
    KnownFiles(c, hist, inc, s, f);
    ColumnOfNoDays(c, [], f);
    assert [Header(c, 0)] + Column(c, [], [], f) == [Header(c, 0)];
    DecodeRows(c, 0, [], inc[s].rows, [], u, f, p);
  }

  lemma UpdatedReads(c: Config, hist: Source, inc: Source, s: string, f: string, x: Places, p: nat)
    requires KnownUpdate(c, hist, inc, s) && At(hist, inc, s, x) && p < |x.cal|
    ensures var r := ReadAt(DumpUpdateSpec(c, Rebuild(c, hist), inc), s, f, p);
            if f in Fields(c, hist[s].columns) then r == UpdateReading(c, hist, inc, s, f, x, p)
            else r != Absent <==> p < |AppendedDays(c, hist, inc, s, f)|
  {
    hide DumpUpdateSpec, Rebuild, Fields, AppendedDays, ReadAt, FullCalendar, NewCalendar, UpdateReading, At;
    if f in Fields(c, hist[s].columns) {
      StoredReads(c, hist, inc, s, f, x, p);
    } else {
      OtherReads(c, hist, inc, s, f, p);
    }
  }

  /** What a reader of the rebuilt store gets. */
  lemma RebuiltReads(c: Config, hist: Source, inc: Source, s: string, f: string, x: Places, p: nat)
    requires KnownUpdate(c, hist, inc, s) && At(hist, inc, s, x) && p < |x.cal|
    ensures ReadAt(Rebuild(c, Merge(hist, inc)), s, f, p)
         == if f in Fields(c, hist[s].columns) || f in Fields(c, inc[s].columns)
            then Expected(c, hist[s].rows + inc[s].rows, x.cal[p], f) else Absent
  {
    hide Rebuild, Fields, FullCalendar, Decode, Expected, NewCalendar, MinDate, MaxDate;
    var m := Merge(hist, inc);
    CalendarRefines(hist, inc);
    MergedRows(hist, inc, s);
    MergedFields(c, hist, inc, s);
    RebuildHas(c, m, s, f);
    if f in Fields(c, m[s].columns) {
      FullDumpRoundTrip(c, m, s, f, p);
    }
  }

  /** On a day that either frame has, the rebuilt store has a cell. */
  lemma MergedPresent(c: Config, h: seq<Row>, n: seq<Row>, d: int, f: string)
    requires h != [] && n != [] && (d in DatesOf(h) || d in DatesOf(n))
    ensures Expected(c, h + n, d, f)
         == Present(Narrowed(c, if d in DatesOf(h) then CellAt(h, d, f) else CellAt(n, d, f)))
  {
    hide CellAt, MinDate, MaxDate;
    DatesConcat(h, n);
    RangeOf(h + n);
    CellAtConcat(h, n, d, f);
  }

  // ----- alike when it holds -----

  lemma VoidRange(c: Config, hist: Source, inc: Source, s: string)
    requires Live(hist, s) && Live(inc, s) && BackfillVoid(c, hist, inc, s)
    ensures var h, n := hist[s].rows, inc[s].rows;
            && MinDate(h + n) == MinDate(h)
            && MaxDate(h + n) == if MaxDate(n) > MaxDate(h) then MaxDate(n) else MaxDate(h)
  {
    hide MinDate, MaxDate, CellAt, Fields;
    var h, n := hist[s].rows, inc[s].rows;
    RangeOf(h);
    RangeOf(n);
    DatesConcat(h, n);
    forall d | d in DatesOf(n) ensures MinDate(h) <= d {
      assert d <= MaxDate(h) && d !in DatesOf(h) ==> Backfills(hist, inc, s, d);
    }
    SameRange(h + n, MinDate(h), if MaxDate(n) > MaxDate(h) then MaxDate(n) else MaxDate(h));
  }

  /** Inside the old range the merged rows read like the old ones. */
  lemma VoidCell(c: Config, hist: Source, inc: Source, s: string, d: int, f: string)
    requires Live(hist, s) && Live(inc, s) && BackfillVoid(c, hist, inc, s)
    requires d <= MaxDate(hist[s].rows) && f in Fields(c, hist[s].columns)
    ensures CellAt(hist[s].rows + inc[s].rows, d, f) == CellAt(hist[s].rows, d, f)
  {
    hide MinDate, MaxDate, CellAt, Fields;
    var h, n := hist[s].rows, inc[s].rows;
    CellAtConcat(h, n, d, f);
    if d !in DatesOf(h) {
      CellAtMissing(h, d, f);
      if d in DatesOf(n) {
        assert Backfills(hist, inc, s, d);
      } else {
        CellAtMissing(n, d, f);
      }
    }
  }

  lemma LaterCell(hist: Source, inc: Source, s: string, d: int, f: string)
    requires Live(hist, s) && Live(inc, s) && d > MaxDate(hist[s].rows)
    ensures CellAt(hist[s].rows + inc[s].rows, d, f) == CellAt(inc[s].rows, d, f)
  {
    hide MinDate, MaxDate, CellAt;
    RangeOf(hist[s].rows);
    CellAtConcat(hist[s].rows, inc[s].rows, d, f);
  }

  lemma EarlierDayAlike(c: Config, hist: Source, inc: Source, s: string, f: string, x: Places, p: nat)
    requires FullCalendar(hist) != [] && Live(hist, s) && Live(inc, s) && At(hist, inc, s, x) && p <= x.end
    requires BackfillVoid(c, hist, inc, s) && f in Fields(c, hist[s].columns)
    ensures UpdateReading(c, hist, inc, s, f, x, p) == Expected(c, hist[s].rows + inc[s].rows, x.cal[p], f)
  {
    OrderAt(x.cal, x.start, p);
    OrderAt(x.cal, p, x.end);
    hide MinDate, MaxDate, CellAt, Fields, FullCalendar, NewCalendar, AppendedDays, BackfillVoid, Increasing;
    VoidRange(c, hist, inc, s);
    VoidCell(c, hist, inc, s, x.cal[p], f);
  }

  /** What both read after the recorded end. */
  function LaterReading(c: Config, inc: Source, s: string, f: string, x: Places, p: nat): Reading
    requires s in inc && p < |x.cal|
  {
    if p <= x.last then Present(Narrowed(c, CellAt(inc[s].rows, x.cal[p], f))) else Absent
  }

  lemma LaterUpdated(c: Config, hist: Source, inc: Source, s: string, f: string, x: Places, p: nat)
    requires Live(hist, s) && Live(inc, s) && x.start <= x.end < p < |x.cal| && x.last < |x.cal|
    requires AppendedDays(c, hist, inc, s, f) == if x.last > x.end then x.cal[x.end + 1..x.last + 1] else []
    ensures UpdateReading(c, hist, inc, s, f, x, p) == LaterReading(c, inc, s, f, x, p)
  {
    hide CellAt, AppendedDays, Narrowed;
    if p <= x.last {
      assert x.cal[x.end + 1..x.last + 1][p - x.end - 1] == x.cal[p];
    }
  }

  lemma LaterExpected(c: Config, hist: Source, inc: Source, s: string, f: string, x: Places, p: nat)
    requires FullCalendar(hist) != [] && Live(hist, s) && Live(inc, s) && At(hist, inc, s, x) && x.end < p < |x.cal|
    requires BackfillVoid(c, hist, inc, s)
    ensures Expected(c, hist[s].rows + inc[s].rows, x.cal[p], f) == LaterReading(c, inc, s, f, x, p)
  {
    LaterPlace(hist, inc, s, x, p);
    hide MinDate, MaxDate, CellAt, FullCalendar, NewCalendar, BackfillVoid, Increasing, At, Narrowed;
    VoidRange(c, hist, inc, s);
    LaterCell(hist, inc, s, x.cal[p], f);
  }

  lemma LaterPlace(hist: Source, inc: Source, s: string, x: Places, p: nat)
    requires FullCalendar(hist) != [] && Live(hist, s) && Live(inc, s) && At(hist, inc, s, x) && x.end < p < |x.cal|
    ensures x.start <= x.end && MinDate(hist[s].rows) <= MaxDate(hist[s].rows) < x.cal[p]
    ensures x.cal[p] <= MaxDate(inc[s].rows) <==> p <= x.last
    ensures MaxDate(inc[s].rows) > MaxDate(hist[s].rows) <==> x.last > x.end
  {
    OrderAt(x.cal, p, x.end);
    OrderAt(x.cal, p, x.last);
    OrderAt(x.cal, x.start, x.end);
    OrderAt(x.cal, x.last, x.end);
    hide MinDate, MaxDate, FullCalendar, NewCalendar, Increasing;
  }

  lemma StoredFieldAlike(c: Config, hist: Source, inc: Source, s: string, f: string, x: Places, p: nat)
    requires KnownUpdate(c, hist, inc, s) && At(hist, inc, s, x) && p < |x.cal|
    requires FieldsKept(c, hist, inc, s) && Contiguous(hist, inc, s) && BackfillVoid(c, hist, inc, s)
    requires f in Fields(c, hist[s].columns)
    ensures UpdateReading(c, hist, inc, s, f, x, p) == Expected(c, hist[s].rows + inc[s].rows, x.cal[p], f)
  {
    hide MinDate, MaxDate, Expected, Fields, FullCalendar, NewCalendar, NewDates, Contiguous, BackfillVoid;
    hide UnionColumns, UpdateReading;
    if p <= x.end {
      EarlierDayAlike(c, hist, inc, s, f, x, p);
    } else {
      NewDatesAt(hist, inc, s, x);
      LaterUpdated(c, hist, inc, s, f, x, p);
      LaterExpected(c, hist, inc, s, f, x, p);
    }
  }

  lemma OrderAt(cal: seq<int>, i: nat, j: nat)
    requires Increasing(cal) && i < |cal| && j < |cal|
    ensures cal[i] <= cal[j] <==> i <= j
  {
  }

  lemma OtherFieldAbsent(c: Config, hist: Source, inc: Source, s: string, f: string, x: Places)
    requires KnownUpdate(c, hist, inc, s) && At(hist, inc, s, x)
    requires FieldsKept(c, hist, inc, s) && f !in Fields(c, hist[s].columns)
    ensures AppendedDays(c, hist, inc, s, f) == [] && f !in Fields(c, inc[s].columns)
  {
    hide MinDate, MaxDate, FullCalendar, NewCalendar, NewDates, Contiguous, UnionColumns, Fields;
    NewDatesAt(hist, inc, s, x);
    MergedFields(c, hist, inc, s);
  }

  lemma AlikeWhenKept(c: Config, hist: Source, inc: Source, s: string, f: string, x: Places, p: nat)
    requires KnownUpdate(c, hist, inc, s) && At(hist, inc, s, x) && p < |x.cal|
    requires FieldsKept(c, hist, inc, s) && Contiguous(hist, inc, s) && BackfillVoid(c, hist, inc, s)
    ensures AlikeAt(c, hist, inc, s, f, p)
  {
    hide ReadAt, Rebuild, DumpUpdateSpec, Fields, FieldsKept, Contiguous, BackfillVoid, FullCalendar, NewCalendar;
    hide AppendedDays, UpdateReading, Expected, At;
    UpdatedReads(c, hist, inc, s, f, x, p);
    RebuiltReads(c, hist, inc, s, f, x, p);
    if f in Fields(c, hist[s].columns) {
      StoredFieldAlike(c, hist, inc, s, f, x, p);
    } else {
      OtherFieldAbsent(c, hist, inc, s, f, x);
    }
  }

  // ----- and not otherwise -----

  /** The last incoming day reads differently in a field whose file the update leaves too short. */
  lemma LastDayDiffers(c: Config, hist: Source, inc: Source, s: string, f: string, x: Places)
    requires KnownUpdate(c, hist, inc, s) && At(hist, inc, s, x)
    requires f in Fields(c, hist[s].columns) || f in Fields(c, inc[s].columns)
    requires var n := |AppendedDays(c, hist, inc, s, f)|;
             if f in Fields(c, hist[s].columns) then x.end + n < x.last else n <= x.last
    ensures !AlikeAt(c, hist, inc, s, f, x.last)
  {
    hide ReadAt, Rebuild, DumpUpdateSpec, Fields, AppendedDays, Expected, MinDate, MaxDate, CellAt;
    hide FullCalendar, NewCalendar;
    UpdatedReads(c, hist, inc, s, f, x, x.last);
    RebuiltReads(c, hist, inc, s, f, x, x.last);
    RangeOf(inc[s].rows);
    MergedPresent(c, hist[s].rows, inc[s].rows, x.cal[x.last], f);
  }

  /** The first day of all reads differently in a field that only other symbols' frames bring. */
  lemma FirstDayDiffers(c: Config, hist: Source, inc: Source, s: string, f: string, x: Places)
    requires KnownUpdate(c, hist, inc, s) && At(hist, inc, s, x)
    requires f !in Fields(c, hist[s].columns) && f !in Fields(c, inc[s].columns)
    requires AppendedDays(c, hist, inc, s, f) != []
    ensures !AlikeAt(c, hist, inc, s, f, 0)
  {
    hide ReadAt, Rebuild, DumpUpdateSpec, Fields, AppendedDays, Expected, MinDate, MaxDate, CellAt;
    hide FullCalendar, NewCalendar;
    UpdatedReads(c, hist, inc, s, f, x, 0);
    RebuiltReads(c, hist, inc, s, f, x, 0);
  }

  /** A backfilled day reads differently in a field in which it has a value, or outside the old range. */
  lemma BackfilledDayDiffers(c: Config, hist: Source, inc: Source, s: string, f: string, x: Places, d: int)
    requires KnownUpdate(c, hist, inc, s) && At(hist, inc, s, x)
    requires f in Fields(c, hist[s].columns) && Backfills(hist, inc, s, d)
    requires d < MinDate(hist[s].rows) || CellAt(inc[s].rows, d, f) != NaN
    ensures d in x.cal && !AlikeAt(c, hist, inc, s, f, IndexOf(x.cal, d))
  {
    hide ReadAt, Rebuild, DumpUpdateSpec, Fields, AppendedDays, Expected, MinDate, MaxDate, CellAt;
    hide FullCalendar, NewCalendar;
    var p := IndexOf(x.cal, d);
    assert p <= x.end && (p < x.start <==> d < x.cal[x.start]);
    UpdatedReads(c, hist, inc, s, f, x, p);
    RebuiltReads(c, hist, inc, s, f, x, p);
    MergedPresent(c, hist[s].rows, inc[s].rows, d, f);
    CellAtMissing(hist[s].rows, d, f);
  }

  lemma DifferentSets(a: set<string>, b: set<string>)
    ensures a <= b || exists f :: f in a && f !in b
    ensures a == b || exists f :: (f in a && f !in b) || (f in b && f !in a)
  {
    if a != b && !exists f :: (f in a && f !in b) || (f in b && f !in a) {
      assert forall f :: f in a <==> f in b;
    }
  }

  lemma OtherFieldsDiffer(c: Config, hist: Source, inc: Source, s: string, x: Places)
    requires KnownUpdate(c, hist, inc, s) && At(hist, inc, s, x) && !FieldsKept(c, hist, inc, s)
    ensures exists f, p: nat :: p < |x.cal| && !AlikeAt(c, hist, inc, s, f, p)
  {
    hide Rebuild, DumpUpdateSpec, Fields, MinDate, MaxDate, FullCalendar, NewCalendar, NewDates, AlikeAt, Contiguous;
    hide UnionColumns;
    NewDatesAt(hist, inc, s, x);
    MergedFields(c, hist, inc, s);
    var H, I, U := Fields(c, hist[s].columns), Fields(c, inc[s].columns), Fields(c, UnionColumns(inc));
    DifferentSets(I, H);
    DifferentSets(U, H);
    if f :| f in I && f !in H {
      LastDayDiffers(c, hist, inc, s, f, x);
    } else if f :| f in U && f !in H {
      FirstDayDiffers(c, hist, inc, s, f, x);
    } else {
      var f :| f in H && f !in U;
      LastDayDiffers(c, hist, inc, s, f, x);
    }
  }

  lemma GapDiffers(c: Config, hist: Source, inc: Source, s: string, x: Places)
    requires KnownUpdate(c, hist, inc, s) && At(hist, inc, s, x) && !Contiguous(hist, inc, s)
    ensures exists f, p: nat :: p < |x.cal| && !AlikeAt(c, hist, inc, s, f, p)
  {
    hide Rebuild, DumpUpdateSpec, Fields, MinDate, MaxDate, FullCalendar, NewCalendar, NewDates, AlikeAt, Contiguous;
    hide UnionColumns;
    NewDatesAt(hist, inc, s, x);
    PickSome(Fields(c, hist[s].columns));
    var f :| f in Fields(c, hist[s].columns);
    LastDayDiffers(c, hist, inc, s, f, x);
  }

  lemma BackfillDiffers(c: Config, hist: Source, inc: Source, s: string, x: Places)
    requires KnownUpdate(c, hist, inc, s) && At(hist, inc, s, x) && !BackfillVoid(c, hist, inc, s)
    ensures exists f, p: nat :: p < |x.cal| && !AlikeAt(c, hist, inc, s, f, p)
  {
    hide Rebuild, DumpUpdateSpec, Fields, MinDate, MaxDate, FullCalendar, NewCalendar, AlikeAt, CellAt, Backfills;
    PickSome(Fields(c, hist[s].columns));
    var d :| Backfills(hist, inc, s, d)
      && !(MinDate(hist[s].rows) <= d
           && forall f :: f in Fields(c, hist[s].columns) ==> CellAt(inc[s].rows, d, f) == NaN);
    var f :| f in Fields(c, hist[s].columns) && (d < MinDate(hist[s].rows) || CellAt(inc[s].rows, d, f) != NaN);
    BackfilledDayDiffers(c, hist, inc, s, f, x, d);
  }

  /**
   For a symbol the store knows, the update reads like a rebuild from old and new rows, in every field at every
   calendar position, if and only if the fields are kept, its new dates are exactly the calendar's days after its
   recorded end, and no row with values comes in for an earlier day that it had no row for.
   */
  lemma ReadAlikeIff(c: Config, hist: Source, inc: Source, s: string)
    requires KnownUpdate(c, hist, inc, s)
    ensures ReadAlike(c, hist, inc, s)
         <==> FieldsKept(c, hist, inc, s) && Contiguous(hist, inc, s) && BackfillVoid(c, hist, inc, s)
  {
    hide FieldsKept, Contiguous, BackfillVoid, AlikeAt, FullCalendar, NewCalendar;
    var x := FindPlaces(hist, inc, s);
    if !FieldsKept(c, hist, inc, s) {
      OtherFieldsDiffer(c, hist, inc, s, x);
    } else if !Contiguous(hist, inc, s) {
      GapDiffers(c, hist, inc, s, x);
    } else if !BackfillVoid(c, hist, inc, s) {
      BackfillDiffers(c, hist, inc, s, x);
    } else {
      forall f, p: nat | p < |x.cal| ensures AlikeAt(c, hist, inc, s, f, p) {
        AlikeWhenKept(c, hist, inc, s, f, x, p);
      }
    }
  }

  lemma AppendableKeeps(c: Config, hist: Source, inc: Source, s: string)
    requires Appendable(c, hist, inc) && Live(hist, s) && Live(inc, s)
    ensures FieldsKept(c, hist, inc, s) && BackfillVoid(c, hist, inc, s)
  {
    hide MinDate, MaxDate, FullCalendar, Fields, UnionColumns;
    MergedFields(c, hist, inc, s);
  }

  /** When everything else is as it should be, contiguity decides: one skipped trading day shifts every later cell. */
  lemma ReadAlikeIffContiguous(c: Config, hist: Source, inc: Source, s: string)
    requires Appendable(c, hist, inc) && KnownUpdate(c, hist, inc, s)
    ensures ReadAlike(c, hist, inc, s) <==> Contiguous(hist, inc, s)
  {
    hide Appendable, FieldsKept, BackfillVoid, Contiguous, ReadAlike;
    AppendableKeeps(c, hist, inc, s);
    ReadAlikeIff(c, hist, inc, s);
  }
}
