/** What every dump leaves on any disk, whatever it held, in terms of the source's rows. */
module DiskLaws {
  import opened Calendar
  import opened Store
  import opened StoreLaws
  import opened UpdateLaws

  // ----- what a reading should be -----

  /** The column is dumped: an included one, or any that is not excluded when none is. */
  predicate Dumped(c: Config, columns: set<string>, f: string) {
    f in columns && if c.includeFields == {} then f !in c.excludeFields else f in c.includeFields
  }

  lemma FieldsAreDumped(c: Config, columns: set<string>, f: string)
    ensures f in Fields(c, columns) <==> Dumped(c, columns, f)
  {
  }

  ghost predicate HasDate(rows: seq<Row>, d: int) {
    exists i :: 0 <= i < |rows| && rows[i].date == d
  }

  /** The value of a row in a column. */
  ghost predicate HasValue(r: Row, f: string, v: real) {
    f in r.cells && r.cells[f] == Num(v)
  }

  /**
   What the rows say about a day: the narrowed value of its first row, NaN when that row has none or when the
   day has no row but lies between two days that have, and nothing outside their range.
   */
  ghost predicate Says(c: Config, rows: seq<Row>, d: int, f: string, r: Reading) {
    && (forall i: nat, v :: FirstOfDate(rows, i, d) && HasValue(rows[i], f, v) ==> r == Present(Num(c.narrow(v))))
    && (forall i: nat :: FirstOfDate(rows, i, d) && (forall v :: !HasValue(rows[i], f, v)) ==> r == Present(NaN))
    && (!HasDate(rows, d) ==>
          r == if (exists a :: a < d && HasDate(rows, a)) && (exists b :: d < b && HasDate(rows, b)) then Present(NaN)
               else Absent)
  }

  lemma InRange(rows: seq<Row>, d: int)
    requires rows != []
    ensures HasDate(rows, d) ==> MinDate(rows) <= d <= MaxDate(rows)
    ensures MinDate(rows) < d < MaxDate(rows) <==>
              (exists a :: a < d && HasDate(rows, a)) && (exists b :: d < b && HasDate(rows, b))
    ensures d == MinDate(rows) || d == MaxDate(rows) ==> HasDate(rows, d)
  {
    RangeOf(rows);
    assert HasDate(rows, MinDate(rows)) && HasDate(rows, MaxDate(rows));
  }

  lemma ValueFound(r: Row, f: string)
    ensures f in r.cells && r.cells[f].Num? ==> exists v :: HasValue(r, f, v)
  {
    if f in r.cells && r.cells[f].Num? {
      assert HasValue(r, f, r.cells[f].v);
    }
  }

  lemma ExpectedSays(c: Config, rows: seq<Row>, d: int, f: string)
    requires rows != []
    ensures Says(c, rows, d, f, Expected(c, rows, d, f))
  {
    hide MinDate, MaxDate, CellAt;
    InRange(rows, d);
    forall i: nat | FirstOfDate(rows, i, d)
      ensures HasDate(rows, d)
      ensures CellAt(rows, d, f) == if f in rows[i].cells then rows[i].cells[f] else NaN
    {
      CellAtIsFirst(rows, d, f, i);
    }
    forall i: nat | FirstOfDate(rows, i, d) && forall v :: !HasValue(rows[i], f, v)
      ensures Expected(c, rows, d, f) == Present(NaN)
    {
      ValueFound(rows[i], f);
    }
    if !HasDate(rows, d) {
      CellAtMissing(rows, d, f);
    }
  }

  /** A file written anew reads as its rows say, against any calendar that has one of their days. */
  lemma EncodedReads(c: Config, t: Table, cal: seq<int>, f: string, p: nat)
    requires Writes(t, cal) && Increasing(cal) && p < |cal|
    requires ExactIndices(c) && |cal| <= 0x100_0000
    ensures Decode(Encode(c, t, cal, f), p) == Expected(c, t.rows, cal[p], f)
  {
    hide Header, MinDate, MaxDate, CellAt, Narrowed, Between, IndexOf;
    var b := Days(t.rows, cal);
    BetweenIsRange(cal, MinDate(t.rows), MaxDate(t.rows));
    var i, j := IndexOf(cal, b[0]), IndexOf(cal, b[|b| - 1]);
    assert cal[i] == b[0] && cal[j] == b[|b| - 1];
    assert Header(c, i) == Num(i as real);
    assert (i as real).Floor == i;
    assert cal[p] in cal;
    assert i <= p <= j <==> b[0] <= cal[p] <= b[|b| - 1];
    assert i <= p <= j ==> b[p - i] == cal[p];
  }

  // ----- the full dump -----

  lemma FreshAt(c: Config, src: Source, cal: seq<int>, k: Key)
    ensures k in FreshFiles(c, src, cal, src.Keys)
       <==> k.symbol in src && Writes(src[k.symbol], cal) && k.field in Fields(c, src[k.symbol].columns)
    ensures k in FreshFiles(c, src, cal, src.Keys) ==>
              FreshFiles(c, src, cal, src.Keys)[k] == Encode(c, src[k.symbol], cal, k.field)
  {
    hide Writes, Fields, Encode;
  }

  /** On any disk a full dump reads as the source says, whatever was there before. */
  lemma DumpAllReads(c: Config, d: Disk, src: Source, s: string, f: string, p: nat)
    requires ExactIndices(c) && |FullCalendar(src)| <= 0x100_0000 && p < |FullCalendar(src)|
    requires Live(src, s) && Dumped(c, src[s].columns, f)
    ensures ReadAt(DumpAllSpec(c, d, src), s, f, p) == Expected(c, src[s].rows, FullCalendar(src)[p], f)
    ensures Says(c, src[s].rows, FullCalendar(src)[p], f, ReadAt(DumpAllSpec(c, d, src), s, f, p))
  {
    hide Fields, Decode, Encode, Writes, FullCalendar, Says, Expected, FreshFiles;
    FieldsAreDumped(c, src[s].columns, f);
    LiveWrites(src, s);
    DatesInCalendar(src, s);
    FreshAt(c, src, FullCalendar(src), Key(s, f));
    EncodedReads(c, src[s], FullCalendar(src), f, p);
    ExpectedSays(c, src[s].rows, FullCalendar(src)[p], f);
  }

  /** It leaves every other file as it was, and replaces the calendar and the instruments. */
  lemma DumpAllKeepsOthers(c: Config, d: Disk, src: Source, k: Key)
    requires !(Live(src, k.symbol) && Dumped(c, src[k.symbol].columns, k.field))
    ensures k in DumpAllSpec(c, d, src).files <==> k in d.files
    ensures k in d.files ==> DumpAllSpec(c, d, src).files[k] == d.files[k]
  {
    hide Encode, FullCalendar, Fields, FreshFiles, Days;
    FreshAt(c, src, FullCalendar(src), k);
    if k.symbol in src {
      FieldsAreDumped(c, src[k.symbol].columns, k.field);
    }
  }

  /** The range of a symbol's rows: the first and the last of their dates. */
  ghost predicate SpanIs(rows: seq<Row>, x: Span) {
    HasDate(rows, x.start) && HasDate(rows, x.end) && forall d :: HasDate(rows, d) ==> x.start <= d <= x.end
  }

  lemma SpanOfIs(rows: seq<Row>)
    requires rows != []
    ensures SpanIs(rows, SpanOf(rows))
  {
    InRange(rows, MinDate(rows));
    InRange(rows, MaxDate(rows));
    forall d | HasDate(rows, d) ensures MinDate(rows) <= d <= MaxDate(rows) {
      InRange(rows, d);
    }
  }

  /** The stored calendar and ranges of a full dump. */
  lemma DumpAllIndex(c: Config, d: Disk, src: Source)
    ensures var e := DumpAllSpec(c, d, src);
            && Increasing(e.calendar)
            && (forall x :: x in e.calendar <==> exists s :: s in src && HasDate(src[s].rows, x))
            && (forall s :: s in e.instruments <==> Live(src, s))
            && (forall s :: s in e.instruments ==> SpanIs(src[s].rows, e.instruments[s]))
  {
    hide SpanOf, SpanIs, FreshFiles;
    var e := DumpAllSpec(c, d, src);
    DatesOfSource(src);
    forall s | s in e.instruments ensures SpanIs(src[s].rows, e.instruments[s]) {
      SpanOfIs(src[s].rows);
    }
  }

  lemma DatesOfSource(src: Source)
    ensures forall x :: x in AllDates(src) <==> exists s :: s in src && HasDate(src[s].rows, x)
  {
    forall x ensures x in AllDates(src) <==> exists s :: s in src && HasDate(src[s].rows, x) {
      if x in AllDates(src) {
        var s, i :| s in src && 0 <= i < |src[s].rows| && src[s].rows[i].date == x;
        assert HasDate(src[s].rows, x);
      }
    }
  }

  // ----- the fix dump -----

  /** On any disk the fix rewrites the files of the given symbols against the stored calendar. */
  lemma DumpFixReads(c: Config, d: Disk, src: Source, s: string, f: string, p: nat)
    requires ExactIndices(c) && |d.calendar| <= 0x100_0000 && p < |d.calendar| && Increasing(d.calendar)
    requires Live(src, s) && Dumped(c, src[s].columns, f)
    requires exists x :: x in d.calendar && MinDate(src[s].rows) <= x <= MaxDate(src[s].rows)
    ensures Says(c, src[s].rows, d.calendar[p], f, ReadAt(DumpFixSpec(c, d, src), s, f, p))
  {
    hide Fields, Decode, Encode, Says, Expected, FreshFiles, MinDate, MaxDate;
    FieldsAreDumped(c, src[s].columns, f);
    FreshAt(c, src, d.calendar, Key(s, f));
    EncodedReads(c, src[s], d.calendar, f, p);
    ExpectedSays(c, src[s].rows, d.calendar[p], f);
  }

  /** It keeps the calendar, the known ranges and every other file; new symbols get the range of their rows. */
  lemma DumpFixKeeps(c: Config, d: Disk, src: Source, k: Key)
    ensures var e := DumpFixSpec(c, d, src);
            && e.calendar == d.calendar
            && (forall s :: s in e.instruments <==> s in d.instruments || Live(src, s))
            && (forall s :: s in d.instruments ==> e.instruments[s] == d.instruments[s])
            && (forall s :: Live(src, s) && s !in d.instruments ==> SpanIs(src[s].rows, e.instruments[s]))
            && (!(Live(src, k.symbol) && Dumped(c, src[k.symbol].columns, k.field)) ==>
                  (k in e.files <==> k in d.files) && (k in d.files ==> e.files[k] == d.files[k]))
  {
    hide SpanOf, SpanIs, Encode, Fields, FreshFiles, Days;
    FreshAt(c, src, d.calendar, k);
    if k.symbol in src {
      FieldsAreDumped(c, src[k.symbol].columns, k.field);
    }
    forall s | Live(src, s) && s !in d.instruments ensures SpanIs(src[s].rows, DumpFixSpec(c, d, src).instruments[s]) {
      SpanOfIs(src[s].rows);
    }
  }

  // ----- the update -----

  /** How many of the rows have that date. */
  function DateCount(rows: seq<Row>, d: int): nat {
    if rows == [] then 0 else DateCount(rows[..|rows| - 1], d) + (if rows[|rows| - 1].date == d then 1 else 0)
  }

  lemma {:induction false} LaterThanCounts(rows: seq<Row>, end: int, d: int)
    ensures multiset(LaterThan(rows, end))[d] == if d > end then DateCount(rows, d) else 0
  {
    if rows != [] {
      LaterThanCounts(rows[..|rows| - 1], end, d);
    }
  }

  /** A symbol's new dates: in order, each as often as it has rows. */
  lemma UpdateDatesCount(rows: seq<Row>, end: int, d: int)
    ensures multiset(UpdateDates(rows, end))[d] == if d > end then DateCount(rows, d) else 0
    ensures forall i, j :: 0 <= i < j < |UpdateDates(rows, end)| ==>
              UpdateDates(rows, end)[i] <= UpdateDates(rows, end)[j]
  {
    LaterThanCounts(rows, end, d);
    SortedListSorts(LaterThan(rows, end));
  }

  /** Some incoming frame with rows has the column, and it is dumped. */
  ghost predicate Incoming(c: Config, inc: Source, f: string) {
    (exists s :: Live(inc, s) && f in inc[s].columns)
    && if c.includeFields == {} then f !in c.excludeFields else f in c.includeFields
  }

  lemma UnionIsIncoming(c: Config, inc: Source, f: string)
    ensures f in Fields(c, UnionColumns(inc)) <==> Incoming(c, inc, f)
  {
  }

  /** The calendar grows by the incoming dates after its end. */
  lemma UpdateCalendarIs(c: Config, d: Disk, inc: Source)
    requires CanUpdate(d, inc) && Increasing(d.calendar)
    ensures var e := DumpUpdateSpec(c, d, inc).calendar;
            && d.calendar <= e && Increasing(e)
            && forall x :: x in e <==>
                 (x in d.calendar
                  || (x > d.calendar[|d.calendar| - 1] && exists s :: s in inc && HasDate(inc[s].rows, x)))
  {
    DatesOfSource(inc);
    var later := LaterDays(d.calendar, inc);
    IncreasingConcat(d.calendar, later);
    assert forall x :: x in d.calendar + later <==> x in d.calendar || x in later;
  }

  /** Starts stay; the end becomes the last incoming date when that is later; new symbols get their range. */
  lemma UpdateRanges(c: Config, d: Disk, inc: Source, s: string)
    requires CanUpdate(d, inc)
    ensures var e := DumpUpdateSpec(c, d, inc).instruments;
            && (s in e <==> s in d.instruments || Live(inc, s))
            && (s in d.instruments ==>
                  e[s] == if Live(inc, s) && MaxDate(inc[s].rows) > d.instruments[s].end
                          then d.instruments[s].(end := MaxDate(inc[s].rows)) else d.instruments[s])
            && (s !in d.instruments && Live(inc, s) ==> SpanIs(inc[s].rows, e[s]))
  {
    hide DumpUpdateSpec, MinDate, MaxDate, UpdateDates, SpanIs;
    UpdateHas(c, d, inc, s, "");
    if Live(inc, s) {
      SpanOfIs(inc[s].rows);
      if s in d.instruments {
        UpdatesIffLater(inc[s].rows, d.instruments[s].end);
      }
    }
  }

  /** The days for which an update appends cells to a file of this symbol. */
  ghost function OwnNewDays(d: Disk, inc: Source, s: string): seq<int>
    requires d.calendar != [] && Live(inc, s)
  {
    if s in d.instruments then UpdateDates(inc[s].rows, d.instruments[s].end)
    else Days(inc[s].rows, NewCalendar(d.calendar, inc))
  }

  lemma TouchedFiles(c: Config, d: Disk, inc: Source, s: string, f: string)
    requires CanUpdate(d, inc)
    ensures Touches(c, d, inc, s, f) <==> Live(inc, s) && OwnNewDays(d, inc, s) != [] && Incoming(c, inc, f)
    ensures Touches(c, d, inc, s, f) ==> Days(inc[s].rows, UpdateCalendar(d, inc, s)) == OwnNewDays(d, inc, s)
  {
    hide MinDate, MaxDate, UpdateDates, Fields, UnionColumns, NewCalendar;
    UnionIsIncoming(c, inc, f);
    if Live(inc, s) && s in d.instruments {
      OwnDays(inc[s].rows, d.instruments[s].end);
    }
  }

  /** An existing file is extended by the cells of the symbol's new days, in order; all other old files stay. */
  lemma UpdateExtends(c: Config, d: Disk, inc: Source, k: Key)
    requires CanUpdate(d, inc) && k in d.files
    ensures var e := DumpUpdateSpec(c, d, inc).files;
            && k in e
            && e[k] == if Live(inc, k.symbol) && Incoming(c, inc, k.field)
                       then d.files[k] + Column(c, inc[k.symbol].rows, OwnNewDays(d, inc, k.symbol), k.field)
                       else d.files[k]
  {
    hide DumpUpdateSpec, Touches, Incoming, OwnNewDays, UpdateCalendar, UnionColumns, Column, Days;
    UpdateAt(c, d, inc, k.symbol, k.field);
    TouchedFiles(c, d, inc, k.symbol, k.field);
    ColumnOfNoDays(c, if Live(inc, k.symbol) then inc[k.symbol].rows else [], k.field);
  }

  /** New files are those of the dumped incoming columns of symbols with new days. */
  lemma UpdateCreates(c: Config, d: Disk, inc: Source, k: Key)
    requires CanUpdate(d, inc) && k !in d.files
    ensures k in DumpUpdateSpec(c, d, inc).files
       <==> Live(inc, k.symbol) && OwnNewDays(d, inc, k.symbol) != [] && Incoming(c, inc, k.field)
  {
    hide DumpUpdateSpec, Touches, Incoming, OwnNewDays, UpdateCalendar, UnionColumns;
    UpdateHas(c, d, inc, k.symbol, k.field);
    TouchedFiles(c, d, inc, k.symbol, k.field);
  }

  /** Without a stored calendar, or without a single incoming row, nothing changes. */
  lemma UpdateRefused(c: Config, d: Disk, inc: Source)
    requires d.calendar == [] || forall s :: !Live(inc, s)
    ensures DumpUpdateSpec(c, d, inc) == d
  {
    assert forall s :: s in inc ==> (Live(inc, s) <==> inc[s].rows != []);
  }

  /** A new symbol without files reads as its rows say, against the new calendar. */
  lemma UpdateOfNewReads(c: Config, d: Disk, inc: Source, s: string, f: string, p: nat)
    requires CanUpdate(d, inc) && Increasing(d.calendar) && ExactIndices(c)
    requires Live(inc, s) && s !in d.instruments && Incoming(c, inc, f) && Key(s, f) !in d.files
    requires exists x :: x in NewCalendar(d.calendar, inc) && MinDate(inc[s].rows) <= x <= MaxDate(inc[s].rows)
    requires |NewCalendar(d.calendar, inc)| <= 0x100_0000 && p < |NewCalendar(d.calendar, inc)|
    ensures Says(c, inc[s].rows, NewCalendar(d.calendar, inc)[p], f, ReadAt(DumpUpdateSpec(c, d, inc), s, f, p))
  {
    hide DumpUpdateSpec, Incoming, UnionColumns, Decode, Encode, Says, Expected, MinDate, MaxDate, Fields;
    UpdateCalendarIs(c, d, inc);
    UpdateHas(c, d, inc, s, f);
    hide NewCalendar;
    TouchedFiles(c, d, inc, s, f);
    UpdateAt(c, d, inc, s, f);
    EncodedReads(c, Group(inc, s), NewCalendar(d.calendar, inc), f, p);
    ExpectedSays(c, inc[s].rows, NewCalendar(d.calendar, inc)[p], f);
  }

  /** The cells of a column are the narrowed first values of its days. */
  lemma ColumnSays(c: Config, rows: seq<Row>, days: seq<int>, f: string, i: nat)
    requires i < |days| && HasDate(rows, days[i])
    ensures |Column(c, rows, days, f)| == |days| && Says(c, rows, days[i], f, Present(Column(c, rows, days, f)[i]))
  {
    hide MinDate, MaxDate, CellAt, Says;
    RangeOf(rows);
    InRange(rows, days[i]);
    ExpectedSays(c, rows, days[i], f);
  }
}
