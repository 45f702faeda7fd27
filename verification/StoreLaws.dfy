/**
 What a reader of the store gets back: the full dump decodes to its source, and the incremental update
 leaves exactly the files a rebuild from all rows would.
 */
module StoreLaws {
  import opened Calendar
  import opened Store

  // ----- reading a file -----

  datatype Reading = Absent | Present(cell: Cell)

  /** Calendar position p is cell `1 + p - header`. */
  function Decode(file: seq<Cell>, p: nat): Reading {
    if file == [] || !file[0].Num? then Absent
    else
      var h := file[0].v.Floor;
      if h <= p < h + |file| - 1 then Present(file[1 + p - h]) else Absent
  }

  /** The cell of one symbol and field at one calendar position, if the store has it. */
  function ReadAt(d: Disk, s: string, f: string, p: nat): Reading {
    if Key(s, f) in d.files then Decode(d.files[Key(s, f)], p) else Absent
  }

  /** binary32 holds every index up to 2^24 exactly. */
  ghost predicate ExactIndices(c: Config) {
    forall i: nat :: i <= 0x100_0000 ==> Header(c, i) == Num(i as real)
  }

  /** The first row of that date, NaN inside the range without one, nothing outside the range. */
  function Expected(c: Config, rows: seq<Row>, d: int, f: string): Reading
    requires rows != []
  {
    if MinDate(rows) <= d <= MaxDate(rows) then Present(Narrowed(c, CellAt(rows, d, f))) else Absent
  }

  // ----- rows -----

  /** `i` is the first row of its date. */
  ghost predicate FirstOfDate(rows: seq<Row>, i: nat, d: int) {
    i < |rows| && rows[i].date == d && forall j :: 0 <= j < i ==> rows[j].date != d
  }

  /** `CellAt` is the first row of that date. */
  lemma {:induction false} CellAtIsFirst(rows: seq<Row>, d: int, f: string, i: nat)
    requires FirstOfDate(rows, i, d)
    ensures CellAt(rows, d, f) == if f in rows[i].cells then rows[i].cells[f] else NaN
  {
    if i > 0 {
      assert rows[1..][i - 1] == rows[i];
      assert FirstOfDate(rows[1..], i - 1, d);
      CellAtIsFirst(rows[1..], d, f, i - 1);
    }
  }

  lemma {:induction false} CellAtMissing(rows: seq<Row>, d: int, f: string)
    requires forall i :: 0 <= i < |rows| ==> rows[i].date != d
    ensures CellAt(rows, d, f) == NaN
  {
    if rows != [] {
      CellAtMissing(rows[1..], d, f);
    }
  }

  lemma {:induction false} CellAtConcat(a: seq<Row>, b: seq<Row>, d: int, f: string)
    ensures CellAt(a + b, d, f) == if d in DatesOf(a) then CellAt(a, d, f) else CellAt(b, d, f)
  {
    if a == [] {
      assert a + b == b;
    } else {
      assert (a + b)[1..] == a[1..] + b;
      CellAtConcat(a[1..], b, d, f);
      if d in DatesOf(a) && a[0].date != d {
        var i :| 0 <= i < |a| && a[i].date == d;
        assert a[1..][i - 1] == a[i];
      }
      if d in DatesOf(a[1..]) {
        var i :| 0 <= i < |a[1..]| && a[1..][i].date == d;
        assert a[i + 1].date == d;
      }
    }
  }

  lemma DatesConcat(a: seq<Row>, b: seq<Row>)
    ensures DatesOf(a + b) == DatesOf(a) + DatesOf(b)
  {
    forall x ensures x in DatesOf(a + b) <==> x in DatesOf(a) || x in DatesOf(b) {
      if x in DatesOf(a) {
        var i :| 0 <= i < |a| && a[i].date == x;
        assert (a + b)[i].date == x;
      }
      if x in DatesOf(b) {
        var i :| 0 <= i < |b| && b[i].date == x;
        assert (a + b)[|a| + i].date == x;
      }
    }
  }

  /** The range of rows is the least and the greatest of their dates. */
  lemma RangeOf(rows: seq<Row>)
    requires rows != []
    ensures MinDate(rows) in DatesOf(rows) && MaxDate(rows) in DatesOf(rows)
    ensures forall d :: d in DatesOf(rows) ==> MinDate(rows) <= d <= MaxDate(rows)
  {
  }

  lemma SameRange(a: seq<Row>, lo: int, hi: int)
    requires a != [] && lo in DatesOf(a) && hi in DatesOf(a)
    requires forall d :: d in DatesOf(a) ==> lo <= d <= hi
    ensures MinDate(a) == lo && MaxDate(a) == hi
  {
    RangeOf(a);
  }

  // ----- the full dump -----

  lemma DatesInCalendar(src: Source, s: string)
    requires s in src
    ensures forall d :: d in DatesOf(src[s].rows) ==> d in FullCalendar(src)
    ensures Increasing(FullCalendar(src))
  {
    forall d | d in DatesOf(src[s].rows) ensures d in AllDates(src) {
      var i :| 0 <= i < |src[s].rows| && src[s].rows[i].date == d;
    }
  }

  /** The rows of a symbol cover a contiguous slice of the calendar. */
  lemma DaysAreSlice(rows: seq<Row>, cal: seq<int>)
    requires rows != [] && Increasing(cal) && MinDate(rows) in cal && MaxDate(rows) in cal
    ensures var i, j := IndexOf(cal, MinDate(rows)), IndexOf(cal, MaxDate(rows));
            i <= j && Days(rows, cal) == cal[i..j + 1] && Days(rows, cal)[0] == MinDate(rows)
  {
    RangeOf(rows);
    BetweenIsSlice(cal, MinDate(rows), MaxDate(rows));
  }

  lemma EncodedShape(c: Config, t: Table, cal: seq<int>, f: string)
    requires t.rows != [] && Increasing(cal) && MinDate(t.rows) in cal && MaxDate(t.rows) in cal
    ensures Writes(t, cal)
    ensures IndexOf(cal, MinDate(t.rows)) <= IndexOf(cal, MaxDate(t.rows))
    ensures Encode(c, t, cal, f)
         == [Header(c, IndexOf(cal, MinDate(t.rows)))]
          + Column(c, t.rows, cal[IndexOf(cal, MinDate(t.rows))..IndexOf(cal, MaxDate(t.rows)) + 1], f)
    ensures |Encode(c, t, cal, f)| == IndexOf(cal, MaxDate(t.rows)) - IndexOf(cal, MinDate(t.rows)) + 2
    ensures Encode(c, t, cal, f)[0] == Header(c, IndexOf(cal, MinDate(t.rows)))
  {
    hide MinDate, MaxDate, Header, Between, IndexOf, Days, Increasing, CellAt, Narrowed;
    DaysAreSlice(t.rows, cal);
  }

  lemma DecodeEncoded(c: Config, t: Table, cal: seq<int>, f: string, p: nat)
    requires t.rows != [] && Increasing(cal) && MinDate(t.rows) in cal && MaxDate(t.rows) in cal
    requires ExactIndices(c) && |cal| <= 0x100_0000 && p < |cal|
    ensures Writes(t, cal)
    ensures Decode(Encode(c, t, cal, f), p) == Expected(c, t.rows, cal[p], f)
  {
    hide Encode, Header, MinDate, MaxDate, CellAt, Days, Narrowed;
    EncodedShape(c, t, cal, f);
    var i, j := IndexOf(cal, MinDate(t.rows)), IndexOf(cal, MaxDate(t.rows));
    assert Header(c, i) == Num(i as real);
    assert (i as real).Floor == i;
    assert i <= p <= j ==> cal[i..j + 1][p - i] == cal[p];
  }

  // ----- looking up what a dump leaves -----

  lemma LiveWrites(src: Source, s: string)
    requires Live(src, s)
    ensures Writes(src[s], FullCalendar(src))
  {
    DatesInCalendar(src, s);
    RangeOf(src[s].rows);
    DaysAreSlice(src[s].rows, FullCalendar(src));
  }

  lemma RebuildHas(c: Config, src: Source, s: string, f: string)
    ensures Rebuild(c, src).calendar == FullCalendar(src)
    ensures s in Rebuild(c, src).instruments <==> Live(src, s)
    ensures Live(src, s) ==> Rebuild(c, src).instruments[s] == SpanOf(src[s].rows)
    ensures Key(s, f) in Rebuild(c, src).files <==> Live(src, s) && f in Fields(c, src[s].columns)
  {
    hide Fields, SpanOf, Writes;
    if Live(src, s) {
      LiveWrites(src, s);
    }
  }

  lemma RebuildAt(c: Config, src: Source, s: string, f: string)
    requires Live(src, s) && f in Fields(c, src[s].columns)
    ensures Writes(src[s], FullCalendar(src))
    ensures Key(s, f) in Rebuild(c, src).files
    ensures Rebuild(c, src).files[Key(s, f)] == Encode(c, src[s], FullCalendar(src), f)
  {
    hide Fields, Encode;
    LiveWrites(src, s);
  }

  /** Two stores with the same calendar, instruments and files are equal. */
  lemma SameDisk(a: Disk, b: Disk)
    requires a.calendar == b.calendar
    requires forall s :: (s in a.instruments <==> s in b.instruments)
                      && (s in a.instruments ==> a.instruments[s] == b.instruments[s])
    requires forall k :: (k in a.files <==> k in b.files) && (k in a.files ==> a.files[k] == b.files[k])
    ensures a == b
  {
    assert a.instruments == b.instruments && a.files == b.files;
  }

  /** Full dump round trip, for every live symbol, dumped field and calendar position. */
  lemma FullDumpRoundTrip(c: Config, src: Source, s: string, f: string, p: nat)
    requires ExactIndices(c) && |FullCalendar(src)| <= 0x100_0000
    requires Live(src, s) && f in Fields(c, src[s].columns) && p < |FullCalendar(src)|
    ensures Key(s, f) in Rebuild(c, src).files
    ensures Decode(Rebuild(c, src).files[Key(s, f)], p) == Expected(c, src[s].rows, FullCalendar(src)[p], f)
  {
    DatesInCalendar(src, s);
    RangeOf(src[s].rows);
    DecodeEncoded(c, src[s], FullCalendar(src), f, p);
  }

  /** The shape of every file: header at the range's start, one cell per calendar day up to its end. */
  ghost predicate WellShaped(c: Config, d: Disk) {
    && Increasing(d.calendar)
    && forall k :: k in d.files ==>
         (k.symbol in d.instruments &&
          d.instruments[k.symbol].start in d.calendar && d.instruments[k.symbol].end in d.calendar &&
          d.files[k] != [] &&
          d.files[k][0] == Header(c, IndexOf(d.calendar, d.instruments[k.symbol].start)) &&
          |d.files[k]| - 1
          == IndexOf(d.calendar, d.instruments[k.symbol].end) - IndexOf(d.calendar, d.instruments[k.symbol].start) + 1)
  }

  lemma RebuildWellShaped(c: Config, src: Source)
    ensures WellShaped(c, Rebuild(c, src))
  {
    var d := Rebuild(c, src);
    forall k | k in d.files
      ensures k.symbol in d.instruments && d.instruments[k.symbol].start in d.calendar
           && d.instruments[k.symbol].end in d.calendar
      ensures d.files[k] != [] && d.files[k][0] == Header(c, IndexOf(d.calendar, d.instruments[k.symbol].start))
      ensures |d.files[k]| - 1
           == IndexOf(d.calendar, d.instruments[k.symbol].end) - IndexOf(d.calendar, d.instruments[k.symbol].start) + 1
    {
      hide Encode, Header;
      DatesInCalendar(src, k.symbol);
      RangeOf(src[k.symbol].rows);
      EncodedShape(c, src[k.symbol], d.calendar, k.field);
    }
  }
}
