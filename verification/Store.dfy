/**
 The columnar store: one sorted calendar, one date range per instrument, and for each instrument and field
 a file of cells whose first cell is the calendar index of the second. Functions on `Disk` values are the
 specification; the class is the dumper, which fills the store in place.
 */
module Store {
  import opened Calendar

  // ----- source data -----

  datatype Cell = NaN | Num(v: real)

  datatype Row = Row(date: int, cells: map<string, Cell>)

  /** One symbol's file: its value columns and its rows in file order. */
  datatype Table = Table(columns: set<string>, rows: seq<Row>)

  type Source = map<string, Table>

  /** `narrow` is the conversion to binary32. */
  datatype Config = Config(includeFields: set<string>, excludeFields: set<string>, narrow: real -> real)

  /** Symbols whose file has rows. */
  predicate Live(src: Source, s: string) {
    s in src && src[s].rows != []
  }

  /** The columns that are dumped: the included ones, or all but the excluded ones. */
  function Fields(c: Config, columns: set<string>): set<string> {
    if c.includeFields != {} then set f | f in c.includeFields && f in columns
    else set f | f in columns && f !in c.excludeFields
  }

  function MinDate(rows: seq<Row>): (d: int)
    requires rows != []
    ensures exists i :: 0 <= i < |rows| && rows[i].date == d
    ensures forall i :: 0 <= i < |rows| ==> d <= rows[i].date
  {
    if |rows| == 1 then rows[0].date
    else
      var m := MinDate(rows[1..]);
      assert forall i :: 1 <= i < |rows| ==> rows[i] == rows[1..][i - 1];
      if rows[0].date <= m then rows[0].date else m
  }

  function MaxDate(rows: seq<Row>): (d: int)
    requires rows != []
    ensures exists i :: 0 <= i < |rows| && rows[i].date == d
    ensures forall i :: 0 <= i < |rows| ==> rows[i].date <= d
  {
    if |rows| == 1 then rows[0].date
    else
      var m := MaxDate(rows[1..]);
      assert forall i :: 1 <= i < |rows| ==> rows[i] == rows[1..][i - 1];
      if rows[0].date >= m then rows[0].date else m
  }

  datatype Span = Span(start: int, end: int)

  function SpanOf(rows: seq<Row>): Span
    requires rows != []
  {
    Span(MinDate(rows), MaxDate(rows))
  }

  function DatesOf(rows: seq<Row>): set<int> {
    set i | 0 <= i < |rows| :: rows[i].date
  }

  function AllDates(src: Source): set<int> {
    set s, i | s in src && 0 <= i < |src[s].rows| :: src[s].rows[i].date
  }

  /** The cell of the first row of that date, once later duplicates are dropped; NaN without a row or value. */
  function CellAt(rows: seq<Row>, d: int, f: string): Cell {
    if rows == [] then NaN
    else if rows[0].date == d then (if f in rows[0].cells then rows[0].cells[f] else NaN)
    else CellAt(rows[1..], d, f)
  }

  // ----- files -----

  datatype Key = Key(symbol: string, field: string)

  datatype Disk = Disk(calendar: seq<int>, instruments: map<string, Span>, files: map<Key, seq<Cell>>)

  const EMPTY: Disk := Disk([], map[], map[])

  function Narrowed(c: Config, x: Cell): Cell {
    match x
    case NaN => NaN
    case Num(v) => Num(c.narrow(v))
  }

  function Header(c: Config, index: nat): Cell {
    Num(c.narrow(index as real))
  }

  /** The rows reindexed to the given days. */
  function Column(c: Config, rows: seq<Row>, days: seq<int>, f: string): seq<Cell> {
    seq(|days|, i requires 0 <= i < |days| => Narrowed(c, CellAt(rows, days[i], f)))
  }

  /** The calendar days between the first and the last date of the rows. */
  function Days(rows: seq<Row>, cal: seq<int>): seq<int>
    requires rows != []
  {
    Between(cal, MinDate(rows), MaxDate(rows))
  }

  function Encode(c: Config, t: Table, cal: seq<int>, f: string): seq<Cell>
    requires t.rows != [] && Days(t.rows, cal) != []
  {
    var days := Days(t.rows, cal);
    [Header(c, IndexOf(cal, days[0]))] + Column(c, t.rows, days, f)
  }

  /** Whether dumping these rows against this calendar writes anything. */
  predicate Writes(t: Table, cal: seq<int>) {
    t.rows != [] && Days(t.rows, cal) != []
  }

  /** The field file after one symbol's dump: appended to when updating an existing file, else written anew. */
  function FileFor(c: Config, files: map<Key, seq<Cell>>, s: string, t: Table, cal: seq<int>, append: bool, f: string)
    : seq<Cell>
    requires Writes(t, cal)
  {
    if append && Key(s, f) in files then files[Key(s, f)] + Column(c, t.rows, Days(t.rows, cal), f)
    else Encode(c, t, cal, f)
  }

  /** One symbol's field files after its dump, for some of its fields. */
  function FilesFor(c: Config, files: map<Key, seq<Cell>>, s: string, t: Table, cal: seq<int>, append: bool,
                    fs: set<string>)
    : map<Key, seq<Cell>>
    requires Writes(t, cal)
  {
    map f | f in fs :: Key(s, f) := FileFor(c, files, s, t, cal, append, f)
  }

  /** The store's files after one symbol's dump. */
  function Written(c: Config, files: map<Key, seq<Cell>>, s: string, t: Table, cal: seq<int>, append: bool)
    : map<Key, seq<Cell>>
  {
    if Writes(t, cal) then files + FilesFor(c, files, s, t, cal, append, Fields(c, t.columns)) else files
  }

  // ----- full dump -----

  function Spans(src: Source): map<string, Span> {
    map s | s in src && src[s].rows != [] :: SpanOf(src[s].rows)
  }

  function FullCalendar(src: Source): seq<int> {
    Sorted(AllDates(src))
  }

  /** The files of some of the source's symbols, written anew against `cal`. */
  function FreshFiles(c: Config, src: Source, cal: seq<int>, symbols: set<string>): map<Key, seq<Cell>> {
    map s, f | s in src && s in symbols && Writes(src[s], cal) && f in Fields(c, src[s].columns) ::
      Key(s, f) := Encode(c, src[s], cal, f)
  }

  /** `dump_all` over whatever the disk held. */
  function DumpAllSpec(c: Config, d: Disk, src: Source): Disk {
    var cal := FullCalendar(src);
    Disk(cal, Spans(src), d.files + FreshFiles(c, src, cal, src.Keys))
  }

  /** A store built from nothing. */
  function Rebuild(c: Config, src: Source): Disk {
    DumpAllSpec(c, EMPTY, src)
  }

  // ----- fix -----

  /** The ranges of the symbols that are not in the instruments table yet. */
  function JoiningSpans(known: map<string, Span>, src: Source, symbols: set<string>): map<string, Span> {
    map s | s in src && s in symbols && src[s].rows != [] && s !in known :: SpanOf(src[s].rows)
  }

  /** `dump_fix`: the calendar stays, new symbols join the table, every file of the source is rewritten. */
  function DumpFixSpec(c: Config, d: Disk, src: Source): Disk {
    Disk(d.calendar,
         d.instruments + JoiningSpans(d.instruments, src, src.Keys),
         d.files + FreshFiles(c, src, d.calendar, src.Keys))
  }

  // ----- update -----

  /** The columns of the concatenated incoming frames. */
  function UnionColumns(inc: Source): set<string> {
    set s, f | s in inc && inc[s].rows != [] && f in inc[s].columns :: f
  }

  /** What an incoming symbol's group of the concatenated frame looks like. */
  function Group(inc: Source, s: string): Table
    requires s in inc
  {
    Table(UnionColumns(inc), inc[s].rows)
  }

  function LaterThan(rows: seq<Row>, end: int): seq<int> {
    if rows == [] then []
    else
      var init, x := LaterThan(rows[..|rows| - 1], end), rows[|rows| - 1].date;
      if x > end then init + [x] else init
  }

  /** The symbol's own dates after its recorded end, sorted. */
  function UpdateDates(rows: seq<Row>, end: int): seq<int> {
    SortedList(LaterThan(rows, end))
  }

  function Last(cal: seq<int>): int
    requires cal != []
  {
    cal[|cal| - 1]
  }

  function NewCalendar(cal: seq<int>, inc: Source): seq<int>
    requires cal != []
  {
    cal + Sorted(set x | x in AllDates(inc) && x > Last(cal))
  }

  /** A known symbol with nothing after its recorded end is left alone. */
  predicate Updates(d: Disk, inc: Source, s: string) {
    Live(inc, s) && (s in d.instruments ==> UpdateDates(inc[s].rows, d.instruments[s].end) != [])
  }

  /** A known symbol is dumped against its own new dates, a new one against the new calendar. */
  function UpdateCalendar(d: Disk, inc: Source, s: string): seq<int>
    requires d.calendar != [] && s in inc
  {
    if s in d.instruments then UpdateDates(inc[s].rows, d.instruments[s].end) else NewCalendar(d.calendar, inc)
  }

  function UpdatedSpan(d: Disk, inc: Source, s: string): Span
    requires Live(inc, s)
  {
    Span(if s in d.instruments then d.instruments[s].start else MinDate(inc[s].rows), MaxDate(inc[s].rows))
  }

  /** The instrument entries and the files that the update of some of the symbols produces. */
  function UpdatedSpans(d: Disk, inc: Source, symbols: set<string>): map<string, Span> {
    map s | s in inc && s in symbols && Updates(d, inc, s) :: UpdatedSpan(d, inc, s)
  }

  function UpdatedFiles(c: Config, d: Disk, inc: Source, symbols: set<string>): map<Key, seq<Cell>>
    requires d.calendar != []
  {
    map s, f | s in inc && s in symbols && Updates(d, inc, s) && Writes(Group(inc, s), UpdateCalendar(d, inc, s))
               && f in Fields(c, UnionColumns(inc)) ::
      Key(s, f) := FileFor(c, d.files, s, Group(inc, s), UpdateCalendar(d, inc, s), true, f)
  }

  /** Without a stored calendar or without incoming rows the constructor raises before anything is written. */
  predicate CanUpdate(d: Disk, inc: Source) {
    d.calendar != [] && exists s | s in inc :: inc[s].rows != []
  }

  /** `dump_update`. */
  function DumpUpdateSpec(c: Config, d: Disk, inc: Source): Disk {
    if !CanUpdate(d, inc) then d
    else
      Disk(NewCalendar(d.calendar, inc),
           d.instruments + UpdatedSpans(d, inc, inc.Keys),
           d.files + UpdatedFiles(c, d, inc, inc.Keys))
  }

  // ----- the dumper -----

  lemma PickSome(s: set<string>)
    ensures s == {} || exists x :: x in s
  {
    if !exists x :: x in s {
      assert s == {};
    }
  }

  class Dumper {
    const c: Config

    // the store directory
    var calendar: seq<int>
    var instruments: map<string, Span>
    var files: map<Key, seq<Cell>>

    // working state
    var calendarsList: seq<int>
    var allDates: set<int>
    var dateRanges: map<string, Span>
    var updateInstruments: map<string, Span>

    ghost function OnDisk(): Disk
      reads this
    {
      Disk(calendar, instruments, files)
    }

    constructor (c: Config)
      ensures this.c == c && OnDisk() == EMPTY
    {
      this.c := c;
      calendar, instruments, files := [], map[], map[];
      calendarsList, allDates, dateRanges, updateInstruments := [], {}, map[], map[];
    }

    /** Writes one file per dumped field, in any order. */
    method DataToBin(s: string, t: Table, cal: seq<int>, append: bool)
      requires t.rows != []
      modifies this`files
      ensures files == Written(c, old(files), s, t, cal, append)
    {
      if cal == [] {
        return;
      }
      var days := Days(t.rows, cal);
      if days == [] {
        return;
      }
      var index := IndexOf(cal, days[0]);
      ghost var before := files;
      ghost var done: set<string> := {};
      var rest := Fields(c, t.columns);
      while rest != {}
        invariant done + rest == Fields(c, t.columns) && done !! rest
        invariant files == before + FilesFor(c, before, s, t, cal, append, done)
        decreases rest
      {
        PickSome(rest);
        var f :| f in rest;
        var column := Column(c, t.rows, days, f);
        if append && Key(s, f) in files {
          files := files[Key(s, f) := files[Key(s, f)] + column];
        } else {
          files := files[Key(s, f) := [Header(c, index)] + column];
        }
        OneMoreField(c, before, s, t, cal, append, done, f);
        done, rest := done + {f}, rest - {f};
      }
      assert done == Fields(c, t.columns);
    }

    method DumpBin(s: string, t: Table, cal: seq<int>, append: bool)
      modifies this`files
      ensures files == Written(c, old(files), s, t, cal, append)
    {
      if cal == [] || t.rows == [] {
        return;
      }
      DataToBin(s, t, cal, append);
    }

    method GetAllDate(src: Source)
      modifies this`allDates, this`dateRanges
      ensures allDates == AllDates(src) && dateRanges == Spans(src)
    {
      allDates, dateRanges := {}, map[];
      ghost var done: set<string> := {};
      var rest := src.Keys;
      while rest != {}
        invariant done + rest == src.Keys && done !! rest
        invariant allDates == AllDates(Only(src, done))
        invariant dateRanges == Spans(Only(src, done))
        decreases rest
      {
        PickSome(rest);
        var s :| s in rest;
        OneMoreSymbol(src, done, s);
        allDates := allDates + DatesOf(src[s].rows);
        if src[s].rows != [] {
          dateRanges := dateRanges[s := SpanOf(src[s].rows)];
        }
        done, rest := done + {s}, rest - {s};
      }
      assert Only(src, done) == src;
    }

    method DumpFeatures(src: Source)
      modifies this`files
      ensures files == old(files) + FreshFiles(c, src, calendarsList, src.Keys)
    {
      ghost var before := files;
      ghost var done: set<string> := {};
      var rest := src.Keys;
      while rest != {}
        invariant done + rest == src.Keys && done !! rest
        invariant files == before + FreshFiles(c, src, calendarsList, done)
        decreases rest
      {
        PickSome(rest);
        var s :| s in rest;
        FreshFilesGrow(c, before, src, calendarsList, done, s);
        DumpBin(s, src[s], calendarsList, false);
        done, rest := done + {s}, rest - {s};
      }
      assert done == src.Keys;
    }

    method DumpAll(src: Source)
      modifies this
      ensures OnDisk() == DumpAllSpec(c, old(OnDisk()), src)
    {
      GetAllDate(src);
      calendarsList := Sorted(allDates);
      calendar := calendarsList;
      instruments := dateRanges;
      DumpFeatures(src);
    }

    /** New symbols join the instruments that were read back; known ones keep their range. */
    method FixInstruments(src: Source)
      modifies this`instruments
      ensures instruments == old(instruments) + JoiningSpans(old(instruments), src, src.Keys)
    {
      ghost var before := instruments;
      ghost var done: set<string> := {};
      var rest := src.Keys;
      while rest != {}
        invariant done + rest == src.Keys && done !! rest
        invariant instruments == before + JoiningSpans(before, src, done)
        decreases rest
      {
        PickSome(rest);
        var s :| s in rest;
        hide JoiningSpans;
        JoiningSpansGrow(before, src, done, s);
        if s !in instruments && src[s].rows != [] {
          instruments := instruments[s := SpanOf(src[s].rows)];
        }
        done, rest := done + {s}, rest - {s};
      }
      assert done == src.Keys;
    }

    method DumpFix(src: Source)
      modifies this
      ensures OnDisk() == DumpFixSpec(c, old(OnDisk()), src)
    {
      calendarsList := calendar;
      FixInstruments(src);
      DumpFeatures(src);
    }

    /** The update proper: each incoming symbol's range first, then its files. */
    method UpdateFeatures(inc: Source, newCalendar: seq<int>)
      requires CanUpdate(OnDisk(), inc)
      requires newCalendar == NewCalendar(calendar, inc)
      modifies this`files, this`updateInstruments
      ensures updateInstruments == instruments + UpdatedSpans(OnDisk().(files := old(files)), inc, inc.Keys)
      ensures files == old(files) + UpdatedFiles(c, OnDisk().(files := old(files)), inc, inc.Keys)
    {
      hide UpdatedSpans, UpdatedFiles, Written, UpdateDates, MinDate, MaxDate, NewCalendar, UnionColumns;
      ghost var d := OnDisk();
      UpdateNothing(c, d, inc);
      updateInstruments := instruments;
      ghost var done: set<string> := {};
      var rest := inc.Keys;
      while rest != {}
        invariant done + rest == inc.Keys && done !! rest
        invariant updateInstruments == instruments + UpdatedSpans(d, inc, done)
        invariant files == d.files + UpdatedFiles(c, d, inc, done)
        decreases rest
      {
        PickSome(rest);
        var s :| s in rest;
        UpdatedSpansGrow(d, inc, done, s);
        UpdatedFilesGrow(c, d, inc, done, s);
        if inc[s].rows != [] {
          var known := s in updateInstruments;
          var own := if known then UpdateDates(inc[s].rows, updateInstruments[s].end) else newCalendar;
          if !known || own != [] {
            updateInstruments := updateInstruments[s :=
              Span(if known then updateInstruments[s].start else MinDate(inc[s].rows), MaxDate(inc[s].rows))];
            DumpBin(s, Group(inc, s), own, true);
          }
        }
        done, rest := done + {s}, rest - {s};
      }
      assert done == inc.Keys;
    }

    method DumpUpdate(inc: Source) returns (ok: bool)
      modifies this
      ensures ok == CanUpdate(old(OnDisk()), inc)
      ensures OnDisk() == DumpUpdateSpec(c, old(OnDisk()), inc)
    {
      ok := calendar != [] && exists s | s in inc :: inc[s].rows != [];
      if !ok {
        return;
      }
      var newCalendar := NewCalendar(calendar, inc);
      UpdateFeatures(inc, newCalendar);
      calendar := newCalendar;
      instruments := updateInstruments;
    }
  }

  // ----- steps of the dumper's loops -----

  /** The part of a source that holds the given symbols. */
  ghost function Only(src: Source, symbols: set<string>): Source {
    map s | s in src && s in symbols :: src[s]
  }

  lemma OneMoreField(c: Config, before: map<Key, seq<Cell>>, s: string, t: Table, cal: seq<int>, append: bool,
                     done: set<string>, f: string)
    requires Writes(t, cal) && f !in done
    ensures Key(s, f) in before + FilesFor(c, before, s, t, cal, append, done) <==> Key(s, f) in before
    ensures Key(s, f) in before ==>
              (before + FilesFor(c, before, s, t, cal, append, done))[Key(s, f)] == before[Key(s, f)]
    ensures before + FilesFor(c, before, s, t, cal, append, done + {f})
         == (before + FilesFor(c, before, s, t, cal, append, done))
            [Key(s, f) := FileFor(c, before, s, t, cal, append, f)]
  {
  }

  lemma OneMoreSymbol(src: Source, done: set<string>, s: string)
    requires s in src && s !in done
    ensures AllDates(Only(src, done + {s})) == AllDates(Only(src, done)) + DatesOf(src[s].rows)
    ensures Spans(Only(src, done + {s}))
         == if src[s].rows == [] then Spans(Only(src, done))
            else Spans(Only(src, done))[s := SpanOf(src[s].rows)]
  {
    var a, b := Only(src, done), Only(src, done + {s});
    forall x ensures x in AllDates(b) <==> x in AllDates(a) || x in DatesOf(src[s].rows) {
      if x in AllDates(a) {
        var q, i :| q in a && 0 <= i < |a[q].rows| && a[q].rows[i].date == x;
        assert q in b && b[q].rows[i].date == x;
      }
      if x in DatesOf(src[s].rows) {
        var i :| 0 <= i < |src[s].rows| && src[s].rows[i].date == x;
        assert s in b && b[s].rows[i].date == x;
      }
      if x in AllDates(b) {
        var q, i :| q in b && 0 <= i < |b[q].rows| && b[q].rows[i].date == x;
        if q != s {
          assert q in a && a[q].rows[i].date == x;
        }
      }
    }
  }

  lemma FreshFilesGrow(c: Config, before: map<Key, seq<Cell>>, src: Source, cal: seq<int>, done: set<string>, s: string)
    requires s in src && s !in done
    ensures before + FreshFiles(c, src, cal, done + {s})
         == Written(c, before + FreshFiles(c, src, cal, done), s, src[s], cal, false)
  {
    hide Encode, Fields, Days;
    var a, b := FreshFiles(c, src, cal, done), FreshFiles(c, src, cal, done + {s});
    if Writes(src[s], cal) {
      var own := FilesFor(c, before + a, s, src[s], cal, false, Fields(c, src[s].columns));
      assert b == a + own;
      assert before + b == before + a + own;
    } else {
      assert b == a;
    }
  }

  lemma UpdateNothing(c: Config, d: Disk, inc: Source)
    requires d.calendar != []
    ensures d.instruments + UpdatedSpans(d, inc, {}) == d.instruments
    ensures d.files + UpdatedFiles(c, d, inc, {}) == d.files
  {
    assert UpdatedSpans(d, inc, {}) == map[] && UpdatedFiles(c, d, inc, {}) == map[];
  }

  lemma UpdatedSpansGrow(d: Disk, inc: Source, done: set<string>, s: string)
    requires s in inc && s !in done
    ensures s in d.instruments + UpdatedSpans(d, inc, done) <==> s in d.instruments
    ensures s in d.instruments ==> (d.instruments + UpdatedSpans(d, inc, done))[s] == d.instruments[s]
    ensures d.instruments + UpdatedSpans(d, inc, done + {s})
         == if Updates(d, inc, s) then (d.instruments + UpdatedSpans(d, inc, done))[s := UpdatedSpan(d, inc, s)]
            else d.instruments + UpdatedSpans(d, inc, done)
  {
    hide UpdatedSpan;
    var a, b := UpdatedSpans(d, inc, done), UpdatedSpans(d, inc, done + {s});
    if Updates(d, inc, s) {
      assert b == a[s := UpdatedSpan(d, inc, s)];
    } else {
      assert b == a;
    }
  }

  lemma JoiningSpansGrow(known: map<string, Span>, src: Source, done: set<string>, s: string)
    requires s in src && s !in done
    ensures s in known + JoiningSpans(known, src, done) <==> s in known
    ensures known + JoiningSpans(known, src, done + {s})
         == if s !in known && src[s].rows != [] then (known + JoiningSpans(known, src, done))[s := SpanOf(src[s].rows)]
            else known + JoiningSpans(known, src, done)
  {
    hide SpanOf;
    var a, b := JoiningSpans(known, src, done), JoiningSpans(known, src, done + {s});
    if s !in known && src[s].rows != [] {
      assert b == a[s := SpanOf(src[s].rows)];
      assert known + b == (known + a)[s := SpanOf(src[s].rows)];
    } else {
      assert b == a;
    }
  }

  /** A symbol's files depend on its own old files only. */
  lemma OwnFilesOnly(c: Config, files: map<Key, seq<Cell>>, others: map<Key, seq<Cell>>, s: string, t: Table,
                     cal: seq<int>, fs: set<string>)
    requires Writes(t, cal) && forall f :: Key(s, f) !in others
    ensures FilesFor(c, files + others, s, t, cal, true, fs) == FilesFor(c, files, s, t, cal, true, fs)
  {
  }

  lemma UpdatedFilesStep(c: Config, d: Disk, inc: Source, done: set<string>, s: string, t: Table, cal: seq<int>)
    requires d.calendar != [] && s in inc && s !in done
    requires t == Group(inc, s) && cal == UpdateCalendar(d, inc, s)
    ensures forall f :: Key(s, f) !in UpdatedFiles(c, d, inc, done)
    ensures UpdatedFiles(c, d, inc, done + {s})
         == if Updates(d, inc, s) && Writes(t, cal)
            then UpdatedFiles(c, d, inc, done) + FilesFor(c, d.files, s, t, cal, true, Fields(c, t.columns))
            else UpdatedFiles(c, d, inc, done)
  {
    hide FileFor, Fields, UpdateCalendar, UnionColumns, Updates, Writes;
  }

  lemma UnionAssociates<K, V>(a: map<K, V>, b: map<K, V>, c: map<K, V>)
    ensures a + (b + c) == a + b + c
  {
  }

  lemma UpdatedFilesGrow(c: Config, d: Disk, inc: Source, done: set<string>, s: string)
    requires d.calendar != [] && s in inc && s !in done
    ensures d.files + UpdatedFiles(c, d, inc, done + {s})
         == if Updates(d, inc, s)
            then Written(c, d.files + UpdatedFiles(c, d, inc, done), s, Group(inc, s), UpdateCalendar(d, inc, s), true)
            else d.files + UpdatedFiles(c, d, inc, done)
  {
    hide FileFor, FilesFor, Fields, UpdateCalendar, UpdatedFiles, UnionColumns, Updates, Writes;
    var t, cal := Group(inc, s), UpdateCalendar(d, inc, s);
    UpdatedFilesStep(c, d, inc, done, s, t, cal);
    if Updates(d, inc, s) && Writes(t, cal) {
      var fs := Fields(c, t.columns);
      OwnFilesOnly(c, d.files, UpdatedFiles(c, d, inc, done), s, t, cal, fs);
      UnionAssociates(d.files, UpdatedFiles(c, d, inc, done), FilesFor(c, d.files, s, t, cal, true, fs));
    }
  }
}
