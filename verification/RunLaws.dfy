/** Whole runs of the store: one full dump, then updates; and the fix dump. */
module RunLaws {
  import opened Calendar
  import opened Store
  import opened StoreLaws
  import opened UpdateLaws

  // ----- an update only adds -----

  /** Calendars and files are extended, starts stay, ends never move back. */
  ghost predicate GrowsTo(d: Disk, e: Disk) {
    && d.calendar <= e.calendar
    && (forall s :: s in d.instruments ==>
          s in e.instruments && e.instruments[s].start == d.instruments[s].start
          && d.instruments[s].end <= e.instruments[s].end)
    && (forall k :: k in d.files ==> k in e.files && d.files[k] <= e.files[k])
  }

  /** Whatever comes in, an update never rewrites what is stored. */
  lemma UpdateOnlyGrows(c: Config, d: Disk, inc: Source)
    ensures GrowsTo(d, DumpUpdateSpec(c, d, inc))
  {
    hide Updates, Writes, UnionColumns, Fields, Column, Days, UpdateCalendar, MinDate, MaxDate, UpdateDates;
    if CanUpdate(d, inc) {
      forall s | s in d.instruments
        ensures s in DumpUpdateSpec(c, d, inc).instruments
             && DumpUpdateSpec(c, d, inc).instruments[s].start == d.instruments[s].start
             && d.instruments[s].end <= DumpUpdateSpec(c, d, inc).instruments[s].end
      {
        SpanGrows(c, d, inc, s);
      }
      forall k | k in d.files
        ensures k in DumpUpdateSpec(c, d, inc).files && d.files[k] <= DumpUpdateSpec(c, d, inc).files[k]
      {
        hide DumpUpdateSpec;
        UpdateAt(c, d, inc, k.symbol, k.field);
      }
    }
  }

  lemma SpanGrows(c: Config, d: Disk, inc: Source, s: string)
    requires CanUpdate(d, inc) && s in d.instruments
    ensures s in DumpUpdateSpec(c, d, inc).instruments
    ensures DumpUpdateSpec(c, d, inc).instruments[s].start == d.instruments[s].start
    ensures d.instruments[s].end <= DumpUpdateSpec(c, d, inc).instruments[s].end
  {
    hide DumpUpdateSpec, MinDate, MaxDate, UpdateDates;
    UpdateHas(c, d, inc, s, "");
    if Live(inc, s) {
      UpdatesIffLater(inc[s].rows, d.instruments[s].end);
    }
  }

  // ----- runs -----

  /** All rows seen so far. */
  function History(hist: Source, incs: seq<Source>): Source {
    if incs == [] then hist else Merge(History(hist, incs[..|incs| - 1]), incs[|incs| - 1])
  }

  /** A full dump followed by updates. */
  function Run(c: Config, hist: Source, incs: seq<Source>): Disk {
    if incs == [] then Rebuild(c, hist) else DumpUpdateSpec(c, Run(c, hist, incs[..|incs| - 1]), incs[|incs| - 1])
  }

  /** Every update meets its preconditions against the rows seen before it. */
  ghost predicate RunOk(c: Config, hist: Source, incs: seq<Source>) {
    forall i :: 0 <= i < |incs| ==> UpdateOk(c, History(hist, incs[..i]), incs[i])
  }

  lemma RunOkPrefix(c: Config, hist: Source, incs: seq<Source>, n: nat)
    requires RunOk(c, hist, incs) && n <= |incs|
    ensures RunOk(c, hist, incs[..n])
  {
    forall i | 0 <= i < n ensures UpdateOk(c, History(hist, incs[..n][..i]), incs[..n][i]) {
      assert incs[..n][..i] == incs[..i];
    }
  }

  /** After any such run the store is what one full dump of all rows would have left, file by file. */
  lemma {:induction false} RunRefinesRebuild(c: Config, hist: Source, incs: seq<Source>)
    requires RunOk(c, hist, incs)
    ensures Run(c, hist, incs) == Rebuild(c, History(hist, incs))
  {
    if incs != [] {
      hide Rebuild, DumpUpdateSpec, UpdateOk, Merge;
      var n := |incs| - 1;
      RunOkPrefix(c, hist, incs, n);
      RunRefinesRebuild(c, hist, incs[..n]);
      UpdateRefinesRebuild(c, History(hist, incs[..n]), incs[n]);
    }
  }

  lemma GrowsTransitively(a: Disk, b: Disk, d: Disk)
    requires GrowsTo(a, b) && GrowsTo(b, d)
    ensures GrowsTo(a, d)
  {
    forall k | k in a.files ensures k in d.files && a.files[k] <= d.files[k] {
      assert a.files[k] <= b.files[k] <= d.files[k];
    }
  }

  lemma LastUpdate(c: Config, hist: Source, incs: seq<Source>)
    requires incs != []
    ensures Run(c, hist, incs) == DumpUpdateSpec(c, Run(c, hist, incs[..|incs| - 1]), incs[|incs| - 1])
  {
  }

  /** From any point of a run to any later one, with or without the preconditions. */
  lemma {:induction false} RunOnlyGrows(c: Config, hist: Source, incs: seq<Source>, i: nat)
    requires i <= |incs|
    ensures GrowsTo(Run(c, hist, incs[..i]), Run(c, hist, incs))
  {
    if i == |incs| {
      assert incs[..i] == incs;
    } else {
      LastUpdate(c, hist, incs);
      hide DumpUpdateSpec, Run, GrowsTo;
      var n := |incs| - 1;
      RunOnlyGrows(c, hist, incs[..n], i);
      assert incs[..n][..i] == incs[..i];
      UpdateOnlyGrows(c, Run(c, hist, incs[..n]), incs[n]);
      GrowsTransitively(Run(c, hist, incs[..i]), Run(c, hist, incs[..n]), Run(c, hist, incs));
    }
  }

  /**
   The store invariant at every point of a run: the calendar is strictly increasing, every header is the index of
   the instrument's start, and every file has one cell per calendar day of the instrument's range.
   */
  lemma RunInvariant(c: Config, hist: Source, incs: seq<Source>, i: nat)
    requires RunOk(c, hist, incs) && i <= |incs|
    ensures WellShaped(c, Run(c, hist, incs[..i]))
  {
    RunOkPrefix(c, hist, incs, i);
    RunRefinesRebuild(c, hist, incs[..i]);
    RebuildWellShaped(c, History(hist, incs[..i]));
  }

  /** What a reader gets after a run: the first row ever seen of each date. */
  lemma RunRoundTrip(c: Config, hist: Source, incs: seq<Source>, s: string, f: string, p: nat)
    requires RunOk(c, hist, incs)
    requires ExactIndices(c) && |FullCalendar(History(hist, incs))| <= 0x100_0000
    requires Live(History(hist, incs), s) && f in Fields(c, History(hist, incs)[s].columns)
    requires p < |FullCalendar(History(hist, incs))|
    ensures Run(c, hist, incs).calendar == FullCalendar(History(hist, incs))
    ensures ReadAt(Run(c, hist, incs), s, f, p)
         == Expected(c, History(hist, incs)[s].rows, FullCalendar(History(hist, incs))[p], f)
  {
    hide Fields, Expected, Decode;
    RunRefinesRebuild(c, hist, incs);
    FullDumpRoundTrip(c, History(hist, incs), s, f, p);
  }

  // ----- what an update does to a field it has not seen -----

  /**
   Why the field set must not change: a field that a known symbol has no file for is written from the update
   calendar's own first position, so its cells read as the first days of the whole calendar.
   */
  lemma NewFieldStartsAtZero(c: Config, d: Disk, inc: Source, s: string, f: string)
    requires CanUpdate(d, inc) && s in d.instruments && Live(inc, s)
    requires UpdateDates(inc[s].rows, d.instruments[s].end) != []
    requires f in Fields(c, UnionColumns(inc)) && Key(s, f) !in d.files
    ensures Key(s, f) in DumpUpdateSpec(c, d, inc).files
    ensures DumpUpdateSpec(c, d, inc).files[Key(s, f)]
         == [Header(c, 0)] + Column(c, inc[s].rows, UpdateDates(inc[s].rows, d.instruments[s].end), f)
  {
    hide DumpUpdateSpec, UpdateDates, Column, Fields, UnionColumns, MinDate, MaxDate;
    OwnDays(inc[s].rows, d.instruments[s].end);
    UpdateAt(c, d, inc, s, f);
  }

  // ----- fix -----

  /** Known symbols come with the rows they were dumped from, new ones with dates the calendar has. */
  ghost predicate FixOk(hist: Source, src: Source) {
    forall s :: s in src ==>
      if Live(hist, s) then src[s] == hist[s] else forall d :: d in DatesOf(src[s].rows) ==> d in FullCalendar(hist)
  }

  lemma FixedCalendar(hist: Source, src: Source)
    requires FixOk(hist, src)
    ensures FullCalendar(hist + src) == FullCalendar(hist)
  {
    forall x ensures x in AllDates(hist + src) <==> x in AllDates(hist) {
      if x in AllDates(hist) {
        var s, i :| s in hist && 0 <= i < |hist[s].rows| && hist[s].rows[i].date == x;
        assert Live(hist, s) && (hist + src)[s].rows[i].date == x;
      }
      if x in AllDates(hist + src) {
        var s, i :| s in hist + src && 0 <= i < |(hist + src)[s].rows| && (hist + src)[s].rows[i].date == x;
        if s in src {
          assert x in DatesOf(src[s].rows);
          DatesInCalendar(if Live(hist, s) then hist else map[s := src[s]], s);
        } else {
          assert hist[s].rows[i].date == x;
        }
      }
    }
    SameElements(FullCalendar(hist + src), FullCalendar(hist));
  }

  lemma FixedSpan(c: Config, hist: Source, src: Source, s: string)
    requires FixOk(hist, src)
    ensures var D, R := DumpFixSpec(c, Rebuild(c, hist), src), Rebuild(c, hist + src);
            && (s in D.instruments <==> s in R.instruments)
            && (s in D.instruments ==> D.instruments[s] == R.instruments[s])
  {
    hide Rebuild, SpanOf, FullCalendar, Fields, FreshFiles;
    RebuildHas(c, hist, s, "");
    RebuildHas(c, hist + src, s, "");
  }

  lemma FixedFile(c: Config, hist: Source, src: Source, k: Key)
    requires FixOk(hist, src)
    ensures var D, R := DumpFixSpec(c, Rebuild(c, hist), src), Rebuild(c, hist + src);
            && (k in D.files <==> k in R.files)
            && (k in D.files ==> D.files[k] == R.files[k])
  {
    hide Rebuild, SpanOf, FullCalendar, Fields, Encode, Writes, JoiningSpans;
    var s, f := k.symbol, k.field;
    FixedCalendar(hist, src);
    RebuildHas(c, hist, s, f);
    RebuildHas(c, hist + src, s, f);
    if Live(hist + src, s) {
      LiveWrites(hist + src, s);
      if f in Fields(c, (hist + src)[s].columns) {
        RebuildAt(c, hist + src, s, f);
      }
    }
    if Live(hist, s) && f in Fields(c, hist[s].columns) {
      RebuildAt(c, hist, s, f);
    }
    if s in src && !Live(src, s) {
      NoRowsNoFile(src[s], FullCalendar(hist));
    }
  }

  lemma NoRowsNoFile(t: Table, cal: seq<int>)
    requires t.rows == []
    ensures !Writes(t, cal)
  {
  }

  /** Under these conditions fixing refines a rebuild from all rows. */
  lemma FixRefinesRebuild(c: Config, hist: Source, src: Source)
    requires FixOk(hist, src)
    ensures DumpFixSpec(c, Rebuild(c, hist), src) == Rebuild(c, hist + src)
  {
    hide FullCalendar, FixOk, Spans, FreshFiles, JoiningSpans;
    var D, R := DumpFixSpec(c, Rebuild(c, hist), src), Rebuild(c, hist + src);
    FixedCalendar(hist, src);
    forall s ensures (s in D.instruments <==> s in R.instruments)
                  && (s in D.instruments ==> D.instruments[s] == R.instruments[s]) {
      FixedSpan(c, hist, src, s);
    }
    forall k ensures (k in D.files <==> k in R.files) && (k in D.files ==> D.files[k] == R.files[k]) {
      FixedFile(c, hist, src, k);
    }
    SameDisk(D, R);
  }
}
