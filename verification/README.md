# nova-quant: verified models

Dafny models of four parts of nova-quant, with proofs of the properties that span their functions.

- **Signal replay** (`scripts/backtest-signal-replay.ts`). A trading signal is replayed over bars: entry inside a waiting
  window, then the walk to stop, target or time exit; trades are summarised and pass a quality gate. `Replay.dfy` has
  the specification functions and the script's loops as methods; `ReplayBounds`, `ReplayCausality` and `ReplayScaling`
  prove where fills and returns can lie, which bars an outcome depends on, and that prices have no unit;
  `ReplayReference` describes the outcome without loops and proves the replay computes it. `Returns`, `Report`,
  `ReportLaws` and `Groups` cover the summary, the gate and the aggregation. Prices keep JavaScript's non-finite values.
- **Columnar store** (`qlib-bridge/scripts/dump_bin.py`, fed by `qlib-bridge/bridge/data_sync.py`). `Store.dfy` holds
  the dumper as a class over calendar, instruments and files; `StoreLaws`, `UpdateLaws` and `RunLaws` prove the round
  trip of the full dump, that the incremental update leaves the files a rebuild would, and what whole runs keep.
  `DiskLaws` states what each dump leaves on any disk, and `UpdateExact` exactly when an update reads like a rebuild.
  `Sync` models the grouping and the files handed to the dumper. `Calendar` has the lemmas on increasing date sequences.
- **Launch command** (`scripts/auto-backend-launchd.ts`, `scripts/auto-backend.ts`). `Shell` and `Launch` model the
  printer, the shell's word splitting (sections 2.2.1, 2.2.2 and 2.3 of POSIX.1-2017, Shell Command Language) and the
  two option loops; `LaunchLaws` proves the round trip and `OptionLaws` what each option does.
- **Scheduling and supervision** (`scripts/auto-backend.ts`). `Scheduler` models the jobs of a cycle under any pattern
  of failures and the main loop; `Supervisor` models probes, pauses, dying children and terminal events as interleaved
  steps.
- **Drawdown** (`src/components/ProofTab.jsx`, `qlib-bridge/bridge/backtest_adapter.py`). `Drawdown` proves three
  computations equal to the quadratic definition.

Loops and objects of the source are methods and classes proved against specification functions; the theorems are
lemmas about those functions. Some proofs hide function bodies they do not need.

## Where the code does not do what one might expect

Each is a lemma with the exact condition or a concrete input.

- A holding window below one bar (`--max-hold-bars 0.5` is accepted) looks at no bar: the position is marked at its
  entry bar's close even below the stop (`TimeExitsInsideIffHoldsABar`).
- The gate's "negative expectancy" implies "negative compounded return" before rounding; on the rounded figures only for
  at most two trades (`ReasonsAgreeUpToTwoTrades`). A short can lose more than its stake (`TotalLossBound`,
  `RuinedShortReplays`). With no such return or an odd number of them the implication still holds; with any even number
  there are lists that lose on average and compound to a gain (`NoGainIffNoneOrOddRuins`, `CompoundingReasonIff`).
- A chart series that starts at zero starts from a peak of one and shows a total loss (`ChartAgreesIff`).
- An update appends a symbol's own dates, so one skipped calendar day makes its files read wrongly; a field first seen
  in an update of a known symbol is filed from calendar position zero; a row that comes in late, for a day up to the
  symbol's recorded end that it had no row for, is dropped silently. `ReadAlikeIff` shows that these three are all that
  can go wrong for a known symbol, and `CalendarRefinesIff` what can for the calendar.
- A user or a trainer such as `--once` is read back and then read again as an option (`UserOnceStopsTheBackend`,
  `TrainerOnceStopsTheBackend`). `LaunchRoundTripIff` has the exact condition for any two values; they have to be judged
  together, since the trainer can put back what the user disturbed (`TrainerRestoresUser`).
- The repository is fetched before the `try`, so a cycle that cannot get it does not flush (`CycleKeeps`).
- The terminal handler clears the slot for any child's event (`TerminalSafeIff`).
- Timestamps up to 10^12 are seconds, later ones milliseconds. Rows that mix the two are moved by the date sort exactly
  when one in milliseconds is on an earlier day than one in seconds before it (`ReadOrderKeptIff`), as 10^12 + 1 is
  after the last second of the year 9999 (`SwitchMovesRows`).

## Model

| member | source | states |
|---|---|---|
| Replay.FirstTradable | scripts/backtest-signal-replay.ts:279-280 | the first bar later than the signal, all earlier bars being no later; the number of bars when there is none |
| Replay.SignalEntryZone | scripts/backtest-signal-replay.ts:215-220 | a zone exists exactly when both prices are finite and positive; it is the two prices in ascending order |
| Replay.ScanShape | scripts/backtest-signal-replay.ts:309-322 | the scan stops at the first bar that gaps or fills, and nowhere when none does |
| Replay.WalkShape | scripts/backtest-signal-replay.ts:353-378 | the walk stops at the first touched bar, else at the last one, and no bar before it touches a level |
| Replay.ScanWindow | scripts/backtest-signal-replay.ts:309-324 | the entry loop finds what the scan specification finds |
| Replay.SelectEntry | scripts/backtest-signal-replay.ts:271-325 | entry selection with all its refusals, in both entry modes, meets its specification |
| Replay.WalkToExit | scripts/backtest-signal-replay.ts:350-378 | the holding loop ends on the bar, price and reason of the walk specification |
| Replay.ReplaySignalOutcome | scripts/backtest-signal-replay.ts:327-400 | the replay returns the rounded outcome of the specification, bad prices and skips included |
| Replay.SelectionGivesOutcome | scripts/backtest-signal-replay.ts:335-399 | the outcome by index into all bars equals the outcome computed on the bars from the first tradable one |
| ReplayReference.ReplayIffOutcome | scripts/backtest-signal-replay.ts:271-400 | the outcome is the one told without loops or windows, by the first bar that decides the entry and the first that decides the exit, and no other outcome fits that description |
| ReplayReference.ReturnsSettle | scripts/backtest-signal-replay.ts:395 | in either entry mode the entry price times one plus the return is the exit price, one minus the return for a short |
| ReplayReference.PublishedIsNear | scripts/backtest-signal-replay.ts:393-396 | the published prices are within half a ten-thousandth, the return within half a millionth, and nothing else is changed |
| ReplayBounds.FillInside | scripts/backtest-signal-replay.ts:222-269 | midpoint check, gap check and clamp together put the fill strictly between stop and target, for every zone and bar |
| ReplayBounds.FillIsNearestToOpen | scripts/backtest-signal-replay.ts:258-269 | the fill is the zone price nearest to the open; no fill exactly when neither the open nor the bar reaches the zone |
| ReplayBounds.GapCheckMeansInside | scripts/backtest-signal-replay.ts:236-252 | for a sound setup the gap check passes exactly the good opens strictly between stop and target |
| ReplayBounds.EntryStrictlyInside | scripts/backtest-signal-replay.ts:291-322 | every entry-zone entry is positive and strictly between stop and target |
| ReplayBounds.EntryIsFirst | scripts/backtest-signal-replay.ts:305-322 | the entry bar is inside the window and no earlier bar of the window gapped or filled |
| ReplayBounds.ExitIsFirstTouch | scripts/backtest-signal-replay.ts:353-378 | the exit bar is the first held bar touching a level, stop preferred; a time exit means none touched and is taken on the last held bar |
| ReplayBounds.ExitWithin | scripts/backtest-signal-replay.ts:350-397 | over ordered bars stop and target exits are at their level and time exits strictly inside |
| ReplayBounds.ReturnBounds | scripts/backtest-signal-replay.ts:327-397 | stop trades attain the negative stop return, target trades the positive target return, all others lie strictly between |
| ReplayBounds.PessimisticTies | scripts/backtest-signal-replay.ts:357-375 | leaving at any level touched by the first touched bar does no worse than the replay |
| ReplayBounds.TimeExitsInsideIffHoldsABar | scripts/backtest-signal-replay.ts:350-378 | time exits of ordered bars lie strictly inside for every signal if and only if the holding window is at least one bar |
| ReplayCausality.PastIsIrrelevant | scripts/backtest-signal-replay.ts:279-324 | bars no later than the signal can be replaced, added or removed without effect |
| ReplayCausality.DecidedTail | scripts/backtest-signal-replay.ts:291-378 | past the deciding bar every continuation gives the same outcome |
| ReplayCausality.FutureIsIrrelevant | scripts/backtest-signal-replay.ts:279-378 | two bar sequences that agree up to the deciding bar give the same outcome |
| ReplayCausality.DecidedIffNoLookAhead | scripts/backtest-signal-replay.ts:279-399 | for any bars, ill-formed ones included, there is a deciding bar if and only if no continuation of any kind changes the outcome |
| ReplayCausality.DecidedIffNoRealLookAhead | scripts/backtest-signal-replay.ts:279-399 | for bars in time order with ordered positive prices, there is a deciding bar if and only if no continuation by later such bars changes the outcome |
| ReplayCausality.LongerWait | scripts/backtest-signal-replay.ts:305-324 | a longer entry wait changes no outcome but ENTRY_NOT_FILLED |
| ReplayCausality.LongerHold | scripts/backtest-signal-replay.ts:353-378 | a longer hold changes no stopped or target trade |
| ReplayScaling.ScaleScanEntry | scripts/backtest-signal-replay.ts:236-324 | the entry scan commutes with any order-preserving change of unit |
| ReplayScaling.ScaleWalkExit | scripts/backtest-signal-replay.ts:353-378 | the exit walk commutes with any order-preserving change of unit |
| ReplayScaling.ScaleInvariance | scripts/backtest-signal-replay.ts:215-397 | multiplying all prices by k > 0 leaves skips, dates, reasons and returns unchanged and multiplies entry and exit by k |
| Returns.MergeOpposites | scripts/backtest-signal-replay.ts:436 | booking a gain and a loss as their sum keeps the sum and does not lower the compounded growth |
| Returns.NoGainOnAverageNoGainCompounded | scripts/backtest-signal-replay.ts:97-99 | returns of at least -1 with a sum of at most zero compound to at most one, and to less unless all are zero |
| Returns.RuinsGiveSign | scripts/backtest-signal-replay.ts:436 | the compounded value is not negative with an even number of returns below -1 and not positive with an odd one |
| Returns.NoGainIffNoneOrOddRuins | scripts/backtest-signal-replay.ts:436 | for every k, all lists with k returns below -1 and a sum of at most zero compound to at most one if and only if k is zero or odd |
| Report.EvaluateQualityGate | scripts/backtest-signal-replay.ts:469-504 | the gate lists exactly the reasons that apply, in order, rejects exactly when a rejecting one applies, and passes exactly at its sample and Sharpe floors |
| ReportLaws.VarianceIs | scripts/backtest-signal-replay.ts:101-106 | the variance is the mean of the squares less the square of the mean |
| ReportLaws.FiguresAreNear | scripts/backtest-signal-replay.ts:427-443 | mean return, compounded return, worst return and Sharpe ratio are within half a unit of their last digit, the ratio zero without a spread |
| ReportLaws.ReasonsAre | scripts/backtest-signal-replay.ts:475-483 | each reason with its floor: listed if and only if the figure is below it, fill rate included |
| ReportLaws.ReasonsInOrder | scripts/backtest-signal-replay.ts:474-483 | the reasons come in the order in which they are considered |
| ReportLaws.VerdictIs | scripts/backtest-signal-replay.ts:485-496 | rejected if and only if one of the four return figures fails, passed if and only if all floors of a full sample are met |
| ReportLaws.PassMeansGain | scripts/backtest-signal-replay.ts:427-496 | a pass means at least 20 trades, a positive mean, a compounded gain and no return below -8%, before rounding |
| Report.NegativeExpectancyRejects | scripts/backtest-signal-replay.ts:427-494 | with no return or an odd number of returns below -1, a mean of at most zero is rejected with the expectancy, compounding and Sharpe reasons |
| Report.CompoundingReasonIff | scripts/backtest-signal-replay.ts:481-482 | for every k, all lists with k returns below -1 and a mean of at most zero get the compounding reason if and only if k is zero or odd |
| Report.ReasonsAgreeUpToTwoTrades | scripts/backtest-signal-replay.ts:92-95 | on figures rounded to a millionth the first reason implies the second for all lists of n trades, with no or an odd number of returns below -1, if and only if n is at most two |
| Report.TotalLossBound | scripts/backtest-signal-replay.ts:395 | a return is at least -1 if and only if the trade is long or exits at no more than twice its entry |
| Report.RuinedShortReplays | scripts/backtest-signal-replay.ts:230-232 | a short with a return of -3 passes all checks of the entry-zone replay |
| Report.EvenRuinsCompoundToAGain | scripts/backtest-signal-replay.ts:481-482 | any even number of such shorts gets the expectancy reason and not the compounding one |
| Groups.SummarizeGroup | scripts/backtest-signal-replay.ts:445-453 | the map holds each label's trades in order, its keys once each |
| Groups.GroupRowAt | scripts/backtest-signal-replay.ts:449-451 | a trade is filed under its own label only, right after the earlier trades of that label |
| Groups.FiledTogether | scripts/backtest-signal-replay.ts:450 | two trades share a group if and only if their keys are equal, a missing key counting as `unknown` |
| Groups.GroupsConserveTotals | scripts/backtest-signal-replay.ts:445-459 | any figure that adds up over trades adds up over the groups to the same total |
| Groups.GroupsConserveGrowth | scripts/backtest-signal-replay.ts:436-459 | the product of the groups' growth factors is the overall growth factor |
| Groups.GroupsRecombine | scripts/backtest-signal-replay.ts:427-459 | group sizes, size-weighted means and growth factors recombine to the overall figures |
| Groups.TradesAndSkips | scripts/backtest-signal-replay.ts:518-524 | trades plus skips equal the signals |
| Groups.OutcomeAt | scripts/backtest-signal-replay.ts:518-524 | each outcome is kept among its own kind, in order |
| Groups.SummarizeSkips | scripts/backtest-signal-replay.ts:461-467 | each reason is counted as often as it occurs and the counts add up to the skips |
| Drawdown.MaxDrawdown | src/components/ProofTab.jsx:23-33 | the single pass returns the largest loss between any two values in order, for every non-negative series |
| Drawdown.SinglePassIsMaxDrawdown | src/components/ProofTab.jsx:23-33 | the running-peak minimum meets the quadratic definition |
| Drawdown.DrawdownSeries | src/components/ProofTab.jsx:220-226 | the chart loop pushes the depth below its running peak for every value |
| Drawdown.ChartPointIsLoss | src/components/ProofTab.jsx:220-226 | every point of the chart is the largest loss from a value up to its own, for a series that starts above zero |
| Drawdown.ChartFromZero | src/components/ProofTab.jsx:220-226 | a series that starts at zero is drawn as if it had come down from one |
| Drawdown.ChartAgreesIff | src/components/ProofTab.jsx:220-226 | the chart's deepest point is the maximum drawdown if and only if the series starts above zero or loses everything |
| Drawdown.BridgePhases | qlib-bridge/bridge/backtest_adapter.py:144-163 | the compounded returns telescope to multiples of the first positive value until a zero is met and stay at zero after it |
| Drawdown.BridgeIsMaxDrawdown | qlib-bridge/bridge/backtest_adapter.py:144-164 | the negated cumprod/cummax minimum is the maximum drawdown of every non-empty non-negative series |
| Calendar.BetweenIsSlice | qlib-bridge/scripts/dump_bin.py:263-266 | filtering the calendar between two of its dates selects the contiguous slice between their indices |
| Store.Dumper.DataToBin | qlib-bridge/scripts/dump_bin.py:277-307 | every dumped field's file is appended to or written anew as specified and no other file changes |
| Store.Dumper.DumpBin | qlib-bridge/scripts/dump_bin.py:309-337 | the same with the empty cases |
| Store.Dumper.GetAllDate | qlib-bridge/scripts/dump_bin.py:348-371 | the collected dates are those of all files and the ranges those of the files with rows |
| Store.Dumper.DumpFeatures | qlib-bridge/scripts/dump_bin.py:387-393 | in any order of the symbols the files end up as specified |
| Store.Dumper.DumpAll | qlib-bridge/scripts/dump_bin.py:374-401 | the full dump leaves the calendar, instruments and files of its specification |
| Store.Dumper.FixInstruments | qlib-bridge/scripts/dump_bin.py:405-435 | new symbols join the table, known ones keep their range |
| Store.Dumper.DumpFix | qlib-bridge/scripts/dump_bin.py:438-451 | the fix dump leaves the store of its specification |
| Store.Dumper.UpdateFeatures | qlib-bridge/scripts/dump_bin.py:562-604 | in any order of the symbols the updated ranges and files are as specified |
| Store.Dumper.DumpUpdate | qlib-bridge/scripts/dump_bin.py:509-529 | the update leaves the store of its specification and nothing changes when it cannot start |
| DiskLaws.FieldsAreDumped | qlib-bridge/scripts/dump_bin.py:195-202 | a column is dumped if and only if it is included, or not excluded when none is |
| DiskLaws.DumpAllReads | qlib-bridge/scripts/dump_bin.py:277-307 | on any disk, after a full dump every live symbol, dumped column and calendar day reads as its rows say: narrowed first value, NaN inside the range, absent outside |
| DiskLaws.DumpAllKeepsOthers | qlib-bridge/scripts/dump_bin.py:303-307 | every file the full dump does not write stays as it was |
| DiskLaws.DumpAllIndex | qlib-bridge/scripts/dump_bin.py:374-401 | its calendar holds exactly the dates of the rows, in order, and its table the first and last date of every symbol with rows |
| DiskLaws.DumpFixReads | qlib-bridge/scripts/dump_bin.py:438-451 | on any disk, after a fix the given symbols read as their rows say against the stored calendar |
| DiskLaws.DumpFixKeeps | qlib-bridge/scripts/dump_bin.py:404-435 | the fix keeps the calendar, the known ranges and all other files, and new symbols get the range of their rows |
| DiskLaws.UpdateRefused | qlib-bridge/scripts/dump_bin.py:509-523 | without a stored calendar or an incoming row nothing changes |
| DiskLaws.UpdateCalendarIs | qlib-bridge/scripts/dump_bin.py:524-529 | on any disk the update adds exactly the incoming dates after the calendar's end |
| DiskLaws.UpdateRanges | qlib-bridge/scripts/dump_bin.py:576-604 | on any disk starts stay, an end moves to the last incoming date when that is later, and new symbols get the range of their rows |
| DiskLaws.UpdateDatesCount | qlib-bridge/scripts/dump_bin.py:578-587 | a known symbol's new dates are those after its recorded end, in order, each as often as it has rows |
| DiskLaws.UpdateExtends | qlib-bridge/scripts/dump_bin.py:299-302 | on any disk an existing file is extended by the cells of the symbol's new days and all other files stay |
| DiskLaws.UpdateCreates | qlib-bridge/scripts/dump_bin.py:303-307 | new files are those of dumped incoming columns of symbols with new days |
| DiskLaws.UpdateOfNewReads | qlib-bridge/scripts/dump_bin.py:592-604 | a new symbol without files reads as its rows say against the new calendar |
| StoreLaws.CellAtIsFirst | qlib-bridge/scripts/dump_bin.py:331-332 | the cell of a date is that of its first row |
| StoreLaws.DaysAreSlice | qlib-bridge/scripts/dump_bin.py:255-275 | the days of a symbol are the calendar slice from its first to its last date |
| StoreLaws.FullDumpRoundTrip | qlib-bridge/scripts/dump_bin.py:255-380 | for every symbol, field and calendar position the decoded cell is that of the first source row, NaN inside the range without one, absent outside |
| StoreLaws.RebuildWellShaped | qlib-bridge/scripts/dump_bin.py:287-307 | every header is the index of the instrument's start and every file has one cell per day of its range |
| UpdateLaws.CalendarRefines | qlib-bridge/scripts/dump_bin.py:524-529 | the extended calendar is the calendar of all rows together |
| UpdateLaws.MergedDays | qlib-bridge/scripts/dump_bin.py:578-587 | the days of the merged rows are the old days followed by the new calendar's days after the recorded end |
| UpdateLaws.RebuiltFile | qlib-bridge/scripts/dump_bin.py:287-307 | a rebuild writes the old file followed by the incoming column over those days |
| UpdateLaws.KnownFiles | qlib-bridge/scripts/dump_bin.py:291-307 | whatever comes in, a known symbol's stored files get the column over its own new dates, and a field without a file is written with header zero |
| UpdateLaws.UpdateRefinesRebuild | qlib-bridge/scripts/dump_bin.py:562-622 | under its preconditions the update leaves the calendar, instruments and files of a full dump of old and new rows |
| UpdateExact.CalendarRefinesIff | qlib-bridge/scripts/dump_bin.py:524-529 | the extended calendar is that of all rows together if and only if no incoming date before its end is missing from it |
| UpdateExact.NewDatesAt | qlib-bridge/scripts/dump_bin.py:578-587 | contiguous new dates are the calendar's slice after the recorded end; without contiguity there are strictly fewer |
| UpdateExact.ReadAlikeIff | qlib-bridge/scripts/dump_bin.py:277-307 | a known symbol with one incoming row a day reads as after a rebuild over the same calendar, in every field and position, if and only if its fields are kept, its new dates are the calendar's days after its recorded end, and no row with values comes in late for a day it had no row for |
| UpdateExact.ReadAlikeIffContiguous | qlib-bridge/scripts/dump_bin.py:578-587 | when the fields are kept and nothing comes in late, contiguity alone decides |
| RunLaws.UpdateOnlyGrows | qlib-bridge/scripts/dump_bin.py:299-302 | whatever comes in, calendar and files are only extended, starts stay and ends never move back |
| RunLaws.RunRefinesRebuild | qlib-bridge/scripts/dump_bin.py:617-622 | after a full dump and any number of admissible updates the store is that of one full dump of all rows |
| RunLaws.RunOnlyGrows | qlib-bridge/scripts/dump_bin.py:524-529 | from any point of a run to any later one the store only grows |
| RunLaws.RunInvariant | qlib-bridge/scripts/dump_bin.py:576-604 | at every point of a run the calendar is strictly increasing and every file has its header and length |
| RunLaws.RunRoundTrip | qlib-bridge/scripts/dump_bin.py:277-307 | after a run every position reads as the first row ever seen of its date |
| RunLaws.NewFieldStartsAtZero | qlib-bridge/scripts/dump_bin.py:291-307 | a field without a file of a known symbol is written with header zero |
| RunLaws.FixRefinesRebuild | qlib-bridge/scripts/dump_bin.py:404-451 | with unchanged known symbols and new ones inside the calendar the fix leaves the store of a full dump |
| Sync.ReadOhlcv | qlib-bridge/bridge/data_sync.py:107-132 | raises exactly when some timestamp is no date of the years 1 to 9999; otherwise each symbol is listed once with the lines of its rows |
| Sync.LinesAreSubsequence | qlib-bridge/bridge/data_sync.py:107-130 | each symbol's lines are its rows in the order read, with the change from the previous positive close |
| Sync.OwnRowInOrder | qlib-bridge/bridge/data_sync.py:107-130 | each row of a symbol comes right after those of the symbol read before it |
| Sync.ChangesTelescope | qlib-bridge/bridge/data_sync.py:114-117 | with positive closes each close is the first one compounded by the changes |
| Sync.SortLeavesOrdered | qlib-bridge/bridge/data_sync.py:146 | sorting by date does not move lines that are in date order |
| Sync.SortIsStable | qlib-bridge/bridge/data_sync.py:146 | lines of one date keep the order in which they were read |
| Sync.DatableDays | qlib-bridge/bridge/data_sync.py:56-63 | the timestamps taken are exactly those of the days from 0001-01-01 to 9999-12-31 |
| Sync.ReadOrderKeptIff | qlib-bridge/bridge/data_sync.py:56-63 | rows read in timestamp order are not moved by the date sort if and only if no row in milliseconds is on an earlier day than a row in seconds before it |
| Sync.SwitchMovesRows | qlib-bridge/bridge/data_sync.py:57-62 | the last second of the year 9999 and the millisecond 10^12 + 1 are both dates, and the date sort moves such rows |
| Sync.WriteCsvs | qlib-bridge/bridge/data_sync.py:135-182 | the files are the sorted lines, the listing their first and last dates, the benchmark files the same for SPY and QQQ, the total the number of lines |
| Sync.BenchmarkFiles | qlib-bridge/bridge/data_sync.py:165-172 | SPY and QQQ get a file of their own when they have lines, and no other symbol does |
| Sync.AllLinesWritten | qlib-bridge/bridge/data_sync.py:165 | the total is the number of rows read |
| Sync.ListedRangesAreDumped | qlib-bridge/bridge/data_sync.py:175-180 | the ranges listed for the written files are those the full dump derives from them |
| Sync.LineComesBack | qlib-bridge/bridge/data_sync.py:193-208 | on any disk each line comes back from the dumped store on its own date, all seven figures in their own columns and narrowed |
| Shell.QuotedWord | scripts/auto-backend-launchd.ts:41-43 | reading an escaped value inside quotes yields the value, whatever follows |
| Shell.SplitCommandLine | scripts/auto-backend-launchd.ts:126 | shell splitting of the printed command recovers the exact words, for arbitrary strings |
| Launch.ParseAutoBackendArgs | scripts/auto-backend.ts:92-136 | the index loop computes the parse of the token list |
| Launch.ParseLaunchArgs | scripts/auto-backend-launchd.ts:45-94 | the same for the options the launchd script prints |
| OptionLaws.OnlyTheseTexts | scripts/auto-backend.ts:102-131 | no text but the nineteen listed ones is an option |
| OptionLaws.OptionSets | scripts/auto-backend.ts:97-133 | each option, with its value as next word or after `=`, sets its own field and no other, figures with their floors |
| LaunchLaws.InlineOption | scripts/auto-backend.ts:100-102 | an inline value counts up to a second `=` |
| OptionLaws.PaddedName | scripts/auto-backend.ts:101 | white space around an option's name does not count |
| OptionLaws.PassedOver | scripts/auto-backend.ts:99 | a token without two dashes in front is passed over |
| OptionLaws.SameReading | scripts/auto-backend-launchd.ts:45-94 | for any arguments the launchd script reads the options it shares with the backend exactly as the backend does |
| OptionLaws.LaunchReadsBackIff | scripts/auto-backend-launchd.ts:45-124 | the launchd script reads its own printed words back if and only if user and trainer survive |
| LaunchLaws.ReadRest | scripts/auto-backend-launchd.ts:104-124 | the words after the user read back as the printed figures and training flag around what any trainer does, whatever the options were before |
| LaunchLaws.ReadTrainer | scripts/auto-backend.ts:117 | the trainer pair is read as a value, and once more as an option when it looks like one |
| LaunchLaws.ReadUser | scripts/auto-backend.ts:97-105 | the user pair is read as a value, and once more as an option when it looks like one |
| LaunchLaws.LeftAsExpectedIff | scripts/auto-backend.ts:102-131 | the options the command leaves are the expected ones if and only if user and trainer survive, field by field, for any two strings |
| LaunchLaws.UserReadBackIff | scripts/auto-backend.ts:102-105 | beside a plain trainer that is so if and only if the user is trimmed, not empty, and inert when read as an option |
| LaunchLaws.TrainerReadBackIff | scripts/auto-backend.ts:117 | beside a plain user it is so if and only if the trainer is trimmed, empty only when the default is, and inert when read as an option |
| LaunchLaws.LaunchRoundTripIff | scripts/auto-backend-launchd.ts:96-127 | printing, shell splitting and parsing give back every option if and only if the user and the trainer, any two strings, survive |
| LaunchLaws.LaunchArgsMeetFloors | scripts/auto-backend-launchd.ts:68-83 | whatever the launchd script is called with, the figures it prints meet the floors, the user is trimmed and not empty, the trainer trimmed |
| LaunchLaws.LaunchArgsPrint | scripts/auto-backend-launchd.ts:68-83 | and every figure it prints reads back |
| LaunchLaws.LaunchdToBackend | scripts/auto-backend-launchd.ts:45-127 | from any arguments of the launchd script to the backend's options, the round trip holds if and only if user and trainer survive; for a plain trainer an option-like user has to be inert, and the other way round |
| LaunchLaws.UserOnceStopsTheBackend | scripts/auto-backend.ts:131 | a user called `--once` does not round-trip |
| LaunchLaws.TrainerOnceStopsTheBackend | scripts/auto-backend-launchd.ts:78-79 | the arguments `--trainer --once` are taken and do not round-trip |
| LaunchLaws.TrainerRestoresUser | scripts/auto-backend.ts:102-117 | a user that would not round-trip does beside a trainer that names it again |
| Scheduler.Backend.RunMaintenanceCycle | scripts/auto-backend.ts:600-802 | the cycle logs exactly the specified jobs and throws exactly when the repository, an uncaught job or the flush does |
| Scheduler.Backend.RunLightCycle | scripts/auto-backend.ts:914-950 | the same for a cycle in which nothing is due |
| Scheduler.Backend.RunCycles | scripts/auto-backend.ts:882-957 | the main loop goes through all cycles whatever they throw |
| Scheduler.CycleKeeps | scripts/auto-backend.ts:600-801 | per cycle: one flush if and only if the repository was had; discovery and shadow monitoring never both, and exactly one when enabled and nothing uncaught fails; the Qlib factory only with discovery |
| Scheduler.MaintainsIff | scripts/auto-backend.ts:889-899 | a cycle does maintenance if and only if it is a multiple of the validation period, whole or not, or of one of the other four |
| Scheduler.CycleCounts | scripts/auto-backend.ts:600-950 | how often a cycle attempts each of the eleven jobs, from the periods and the failures alone |
| Scheduler.CycleInOrder | scripts/auto-backend.ts:602-801 | the jobs come in their fixed order and the flush comes last |
| Scheduler.LogShowsCut | scripts/auto-backend.ts:600-801 | two cycles attempt the same jobs if and only if they were cut short at the same place, so caught failures and a failing flush leave no trace and every abort leaves its own |
| Scheduler.DueExactly | scripts/auto-backend.ts:889-892 | a job with period N is due floor(K / N) times in the first K cycles |
| Scheduler.DueOncePerPeriod | scripts/auto-backend.ts:889-892 | and exactly once in every N consecutive cycles |
| Scheduler.PeriodMatchesHours | scripts/auto-backend.ts:852-867 | the period is within half an interval of the requested hours from half an interval up |
| Scheduler.ShortHoursEveryCycle | scripts/auto-backend.ts:852-867 | below half an interval the period is one cycle |
| Scheduler.RunTotals | scripts/auto-backend.ts:882-957 | over any run: one flush per cycle with its repository, each job at most as often as due |
| Scheduler.FairRunTotals | scripts/auto-backend.ts:882-957 | when nothing uncaught fails every enabled job is attempted exactly as often as due |
| Scheduler.FairRunMaintains | scripts/auto-backend.ts:882-957 | when nothing uncaught fails, free data, validation and outcome resolution are attempted once in every maintenance cycle |
| Scheduler.WorkedOnEveryPeriod | scripts/auto-backend.ts:894 | with a whole validation period at least every multiple of it is one |
| Scheduler.RunsConcatenate | scripts/auto-backend.ts:882-957 | a run is its cycles in order, numbered on from where it started |
| Supervisor.Managed.OnProbed | scripts/auto-backend.ts:303-342 | behind a negative probe a child is spawned exactly when the slot is empty then, and the slot invariant is kept |
| Supervisor.Managed.OnTerminal | scripts/auto-backend.ts:313-318 | the terminal handler empties the slot of its kind, which keeps the slot invariant for an outstanding event |
| Supervisor.StepKeepsInv | scripts/auto-backend.ts:303-342 | every step keeps that a slot names the one child that runs or whose end is not yet noticed |
| Supervisor.SupervisionInvariant | scripts/auto-backend.ts:869-880 | over all interleavings at most one API child and one worker run, and the slots name them |
| Supervisor.SkippedNeverLaunched | scripts/auto-backend.ts:303-342 | over all interleavings a skipped kind is never probed, started or waited for |
| Supervisor.RoundProbesLaunched | scripts/auto-backend.ts:303-342 | one call probes each launched kind once, the API first |
| Supervisor.TerminalSafeIff | scripts/auto-backend.ts:313-318 | handling a terminal event is safe for all that can follow if and only if no child of the kind runs and no other one's event is outstanding |

## Left out

- Databases, HTTP, process spawning, the launchd property list and file paths: I/O; their results are parameters.
- `win_rate`, `best`, `avg_win` and `avg_loss` of the summary, and the order in which groups are listed: no property of the gate or of conservation depends on them.
- The filters and the sort by creation time in `runSignalReplay`: plain array combinators; the outcomes of the selected signals are an arbitrary list here.
- Upper-casing of directions and symbols, dates as text, and missing database values: directions and symbols arrive upper-case, dates are day numbers, missing figures are zero.
- Floating-point error: prices, returns and figures are reals. `Math.round` is modelled; `Math.sqrt` is a parameter, any function at all.
- The conversion of cells to binary32 is an arbitrary function that is exact on indices up to 2^24 (section 3.6 and Table 3.5 of IEEE 754-2019).
- Store.Dumper.DataToBin: field names are taken as they are; the source lower-cases them for the file name, so two columns that differ in case would share a file there (qlib-bridge/scripts/dump_bin.py:292-294).
- Dates are day numbers: dates before the year 1000, which some platforms write without leading zeros and so sort differently as text, are ordered as days.
- Thread and process pools of the dump: symbols are processed one after the other in any order. Errors inside one symbol's dump, non-numeric columns and `fname_to_code` are not modelled.
- `Number(s)` and `String(x)` are parameters; the printed figures are taken to read back (ECMA-262, Number::toString).
- Options of the launchd script that are not printed (label, paths, install and status flags), and environment defaults of the backend: they reach the parser as defaults.
- Shutdown and the initialization pass: the main loop is modelled for the cycles that start, the supervisor without its signal handlers.
- The return-column fallback and the annualised figures of the bridge's backtest.
