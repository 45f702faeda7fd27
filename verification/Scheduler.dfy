/**
 The automation loop: which jobs a cycle attempts under any pattern of failures, and how often each job is due
 over many cycles. An attempted job is one event in the log, whether it then fails or not.
 */
module Scheduler {
  import opened Numbers

  datatype Job =
    | RefreshUs | FreeData | Validation | RuntimeRefresh | Evolution | OutcomeResolution
    | Training | Discovery | QlibFactory | ShadowMonitoring | Flush

  /** What goes wrong in one cycle, and whether evolution changed anything. */
  datatype Weather = Weather(
    repoFails: bool, runtimeFails: bool, evolutionFails: bool, evolutionTouched: bool, secondRuntimeFails: bool,
    swallowed: set<Job>, flushFails: bool)

  /** The jobs whose failure is caught where they are called. */
  predicate Swallowed(j: Job) {
    j in {RefreshUs, FreeData, Validation, OutcomeResolution, Training, Discovery, QlibFactory, ShadowMonitoring}
  }

  datatype Plan = Plan(refreshUs: bool, runEvolution: bool, runTraining: bool, runDiscovery: bool)

  datatype Skips = Skips(training: bool, discovery: bool, qlibFactory: bool)

  /** Periods in cycles; `validateEvery` comes from the command line unrounded. */
  datatype Periods = Periods(validateEvery: real, refresh: nat, retrain: nat, train: nat, discovery: nat)

  predicate ValidPeriods(p: Periods) {
    p.validateEvery >= 1.0 && p.refresh >= 1 && p.retrain >= 1 && p.train >= 1 && p.discovery >= 1
  }

  // ----- periods -----

  /** `Math.max(1, Math.round(hours * 3600 / interval))`. */
  function EveryCycles(hours: real, interval: real): (n: nat)
    requires interval > 0.0
    ensures n >= 1
  {
    var r := (hours * 3600.0 / interval + 0.5).Floor;
    if r > 1 then r else 1
  }

  /** `cycle % every === 0`, for a period that need not be whole. */
  predicate DueReal(cycle: nat, every: real)
    requires every >= 1.0
  {
    (cycle as real / every).Floor as real == cycle as real / every
  }

  predicate Due(cycle: nat, every: nat)
    requires every >= 1
  {
    cycle % every == 0
  }

  function PlanFor(p: Periods, cycle: nat): Plan
    requires ValidPeriods(p)
  {
    Plan(Due(cycle, p.refresh), Due(cycle, p.retrain), Due(cycle, p.train), Due(cycle, p.discovery))
  }

  /** Whether the cycle is a maintenance cycle rather than a mere runtime refresh. */
  predicate Maintains(p: Periods, cycle: nat)
    requires ValidPeriods(p)
  {
    DueReal(cycle, p.validateEvery)
    || Due(cycle, p.refresh) || Due(cycle, p.retrain) || Due(cycle, p.train) || Due(cycle, p.discovery)
  }

  // ----- one cycle -----

  function When(condition: bool, events: seq<Job>): seq<Job> {
    if condition then events else []
  }

  /** The second refresh, when evolution changed something. */
  predicate Refreshes(a: Plan, w: Weather) {
    a.runEvolution && !w.evolutionFails && w.evolutionTouched
  }

  /** Whether the runtime refresh or the evolution leaves the cycle's `try`. */
  predicate Aborts(a: Plan, w: Weather) {
    w.runtimeFails || (a.runEvolution && w.evolutionFails) || (Refreshes(a, w) && w.secondRuntimeFails)
  }

  function DataEvents(a: Plan): seq<Job> {
    When(a.refreshUs, [RefreshUs]) + [FreeData, Validation, RuntimeRefresh]
  }

  function EvolutionEvents(a: Plan, w: Weather): seq<Job> {
    When(a.runEvolution, [Evolution]) + When(Refreshes(a, w), [RuntimeRefresh])
  }

  function ResearchEvents(a: Plan, s: Skips): seq<Job> {
    if s.discovery then []
    else if a.runDiscovery then [Discovery] + When(!s.qlibFactory, [QlibFactory])
    else [ShadowMonitoring]
  }

  function LateEvents(a: Plan, s: Skips): seq<Job> {
    [OutcomeResolution] + When(a.runTraining && !s.training, [Training]) + ResearchEvents(a, s)
  }

  /** The events of a maintenance cycle up to its flush. */
  function BodyEvents(a: Plan, s: Skips, w: Weather): seq<Job> {
    DataEvents(a) + When(!w.runtimeFails, EvolutionEvents(a, w)) + When(!Aborts(a, w), LateEvents(a, s))
  }

  function MaintenanceEvents(a: Plan, s: Skips, w: Weather): seq<Job> {
    if w.repoFails then [] else BodyEvents(a, s, w) + [Flush]
  }

  /** The events of a cycle in which nothing is due. */
  function LightEvents(s: Skips, w: Weather): seq<Job> {
    if w.repoFails then []
    else [RuntimeRefresh] + When(!w.runtimeFails && !s.discovery, [ShadowMonitoring]) + [Flush]
  }

  function CycleEvents(p: Periods, s: Skips, cycle: nat, w: Weather): seq<Job>
    requires ValidPeriods(p)
  {
    if Maintains(p, cycle) then MaintenanceEvents(PlanFor(p, cycle), s, w) else LightEvents(s, w)
  }

  // ----- the loop -----

  class Backend {
    const periods: Periods
    const skips: Skips
    var cycle: nat
    var log: seq<Job>

    constructor (periods: Periods, skips: Skips)
      ensures this.periods == periods && this.skips == skips && cycle == 0 && log == []
    {
      this.periods, this.skips := periods, skips;
      cycle, log := 0, [];
    }

    /** `attempt(j)`: the event, and whether it throws past its caller. */
    method Attempt(j: Job, fails: bool) returns (threw: bool)
      modifies this`log
      ensures log == old(log) + [j] && threw == fails
    {
      log := log + [j];
      threw := fails;
    }

    method RunDataJobs(a: Plan, w: Weather) returns (threw: bool)
      modifies this`log
      ensures log == old(log) + DataEvents(a)
      ensures threw == w.runtimeFails
    {
      var ignored := false;
      if a.refreshUs {
        ignored := Attempt(RefreshUs, RefreshUs in w.swallowed);
      }
      ignored := Attempt(FreeData, FreeData in w.swallowed);
      ignored := Attempt(Validation, Validation in w.swallowed);
      threw := Attempt(RuntimeRefresh, w.runtimeFails);
    }

    method RunEvolutionJobs(a: Plan, w: Weather) returns (threw: bool)
      modifies this`log
      ensures log == old(log) + EvolutionEvents(a, w)
      ensures threw == (a.runEvolution && (w.evolutionFails || (w.evolutionTouched && w.secondRuntimeFails)))
    {
      threw := false;
      if a.runEvolution {
        threw := Attempt(Evolution, w.evolutionFails);
        if !threw && w.evolutionTouched {
          threw := Attempt(RuntimeRefresh, w.secondRuntimeFails);
        }
      }
    }

    method RunLateJobs(a: Plan, w: Weather)
      modifies this`log
      ensures log == old(log) + LateEvents(a, skips)
    {
      var ignored := Attempt(OutcomeResolution, OutcomeResolution in w.swallowed);
      if a.runTraining && !skips.training {
        ignored := Attempt(Training, Training in w.swallowed);
      }
      if !skips.discovery && a.runDiscovery {
        ignored := Attempt(Discovery, Discovery in w.swallowed);
        if !skips.qlibFactory {
          ignored := Attempt(QlibFactory, QlibFactory in w.swallowed);
        }
        return;
      }
      if !skips.discovery {
        ignored := Attempt(ShadowMonitoring, ShadowMonitoring in w.swallowed);
      }
    }

    method RunMaintenanceBody(a: Plan, w: Weather) returns (threw: bool)
      modifies this`log
      ensures log == old(log) + BodyEvents(a, skips, w)
      ensures threw == Aborts(a, w)
    {
      hide DataEvents, EvolutionEvents, LateEvents;
      threw := RunDataJobs(a, w);
      if !threw {
        threw := RunEvolutionJobs(a, w);
      }
      if !threw {
        RunLateJobs(a, w);
      }
    }

    /** The `finally` runs whether or not the body threw; the repository is fetched before the `try`. */
    method RunMaintenanceCycle(a: Plan, w: Weather) returns (threw: bool)
      modifies this`log
      ensures log == old(log) + MaintenanceEvents(a, skips, w)
      ensures threw == (w.repoFails || Aborts(a, w) || w.flushFails)
    {
      if w.repoFails {
        return true;
      }
      threw := RunMaintenanceBody(a, w);
      var flushThrew := Attempt(Flush, w.flushFails);
      threw := threw || flushThrew;
    }

    method RunLightCycle(w: Weather) returns (threw: bool)
      modifies this`log
      ensures log == old(log) + LightEvents(skips, w)
      ensures threw == (w.repoFails || w.runtimeFails || w.flushFails)
    {
      if w.repoFails {
        return true;
      }
      threw := Attempt(RuntimeRefresh, w.runtimeFails);
      if !threw && !skips.discovery {
        var ignored := Attempt(ShadowMonitoring, ShadowMonitoring in w.swallowed);
      }
      var flushThrew := Attempt(Flush, w.flushFails);
      threw := threw || flushThrew;
    }

    /** One turn of the main loop. */
    method RunCycle(w: Weather)
      requires ValidPeriods(periods)
      modifies this
      ensures cycle == old(cycle) + 1
      ensures log == old(log) + CycleEvents(periods, skips, cycle, w)
    {
      hide MaintenanceEvents, LightEvents, PlanFor, Maintains, Aborts, Due, DueReal;
      cycle := cycle + 1;
      var threw := false;
      if Maintains(periods, cycle) {
        threw := RunMaintenanceCycle(PlanFor(periods, cycle), w);
      } else {
        threw := RunLightCycle(w);
      }
    }

    /** The main loop until shutdown: whatever a cycle throws is caught, and the next cycle follows. */
    method RunCycles(weather: seq<Weather>)
      requires ValidPeriods(periods)
      modifies this
      ensures cycle == old(cycle) + |weather|
      ensures log == old(log) + RunEvents(periods, skips, old(cycle), weather)
    {
      hide CycleEvents;
      for i := 0 to |weather|
        invariant cycle == old(cycle) + i
        invariant log == old(log) + RunEvents(periods, skips, old(cycle), weather[..i])
      {
        RunCycle(weather[i]);
        assert weather[..i + 1][..i] == weather[..i];
      }
      assert weather[..|weather|] == weather;
    }
  }

  /** The events of consecutive cycles, the first one being `start + 1`. */
  function RunEvents(p: Periods, s: Skips, start: nat, weather: seq<Weather>): seq<Job>
    requires ValidPeriods(p)
  {
    if weather == [] then []
    else
      var n := |weather| - 1;
      RunEvents(p, s, start, weather[..n]) + CycleEvents(p, s, start + n + 1, weather[n])
  }

  // ----- how often a cycle attempts a job -----

  function Count(events: seq<Job>, j: Job): nat {
    if events == [] then 0 else (if events[0] == j then 1 else 0) + Count(events[1..], j)
  }

  lemma {:induction false} CountConcat(a: seq<Job>, b: seq<Job>, j: Job)
    ensures Count(a + b, j) == Count(a, j) + Count(b, j)
  {
    if a == [] {
      assert a + b == b;
    } else {
      assert (a + b)[1..] == a[1..] + b;
      CountConcat(a[1..], b, j);
    }
  }

  function One(condition: bool): nat {
    if condition then 1 else 0
  }

  lemma CountOne(condition: bool, k: Job, j: Job)
    ensures Count(When(condition, [k]), j) == One(condition && k == j)
  {
  }

  lemma CountData(a: Plan, j: Job)
    ensures Count(DataEvents(a), j) == One(j.RefreshUs? && a.refreshUs) + One(j.FreeData?) + One(j.Validation?)
                                   + One(j.RuntimeRefresh?)
  {
    CountConcat(When(a.refreshUs, [RefreshUs]), [FreeData, Validation, RuntimeRefresh], j);
    CountConcat([FreeData], [Validation, RuntimeRefresh], j);
    CountConcat([Validation], [RuntimeRefresh], j);
    assert [FreeData] + [Validation, RuntimeRefresh] == [FreeData, Validation, RuntimeRefresh];
    assert [Validation] + [RuntimeRefresh] == [Validation, RuntimeRefresh];
    CountOne(a.refreshUs, RefreshUs, j);
    CountOne(true, FreeData, j);
    CountOne(true, Validation, j);
    CountOne(true, RuntimeRefresh, j);
  }

  lemma CountEvolution(a: Plan, w: Weather, j: Job)
    ensures Count(EvolutionEvents(a, w), j)
         == One(j.Evolution? && a.runEvolution) + One(j.RuntimeRefresh? && Refreshes(a, w))
  {
    CountConcat(When(a.runEvolution, [Evolution]), When(Refreshes(a, w), [RuntimeRefresh]), j);
    CountOne(a.runEvolution, Evolution, j);
    CountOne(Refreshes(a, w), RuntimeRefresh, j);
  }

  lemma CountResearch(a: Plan, s: Skips, j: Job)
    ensures Count(ResearchEvents(a, s), j)
         == One(j.Discovery? && !s.discovery && a.runDiscovery)
          + One(j.QlibFactory? && !s.discovery && a.runDiscovery && !s.qlibFactory)
          + One(j.ShadowMonitoring? && !s.discovery && !a.runDiscovery)
  {
    CountConcat([Discovery], When(!s.qlibFactory, [QlibFactory]), j);
    CountOne(true, Discovery, j);
    CountOne(!s.qlibFactory, QlibFactory, j);
    CountOne(true, ShadowMonitoring, j);
  }

  lemma CountLate(a: Plan, s: Skips, j: Job)
    ensures Count(LateEvents(a, s), j)
         == One(j.OutcomeResolution?) + One(j.Training? && a.runTraining && !s.training)
          + Count(ResearchEvents(a, s), j)
  {
    CountConcat([OutcomeResolution] + When(a.runTraining && !s.training, [Training]), ResearchEvents(a, s), j);
    CountConcat([OutcomeResolution], When(a.runTraining && !s.training, [Training]), j);
    CountOne(true, OutcomeResolution, j);
    CountOne(a.runTraining && !s.training, Training, j);
  }

  lemma CountMaintenance(a: Plan, s: Skips, w: Weather, j: Job)
    requires !w.repoFails
    ensures Count(MaintenanceEvents(a, s, w), j)
         == Count(DataEvents(a), j) + (if w.runtimeFails then 0 else Count(EvolutionEvents(a, w), j))
          + (if Aborts(a, w) then 0 else Count(LateEvents(a, s), j)) + One(j.Flush?)
  {
    hide DataEvents, EvolutionEvents, LateEvents, Aborts;
    var e, l := When(!w.runtimeFails, EvolutionEvents(a, w)), When(!Aborts(a, w), LateEvents(a, s));
    CountConcat(DataEvents(a) + e + l, [Flush], j);
    CountConcat(DataEvents(a) + e, l, j);
    CountConcat(DataEvents(a), e, j);
    CountOne(true, Flush, j);
  }

  lemma CountLight(s: Skips, w: Weather, j: Job)
    requires !w.repoFails
    ensures Count(LightEvents(s, w), j)
         == One(j.RuntimeRefresh?) + One(j.ShadowMonitoring? && !w.runtimeFails && !s.discovery) + One(j.Flush?)
  {
    var m := When(!w.runtimeFails && !s.discovery, [ShadowMonitoring]);
    CountConcat([RuntimeRefresh] + m, [Flush], j);
    CountConcat([RuntimeRefresh], m, j);
    CountOne(true, RuntimeRefresh, j);
    CountOne(!w.runtimeFails && !s.discovery, ShadowMonitoring, j);
    CountOne(true, Flush, j);
  }

  /** A light cycle that goes wrong stops before shadow monitoring, a maintenance cycle where it aborts. */
  predicate Interrupted(p: Periods, cycle: nat, w: Weather)
    requires ValidPeriods(p)
  {
    if Maintains(p, cycle) then Aborts(PlanFor(p, cycle), w) else w.runtimeFails
  }

  /** What every cycle keeps, under any weather. */
  lemma CycleKeeps(p: Periods, s: Skips, cycle: nat, w: Weather)
    requires ValidPeriods(p)
    ensures var e := CycleEvents(p, s, cycle, w);
            var due := Due(cycle, p.discovery);
            && Count(e, Flush) == One(!w.repoFails)
            && Count(e, Discovery) + Count(e, ShadowMonitoring)
            == One(!w.repoFails && !s.discovery && !Interrupted(p, cycle, w))
            && Count(e, Discovery) == One(!w.repoFails && !s.discovery && due && !Interrupted(p, cycle, w))
            && Count(e, QlibFactory) == (if s.qlibFactory then 0 else Count(e, Discovery))
            && Count(e, RefreshUs) == One(!w.repoFails && Due(cycle, p.refresh))
            && Count(e, Evolution) == One(!w.repoFails && Due(cycle, p.retrain) && !w.runtimeFails)
            && Count(e, Training)
            == One(!w.repoFails && Due(cycle, p.train) && !s.training && !Interrupted(p, cycle, w))
  {
    hide Count, MaintenanceEvents, LightEvents, DataEvents, EvolutionEvents, LateEvents, ResearchEvents, DueReal, Due;
    if w.repoFails {
      NoEvents(p, s, cycle, w);
    } else if Maintains(p, cycle) {
      var a := PlanFor(p, cycle);
      CountsOf(a, s, w, Flush);
      CountsOf(a, s, w, Discovery);
      CountsOf(a, s, w, ShadowMonitoring);
      CountsOf(a, s, w, QlibFactory);
      CountsOf(a, s, w, RefreshUs);
      CountsOf(a, s, w, Evolution);
      CountsOf(a, s, w, Training);
    } else {
      CountLight(s, w, Flush);
      CountLight(s, w, Discovery);
      CountLight(s, w, ShadowMonitoring);
      CountLight(s, w, QlibFactory);
      CountLight(s, w, RefreshUs);
      CountLight(s, w, Evolution);
      CountLight(s, w, Training);
    }
  }

  lemma NoEvents(p: Periods, s: Skips, cycle: nat, w: Weather)
    requires ValidPeriods(p) && w.repoFails
    ensures CycleEvents(p, s, cycle, w) == [] && forall j :: Count(CycleEvents(p, s, cycle, w), j) == 0
  {
  }

  lemma CountsOf(a: Plan, s: Skips, w: Weather, j: Job)
    requires !w.repoFails
    ensures Count(MaintenanceEvents(a, s, w), j)
         == One(j.RefreshUs? && a.refreshUs) + One(j.FreeData?) + One(j.Validation?) + One(j.RuntimeRefresh?)
          + (if w.runtimeFails then 0
             else One(j.Evolution? && a.runEvolution) + One(j.RuntimeRefresh? && Refreshes(a, w)))
          + One(j.Flush?)
          + if Aborts(a, w) then 0
            else (
              One(j.OutcomeResolution?) + One(j.Training? && a.runTraining && !s.training)
              + One(j.Discovery? && !s.discovery && a.runDiscovery)
              + One(j.QlibFactory? && !s.discovery && a.runDiscovery && !s.qlibFactory)
              + One(j.ShadowMonitoring? && !s.discovery && !a.runDiscovery))
  {
    hide Count, MaintenanceEvents, DataEvents, EvolutionEvents, LateEvents, ResearchEvents, Aborts, Refreshes;
    CountMaintenance(a, s, w, j);
    CountData(a, j);
    CountEvolution(a, w, j);
    CountLate(a, s, j);
    CountResearch(a, s, j);
  }

  // ----- every job, from the periods alone -----

  /** The cycles with maintenance: multiples of the validation period, which need not be whole, or of another. */
  ghost predicate Worked(p: Periods, cycle: nat)
    requires ValidPeriods(p)
  {
    || (exists n :: IsTimes(cycle, n, p.validateEvery))
    || cycle % p.refresh == 0 || cycle % p.retrain == 0 || cycle % p.train == 0 || cycle % p.discovery == 0
  }

  predicate IsTimes(cycle: nat, n: nat, every: real) {
    cycle as real == n as real * every
  }

  lemma TimesIsDue(cycle: nat, n: nat, every: real)
    requires every >= 1.0
    ensures IsTimes(cycle, n, every) ==> DueReal(cycle, every)
  {
    var q := cycle as real / every;
    assert q * every == cycle as real;
    assert IsTimes(cycle, n, every) ==> (q - n as real) * every == 0.0;
    assert IsTimes(cycle, n, every) ==> q == n as real;
  }

  lemma MaintainsIff(p: Periods, cycle: nat)
    requires ValidPeriods(p)
    ensures Maintains(p, cycle) <==> Worked(p, cycle)
  {
    var q := cycle as real / p.validateEvery;
    assert q >= 0.0 && q * p.validateEvery == cycle as real;
    if DueReal(cycle, p.validateEvery) {
      assert IsTimes(cycle, q.Floor, p.validateEvery);
    }
    forall n ensures IsTimes(cycle, n, p.validateEvery) ==> DueReal(cycle, p.validateEvery) {
      TimesIsDue(cycle, n, p.validateEvery);
    }
  }

  /** The cycle does not get past its refreshes and its evolution. */
  ghost predicate CutShort(p: Periods, cycle: nat, w: Weather)
    requires ValidPeriods(p)
  {
    w.runtimeFails
    || (cycle % p.retrain == 0 && (w.evolutionFails || (w.evolutionTouched && w.secondRuntimeFails)))
  }

  /** How often a cycle attempts each of the eleven jobs. */
  ghost function Expected(p: Periods, s: Skips, cycle: nat, w: Weather, j: Job): nat
    requires ValidPeriods(p)
  {
    var work, through := Worked(p, cycle), !CutShort(p, cycle, w);
    if w.repoFails then 0
    else
      match j
      case RefreshUs => One(cycle % p.refresh == 0)
      case FreeData => One(work)
      case Validation => One(work)
      case RuntimeRefresh =>
        1 + One(cycle % p.retrain == 0 && !w.runtimeFails && !w.evolutionFails && w.evolutionTouched)
      case Evolution => One(cycle % p.retrain == 0 && !w.runtimeFails)
      case OutcomeResolution => One(work && through)
      case Training => One(cycle % p.train == 0 && !s.training && through)
      case Discovery => One(cycle % p.discovery == 0 && !s.discovery && through)
      case QlibFactory => One(cycle % p.discovery == 0 && !s.discovery && !s.qlibFactory && through)
      case ShadowMonitoring => One(cycle % p.discovery != 0 && !s.discovery && through)
      case Flush => 1
  }

  /** Each job of each cycle, under any weather, counted from the periods and the failures. */
  lemma CycleCounts(p: Periods, s: Skips, cycle: nat, w: Weather, j: Job)
    requires ValidPeriods(p)
    ensures Count(CycleEvents(p, s, cycle, w), j) == Expected(p, s, cycle, w, j)
  {
    hide Count, MaintenanceEvents, LightEvents, DueReal;
    MaintainsIff(p, cycle);
    if w.repoFails {
      NoEvents(p, s, cycle, w);
    } else if Maintains(p, cycle) {
      CountsOf(PlanFor(p, cycle), s, w, j);
    } else {
      CountLight(s, w, j);
    }
  }

  // ----- in which order -----

  function Rank(j: Job): nat {
    match j
    case RefreshUs => 0
    case FreeData => 1
    case Validation => 2
    case RuntimeRefresh => 3
    case Evolution => 4
    case OutcomeResolution => 6
    case Training => 7
    case Discovery => 8
    case QlibFactory => 9
    case ShadowMonitoring => 8
    case Flush => 10
  }

  /** `a` may come before `b`: only the runtime refresh is repeated, after an evolution. */
  predicate MayPrecede(a: Job, b: Job) {
    Rank(a) < Rank(b) || (b.RuntimeRefresh? && (a.Evolution? || a.RuntimeRefresh?))
  }

  ghost predicate InOrder(events: seq<Job>) {
    forall i, j :: 0 <= i < j < |events| ==> MayPrecede(events[i], events[j])
  }

  lemma InOrderConcat(a: seq<Job>, b: seq<Job>)
    requires InOrder(a) && InOrder(b)
    requires forall x, y :: x in a && y in b ==> MayPrecede(x, y)
    ensures InOrder(a + b)
  {
    forall i, j | 0 <= i < j < |a + b| ensures MayPrecede((a + b)[i], (a + b)[j]) {
      if i < |a| <= j {
        assert a[i] in a && b[j - |a|] in b;
      }
    }
  }

  lemma DataInOrder(a: Plan)
    ensures InOrder(DataEvents(a)) && forall x :: x in DataEvents(a) ==> Rank(x) <= 3
  {
  }

  lemma EvolutionInOrder(a: Plan, w: Weather)
    ensures InOrder(EvolutionEvents(a, w))
    ensures forall x :: x in EvolutionEvents(a, w) ==> x.Evolution? || x.RuntimeRefresh?
  {
  }

  lemma LateInOrder(a: Plan, s: Skips)
    ensures InOrder(LateEvents(a, s)) && forall x :: x in LateEvents(a, s) ==> 6 <= Rank(x) < 10
  {
  }

  lemma SegmentsInOrder(a: seq<Job>, b: seq<Job>, c: seq<Job>)
    requires InOrder(a) && InOrder(b) && InOrder(c)
    requires forall x :: x in a ==> Rank(x) <= 3
    requires forall x :: x in b ==> x.Evolution? || x.RuntimeRefresh?
    requires forall x :: x in c ==> 6 <= Rank(x) < 10
    ensures InOrder(a + b + c) && forall x :: x in a + b + c ==> Rank(x) < 10
  {
    hide InOrder;
    InOrderConcat(a, b);
    InOrderConcat(a + b, c);
  }

  lemma BodyInOrder(a: Plan, s: Skips, w: Weather)
    ensures InOrder(BodyEvents(a, s, w)) && forall x :: x in BodyEvents(a, s, w) ==> Rank(x) < 10
  {
    hide DataEvents, EvolutionEvents, LateEvents, Aborts, InOrder, Rank;
    DataInOrder(a);
    EvolutionInOrder(a, w);
    LateInOrder(a, s);
    NothingInOrder();
    SegmentsInOrder(DataEvents(a), When(!w.runtimeFails, EvolutionEvents(a, w)), When(!Aborts(a, w), LateEvents(a, s)));
  }

  lemma NothingInOrder()
    ensures InOrder([])
  {
  }

  /** In order, and ending with the flush. */
  ghost predicate FlushedInOrder(events: seq<Job>) {
    InOrder(events) && events != [] && events[|events| - 1] == Flush
  }

  lemma MaintenanceInOrder(a: Plan, s: Skips, w: Weather)
    requires !w.repoFails
    ensures FlushedInOrder(MaintenanceEvents(a, s, w))
  {
    hide BodyEvents, InOrder, Rank;
    BodyInOrder(a, s, w);
    OneInOrder(Flush);
    FlushIsLast();
    InOrderConcat(BodyEvents(a, s, w), [Flush]);
  }

  lemma FlushIsLast()
    ensures forall j: Job :: Rank(j) < 10 ==> MayPrecede(j, Flush)
  {
  }

  lemma LightInOrder(s: Skips, w: Weather)
    requires !w.repoFails
    ensures FlushedInOrder(LightEvents(s, w))
  {
  }

  /** The events of a cycle come in the fixed order of the jobs, and the flush comes last. */
  lemma CycleInOrder(p: Periods, s: Skips, cycle: nat, w: Weather)
    requires ValidPeriods(p)
    ensures if w.repoFails then CycleEvents(p, s, cycle, w) == [] else FlushedInOrder(CycleEvents(p, s, cycle, w))
  {
    hide FlushedInOrder, Maintains, PlanFor;
    if !w.repoFails {
      MaintenanceInOrder(PlanFor(p, cycle), s, w);
      LightInOrder(s, w);
    }
  }

  lemma OneInOrder(j: Job)
    ensures InOrder([j])
  {
  }

  // ----- what a log tells -----

  /** Where a cycle was cut short; `refreshed` is whether it refreshed a second time on its way through. */
  datatype Cut = NoRepo | AtRefresh | AtEvolution | AtSecondRefresh | Through(refreshed: bool)

  function CutOf(p: Periods, s: Skips, cycle: nat, w: Weather): Cut
    requires ValidPeriods(p)
  {
    var a := PlanFor(p, cycle);
    if w.repoFails then NoRepo
    else if !Maintains(p, cycle) then if w.runtimeFails && !s.discovery then AtRefresh else Through(false)
    else if w.runtimeFails then AtRefresh
    else if a.runEvolution && w.evolutionFails then AtEvolution
    else if Refreshes(a, w) && w.secondRuntimeFails then AtSecondRefresh
    else Through(Refreshes(a, w))
  }

  /**
   From the events of a cycle one can tell where it was cut short, and nothing else: not which of the caught jobs
   failed, not whether the flush did, and not whether a light cycle without discovery was cut at all.
   */
  lemma LogShowsCut(p: Periods, s: Skips, cycle: nat, w: Weather, w': Weather)
    requires ValidPeriods(p)
    ensures CycleEvents(p, s, cycle, w) == CycleEvents(p, s, cycle, w')
         <==> CutOf(p, s, cycle, w) == CutOf(p, s, cycle, w')
  {
    hide Count, Maintains, PlanFor;
    if CycleEvents(p, s, cycle, w) == CycleEvents(p, s, cycle, w') {
      CutFromCounts(p, s, cycle, w);
      CutFromCounts(p, s, cycle, w');
    }
  }

  /** The cut, read off the number of flushes, evolutions, refreshes, resolutions and shadow runs. */
  function CutRead(p: Periods, s: Skips, cycle: nat, e: seq<Job>): Cut
    requires ValidPeriods(p)
  {
    if Count(e, Flush) == 0 then NoRepo
    else if !Maintains(p, cycle) then
      if s.discovery || Count(e, ShadowMonitoring) == 1 then Through(false) else AtRefresh
    else if Count(e, OutcomeResolution) == 1 then Through(Count(e, RuntimeRefresh) == 2)
    else if Count(e, RuntimeRefresh) == 2 then AtSecondRefresh
    else if Count(e, Evolution) == 1 then AtEvolution
    else AtRefresh
  }

  lemma CutFromCounts(p: Periods, s: Skips, cycle: nat, w: Weather)
    requires ValidPeriods(p)
    ensures CutRead(p, s, cycle, CycleEvents(p, s, cycle, w)) == CutOf(p, s, cycle, w)
  {
    hide Count, Maintains, PlanFor, MaintenanceEvents, LightEvents;
    if w.repoFails {
      NoEvents(p, s, cycle, w);
    } else if Maintains(p, cycle) {
      var a := PlanFor(p, cycle);
      CountsOf(a, s, w, Flush);
      CountsOf(a, s, w, OutcomeResolution);
      CountsOf(a, s, w, RuntimeRefresh);
      CountsOf(a, s, w, Evolution);
    } else {
      CountLight(s, w, Flush);
      CountLight(s, w, ShadowMonitoring);
    }
  }

  // ----- over many cycles -----

  /** How many of the cycles start+1, ..., start+n are due. */
  function DueCount(start: nat, n: nat, every: nat): nat
    requires every >= 1
  {
    if n == 0 then 0 else DueCount(start, n - 1, every) + One(Due(start + n, every))
  }

  lemma DivStep(k: nat, every: nat)
    requires every >= 1
    ensures (k + 1) / every == k / every + One(Due(k + 1, every))
  {
    var q, r := k / every, k % every;
    assert k == q * every + r;
    if r + 1 == every {
      DivUnique(k + 1, q + 1, 0, every);
    } else {
      DivUnique(k + 1, q, r + 1, every);
    }
  }

  lemma Spread(d: int, e: int)
    requires e >= 1
    ensures d >= 1 ==> d * e >= e
    ensures d <= -1 ==> d * e <= -e
  {
    if d >= 1 {
      assert d * e - e == (d - 1) * e;
    } else if d <= -1 {
      assert d * e + e == (d + 1) * e;
    }
  }

  lemma DivUnique(x: nat, q: nat, r: nat, every: nat)
    requires every >= 1 && r < every && x == q * every + r
    ensures x / every == q && x % every == r
  {
    var q', r' := x / every, x % every;
    assert x == q' * every + r';
    assert (q - q') * every == r' - r;
    Spread(q - q', every);
  }

  /** A job with period N is due floor(K / N) times in the first K cycles. */
  lemma {:induction false} DueExactly(start: nat, n: nat, every: nat)
    requires every >= 1
    ensures DueCount(start, n, every) == (start + n) / every - start / every
  {
    if n > 0 {
      DueExactly(start, n - 1, every);
      DivStep(start + n - 1, every);
    }
  }

  /** It is due exactly once in every N consecutive cycles, wherever they start. */
  lemma DueOncePerPeriod(start: nat, every: nat)
    requires every >= 1
    ensures DueCount(start, every, every) == 1
  {
    DueExactly(start, every, every);
    var q, r := start / every, start % every;
    assert start + every == (q + 1) * every + r;
    DivUnique(start + every, q + 1, r, every);
  }

  /** A period is as close to the requested hours as whole cycles allow, from half an interval up. */
  lemma PeriodMatchesHours(hours: real, interval: real)
    requires interval > 0.0 && hours * 3600.0 >= interval / 2.0
    ensures var n := EveryCycles(hours, interval) as real;
            -interval / 2.0 <= n * interval - hours * 3600.0 <= interval / 2.0
  {
    var x := hours * 3600.0 / interval;
    assert x * interval == hours * 3600.0;
    BelowHalf(x, interval);
    var n := EveryCycles(hours, interval) as real;
    assert -0.5 <= n - x <= 0.5;
    Widen(n - x, interval);
    assert (n - x) * interval == n * interval - hours * 3600.0;
  }

  lemma BelowHalf(x: real, interval: real)
    requires interval > 0.0
    ensures x < 0.5 ==> x * interval < interval / 2.0
  {
  }

  lemma Widen(d: real, interval: real)
    requires interval > 0.0 && -0.5 <= d <= 0.5
    ensures -interval / 2.0 <= d * interval <= interval / 2.0
  {
  }

  /** A run is its cycles one after the other, numbered on from where it started. */
  lemma {:induction false} RunsConcatenate(p: Periods, s: Skips, start: nat, a: seq<Weather>, b: seq<Weather>)
    requires ValidPeriods(p)
    ensures RunEvents(p, s, start, a + b) == RunEvents(p, s, start, a) + RunEvents(p, s, start + |a|, b)
    ensures |b| == 1 ==> RunEvents(p, s, start + |a|, b) == CycleEvents(p, s, start + |a| + 1, b[0])
  {
    hide CycleEvents;
    if b == [] {
      assert a + b == a;
    } else {
      var n := |b| - 1;
      assert (a + b)[..|a + b| - 1] == a + b[..n];
      RunsConcatenate(p, s, start, a, b[..n]);
      assert RunEvents(p, s, start + |a|, []) == [];
    }
  }

  /** How many cycles of the run got hold of the repository. */
  function CyclesWithRepo(weather: seq<Weather>): nat {
    if weather == [] then 0 else CyclesWithRepo(weather[..|weather| - 1]) + One(!weather[|weather| - 1].repoFails)
  }

  /**
   Whole runs: one flush per cycle that had its repository; the US refresh attempted exactly when due; discovery
   at most when due; the Qlib factory only with discovery; and never more than one of discovery and shadow
   monitoring to a cycle.
   */
  lemma {:induction false} RunTotals(p: Periods, s: Skips, start: nat, weather: seq<Weather>)
    requires ValidPeriods(p)
    ensures var e := RunEvents(p, s, start, weather);
            && Count(e, Flush) == CyclesWithRepo(weather)
            && Count(e, Discovery) + Count(e, ShadowMonitoring) <= Count(e, Flush)
            && Count(e, Discovery) <= DueCount(start, |weather|, p.discovery)
            && Count(e, RefreshUs) <= DueCount(start, |weather|, p.refresh)
            && Count(e, Evolution) <= DueCount(start, |weather|, p.retrain)
            && Count(e, Training) <= DueCount(start, |weather|, p.train)
            && Count(e, QlibFactory) <= Count(e, Discovery)
  {
    hide CycleEvents, Due, Count;
    if weather == [] {
      NothingCounted();
    } else {
      var n := |weather| - 1;
      RunTotals(p, s, start, weather[..n]);
      RunAppends(p, s, start, weather);
      CycleKeeps(p, s, start + n + 1, weather[n]);
    }
  }

  lemma NothingCounted()
    ensures forall j :: Count([], j) == 0
  {
  }

  lemma RunAppends(p: Periods, s: Skips, start: nat, weather: seq<Weather>)
    requires ValidPeriods(p) && weather != []
    ensures var n := |weather| - 1;
            forall j :: Count(RunEvents(p, s, start, weather), j)
                     == Count(RunEvents(p, s, start, weather[..n]), j)
                      + Count(CycleEvents(p, s, start + n + 1, weather[n]), j)
  {
    hide CycleEvents, Count;
    var n := |weather| - 1;
    var before, last := RunEvents(p, s, start, weather[..n]), CycleEvents(p, s, start + n + 1, weather[n]);
    assert RunEvents(p, s, start, weather) == before + last;
    forall j ensures Count(before + last, j) == Count(before, j) + Count(last, j) {
      CountConcat(before, last, j);
    }
  }

  /** A run in which nothing aborts a cycle. */
  ghost predicate Fair(weather: seq<Weather>) {
    forall i :: 0 <= i < |weather| ==>
      !weather[i].repoFails && !weather[i].runtimeFails && !weather[i].evolutionFails && !weather[i].secondRuntimeFails
  }

  lemma {:induction false} FairRunCounts(p: Periods, s: Skips, weather: seq<Weather>)
    requires ValidPeriods(p) && Fair(weather)
    ensures var e, k := RunEvents(p, s, 0, weather), |weather|;
            && Count(e, Flush) == k
            && Count(e, RefreshUs) == DueCount(0, k, p.refresh)
            && Count(e, Evolution) == DueCount(0, k, p.retrain)
            && Count(e, Training) == (if s.training then 0 else DueCount(0, k, p.train))
            && Count(e, Discovery) == (if s.discovery then 0 else DueCount(0, k, p.discovery))
            && Count(e, QlibFactory) == (if s.discovery || s.qlibFactory then 0 else DueCount(0, k, p.discovery))
            && Count(e, ShadowMonitoring) == (if s.discovery then 0 else k - DueCount(0, k, p.discovery))
  {
    hide CycleEvents, Due, Count;
    if weather == [] {
      NothingCounted();
    } else {
      var n := |weather| - 1;
      FairRunCounts(p, s, weather[..n]);
      RunAppends(p, s, 0, weather);
      CycleKeeps(p, s, n + 1, weather[n]);
    }
  }

  lemma DueFromStart(n: nat, every: nat)
    requires every >= 1
    ensures DueCount(0, n, every) == n / every
  {
    DueExactly(0, n, every);
    DivUnique(0, 0, 0, every);
  }

  /** In a fair run, whatever else fails, every enabled job is attempted exactly as often as it is due. */
  lemma FairRunTotals(p: Periods, s: Skips, weather: seq<Weather>)
    requires ValidPeriods(p) && Fair(weather)
    ensures var e, k := RunEvents(p, s, 0, weather), |weather|;
            && Count(e, Flush) == k
            && Count(e, RefreshUs) == k / p.refresh
            && Count(e, Evolution) == k / p.retrain
            && Count(e, Training) == (if s.training then 0 else k / p.train)
            && Count(e, Discovery) == (if s.discovery then 0 else k / p.discovery)
            && Count(e, QlibFactory) == (if s.discovery || s.qlibFactory then 0 else k / p.discovery)
            && Count(e, ShadowMonitoring) == (if s.discovery then 0 else k - k / p.discovery)
  {
    hide RunEvents, Count, DueCount;
    FairRunCounts(p, s, weather);
    DueFromStart(|weather|, p.refresh);
    DueFromStart(|weather|, p.retrain);
    DueFromStart(|weather|, p.train);
    DueFromStart(|weather|, p.discovery);
  }

  /** How many of the cycles start+1, ..., start+n do maintenance. */
  ghost function WorkedCount(p: Periods, start: nat, n: nat): nat
    requires ValidPeriods(p)
  {
    if n == 0 then 0 else WorkedCount(p, start, n - 1) + One(Worked(p, start + n))
  }

  /** With a whole validation period every multiple of it does. */
  lemma {:induction false} WorkedOnEveryPeriod(p: Periods, start: nat, n: nat, every: nat)
    requires ValidPeriods(p) && every >= 1 && p.validateEvery == every as real
    ensures WorkedCount(p, start, n) >= DueCount(start, n, every)
  {
    hide Worked, Due;
    if n > 0 {
      WorkedOnEveryPeriod(p, start, n - 1, every);
      DueIsWorked(p, start + n, every);
    }
  }

  lemma DueIsWorked(p: Periods, cycle: nat, every: nat)
    requires ValidPeriods(p) && every >= 1 && p.validateEvery == every as real
    ensures Due(cycle, every) ==> Worked(p, cycle)
  {
    var q := cycle / every;
    assert cycle == q * every + cycle % every;
    assert Due(cycle, every) ==> IsTimes(cycle, q, p.validateEvery);
  }

  /** In a fair run every maintenance cycle brings the free data, validates and resolves outcomes, once each. */
  lemma {:induction false} FairRunMaintains(p: Periods, s: Skips, start: nat, weather: seq<Weather>)
    requires ValidPeriods(p) && Fair(weather)
    ensures var e := RunEvents(p, s, start, weather);
            && Count(e, FreeData) == WorkedCount(p, start, |weather|)
            && Count(e, Validation) == WorkedCount(p, start, |weather|)
            && Count(e, OutcomeResolution) == WorkedCount(p, start, |weather|)
            && Count(e, RuntimeRefresh) >= |weather|
  {
    hide CycleEvents, Worked, Count;
    if weather == [] {
      NothingCounted();
    } else {
      var n := |weather| - 1;
      FairRunMaintains(p, s, start, weather[..n]);
      RunAppends(p, s, start, weather);
      CycleCounts(p, s, start + n + 1, weather[n], FreeData);
      CycleCounts(p, s, start + n + 1, weather[n], Validation);
      CycleCounts(p, s, start + n + 1, weather[n], OutcomeResolution);
      CycleCounts(p, s, start + n + 1, weather[n], RuntimeRefresh);
    }
  }

  /** Below half an interval the job is due in every cycle. */
  lemma ShortHoursEveryCycle(hours: real, interval: real)
    requires interval > 0.0 && hours * 3600.0 < interval / 2.0
    ensures EveryCycles(hours, interval) == 1
  {
    var x := hours * 3600.0 / interval;
    assert x * interval == hours * 3600.0;
    assert x >= 0.5 ==> (x - 0.5) * interval >= 0.0;
  }
}
