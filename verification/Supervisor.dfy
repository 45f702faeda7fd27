/**
 Supervision of the managed children: the supervisor's probes and pauses interleave with children that die and
 with the terminal events Node delivers for them.
 */
module Supervisor {
  import opened Numbers

  datatype Kind = Api | Worker

  /** Where the supervisor waits: between ticks, for a probe's answer, or for a new child to settle. */
  datatype Phase = Idle | Probing(kind: Kind) | Settling(kind: Kind)

  /**
   One kind of child: the slot the script keeps, the children that run, and those that have stopped or never
   started and whose terminal event is still to be delivered.
   */
  datatype Side = Side(slot: Option<nat>, alive: set<nat>, ended: set<nat>)

  datatype World = World(api: Side, worker: Side, phase: Phase, next: nat)

  /** Kinds that are launched at all. */
  datatype Skip = Skip(api: bool, worker: bool)

  predicate Skips(s: Skip, k: Kind) {
    match k
    case Api => s.api
    case Worker => s.worker
  }

  datatype Event =
    | Tick
    | Probed(running: bool, starts: bool)  // the probe's answer; whether a spawned child comes up
    | Settled
    | Dies(kind: Kind, pid: nat)
    | Terminal(kind: Kind, pid: nat)       // an `exit` or `error` event reaches the slot's handler

  function SideOf(w: World, k: Kind): Side {
    match k
    case Api => w.api
    case Worker => w.worker
  }

  function WithSide(w: World, k: Kind, s: Side): World {
    match k
    case Api => w.(api := s)
    case Worker => w.(worker := s)
  }

  /** What is probed after the API part. */
  function AfterApi(s: Skip): Phase {
    if s.worker then Idle else Probing(Worker)
  }

  function FirstPhase(s: Skip): Phase {
    if s.api then AfterApi(s) else Probing(Api)
  }

  function PhaseAfter(s: Skip, k: Kind): Phase {
    if k == Api then AfterApi(s) else Idle
  }

  /** A new child: it runs, or it fails to start and its `error` event is on its way. */
  function Spawned(w: World, k: Kind, starts: bool): World {
    var side := SideOf(w, k);
    WithSide(w, k, Side(Some(w.next), if starts then side.alive + {w.next} else side.alive,
                        if starts then side.ended else side.ended + {w.next})).(next := w.next + 1)
  }

  /** What may happen next; a terminal event, only once per child and after its end. */
  predicate Enabled(w: World, e: Event) {
    match e
    case Tick => w.phase.Idle?
    case Probed(_, _) => w.phase.Probing?
    case Settled => w.phase.Settling?
    case Dies(k, pid) => pid in SideOf(w, k).alive
    case Terminal(k, pid) => pid in SideOf(w, k).ended
  }

  /** The handlers, as the script writes them: the terminal handler clears the slot whatever child it is for. */
  function Step(s: Skip, w: World, e: Event): World {
    match e
    case Tick => w.(phase := FirstPhase(s))
    case Probed(running, starts) =>
      if !w.phase.Probing? then w
      else
        var k := w.phase.kind;
        if !running && SideOf(w, k).slot.None? then Spawned(w, k, starts).(phase := Settling(k))
        else w.(phase := PhaseAfter(s, k))
    case Settled => if w.phase.Settling? then w.(phase := PhaseAfter(s, w.phase.kind)) else w
    case Dies(k, pid) =>
      var side := SideOf(w, k);
      WithSide(w, k, side.(alive := side.alive - {pid}, ended := side.ended + {pid}))
    case Terminal(k, pid) =>
      var side := SideOf(w, k);
      WithSide(w, k, side.(slot := None, ended := side.ended - {pid}))
  }

  /** Every event is enabled when it happens. */
  predicate Run(s: Skip, w: World, events: seq<Event>) {
    if events == [] then true
    else Run(s, w, events[..|events| - 1]) && Enabled(After(s, w, events[..|events| - 1]), events[|events| - 1])
  }

  function After(s: Skip, w: World, events: seq<Event>): World {
    if events == [] then w else Step(s, After(s, w, events[..|events| - 1]), events[|events| - 1])
  }

  const START: World := World(Side(None, {}, {}), Side(None, {}, {}), Idle, 0)

  // ----- the handlers over mutable state -----

  // Each handler's new state is the step's, and the invariant below is kept by every handler of an enabled event.

  class Managed {
    const skip: Skip
    var apiSlot: Option<nat>
    var workerSlot: Option<nat>
    var phase: Phase
    var next: nat
    ghost var apiChildren: (set<nat>, set<nat>)     // running, ended
    ghost var workerChildren: (set<nat>, set<nat>)

    ghost function Now(): World
      reads this
    {
      World(Side(apiSlot, apiChildren.0, apiChildren.1),
            Side(workerSlot, workerChildren.0, workerChildren.1), phase, next)
    }

    constructor (skip: Skip)
      ensures this.skip == skip && Now() == START && Inv(Now())
    {
      this.skip := skip;
      apiSlot, workerSlot, phase, next := None, None, Idle, 0;
      apiChildren, workerChildren := ({}, {}), ({}, {});
    }

    /** The part of `ensureManagedProcesses` behind a probe: the slot is read after the answer has arrived. */
    method OnProbed(running: bool, ghost starts: bool)
      requires phase.Probing?
      modifies this
      ensures Now() == Step(skip, old(Now()), Probed(running, starts))
      ensures old(Inv(Now()) && Enabled(Now(), Probed(running, starts))) ==> Inv(Now())
    {
      StepKeeps(skip, Now(), Probed(running, starts));
      var k := phase.kind;
      var free := if k == Api then apiSlot.None? else workerSlot.None?;
      if !running && free {
        if k == Api {
          apiSlot := Some(next);
          apiChildren := if starts then (apiChildren.0 + {next}, apiChildren.1)
                         else (apiChildren.0, apiChildren.1 + {next});
        } else {
          workerSlot := Some(next);
          workerChildren := if starts then (workerChildren.0 + {next}, workerChildren.1)
                            else (workerChildren.0, workerChildren.1 + {next});
        }
        next := next + 1;
        phase := Settling(k);
      } else {
        phase := PhaseAfter(skip, k);
      }
    }

    method OnTerminal(k: Kind, ghost pid: nat)
      modifies this
      ensures Now() == Step(skip, old(Now()), Terminal(k, pid))
      ensures old(Inv(Now()) && Enabled(Now(), Terminal(k, pid))) ==> Inv(Now())
    {
      StepKeeps(skip, Now(), Terminal(k, pid));
      if k == Api {
        apiSlot := None;
        apiChildren := (apiChildren.0, apiChildren.1 - {pid});
      } else {
        workerSlot := None;
        workerChildren := (workerChildren.0, workerChildren.1 - {pid});
      }
    }

    method OnTick()
      modifies this
      ensures Now() == Step(skip, old(Now()), Tick)
      ensures old(Inv(Now()) && Enabled(Now(), Tick)) ==> Inv(Now())
    {
      StepKeeps(skip, Now(), Tick);
      phase := FirstPhase(skip);
    }

    method OnSettled()
      requires phase.Settling?
      modifies this
      ensures Now() == Step(skip, old(Now()), Settled)
      ensures old(Inv(Now()) && Enabled(Now(), Settled)) ==> Inv(Now())
    {
      StepKeeps(skip, Now(), Settled);
      phase := PhaseAfter(skip, phase.kind);
    }
  }

  // ----- the invariant -----

  /** The slot holds the one child that runs or whose end has not been noticed yet. */
  ghost predicate Faithful(side: Side, next: nat) {
    && side.alive !! side.ended
    && side.alive + side.ended == (match side.slot case None => {} case Some(p) => {p})
    && forall p :: p in side.alive + side.ended ==> p < next
  }

  ghost predicate Inv(w: World) {
    Faithful(w.api, w.next) && Faithful(w.worker, w.next)
  }

  lemma StepKeepsInv(s: Skip, w: World, e: Event)
    requires Inv(w) && Enabled(w, e)
    ensures Inv(Step(s, w, e))
  {
  }

  lemma StepKeeps(s: Skip, w: World, e: Event)
    ensures Inv(w) && Enabled(w, e) ==> Inv(Step(s, w, e))
  {
    if Inv(w) && Enabled(w, e) {
      StepKeepsInv(s, w, e);
    }
  }

  lemma {:induction false} RunKeepsInv(s: Skip, w: World, events: seq<Event>)
    requires Inv(w) && Run(s, w, events)
    ensures Inv(After(s, w, events))
  {
    if events != [] {
      hide Inv, Enabled, Step;
      RunKeepsInv(s, w, events[..|events| - 1]);
      StepKeepsInv(s, After(s, w, events[..|events| - 1]), events[|events| - 1]);
    }
  }

  /** At most one child of the kind runs, and the slot names it. */
  ghost predicate Single(w: World, k: Kind) {
    var side := SideOf(w, k);
    |side.alive| <= 1 && forall p :: p in side.alive ==> side.slot == Some(p)
  }

  lemma InvIsSingle(w: World, k: Kind)
    requires Inv(w)
    ensures Single(w, k)
  {
    var side := SideOf(w, k);
    match side.slot {
      case None => assert side.alive == {};
      case Some(p) =>
        assert side.alive <= {p};
        SubsetSize(side.alive, {p});
    }
  }

  lemma SubsetSize(a: set<nat>, b: set<nat>)
    requires a <= b
    ensures |a| <= |b|
  {
    assert b == a + (b - a);
  }

  /** Over all interleavings from the start, at most one API child and one worker run, and the slots name them. */
  lemma SupervisionInvariant(s: Skip, events: seq<Event>, k: Kind)
    requires Run(s, START, events)
    ensures Single(After(s, START, events), k)
  {
    RunKeepsInv(s, START, events);
    InvIsSingle(After(s, START, events), k);
  }

  // ----- kinds that are not launched -----

  /** Nothing of the kind has ever been started, and nothing is about to be. */
  predicate Untouched(w: World, k: Kind) {
    SideOf(w, k) == Side(None, {}, {}) && (w.phase.Idle? || w.phase.kind != k)
  }

  /** Over all interleavings from the start, a kind that is skipped is neither probed nor started. */
  lemma {:induction false} SkippedNeverLaunched(s: Skip, events: seq<Event>, k: Kind)
    requires Run(s, START, events) && Skips(s, k)
    ensures Untouched(After(s, START, events), k)
  {
    if events != [] {
      SkippedNeverLaunched(s, events[..|events| - 1], k);
    }
  }

  /** The events of one call of the supervisor in which every probe finds its process running. */
  function QuietRound(s: Skip): seq<Event> {
    [Tick] + (if s.api then [] else [Probed(true, false)]) + (if s.worker then [] else [Probed(true, false)])
  }

  /** One call probes each launched kind once, the API first, and leaves the children alone. */
  lemma RoundProbesLaunched(s: Skip, w: World)
    requires w.phase.Idle?
    ensures Run(s, w, QuietRound(s)) && After(s, w, QuietRound(s)) == w
    ensures After(s, w, [Tick]).phase == if !s.api then Probing(Api) else if !s.worker then Probing(Worker) else Idle
    ensures !s.api ==> After(s, w, [Tick, Probed(true, false)]).phase == if s.worker then Idle else Probing(Worker)
  {
    var p := Probed(true, false);
    RunOne(s, w, Tick);
    var w1 := Step(s, w, Tick);
    if !s.api || !s.worker {
      RunOne(s, w1, p);
      RunConcat(s, w, [Tick], [p]);
      assert [Tick] + [p] == [Tick, p];
      if !s.api && !s.worker {
        RunOne(s, Step(s, w1, p), p);
        RunConcat(s, w, [Tick, p], [p]);
      }
    }
    assert QuietRound(s) == if s.api && s.worker then [Tick]
                            else if s.api || s.worker then [Tick, p]
                            else [Tick, p] + [p];
  }

  // ----- the assumption on terminal events is exactly what it takes -----

  /** From here on, every run leaves at most one child of the kind. */
  ghost predicate AlwaysSingle(s: Skip, w: World, k: Kind) {
    forall events :: Run(s, w, events) ==> |SideOf(After(s, w, events), k).alive| <= 1
  }

  lemma {:induction false} RunConcat(s: Skip, w: World, a: seq<Event>, b: seq<Event>)
    ensures After(s, w, a + b) == After(s, After(s, w, a), b)
    ensures Run(s, w, a + b) <==> Run(s, w, a) && Run(s, After(s, w, a), b)
  {
    if b == [] {
      assert a + b == a;
    } else {
      assert (a + b)[..|a + b| - 1] == a + b[..|b| - 1];
      RunConcat(s, w, a, b[..|b| - 1]);
    }
  }

  lemma RunOne(s: Skip, w: World, e: Event)
    requires Enabled(w, e)
    ensures Run(s, w, [e]) && After(s, w, [e]) == Step(s, w, e)
  {
    assert [e][..0] == [];
    assert After(s, w, []) == w;
  }

  /** How many waits lie between a phase and the probe of a kind. */
  function Distance(phase: Phase, k: Kind): nat {
    match k
    case Api => if phase == Probing(Api) then 0 else if phase.Idle? then 1 else if phase == Settling(Worker) then 2
                else if phase == Probing(Worker) then 3 else 4
    case Worker => if phase == Probing(Worker) then 0 else if phase.Idle? then 2
                   else if phase == Settling(Worker) then 3 else 1
  }

  /** The supervisor never waits on a kind that is not launched. */
  predicate Launched(s: Skip, phase: Phase) {
    phase.Idle? || !Skips(s, phase.kind)
  }

  /** It gets back to the probe of any kind that is launched, without touching any child. */
  lemma {:induction false} ReachProbe(s: Skip, w: World, k: Kind) returns (events: seq<Event>)
    requires !Skips(s, k) && Launched(s, w.phase)
    ensures Run(s, w, events) && After(s, w, events) == w.(phase := Probing(k))
    decreases Distance(w.phase, k)
  {
    if w.phase == Probing(k) {
      events := [];
    } else {
      var e := if w.phase.Idle? then Tick else if w.phase.Settling? then Settled else Probed(true, false);
      RunOne(s, w, e);
      var rest := ReachProbe(s, Step(s, w, e), k);
      RunConcat(s, w, [e], rest);
      events := [e] + rest;
    }
  }

  /** With an empty slot a negative probe adds a running child, whatever else is running. */
  lemma SpawnAnother(s: Skip, w: World, k: Kind) returns (events: seq<Event>)
    requires !Skips(s, k) && Launched(s, w.phase) && SideOf(w, k).slot.None?
    ensures Run(s, w, events)
    ensures var side, side' := SideOf(w, k), SideOf(After(s, w, events), k);
            side'.alive == side.alive + {w.next} && side'.ended == side.ended
    ensures After(s, w, events).phase == Settling(k) && After(s, w, events).next == w.next + 1
  {
    var path := ReachProbe(s, w, k);
    var e := Probed(false, true);
    RunOne(s, w.(phase := Probing(k)), e);
    RunConcat(s, w, path, [e]);
    events := path + [e];
  }

  /** All pids in use are old. */
  ghost predicate Old(w: World, k: Kind) {
    forall p :: p in SideOf(w, k).alive + SideOf(w, k).ended ==> p < w.next
  }

  /** A slot emptied while a child still runs lets a second one start beside it. */
  lemma EmptySlotDoubles(s: Skip, w: World, k: Kind)
    requires !Skips(s, k) && Launched(s, w.phase) && SideOf(w, k).slot.None? && SideOf(w, k).alive != {} && Old(w, k)
    ensures !AlwaysSingle(s, w, k)
  {
    var events := SpawnAnother(s, w, k);
    var alive := SideOf(w, k).alive;
    SomeChild(alive);
    var p :| p in alive;
    assert p in SideOf(w, k).alive + SideOf(w, k).ended;
    SubsetSize({p, w.next}, SideOf(After(s, w, events), k).alive);
    assert |{p, w.next}| == 2;
  }

  lemma SomeChild(a: set<nat>)
    ensures a == {} || exists p :: p in a
  {
    if !exists p :: p in a {
      assert a == {};
    }
  }

  /** So does an end that is still to be noticed: its event will clear the slot of the child started meanwhile. */
  lemma LateTerminalDoubles(s: Skip, w: World, k: Kind)
    requires !Skips(s, k) && Launched(s, w.phase) && SideOf(w, k).slot.None? && SideOf(w, k).ended != {} && Old(w, k)
    ensures !AlwaysSingle(s, w, k)
  {
    var first := SpawnAnother(s, w, k);
    var w1 := After(s, w, first);
    SomeChild(SideOf(w, k).ended);
    var q :| q in SideOf(w, k).ended;
    RunOne(s, w1, Terminal(k, q));
    var w2 := Step(s, w1, Terminal(k, q));
    var second := SpawnAnother(s, w2, k);
    RunConcat(s, w, first, [Terminal(k, q)]);
    RunConcat(s, w, first + [Terminal(k, q)], second);
    var w3 := After(s, w, first + [Terminal(k, q)] + second);
    assert w.next in SideOf(w3, k).alive && w2.next in SideOf(w3, k).alive;
    SubsetSize({w.next, w2.next}, SideOf(w3, k).alive);
    assert |{w.next, w2.next}| == 2;
  }

  /**
   The handler clears the slot for any terminal event. That is safe, for all that can follow, if and only if no
   child of the kind still runs and no other one's terminal event is outstanding.
   */
  lemma TerminalSafeIff(s: Skip, w: World, k: Kind, pid: nat)
    requires Inv(w) && !Skips(s, k) && Launched(s, w.phase)
    ensures AlwaysSingle(s, Step(s, w, Terminal(k, pid)), k)
            <==> SideOf(w, k).alive == {} && SideOf(w, k).ended <= {pid}
  {
    var w' := Step(s, w, Terminal(k, pid));
    var side := SideOf(w, k);
    if side.alive != {} {
      EmptySlotDoubles(s, w', k);
    } else if !(side.ended <= {pid}) {
      assert SideOf(w', k).ended == side.ended - {pid} != {};
      LateTerminalDoubles(s, w', k);
    } else {
      assert SideOf(w', k).ended == {};
      forall events | Run(s, w', events) ensures |SideOf(After(s, w', events), k).alive| <= 1 {
        RunKeepsInv(s, w', events);
        InvIsSingle(After(s, w', events), k);
      }
    }
  }
}
