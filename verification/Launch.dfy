/** The launch command: what the launchd script prints, and what the backend's argument parser reads back. */
module Launch {
  import opened Numbers
  import opened Shell

  // ----- JavaScript -----

  /** `Number(s)` and `String(x)`. */
  datatype Js = Js(number: string -> Num, text: Num -> string)

  /** ECMA-262, Number::toString: the text of a number reads back as that number; it is never empty nor an option. */
  ghost predicate Prints(js: Js, x: Num) {
    js.number(js.text(x)) == x && js.text(x) != "" && !IsOption(js.text(x))
  }

  predicate IsOption(s: string) {
    |s| >= 2 && s[0] == '-' && s[1] == '-'
  }

  predicate IsSpace(c: char) {
    c in " \t\n\r" || c == '\U{000B}' || c == '\U{000C}' || c == '\U{00A0}' || c == '\U{FEFF}'
    || c == '\U{1680}' || '\U{2000}' <= c <= '\U{200A}' || c == '\U{2028}' || c == '\U{2029}'
    || c == '\U{202F}' || c == '\U{205F}' || c == '\U{3000}'
  }

  function TrimStart(s: string): string {
    if s != "" && IsSpace(s[0]) then TrimStart(s[1..]) else s
  }

  function TrimEnd(s: string): string {
    if s != "" && IsSpace(s[|s| - 1]) then TrimEnd(s[..|s| - 1]) else s
  }

  function Trim(s: string): string {
    TrimEnd(TrimStart(s))
  }

  /** `Math.max(floor, x)`. */
  function AtLeast(floor: Num, x: Num): Num {
    if x == NaN then NaN else if Lt(x, floor) then floor else x
  }

  // ----- options -----

  /** The numeric options both scripts know. */
  datatype Figures = Figures(
    port: Num, deriveIntervalSec: Num, validateEvery: Num, usRefreshHours: Num, retrainHours: Num,
    trainHours: Num, trainingLimit: Num, supervisorCheckSec: Num)

  /** What the launchd script prints and the backend reads. */
  datatype LaunchOptions = LaunchOptions(userId: string, figures: Figures, trainer: string, executeTraining: bool)

  datatype Skips = Skips(init: bool, api: bool, worker: bool, training: bool, discovery: bool, qlibFactory: bool)

  /** The backend's options: the shared ones, and those no launch command carries. */
  datatype BackendOptions = BackendOptions(launch: LaunchOptions, discoveryEveryHours: Num, skips: Skips, once: bool)

  // ----- the printer -----

  /** An option and its value, as two words. */
  function Pair(key: string, value: string): seq<string> {
    ["--" + key, value]
  }

  function Arguments(js: Js, o: LaunchOptions): seq<string> {
    Pair("user", o.userId) + FigureArguments(js, o)
  }

  function FigureArguments(js: Js, o: LaunchOptions): seq<string> {
    var g := o.figures;
    Pair("port", js.text(g.port)) + (
    Pair("derive-interval-sec", js.text(g.deriveIntervalSec)) + (
    Pair("validate-every", js.text(g.validateEvery)) + (
    Pair("us-refresh-hours", js.text(g.usRefreshHours)) + (
    Pair("retrain-hours", js.text(g.retrainHours)) + (
    Pair("train-hours", js.text(g.trainHours)) + (
    Pair("trainer", o.trainer) + (
    Pair("training-limit", js.text(g.trainingLimit)) + (
    Pair("supervisor-check-sec", js.text(g.supervisorCheckSec)) + (
    if o.executeTraining then ["--" + "execute-training"] else [])))))))))
  }

  function BuildAutoBackendCommand(js: Js, o: LaunchOptions): string {
    CommandLine(["npm", "run", "auto:backend", "--"] + Arguments(js, o))
  }

  // ----- the parser -----

  datatype Flag =
    | User | Port | DeriveIntervalSec | ValidateEvery | UsRefreshHours | RetrainHours | TrainHours | Trainer
    | TrainingLimit | SupervisorCheckSec | DiscoveryHours | ExecuteTraining
    | SkipInit | SkipApi | SkipWorker | SkipTraining | SkipDiscovery | SkipQlibFactory | Once | Unknown

  function FlagOf(key: string): Flag {
    match key
    case "user" => User
    case "port" => Port
    case "derive-interval-sec" => DeriveIntervalSec
    case "validate-every" => ValidateEvery
    case "us-refresh-hours" => UsRefreshHours
    case "retrain-hours" => RetrainHours
    case "train-hours" => TrainHours
    case "trainer" => Trainer
    case "training-limit" => TrainingLimit
    case "supervisor-check-sec" => SupervisorCheckSec
    case "discovery-hours" => DiscoveryHours
    case "execute-training" => ExecuteTraining
    case "skip-init" => SkipInit
    case "skip-api" => SkipApi
    case "skip-worker" => SkipWorker
    case "skip-training" => SkipTraining
    case "skip-discovery" => SkipDiscovery
    case "skip-qlib-factory" => SkipQlibFactory
    case "once" => Once
    case _ => Unknown
  }

  /** The text before the first `=`. */
  function BeforeEq(s: string): string {
    if s == "" || s[0] == '=' then "" else [s[0]] + BeforeEq(s[1..])
  }

  /** `token.slice(2).split('=')`: the raw key, and the inline value up to a second `=`. */
  function InlineValue(s: string): Option<string> {
    if |BeforeEq(s)| >= |s| then None else Some(BeforeEq(s[|BeforeEq(s)| + 1..]))
  }

  /** `Math.max(floor, Number(next) || current)`, when there is a next. */
  function Figure(js: Js, floor: real, next: string, current: Num): Num {
    if next == "" then current else AtLeast(Fin(floor), Or(js.number(next), current))
  }

  /** The lines the two option loops have in common; `next` is empty when it is missing. */
  function ApplyShared(js: Js, out: LaunchOptions, flag: Flag, next: string): LaunchOptions {
    var g := out.figures;
    match flag
    case User => if next == "" || Trim(next) == "" then out else out.(userId := Trim(next))
    case Port => out.(figures := g.(port := Figure(js, 1.0, next, g.port)))
    case DeriveIntervalSec => out.(figures := g.(deriveIntervalSec := Figure(js, 30.0, next, g.deriveIntervalSec)))
    case ValidateEvery => out.(figures := g.(validateEvery := Figure(js, 1.0, next, g.validateEvery)))
    case UsRefreshHours => out.(figures := g.(usRefreshHours := Figure(js, 1.0, next, g.usRefreshHours)))
    case RetrainHours => out.(figures := g.(retrainHours := Figure(js, 1.0, next, g.retrainHours)))
    case TrainHours => out.(figures := g.(trainHours := Figure(js, 1.0, next, g.trainHours)))
    case Trainer => if next == "" then out else out.(trainer := Trim(next))
    case TrainingLimit => out.(figures := g.(trainingLimit := Figure(js, 1.0, next, g.trainingLimit)))
    case SupervisorCheckSec => out.(figures := g.(supervisorCheckSec := Figure(js, 5.0, next, g.supervisorCheckSec)))
    case ExecuteTraining => out.(executeTraining := true)
    case _ => out
  }

  /** One turn of the backend's option loop. */
  function Apply(js: Js, out: BackendOptions, flag: Flag, next: string): BackendOptions {
    match flag
    case DiscoveryHours => out.(discoveryEveryHours := Figure(js, 1.0, next, out.discoveryEveryHours))
    case SkipInit => out.(skips := out.skips.(init := true))
    case SkipApi => out.(skips := out.skips.(api := true))
    case SkipWorker => out.(skips := out.skips.(worker := true))
    case SkipTraining => out.(skips := out.skips.(training := true))
    case SkipDiscovery => out.(skips := out.skips.(discovery := true))
    case SkipQlibFactory => out.(skips := out.skips.(qlibFactory := true))
    case Once => out.(once := true)
    case _ => out.(launch := ApplyShared(js, out.launch, flag, next))
  }

  /** The value the first token would take: its inline one, else the following token, else nothing. */
  function NextOf(argv: seq<string>): string
    requires argv != [] && IsOption(argv[0])
  {
    match InlineValue(argv[0][2..])
    case Some(v) => v
    case None => if |argv| > 1 then argv[1] else ""
  }

  /** Whether the following token is used up as the value. */
  predicate ConsumesNext(argv: seq<string>)
    requires argv != [] && IsOption(argv[0])
  {
    InlineValue(argv[0][2..]).None? && NextOf(argv) != "" && !IsOption(NextOf(argv))
  }

  function KeyOf(token: string): Flag
    requires IsOption(token)
  {
    FlagOf(Trim(BeforeEq(token[2..])))
  }

  /** The tokens left after an option at the front. */
  function After(argv: seq<string>): (rest: seq<string>)
    requires argv != [] && IsOption(argv[0])
    ensures |rest| < |argv|
  {
    if ConsumesNext(argv) then argv[2..] else argv[1..]
  }

  function Parse(js: Js, argv: seq<string>, out: BackendOptions): BackendOptions
    decreases |argv|
  {
    if argv == [] then out
    else if !IsOption(argv[0]) then Parse(js, argv[1..], out)
    else Parse(js, After(argv), Apply(js, out, KeyOf(argv[0]), NextOf(argv)))
  }

  method ParseAutoBackendArgs(js: Js, defaults: BackendOptions, argv: seq<string>) returns (out: BackendOptions)
    ensures out == Parse(js, argv, defaults)
  {
    out := defaults;
    var i := 0;
    while i < |argv|
      invariant 0 <= i <= |argv|
      invariant Parse(js, argv[i..], out) == Parse(js, argv, defaults)
    {
      hide Apply;
      ghost var rest := argv[i..];
      var token := argv[i];
      if IsOption(token) {
        var flag, next, consume := KeyOf(token), NextOf(argv[i..]), ConsumesNext(argv[i..]);
        out := Apply(js, out, flag, next);
        assert After(rest) == argv[if consume then i + 2 else i + 1..];
        if consume {
          i := i + 1;
        }
      } else {
        assert rest[1..] == argv[i + 1..];
      }
      i := i + 1;
    }
  }

  ghost predicate PrintsFigures(js: Js, g: Figures) {
    && Prints(js, g.port) && Prints(js, g.deriveIntervalSec) && Prints(js, g.validateEvery)
    && Prints(js, g.usRefreshHours) && Prints(js, g.retrainHours) && Prints(js, g.trainHours)
    && Prints(js, g.trainingLimit) && Prints(js, g.supervisorCheckSec)
  }

  /** The floors both parsers enforce. */
  ghost predicate MeetsFloors(g: Figures) {
    && Le(Fin(1.0), g.port) && Le(Fin(30.0), g.deriveIntervalSec) && Le(Fin(1.0), g.validateEvery)
    && Le(Fin(1.0), g.usRefreshHours) && Le(Fin(1.0), g.retrainHours) && Le(Fin(1.0), g.trainHours)
    && Le(Fin(1.0), g.trainingLimit) && Le(Fin(5.0), g.supervisorCheckSec)
  }

  function ParseLaunch(js: Js, argv: seq<string>, out: LaunchOptions): LaunchOptions
    decreases |argv|
  {
    if argv == [] then out
    else if !IsOption(argv[0]) then ParseLaunch(js, argv[1..], out)
    else ParseLaunch(js, After(argv), ApplyShared(js, out, KeyOf(argv[0]), NextOf(argv)))
  }

  /** The launchd script's own option loop, for the options it prints. */
  method ParseLaunchArgs(js: Js, defaults: LaunchOptions, argv: seq<string>) returns (out: LaunchOptions)
    ensures out == ParseLaunch(js, argv, defaults)
  {
    out := defaults;
    var i := 0;
    while i < |argv|
      invariant 0 <= i <= |argv|
      invariant ParseLaunch(js, argv[i..], out) == ParseLaunch(js, argv, defaults)
    {
      hide ApplyShared;
      ghost var rest := argv[i..];
      var token := argv[i];
      if IsOption(token) {
        var flag, next, consume := KeyOf(token), NextOf(argv[i..]), ConsumesNext(argv[i..]);
        out := ApplyShared(js, out, flag, next);
        assert After(rest) == argv[if consume then i + 2 else i + 1..];
        if consume {
          i := i + 1;
        }
      } else {
        assert rest[1..] == argv[i + 1..];
      }
      i := i + 1;
    }
  }
}
