/** The launch command round trip, through the shell and the backend's option loop. */
module LaunchLaws {
  import opened Numbers
  import opened Shell
  import opened Launch

  // ----- trimming -----

  predicate Trimmed(s: string) {
    s == "" || (!IsSpace(s[0]) && !IsSpace(s[|s| - 1]))
  }

  lemma {:induction false} TrimEndShape(s: string)
    ensures TrimEnd(s) <= s
    ensures TrimEnd(s) == "" || !IsSpace(TrimEnd(s)[|TrimEnd(s)| - 1])
  {
    if s != "" && IsSpace(s[|s| - 1]) {
      TrimEndShape(s[..|s| - 1]);
    }
  }

  lemma {:induction false} TrimStartShape(s: string)
    ensures TrimStart(s) == "" || !IsSpace(TrimStart(s)[0])
    ensures |TrimStart(s)| <= |s|
  {
    if s != "" && IsSpace(s[0]) {
      TrimStartShape(s[1..]);
    }
  }

  /** Trimming yields a trimmed string, and leaves a trimmed one alone. */
  lemma TrimIsTrimmed(s: string)
    ensures Trimmed(Trim(s))
    ensures Trimmed(s) <==> Trim(s) == s
    ensures |Trim(s)| <= |s|
  {
    TrimStartShape(s);
    TrimEndShape(TrimStart(s));
    var a, b := TrimStart(s), Trim(s);
    assert b != "" ==> b[0] == a[0];
  }

  // ----- one option -----

  lemma {:induction false} WithoutEq(s: string)
    requires '=' !in s
    ensures BeforeEq(s) == s
  {
    if s != "" {
      WithoutEq(s[1..]);
    }
  }

  /** An option without an inline value. */
  lemma PlainOption(key: string)
    requires '=' !in key && Trimmed(key)
    ensures IsOption("--" + key)
    ensures KeyOf("--" + key) == FlagOf(key)
    ensures InlineValue(("--" + key)[2..]) == None
  {
    assert ("--" + key)[2..] == key;
    WithoutEq(key);
    TrimIsTrimmed(key);
  }

  lemma {:induction false} BeforeEqOf(key: string, rest: string)
    requires '=' !in key
    ensures BeforeEq(key + "=" + rest) == key
  {
    if key == "" {
      assert key + "=" + rest == "=" + rest;
    } else {
      assert (key + "=" + rest)[1..] == key[1..] + "=" + rest;
      BeforeEqOf(key[1..], rest);
    }
  }

  /** What follows the `=` of an option counts as its value, up to the next `=`. */
  lemma InlineOption(key: string, value: string, more: string)
    requires '=' !in key && Trimmed(key) && '=' !in value && (more == "" || more[0] == '=')
    ensures var token := "--" + key + "=" + value + more;
            IsOption(token) && KeyOf(token) == FlagOf(key) && InlineValue(token[2..]) == Some(value)
  {
    hide FlagOf, Trimmed;
    var token := "--" + key + "=" + value + more;
    assert token[2..] == key + "=" + (value + more);
    BeforeEqOf(key, value + more);
    assert token[2..][|key| + 1..] == value + more;
    if more == "" {
      assert value + more == value;
      WithoutEq(value);
    } else {
      assert value + more == value + "=" + more[1..];
      BeforeEqOf(value, more[1..]);
    }
    TrimIsTrimmed(key);
  }

  /** An option followed by a value that is not itself an option. */
  lemma ParsePair(js: Js, key: string, value: string, rest: seq<string>, out: BackendOptions)
    requires '=' !in key && Trimmed(key) && value != "" && !IsOption(value)
    ensures Parse(js, Pair(key, value) + rest, out) == Parse(js, rest, Apply(js, out, FlagOf(key), value))
  {
    hide Apply;
    PlainOption(key);
    var argv := Pair(key, value) + rest;
    assert argv[2..] == rest && argv[0] == "--" + key && argv[1] == value;
  }

  lemma ParseFlag(js: Js, key: string, out: BackendOptions)
    requires '=' !in key && Trimmed(key)
    ensures Parse(js, ["--" + key], out) == Apply(js, out, FlagOf(key), "")
  {
    hide Apply;
    PlainOption(key);
  }

  /** A printed figure is a plain value and reads back as itself. */
  lemma ParseFigure(js: Js, key: string, floor: real, x: Num, rest: seq<string>, out: BackendOptions)
    requires Prints(js, x) && floor > 0.0 && Le(Fin(floor), x)
    requires '=' !in key && Trimmed(key)
    ensures Parse(js, Pair(key, js.text(x)) + rest, out) == Parse(js, rest, Apply(js, out, FlagOf(key), js.text(x)))
    ensures forall current :: Figure(js, floor, js.text(x), current) == x
  {
    ParsePair(js, key, js.text(x), rest, out);
  }

  /** A value the option loop takes as it is. */
  predicate PlainValue(s: string) {
    s != "" && Trimmed(s) && !IsOption(s)
  }

  /** The printed name of a flag that carries a figure. */
  function NameOf(f: Flag): string {
    match f
    case DeriveIntervalSec => "derive-interval-sec"
    case ValidateEvery => "validate-every"
    case UsRefreshHours => "us-refresh-hours"
    case RetrainHours => "retrain-hours"
    case TrainHours => "train-hours"
    case TrainingLimit => "training-limit"
    case SupervisorCheckSec => "supervisor-check-sec"
    case _ => "port"
  }

  predicate CarriesFigure(f: Flag) {
    f.Port? || f.DeriveIntervalSec? || f.ValidateEvery? || f.UsRefreshHours? || f.RetrainHours? || f.TrainHours?
    || f.TrainingLimit? || f.SupervisorCheckSec?
  }

  function FloorOf(f: Flag): real {
    match f
    case DeriveIntervalSec => 30.0
    case SupervisorCheckSec => 5.0
    case _ => 1.0
  }

  function Put(g: Figures, f: Flag, x: Num): Figures {
    match f
    case DeriveIntervalSec => g.(deriveIntervalSec := x)
    case ValidateEvery => g.(validateEvery := x)
    case UsRefreshHours => g.(usRefreshHours := x)
    case RetrainHours => g.(retrainHours := x)
    case TrainHours => g.(trainHours := x)
    case TrainingLimit => g.(trainingLimit := x)
    case SupervisorCheckSec => g.(supervisorCheckSec := x)
    case _ => g.(port := x)
  }

  function Get(g: Figures, f: Flag): Num {
    match f
    case DeriveIntervalSec => g.deriveIntervalSec
    case ValidateEvery => g.validateEvery
    case UsRefreshHours => g.usRefreshHours
    case RetrainHours => g.retrainHours
    case TrainHours => g.trainHours
    case TrainingLimit => g.trainingLimit
    case SupervisorCheckSec => g.supervisorCheckSec
    case _ => g.port
  }

  lemma NameHasNoEq(f: Flag)
    ensures '=' !in NameOf(f)
  {
  }

  lemma NameIsTrimmed(f: Flag)
    ensures Trimmed(NameOf(f))
  {
  }

  lemma NameIsFlag(f: Flag)
    requires CarriesFigure(f)
    ensures FlagOf(NameOf(f)) == f
  {
  }

  lemma ApplyFigure(js: Js, out: BackendOptions, f: Flag, next: string)
    requires CarriesFigure(f)
    ensures Apply(js, out, f, next)
         == WithFigures(out, Put(out.launch.figures, f, Figure(js, FloorOf(f), next, Get(out.launch.figures, f))))
  {
    hide Figure;
  }

  /** One printed figure: whatever the flag's figure was, it is now the printed one. */
  lemma SetFigure(js: Js, f: Flag, x: Num, rest: seq<string>, out: BackendOptions)
    requires Prints(js, x) && CarriesFigure(f) && Le(Fin(FloorOf(f)), x)
    ensures Parse(js, Pair(NameOf(f), js.text(x)) + rest, out)
         == Parse(js, rest, WithFigures(out, Put(out.launch.figures, f, x)))
  {
    hide Apply, FlagOf, Parse, Put, Figure;
    NameHasNoEq(f);
    NameIsTrimmed(f);
    NameIsFlag(f);
    ParseFigure(js, NameOf(f), FloorOf(f), x, rest, out);
    ApplyFigure(js, out, f, js.text(x));
  }

  function WithFigures(out: BackendOptions, g: Figures): BackendOptions {
    out.(launch := out.launch.(figures := g))
  }

  lemma TrainingFlag()
    ensures '=' !in "execute-training" && Trimmed("execute-training") && FlagOf("execute-training") == ExecuteTraining
  {
  }

  lemma ReadTrainingFlag(js: Js, executeTraining: bool, out: BackendOptions)
    ensures Parse(js, if executeTraining then ["--" + "execute-training"] else [], out)
         == out.(launch := out.launch.(executeTraining := out.launch.executeTraining || executeTraining))
  {
    if executeTraining {
      hide Parse, FlagOf, Trimmed;
      TrainingFlag();
      ParseFlag(js, "execute-training", out);
    }
  }

  /** The figures printed before the trainer. */
  function ReadHead(out: BackendOptions, o: LaunchOptions): BackendOptions {
    var g := out.launch.figures;
    WithFigures(out, o.figures.(trainingLimit := g.trainingLimit, supervisorCheckSec := g.supervisorCheckSec))
  }

  /** What is printed after it. */
  function ReadTail(out: BackendOptions, o: LaunchOptions): BackendOptions {
    var g := out.launch.figures;
    var read := g.(trainingLimit := o.figures.trainingLimit, supervisorCheckSec := o.figures.supervisorCheckSec);
    out.(launch := out.launch.(figures := read, executeTraining := out.launch.executeTraining || o.executeTraining))
  }

  function TailArguments(js: Js, o: LaunchOptions): seq<string> {
    Pair("training-limit", js.text(o.figures.trainingLimit)) + (
    Pair("supervisor-check-sec", js.text(o.figures.supervisorCheckSec)) + (
    if o.executeTraining then ["--" + "execute-training"] else []))
  }

  function HeadArguments(js: Js, g: Figures, rest: seq<string>): seq<string> {
    Pair("port", js.text(g.port)) + (
    Pair("derive-interval-sec", js.text(g.deriveIntervalSec)) + (
    Pair("validate-every", js.text(g.validateEvery)) + (
    Pair("us-refresh-hours", js.text(g.usRefreshHours)) + (
    Pair("retrain-hours", js.text(g.retrainHours)) + (
    Pair("train-hours", js.text(g.trainHours)) + rest)))))
  }

  lemma ReadTailArguments(js: Js, o: LaunchOptions, out: BackendOptions)
    requires PrintsFigures(js, o.figures) && MeetsFloors(o.figures)
    ensures Parse(js, TailArguments(js, o), out) == ReadTail(out, o)
  {
    hide Parse, Pair, Prints;
    var g := o.figures;
    var last := if o.executeTraining then ["--" + "execute-training"] else [];
    var rest := Pair("supervisor-check-sec", js.text(g.supervisorCheckSec)) + last;
    SetFigure(js, TrainingLimit, g.trainingLimit, rest, out);
    var o1 := WithFigures(out, Put(out.launch.figures, TrainingLimit, g.trainingLimit));
    SetFigure(js, SupervisorCheckSec, g.supervisorCheckSec, last, o1);
    var o2 := WithFigures(o1, Put(o1.launch.figures, SupervisorCheckSec, g.supervisorCheckSec));
    ReadTrainingFlag(js, o.executeTraining, o2);
  }

  /** The six figures in front of the trainer, whatever follows them. */
  lemma ReadHeadArguments(js: Js, o: LaunchOptions, rest: seq<string>, out: BackendOptions)
    requires PrintsFigures(js, o.figures) && MeetsFloors(o.figures)
    ensures Parse(js, HeadArguments(js, o.figures, rest), out)
         == Parse(js, rest, ReadHead(out, o))
  {
    hide Parse, Pair, Prints;
    var g := o.figures;
    var r6 := Pair("train-hours", js.text(g.trainHours)) + rest;
    var r5 := Pair("retrain-hours", js.text(g.retrainHours)) + r6;
    var r4 := Pair("us-refresh-hours", js.text(g.usRefreshHours)) + r5;
    var r3 := Pair("validate-every", js.text(g.validateEvery)) + r4;
    var r2 := Pair("derive-interval-sec", js.text(g.deriveIntervalSec)) + r3;
    SetFigure(js, Port, g.port, r2, out);
    var o1 := WithFigures(out, Put(out.launch.figures, Port, g.port));
    SetFigure(js, DeriveIntervalSec, g.deriveIntervalSec, r3, o1);
    var o2 := WithFigures(o1, Put(o1.launch.figures, DeriveIntervalSec, g.deriveIntervalSec));
    SetFigure(js, ValidateEvery, g.validateEvery, r4, o2);
    var o3 := WithFigures(o2, Put(o2.launch.figures, ValidateEvery, g.validateEvery));
    SetFigure(js, UsRefreshHours, g.usRefreshHours, r5, o3);
    var o4 := WithFigures(o3, Put(o3.launch.figures, UsRefreshHours, g.usRefreshHours));
    SetFigure(js, RetrainHours, g.retrainHours, r6, o4);
    var o5 := WithFigures(o4, Put(o4.launch.figures, RetrainHours, g.retrainHours));
    SetFigure(js, TrainHours, g.trainHours, rest, o5);
  }

  // ----- the user and the trainer, which may be anything -----

  /** What a word that looks like an option takes as its own value, in front of a given word. */
  function RereadNext(word: string, following: string): string
    requires IsOption(word)
  {
    match InlineValue(word[2..])
    case Some(v) => v
    case None => following
  }

  /** A value that looks like an option is not used up by its own option, and read a second time as one. */
  function Reread(js: Js, word: string, following: string, out: BackendOptions): BackendOptions {
    if IsOption(word) then Apply(js, out, KeyOf(word), RereadNext(word, following)) else out
  }

  /** A pair with any value, in front of a printed option. */
  lemma ReadAnyPair(js: Js, key: string, value: string, rest: seq<string>, out: BackendOptions)
    requires '=' !in key && Trimmed(key)
    requires rest != [] && IsOption(rest[0])
    ensures Parse(js, Pair(key, value) + rest, out)
         == Parse(js, rest, Reread(js, value, rest[0], Apply(js, out, FlagOf(key), value)))
  {
    hide FlagOf, Trim, Trimmed, Apply;
    PlainOption(key);
    var argv := Pair(key, value) + rest;
    var tail := [value] + rest;
    assert argv[0] == "--" + key && argv[1] == value && argv[1..] == tail && argv[2..] == rest;
    assert tail[1..] == rest;
    var named := Apply(js, out, FlagOf(key), value);
    assert NextOf(argv) == value;
    assert Parse(js, argv, out) == Parse(js, After(argv), named);
    if IsOption(value) {
      assert After(argv) == tail;
      assert NextOf(tail) == RereadNext(value, rest[0]);
      assert After(tail) == rest;
    }
  }

  function AfterUser(js: Js, user: string, out: BackendOptions): BackendOptions {
    Reread(js, user, "--port", if Trim(user) == "" then out else out.(launch := out.launch.(userId := Trim(user))))
  }

  function AfterTrainer(js: Js, trainer: string, out: BackendOptions): BackendOptions {
    Reread(js, trainer, "--training-limit",
           if trainer == "" then out else out.(launch := out.launch.(trainer := Trim(trainer))))
  }

  lemma UserKey()
    ensures '=' !in "user" && Trimmed("user") && FlagOf("user") == User
  {
  }

  lemma TrainerKey()
    ensures '=' !in "trainer" && Trimmed("trainer") && FlagOf("trainer") == Trainer
  {
  }

  lemma EmptyTrim()
    ensures Trim("") == ""
  {
  }

  lemma ReadUser(js: Js, user: string, rest: seq<string>, out: BackendOptions)
    requires rest != [] && rest[0] == "--port"
    ensures Parse(js, Pair("user", user) + rest, out) == Parse(js, rest, AfterUser(js, user, out))
  {
    hide Parse, FlagOf, Trim, Trimmed, Reread;
    UserKey();
    EmptyTrim();
    ReadAnyPair(js, "user", user, rest, out);
  }

  lemma ReadTrainer(js: Js, trainer: string, rest: seq<string>, out: BackendOptions)
    requires rest != [] && rest[0] == "--training-limit"
    ensures Parse(js, Pair("trainer", trainer) + rest, out) == Parse(js, rest, AfterTrainer(js, trainer, out))
  {
    hide Parse, FlagOf, Trim, Trimmed, Reread;
    TrainerKey();
    ReadAnyPair(js, "trainer", trainer, rest, out);
  }

  /** From the second pair on: the figures as printed, around what the trainer's words do. */
  lemma ReadRest(js: Js, o: LaunchOptions, out: BackendOptions)
    requires PrintsFigures(js, o.figures) && MeetsFloors(o.figures)
    ensures Parse(js, FigureArguments(js, o), out) == ReadTail(AfterTrainer(js, o.trainer, ReadHead(out, o)), o)
  {
    hide Parse, ReadHead, ReadTail, AfterTrainer, Prints, PrintsFigures, MeetsFloors;
    var tail := TailArguments(js, o);
    assert "--training-limit" == "--" + "training-limit" == tail[0];
    hide Pair;
    ReadHeadArguments(js, o, Pair("trainer", o.trainer) + tail, out);
    ReadTrainer(js, o.trainer, tail, ReadHead(out, o));
    ReadTailArguments(js, o, AfterTrainer(js, o.trainer, ReadHead(out, o)));
  }

  // ----- what survives, field by field -----

  /** The command's options come back: the printed ones as printed, all others at their defaults. */
  function Expected(d: BackendOptions, o: LaunchOptions): BackendOptions {
    d.(launch := o.(executeTraining := d.launch.executeTraining || o.executeTraining))
  }

  /** The option a word is read as once more, when it looks like one. */
  function FlagRead(word: string): Flag {
    if IsOption(word) then KeyOf(word) else Unknown
  }

  predicate Rereads(word: string, f: Flag) {
    IsOption(word) && KeyOf(word) == f
  }

  /** The user the backend ends up with: the last one named. */
  function UserRead(d: BackendOptions, o: LaunchOptions): string {
    var printed := if Trim(o.userId) == "" then d.launch.userId else Trim(o.userId);
    var reread := if Rereads(o.userId, User) then LastOf(printed, Trim(RereadNext(o.userId, "--port"))) else printed;
    if Rereads(o.trainer, User) then LastOf(reread, Trim(RereadNext(o.trainer, "--training-limit"))) else reread
  }

  function LastOf(before: string, named: string): string {
    if named == "" then before else named
  }

  /** The trainer it ends up with. */
  function TrainerRead(d: BackendOptions, o: LaunchOptions): string {
    var first := if Rereads(o.userId, Trainer) then TrimOr(RereadNext(o.userId, "--port"), d.launch.trainer)
                 else d.launch.trainer;
    var printed := TrimOr(o.trainer, first);
    if Rereads(o.trainer, Trainer) then TrimOr(RereadNext(o.trainer, "--training-limit"), printed) else printed
  }

  function TrimOr(word: string, before: string): string {
    if word == "" then before else Trim(word)
  }

  /** The discovery period, which is not printed. */
  function DiscoveryRead(js: Js, d: BackendOptions, o: LaunchOptions): Num {
    var first := if Rereads(o.userId, DiscoveryHours)
                 then Figure(js, 1.0, RereadNext(o.userId, "--port"), d.discoveryEveryHours) else d.discoveryEveryHours;
    if Rereads(o.trainer, DiscoveryHours) then Figure(js, 1.0, RereadNext(o.trainer, "--training-limit"), first)
    else first
  }

  /** A figure printed before the trainer and set again by a trainer that looks like its option. */
  predicate FiguresKept(js: Js, o: LaunchOptions) {
    IsOption(o.trainer) && CarriesFigure(KeyOf(o.trainer)) && !KeyOf(o.trainer).TrainingLimit?
    && !KeyOf(o.trainer).SupervisorCheckSec? ==>
      var f := KeyOf(o.trainer);
      Figure(js, FloorOf(f), RereadNext(o.trainer, "--training-limit"), Get(o.figures, f)) == Get(o.figures, f)
  }

  predicate Switched(o: LaunchOptions, f: Flag) {
    Rereads(o.userId, f) || Rereads(o.trainer, f)
  }

  /** Neither word switches on what was off. */
  predicate SwitchesKept(d: BackendOptions, o: LaunchOptions) {
    && (Switched(o, ExecuteTraining) ==> d.launch.executeTraining || o.executeTraining)
    && (Switched(o, SkipInit) ==> d.skips.init)
    && (Switched(o, SkipApi) ==> d.skips.api)
    && (Switched(o, SkipWorker) ==> d.skips.worker)
    && (Switched(o, SkipTraining) ==> d.skips.training)
    && (Switched(o, SkipDiscovery) ==> d.skips.discovery)
    && (Switched(o, SkipQlibFactory) ==> d.skips.qlibFactory)
    && (Switched(o, Once) ==> d.once)
  }

  /** The user and the trainer survive the trip, and disturb nothing else. */
  predicate Survives(js: Js, d: BackendOptions, o: LaunchOptions) {
    && UserRead(d, o) == o.userId
    && TrainerRead(d, o) == o.trainer
    && DiscoveryRead(js, d, o) == d.discoveryEveryHours
    && FiguresKept(js, o)
    && SwitchesKept(d, o)
  }

  /** What one option does, field by field. */
  lemma ApplyNames(js: Js, out: BackendOptions, f: Flag, v: string)
    ensures var r := Apply(js, out, f, v);
            && r.launch.userId == (if f.User? then LastOf(out.launch.userId, Trim(v)) else out.launch.userId)
            && r.launch.trainer == (if f.Trainer? then TrimOr(v, out.launch.trainer) else out.launch.trainer)
            && r.launch.executeTraining == (out.launch.executeTraining || f.ExecuteTraining?)
            && r.once == (out.once || f.Once?)
  {
    hide Figure, Trim;
    EmptyTrim();
  }

  lemma ApplyNumbers(js: Js, out: BackendOptions, f: Flag, v: string)
    ensures var r, g := Apply(js, out, f, v), out.launch.figures;
            && r.launch.figures == (if CarriesFigure(f) then Put(g, f, Figure(js, FloorOf(f), v, Get(g, f))) else g)
            && r.discoveryEveryHours
            == (if f.DiscoveryHours? then Figure(js, 1.0, v, out.discoveryEveryHours) else out.discoveryEveryHours)
            && r.skips == SwitchedSkips(out.skips, f)
  {
    hide Figure, Trim, Put, Get, FloorOf;
    if CarriesFigure(f) {
      ApplyFigure(js, out, f, v);
    }
  }

  function SwitchedSkips(s: Skips, f: Flag): Skips {
    Skips(s.init || f.SkipInit?, s.api || f.SkipApi?, s.worker || f.SkipWorker?, s.training || f.SkipTraining?,
          s.discovery || f.SkipDiscovery?, s.qlibFactory || f.SkipQlibFactory?)
  }

  /** The same for a word that may look like an option. */
  lemma RereadFields(js: Js, word: string, following: string, out: BackendOptions)
    ensures var r := Reread(js, word, following, out);
            var w := FlagRead(word);
            var v := if IsOption(word) then RereadNext(word, following) else "";
            var g := out.launch.figures;
            && r.launch.userId == (if w.User? then LastOf(out.launch.userId, Trim(v)) else out.launch.userId)
            && r.launch.trainer == (if w.Trainer? then TrimOr(v, out.launch.trainer) else out.launch.trainer)
            && r.launch.figures == (if CarriesFigure(w) then Put(g, w, Figure(js, FloorOf(w), v, Get(g, w))) else g)
            && r.launch.executeTraining == (out.launch.executeTraining || w.ExecuteTraining?)
            && r.discoveryEveryHours
            == (if w.DiscoveryHours? then Figure(js, 1.0, v, out.discoveryEveryHours) else out.discoveryEveryHours)
            && r.skips == SwitchedSkips(out.skips, w)
            && r.once == (out.once || w.Once?)
  {
    hide Apply, KeyOf, RereadNext, Trim, Figure;
    if IsOption(word) {
      ApplyNames(js, out, KeyOf(word), RereadNext(word, following));
      ApplyNumbers(js, out, KeyOf(word), RereadNext(word, following));
    }
  }

  /** What the whole command leaves. */
  function Left(js: Js, d: BackendOptions, o: LaunchOptions): BackendOptions {
    ReadTail(AfterTrainer(js, o.trainer, ReadHead(AfterUser(js, o.userId, d), o)), o)
  }

  lemma LeftNames(js: Js, d: BackendOptions, o: LaunchOptions)
    ensures Left(js, d, o).launch.userId == UserRead(d, o)
    ensures Left(js, d, o).launch.trainer == TrainerRead(d, o)
  {
    hide Reread, KeyOf, RereadNext, Trim, Figure, Put, Get, FloorOf, SwitchedSkips, LastOf;
    var named := if Trim(o.userId) == "" then d else d.(launch := d.launch.(userId := Trim(o.userId)));
    RereadFields(js, o.userId, "--port", named);
    var first := ReadHead(AfterUser(js, o.userId, d), o);
    var trained := if o.trainer == "" then first else first.(launch := first.launch.(trainer := Trim(o.trainer)));
    RereadFields(js, o.trainer, "--training-limit", trained);
  }

  lemma LeftSettings(js: Js, d: BackendOptions, o: LaunchOptions)
    ensures var r := Left(js, d, o);
            && r.discoveryEveryHours == DiscoveryRead(js, d, o)
            && r.launch.executeTraining
            == (d.launch.executeTraining || Switched(o, ExecuteTraining) || o.executeTraining)
            && r.once == (d.once || Switched(o, Once))
  {
    hide Reread, KeyOf, RereadNext, Trim, Figure, Put, Get, FloorOf, SwitchedSkips, LastOf, TrimOr;
    var named := if Trim(o.userId) == "" then d else d.(launch := d.launch.(userId := Trim(o.userId)));
    RereadFields(js, o.userId, "--port", named);
    var first := ReadHead(AfterUser(js, o.userId, d), o);
    var trained := if o.trainer == "" then first else first.(launch := first.launch.(trainer := Trim(o.trainer)));
    RereadFields(js, o.trainer, "--training-limit", trained);
  }

  lemma LeftFigures(js: Js, d: BackendOptions, o: LaunchOptions)
    ensures Left(js, d, o).launch.figures == o.figures <==> FiguresKept(js, o)
  {
    hide Reread, KeyOf, RereadNext, Trim, Figure, FloorOf, SwitchedSkips, AfterUser;
    var first := ReadHead(AfterUser(js, o.userId, d), o);
    var trained := if o.trainer == "" then first else first.(launch := first.launch.(trainer := Trim(o.trainer)));
    RereadFields(js, o.trainer, "--training-limit", trained);
  }

  lemma LeftSkips(js: Js, d: BackendOptions, o: LaunchOptions)
    ensures Left(js, d, o).skips == SwitchedSkips(SwitchedSkips(d.skips, FlagRead(o.userId)), FlagRead(o.trainer))
  {
    hide Reread, KeyOf, RereadNext, Trim, Figure, Put, Get, FloorOf, SwitchedSkips;
    var named := if Trim(o.userId) == "" then d else d.(launch := d.launch.(userId := Trim(o.userId)));
    RereadFields(js, o.userId, "--port", named);
    var first := ReadHead(AfterUser(js, o.userId, d), o);
    var trained := if o.trainer == "" then first else first.(launch := first.launch.(trainer := Trim(o.trainer)));
    RereadFields(js, o.trainer, "--training-limit", trained);
  }

  lemma SkipsKeptIff(d: BackendOptions, o: LaunchOptions)
    ensures SwitchedSkips(SwitchedSkips(d.skips, FlagRead(o.userId)), FlagRead(o.trainer)) == d.skips
         <==> (Switched(o, SkipInit) ==> d.skips.init)
              && (Switched(o, SkipApi) ==> d.skips.api)
              && (Switched(o, SkipWorker) ==> d.skips.worker)
              && (Switched(o, SkipTraining) ==> d.skips.training)
              && (Switched(o, SkipDiscovery) ==> d.skips.discovery)
              && (Switched(o, SkipQlibFactory) ==> d.skips.qlibFactory)
  {
    hide KeyOf;
  }

  lemma LeftAsExpectedIff(js: Js, d: BackendOptions, o: LaunchOptions)
    ensures Left(js, d, o) == Expected(d, o) <==> Survives(js, d, o)
  {
    hide Left, UserRead, TrainerRead, DiscoveryRead, FiguresKept, Switched, SwitchedSkips, FlagRead;
    LeftNames(js, d, o);
    LeftSettings(js, d, o);
    LeftFigures(js, d, o);
    LeftSkips(js, d, o);
    SkipsKeptIff(d, o);
  }

  // ----- the round trip -----

  /** What the backend makes of a printed command: shell splitting, then the words after `--`. */
  function ReadCommand(js: Js, d: BackendOptions, command: string): Option<BackendOptions> {
    match Split(command)
    case None => None
    case Some(words) =>
      if |words| < 4 || words[..4] != ["npm", "run", "auto:backend", "--"] then None
      else Some(Parse(js, words[4..], d))
  }

  /** Reading the printed words, from whatever options. */
  lemma ReadArguments(js: Js, d: BackendOptions, o: LaunchOptions)
    requires PrintsFigures(js, o.figures) && MeetsFloors(o.figures)
    ensures Parse(js, Arguments(js, o), d) == Left(js, d, o)
  {
    hide Parse, AfterUser, AfterTrainer, ReadHead, ReadTail;
    assert FigureArguments(js, o)[0] == "--" + "port" == "--port";
    ReadUser(js, o.userId, FigureArguments(js, o), d);
    ReadRest(js, o, AfterUser(js, o.userId, d));
  }

  /**
   The launch command round trip: through quoting, shell splitting and the option loop, the backend ends up with
   exactly the printed options, if and only if the user and the trainer survive being read. Both may be any strings;
   what one of them disturbs when it is read as an option the other one may put back.
   */
  lemma LaunchRoundTripIff(js: Js, d: BackendOptions, o: LaunchOptions)
    requires PrintsFigures(js, o.figures) && MeetsFloors(o.figures)
    ensures ReadCommand(js, d, BuildAutoBackendCommand(js, o)) == Some(Expected(d, o)) <==> Survives(js, d, o)
  {
    hide Split, Parse, Survives, Left, Arguments;
    var head := ["npm", "run", "auto:backend", "--"];
    var words := head + Arguments(js, o);
    SplitCommandLine(words);
    assert words[..4] == head && words[4..] == Arguments(js, o);
    ReadArguments(js, d, o);
    LeftAsExpectedIff(js, d, o);
  }

  // ----- one value at a time -----

  lemma {:induction false} TrimOfOption(s: string)
    requires IsOption(s)
    ensures Trim(s) != ""
  {
    TrimEndKeepsHead(s);
  }

  lemma {:induction false} TrimEndKeepsHead(s: string)
    requires s != "" && !IsSpace(s[0])
    ensures TrimEnd(s) != "" && TrimEnd(s)[0] == s[0]
  {
    if IsSpace(s[|s| - 1]) {
      TrimEndKeepsHead(s[..|s| - 1]);
    }
  }

  lemma {:induction false} BeforeEqShorter(s: string)
    ensures |BeforeEq(s)| <= |s|
  {
    if s != "" {
      BeforeEqShorter(s[1..]);
    }
  }

  /** An option read again as itself gives another value than its own text. */
  lemma OtherValue(word: string, following: string)
    requires IsOption(word) && IsOption(following) && Trimmed(following) && KeyOf(following) != KeyOf(word)
    ensures Trim(RereadNext(word, following)) != word
  {
    hide KeyOf;
    var s := word[2..];
    TrimIsTrimmed(RereadNext(word, following));
    BeforeEqShorter(s);
    if InlineValue(s).Some? {
      BeforeEqShorter(s[|BeforeEq(s)| + 1..]);
    }
  }

  /** The options printed behind the user and behind the trainer. */
  lemma PrintedOption(f: Flag)
    requires CarriesFigure(f)
    ensures IsOption("--" + NameOf(f)) && Trimmed("--" + NameOf(f)) && KeyOf("--" + NameOf(f)) == f
  {
    NameHasNoEq(f);
    NameIsTrimmed(f);
    NameIsFlag(f);
    OptionIsTrimmed(NameOf(f));
    hide KeyOf, FlagOf, NameOf, Trimmed;
    PlainOption(NameOf(f));
  }

  lemma OptionIsTrimmed(key: string)
    requires Trimmed(key)
    ensures Trimmed("--" + key)
  {
  }

  /** One value read again as an option that the other one leaves alone. */
  predicate SwitchInert(js: Js, d: BackendOptions, o: LaunchOptions, f: Flag, v: string) {
    match f
    case DiscoveryHours => Figure(js, 1.0, v, d.discoveryEveryHours) == d.discoveryEveryHours
    case ExecuteTraining => d.launch.executeTraining || o.executeTraining
    case SkipInit => d.skips.init
    case SkipApi => d.skips.api
    case SkipWorker => d.skips.worker
    case SkipTraining => d.skips.training
    case SkipDiscovery => d.skips.discovery
    case SkipQlibFactory => d.skips.qlibFactory
    case Once => d.once
    case _ => true
  }

  /** Reading the user value a second time, as an option, changes nothing that the later words do not set. */
  predicate InertUser(js: Js, d: BackendOptions, o: LaunchOptions)
    requires IsOption(o.userId)
  {
    var f, v := KeyOf(o.userId), RereadNext(o.userId, "--port");
    (f.User? ==> Trim(v) == "") && SwitchInert(js, d, o, f, v)
  }

  /** The user value survives beside a plain trainer. */
  predicate ReadableUser(js: Js, d: BackendOptions, o: LaunchOptions) {
    o.userId != "" && Trimmed(o.userId) && (IsOption(o.userId) ==> InertUser(js, d, o))
  }

  /** The trainer comes after most figures, so it may also set one of those again. */
  predicate InertTrainer(js: Js, d: BackendOptions, o: LaunchOptions)
    requires IsOption(o.trainer)
  {
    var f, v := KeyOf(o.trainer), RereadNext(o.trainer, "--training-limit");
    && (f.User? ==> LastOf(o.userId, Trim(v)) == o.userId)
    && (f.Trainer? ==> v == "")
    && SwitchInert(js, d, o, f, v)
    && FiguresKept(js, o)
  }

  /** The trainer survives beside a plain user. */
  predicate ReadableTrainer(js: Js, d: BackendOptions, o: LaunchOptions) {
    && Trimmed(o.trainer) && (o.trainer == "" ==> d.launch.trainer == "")
    && (IsOption(o.trainer) ==> InertTrainer(js, d, o))
  }

  lemma SwitchesOfOne(js: Js, d: BackendOptions, o: LaunchOptions, word: string, following: string)
    requires IsOption(word)
    requires ((word == o.userId && !IsOption(o.trainer)) || (word == o.trainer && !IsOption(o.userId)))
    requires following == if word == o.userId then "--port" else "--training-limit"
    ensures SwitchInert(js, d, o, KeyOf(word), RereadNext(word, following))
         <==> SwitchesKept(d, o) && DiscoveryRead(js, d, o) == d.discoveryEveryHours
  {
    hide KeyOf, RereadNext, Figure;
  }

  /** With a plain trainer the round trip holds exactly for a readable user. */
  lemma UserReadBackIff(js: Js, d: BackendOptions, o: LaunchOptions)
    requires d.launch.userId != "" && Trimmed(d.launch.userId) && PlainValue(o.trainer)
    ensures Survives(js, d, o) <==> ReadableUser(js, d, o)
  {
    hide FlagOf, Trim, Trimmed, KeyOf, RereadNext, Figure, SwitchInert, SwitchesKept, DiscoveryRead;
    var u := o.userId;
    TrimIsTrimmed(u);
    TrimIsTrimmed(d.launch.userId);
    TrimIsTrimmed(o.trainer);
    EmptyTrim();
    if IsOption(u) {
      TrimOfOption(u);
      SwitchesOfOne(js, d, o, u, "--port");
      if KeyOf(u) == User {
        PrintedOption(Port);
        assert "--port" == "--" + "port";
        OtherValue(u, "--port");
      }
    } else {
      NothingSwitched(js, d, o);
    }
  }

  lemma NothingSwitched(js: Js, d: BackendOptions, o: LaunchOptions)
    requires !IsOption(o.userId) && !IsOption(o.trainer)
    ensures SwitchesKept(d, o) && DiscoveryRead(js, d, o) == d.discoveryEveryHours
  {
  }

  /** With a plain user it holds exactly for a readable trainer. */
  lemma TrainerReadBackIff(js: Js, d: BackendOptions, o: LaunchOptions)
    requires PlainValue(o.userId)
    ensures Survives(js, d, o) <==> ReadableTrainer(js, d, o)
  {
    hide FlagOf, Trim, Trimmed, KeyOf, RereadNext, Figure, SwitchInert, SwitchesKept, DiscoveryRead, FiguresKept;
    var t := o.trainer;
    TrimIsTrimmed(o.userId);
    TrimIsTrimmed(t);
    EmptyTrim();
    if IsOption(t) {
      SwitchesOfOne(js, d, o, t, "--training-limit");
      if KeyOf(t) == Trainer {
        PrintedOption(TrainingLimit);
        assert "--training-limit" == "--" + "training-limit";
        OtherValue(t, "--training-limit");
      }
    } else {
      NothingSwitched(js, d, o);
      NoFigureReread(js, o);
    }
  }

  lemma NoFigureReread(js: Js, o: LaunchOptions)
    requires !IsOption(o.trainer)
    ensures FiguresKept(js, o)
  {
  }

  // ----- from the launchd script's arguments -----

  lemma FigureMeetsFloor(js: Js, floor: real, next: string, current: Num)
    requires Le(Fin(floor), current)
    ensures Le(Fin(floor), Figure(js, floor, next, current))
  {
  }

  lemma SharedKeepsFloors(js: Js, out: LaunchOptions, flag: Flag, next: string)
    requires MeetsFloors(out.figures)
    ensures MeetsFloors(ApplyShared(js, out, flag, next).figures)
  {
    hide Figure;
    var g := out.figures;
    match flag {
      case Port => FigureMeetsFloor(js, 1.0, next, g.port);
      case DeriveIntervalSec => FigureMeetsFloor(js, 30.0, next, g.deriveIntervalSec);
      case ValidateEvery => FigureMeetsFloor(js, 1.0, next, g.validateEvery);
      case UsRefreshHours => FigureMeetsFloor(js, 1.0, next, g.usRefreshHours);
      case RetrainHours => FigureMeetsFloor(js, 1.0, next, g.retrainHours);
      case TrainHours => FigureMeetsFloor(js, 1.0, next, g.trainHours);
      case TrainingLimit => FigureMeetsFloor(js, 1.0, next, g.trainingLimit);
      case SupervisorCheckSec => FigureMeetsFloor(js, 5.0, next, g.supervisorCheckSec);
      case _ =>
    }
  }

  /** Whatever the launchd script is called with, the figures it prints meet the floors, the user is never empty. */
  lemma {:induction false} LaunchArgsMeetFloors(js: Js, argv: seq<string>, out: LaunchOptions)
    requires MeetsFloors(out.figures) && out.userId != "" && Trimmed(out.userId) && Trimmed(out.trainer)
    ensures MeetsFloors(ParseLaunch(js, argv, out).figures)
    ensures ParseLaunch(js, argv, out).userId != "" && Trimmed(ParseLaunch(js, argv, out).userId)
    ensures Trimmed(ParseLaunch(js, argv, out).trainer)
    decreases |argv|
  {
    hide MeetsFloors, Trimmed, KeyOf, Figure, Trim, After;
    if argv != [] {
      if IsOption(argv[0]) {
        var flag, next := KeyOf(argv[0]), NextOf(argv);
        SharedKeepsFloors(js, out, flag, next);
        TrimIsTrimmed(next);
        LaunchArgsMeetFloors(js, After(argv), ApplyShared(js, out, flag, next));
      } else {
        LaunchArgsMeetFloors(js, argv[1..], out);
      }
    }
  }

  /** Every number JavaScript has read, and every floor, is printed so that it reads back (Number::toString). */
  ghost predicate ReadsBack(js: Js) {
    && (forall s :: Prints(js, js.number(s)))
    && Prints(js, Fin(1.0)) && Prints(js, Fin(5.0)) && Prints(js, Fin(30.0))
  }

  lemma FigurePrints(js: Js, floor: real, next: string, current: Num)
    requires ReadsBack(js) && Prints(js, current) && floor in {1.0, 5.0, 30.0}
    ensures Prints(js, Figure(js, floor, next, current))
  {
    hide Prints;
    var x := Or(js.number(next), current);
    assert Prints(js, x);
    assert AtLeast(Fin(floor), x) == x || AtLeast(Fin(floor), x) == Fin(floor);
  }

  lemma SharedKeepsPrinting(js: Js, out: LaunchOptions, flag: Flag, next: string)
    requires ReadsBack(js) && PrintsFigures(js, out.figures)
    ensures PrintsFigures(js, ApplyShared(js, out, flag, next).figures)
  {
    hide Figure, Prints, ReadsBack;
    var g := out.figures;
    match flag {
      case Port => FigurePrints(js, 1.0, next, g.port);
      case DeriveIntervalSec => FigurePrints(js, 30.0, next, g.deriveIntervalSec);
      case ValidateEvery => FigurePrints(js, 1.0, next, g.validateEvery);
      case UsRefreshHours => FigurePrints(js, 1.0, next, g.usRefreshHours);
      case RetrainHours => FigurePrints(js, 1.0, next, g.retrainHours);
      case TrainHours => FigurePrints(js, 1.0, next, g.trainHours);
      case TrainingLimit => FigurePrints(js, 1.0, next, g.trainingLimit);
      case SupervisorCheckSec => FigurePrints(js, 5.0, next, g.supervisorCheckSec);
      case _ =>
    }
  }

  lemma {:induction false} LaunchArgsPrint(js: Js, argv: seq<string>, out: LaunchOptions)
    requires ReadsBack(js) && PrintsFigures(js, out.figures)
    ensures PrintsFigures(js, ParseLaunch(js, argv, out).figures)
    decreases |argv|
  {
    hide PrintsFigures, ReadsBack, KeyOf, NextOf, After, ApplyShared;
    if argv != [] {
      if IsOption(argv[0]) {
        SharedKeepsPrinting(js, out, KeyOf(argv[0]), NextOf(argv));
        LaunchArgsPrint(js, After(argv), ApplyShared(js, out, KeyOf(argv[0]), NextOf(argv)));
      } else {
        LaunchArgsPrint(js, argv[1..], out);
      }
    }
  }

  /** The backend has exactly the options that were printed. */
  predicate ComesBack(js: Js, d: BackendOptions, o: LaunchOptions) {
    ReadCommand(js, d, BuildAutoBackendCommand(js, o)) == Some(Expected(d, o))
  }

  /** From any arguments of the launchd script to the running backend. */
  lemma LaunchdToBackend(js: Js, argv: seq<string>, defaults: LaunchOptions, d: BackendOptions)
    requires ReadsBack(js) && PrintsFigures(js, defaults.figures) && MeetsFloors(defaults.figures)
    requires defaults.userId != "" && Trimmed(defaults.userId) && Trimmed(defaults.trainer)
    requires d.launch.userId != "" && Trimmed(d.launch.userId)
    ensures var o := ParseLaunch(js, argv, defaults);
            && (ComesBack(js, d, o) <==> Survives(js, d, o))
            && (PlainValue(o.trainer) ==>
                  (ComesBack(js, d, o) <==> (IsOption(o.userId) ==> InertUser(js, d, o))))
            && (!IsOption(o.userId) ==>
                  (ComesBack(js, d, o) <==> if IsOption(o.trainer) then InertTrainer(js, d, o)
                                            else o.trainer == "" ==> d.launch.trainer == ""))
  {
    hide Parse, ParseLaunch, MeetsFloors, PrintsFigures, ReadsBack, Trimmed, InertUser, InertTrainer, Survives;
    hide ReadCommand, BuildAutoBackendCommand;
    var o := ParseLaunch(js, argv, defaults);
    LaunchArgsMeetFloors(js, argv, defaults);
    LaunchArgsPrint(js, argv, defaults);
    LaunchRoundTripIff(js, d, o);
    if PlainValue(o.trainer) {
      UserReadBackIff(js, d, o);
    }
    if !IsOption(o.userId) {
      TrainerReadBackIff(js, d, o);
    }
  }

  lemma OnceKey()
    ensures '=' !in "once" && Trimmed("once") && FlagOf("once") == Once
  {
  }

  lemma OnceIsOption()
    ensures IsOption("--once") && KeyOf("--once") == Once && InlineValue("--once"[2..]).None?
    ensures Trim("--once") == "--once"
  {
    OnceKey();
    OptionIsTrimmed("once");
    TrimIsTrimmed("--once");
    hide KeyOf, FlagOf, Trim, Trimmed;
    assert "--once" == "--" + "once";
    PlainOption("once");
  }

  /** A user called `--once` is read back under that name, and also stops the backend after one pass. */
  lemma UserOnceStopsTheBackend(js: Js, d: BackendOptions, o: LaunchOptions)
    requires PrintsFigures(js, o.figures) && MeetsFloors(o.figures)
    requires o.userId == "--once" && !d.once
    ensures !ComesBack(js, d, o)
  {
    hide ReadCommand, BuildAutoBackendCommand, KeyOf;
    OnceIsOption();
    LaunchRoundTripIff(js, d, o);
  }

  /** So does a trainer: the launchd script takes `--trainer --once` and passes it on. */
  lemma TrainerOnceStopsTheBackend(js: Js, defaults: LaunchOptions, d: BackendOptions)
    requires PrintsFigures(js, defaults.figures) && MeetsFloors(defaults.figures) && !d.once
    ensures var o := ParseLaunch(js, ["--trainer", "--once"], defaults);
            o == defaults.(trainer := "--once") && !ComesBack(js, d, o)
  {
    hide ReadCommand, BuildAutoBackendCommand, KeyOf, FlagOf, Trim, Trimmed;
    OnceIsOption();
    TrainerKey();
    assert "--trainer" == "--" + "trainer";
    PlainOption("trainer");
    var argv, rest := ["--trainer", "--once"], ["--once"];
    assert argv[1..] == rest && rest[1..] == [];
    assert After(argv) == rest && NextOf(argv) == "--once";
    assert After(rest) == [] && NextOf(rest) == "";
    var o := defaults.(trainer := "--once");
    assert ParseLaunch(js, rest, o) == o;
    assert ParseLaunch(js, argv, defaults) == o;
    LaunchRoundTripIff(js, d, o);
  }

  /** A user option as the user, and one that names it again as the trainer. */
  ghost predicate Restoring(o: LaunchOptions) {
    var u, t := o.userId, o.trainer;
    && IsOption(u) && KeyOf(u) == User && RereadNext(u, "--port") == "--port" && Trim(u) == u != ""
    && IsOption(t) && KeyOf(t) == User && RereadNext(t, "--training-limit") == u && Trim(t) == t != ""
  }

  lemma RestoringSurvives(js: Js, d: BackendOptions, o: LaunchOptions)
    requires Restoring(o)
    ensures Survives(js, d, o) && !ReadableUser(js, d, o)
  {
    hide KeyOf, Trim, RereadNext;
    TrimDashed("--port");
  }

  lemma TrimDashed(s: string)
    requires s != "" && s[0] == '-' && (s[|s| - 1] == 'r' || s[|s| - 1] == 't')
    ensures Trim(s) == s
  {
    TrimIsTrimmed(s);
  }

  lemma UserOption()
    ensures IsOption("--user") && KeyOf("--user") == User && RereadNext("--user", "--port") == "--port"
  {
    UserKey();
    hide FlagOf, Trim, Trimmed;
    assert "--user" == "--" + "user";
    PlainOption("user");
  }

  lemma UserOptionWithValue()
    ensures IsOption("--user=--user") && KeyOf("--user=--user") == User
    ensures RereadNext("--user=--user", "--training-limit") == "--user"
  {
    UserKey();
    hide KeyOf, FlagOf, Trim, Trimmed, InlineValue;
    assert "--user=--user" == "--" + "user" + "=" + "--user" + "";
    InlineOption("user", "--user", "");
  }

  /** The two values do have to be judged together: this user alone would be renamed to `--port`. */
  lemma TrainerRestoresUser(js: Js, d: BackendOptions, o: LaunchOptions)
    requires PrintsFigures(js, o.figures) && MeetsFloors(o.figures)
    requires o.userId == "--user" && o.trainer == "--user=--user"
    ensures !ReadableUser(js, d, o) && ComesBack(js, d, o)
  {
    hide ReadCommand, BuildAutoBackendCommand, KeyOf, Trim, Trimmed, RereadNext, Survives, ReadableUser;
    UserOption();
    UserOptionWithValue();
    TrimDashed("--user");
    TrimDashed("--user=--user");
    RestoringSurvives(js, d, o);
    LaunchRoundTripIff(js, d, o);
  }
}
