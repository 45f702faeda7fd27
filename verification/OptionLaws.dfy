/** What the two option loops make of any arguments, option by option. */
module OptionLaws {
  import opened Numbers
  import opened Shell
  import opened Launch
  import opened LaunchLaws

  // ----- the table of options -----

  /** The text of each option. */
  function TextOf(f: Flag): string {
    match f
    case User => "user"
    case Trainer => "trainer"
    case DiscoveryHours => "discovery-hours"
    case ExecuteTraining => "execute-training"
    case SkipInit => "skip-init"
    case SkipApi => "skip-api"
    case SkipWorker => "skip-worker"
    case SkipTraining => "skip-training"
    case SkipDiscovery => "skip-discovery"
    case SkipQlibFactory => "skip-qlib-factory"
    case Once => "once"
    case Unknown => ""
    case _ => NameOf(f)
  }

  /** No other text is an option. */
  lemma OnlyTheseTexts(key: string)
    ensures !FlagOf(key).Unknown? ==> key == TextOf(FlagOf(key))
  {
  }

  lemma TextIsFlag(f: Flag)
    ensures FlagOf(TextOf(f)) == f
  {
    if CarriesFigure(f) {
      NameIsFlag(f);
    } else {
      OtherTextIsFlag(f);
    }
  }

  lemma OtherTextIsFlag(f: Flag)
    requires !CarriesFigure(f)
    ensures FlagOf(TextOf(f)) == f
  {
    hide NameOf;
  }

  lemma TextHasNoEq(f: Flag)
    ensures '=' !in TextOf(f)
  {
    hide NameOf;
    NameHasNoEq(f);
  }

  lemma TextIsTrimmed(f: Flag)
    ensures Trimmed(TextOf(f))
  {
    if CarriesFigure(f) {
      NameIsTrimmed(f);
    }
  }

  // ----- one token -----

  /** A text before its first `=`. */
  lemma {:induction false} BeforeEqShape(s: string)
    ensures '=' !in BeforeEq(s) && BeforeEq(s) <= s
    ensures |BeforeEq(s)| == |s| || s[|BeforeEq(s)|] == '='
  {
    if s != "" && s[0] != '=' {
      BeforeEqShape(s[1..]);
    }
  }

  /** White space around an option's name does not count, with or without an inline value. */
  lemma PaddedName(f: Flag, before: string, after: string, value: string)
    requires forall i :: 0 <= i < |before| ==> IsSpace(before[i])
    requires forall i :: 0 <= i < |after| ==> IsSpace(after[i])
    ensures KeyOf("--" + (before + TextOf(f) + after)) == f
    ensures KeyOf("--" + (before + TextOf(f) + after) + "=" + value) == f
  {
    TextIsFlag(f);
    TextHasNoEq(f);
    TextIsTrimmed(f);
    hide FlagOf, TextOf;
    var key := before + TextOf(f) + after;
    TrimPadded(before, TextOf(f), after);
    assert '=' !in key by {
      SpacesHaveNoEq(before);
      SpacesHaveNoEq(after);
    }
    assert ("--" + key)[2..] == key;
    WithoutEq(key);
    assert ("--" + key + "=" + value)[2..] == key + "=" + value;
    BeforeEqOf(key, value);
  }

  lemma SpacesHaveNoEq(s: string)
    requires forall i :: 0 <= i < |s| ==> IsSpace(s[i])
    ensures '=' !in s
  {
  }

  lemma {:induction false} TrimPadded(before: string, s: string, after: string)
    requires Trimmed(s)
    requires forall i :: 0 <= i < |before| ==> IsSpace(before[i])
    requires forall i :: 0 <= i < |after| ==> IsSpace(after[i])
    ensures Trim(before + s + after) == s
    decreases |before| + |after|
  {
    hide IsSpace;
    var whole := before + s + after;
    if before != "" {
      assert whole[1..] == before[1..] + s + after;
      TrimPadded(before[1..], s, after);
    } else if s == "" {
      assert whole == after;
      TrimAllSpaces(after);
    } else {
      assert whole == s + after;
      TrimEndPadded(s, after);
    }
  }

  lemma {:induction false} TrimAllSpaces(s: string)
    requires forall i :: 0 <= i < |s| ==> IsSpace(s[i])
    ensures Trim(s) == ""
  {
    hide IsSpace;
    if s != "" {
      TrimAllSpaces(s[1..]);
    }
  }

  lemma {:induction false} TrimEndPadded(s: string, after: string)
    requires s != "" && Trimmed(s)
    requires forall i :: 0 <= i < |after| ==> IsSpace(after[i])
    ensures TrimEnd(s + after) == s
  {
    hide IsSpace;
    if after == "" {
      assert s + after == s;
    } else {
      var n := |after| - 1;
      assert (s + after)[..|s + after| - 1] == s + after[..n];
      TrimEndPadded(s, after[..n]);
    }
  }

  /** Any token that does not begin with two dashes is passed over. */
  lemma PassedOver(js: Js, word: string, rest: seq<string>, out: BackendOptions)
    requires !IsOption(word)
    ensures Parse(js, [word] + rest, out) == Parse(js, rest, out)
  {
    assert ([word] + rest)[1..] == rest;
  }

  /** Leading and trailing white space is all that trimming takes away. */
  lemma TrimDropsSpaces(s: string) returns (before: string, after: string)
    ensures s == before + Trim(s) + after
    ensures forall i :: 0 <= i < |before| ==> IsSpace(before[i])
    ensures forall i :: 0 <= i < |after| ==> IsSpace(after[i])
  {
    before := TrimStartDrops(s);
    after := TrimEndDrops(TrimStart(s));
  }

  lemma {:induction false} TrimStartDrops(s: string) returns (before: string)
    ensures s == before + TrimStart(s)
    ensures forall i :: 0 <= i < |before| ==> IsSpace(before[i])
  {
    if s != "" && IsSpace(s[0]) {
      var rest := TrimStartDrops(s[1..]);
      before := [s[0]] + rest;
    } else {
      before := "";
    }
  }

  lemma {:induction false} TrimEndDrops(s: string) returns (after: string)
    ensures s == TrimEnd(s) + after
    ensures forall i :: 0 <= i < |after| ==> IsSpace(after[i])
  {
    if s != "" && IsSpace(s[|s| - 1]) {
      var rest := TrimEndDrops(s[..|s| - 1]);
      after := rest + [s[|s| - 1]];
    } else {
      after := "";
    }
  }

  // ----- one option -----

  /** What one option with a value does to the options, field by field. */
  ghost predicate Sets(js: Js, f: Flag, v: string, out: BackendOptions, r: BackendOptions) {
    var a, b, g := out.launch, r.launch, out.launch.figures;
    && b.userId == (if f.User? && Trim(v) != "" then Trim(v) else a.userId)
    && b.trainer == (if f.Trainer? && v != "" then Trim(v) else a.trainer)
    && b.figures == Figures(
         Read(js, f.Port?, 1.0, v, g.port), Read(js, f.DeriveIntervalSec?, 30.0, v, g.deriveIntervalSec),
         Read(js, f.ValidateEvery?, 1.0, v, g.validateEvery), Read(js, f.UsRefreshHours?, 1.0, v, g.usRefreshHours),
         Read(js, f.RetrainHours?, 1.0, v, g.retrainHours), Read(js, f.TrainHours?, 1.0, v, g.trainHours),
         Read(js, f.TrainingLimit?, 1.0, v, g.trainingLimit),
         Read(js, f.SupervisorCheckSec?, 5.0, v, g.supervisorCheckSec))
    && r.discoveryEveryHours == Read(js, f.DiscoveryHours?, 1.0, v, out.discoveryEveryHours)
    && b.executeTraining == (a.executeTraining || f.ExecuteTraining?)
    && r.skips == Skips(
         out.skips.init || f.SkipInit?, out.skips.api || f.SkipApi?, out.skips.worker || f.SkipWorker?,
         out.skips.training || f.SkipTraining?, out.skips.discovery || f.SkipDiscovery?,
         out.skips.qlibFactory || f.SkipQlibFactory?)
    && r.once == (out.once || f.Once?)
  }

  /** A figure, when its option was given: the number, or the old one for no number and zero, and at least the floor. */
  function Read(js: Js, given: bool, floor: real, v: string, current: Num): Num {
    if !given || v == "" then current
    else
      var x := if js.number(v) == NaN || js.number(v) == ZERO then current else js.number(v);
      if Lt(x, Fin(floor)) then Fin(floor) else x
  }

  lemma ApplySets(js: Js, f: Flag, v: string, out: BackendOptions)
    ensures Sets(js, f, v, out, Apply(js, out, f, v))
  {
    hide Trim;
    EmptyTrim();
  }

  /** Both ways of giving a value, and an option that has none to take. */
  lemma OptionSets(js: Js, f: Flag, v: string, rest: seq<string>, out: BackendOptions) returns (r: BackendOptions)
    requires '=' !in v
    ensures Sets(js, f, v, out, r)
    ensures v != "" && !IsOption(v) ==> Parse(js, ["--" + TextOf(f), v] + rest, out) == Parse(js, rest, r)
    ensures Parse(js, ["--" + TextOf(f) + "=" + v] + rest, out) == Parse(js, rest, r)
    ensures v == "" && rest == [] ==> Parse(js, ["--" + TextOf(f)], out) == r
  {
    r := Apply(js, out, f, v);
    ApplySets(js, f, v, out);
    TextIsFlag(f);
    TextHasNoEq(f);
    TextIsTrimmed(f);
    hide Apply, FlagOf, TextOf, Trimmed, Sets;
    var key := TextOf(f);
    if v != "" && !IsOption(v) {
      ParsePair(js, key, v, rest, out);
      assert ["--" + key, v] + rest == Pair(key, v) + rest;
    }
    InlineParse(js, key, v, rest, out);
    if v == "" && rest == [] {
      ParseFlag(js, key, out);
    }
  }

  lemma InlineParse(js: Js, key: string, v: string, rest: seq<string>, out: BackendOptions)
    requires '=' !in key && Trimmed(key) && '=' !in v
    ensures Parse(js, ["--" + key + "=" + v] + rest, out) == Parse(js, rest, Apply(js, out, FlagOf(key), v))
  {
    hide Apply, FlagOf, Trimmed;
    InlineOption(key, v, "");
    var token := "--" + key + "=" + v;
    assert token + "" == token;
    var argv := [token] + rest;
    assert argv[1..] == rest && argv[0] == token;
  }

  // ----- the launchd script's loop -----

  lemma SharedIsApply(js: Js, out: BackendOptions, f: Flag, v: string)
    ensures ApplyShared(js, out.launch, f, v) == Apply(js, out, f, v).launch
  {
    hide Trim, Figure;
  }

  /** The two option loops read the options they share alike, for any arguments. */
  lemma {:induction false} SameReading(js: Js, argv: seq<string>, d: BackendOptions)
    ensures ParseLaunch(js, argv, d.launch) == Parse(js, argv, d).launch
    decreases |argv|
  {
    hide Apply, ApplyShared, KeyOf, After, NextOf;
    if argv != [] {
      if IsOption(argv[0]) {
        SharedIsApply(js, d, KeyOf(argv[0]), NextOf(argv));
        SameReading(js, After(argv), Apply(js, d, KeyOf(argv[0]), NextOf(argv)));
      } else {
        SameReading(js, argv[1..], d);
      }
    }
  }

  /** The part of surviving that the launchd script's own options need. */
  predicate LaunchSurvives(js: Js, d: BackendOptions, o: LaunchOptions) {
    && UserRead(d, o) == o.userId
    && TrainerRead(d, o) == o.trainer
    && FiguresKept(js, o)
    && (Switched(o, ExecuteTraining) ==> d.launch.executeTraining || o.executeTraining)
  }

  /** The launchd script reads the words it prints back, under the conditions of the backend's round trip. */
  lemma LaunchReadsBackIff(js: Js, d: BackendOptions, o: LaunchOptions)
    requires PrintsFigures(js, o.figures) && MeetsFloors(o.figures)
    ensures ParseLaunch(js, Arguments(js, o), d.launch)
         == o.(executeTraining := d.launch.executeTraining || o.executeTraining)
         <==> LaunchSurvives(js, d, o)
    ensures Survives(js, d, o) ==> LaunchSurvives(js, d, o)
  {
    hide Left, UserRead, TrainerRead, FiguresKept, Switched, Parse, ParseLaunch, Arguments;
    SameReading(js, Arguments(js, o), d);
    ReadArguments(js, d, o);
    LeftNames(js, d, o);
    LeftSettings(js, d, o);
    LeftFigures(js, d, o);
  }
}
