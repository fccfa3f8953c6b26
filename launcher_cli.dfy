/** The console launcher's option handling, shared word for word by the
    Pick6 and Pick66 launchers: the command-line pass over `--auto-start`,
    `--fps`, `--resolution` and `--help`, and the acceptance rules of the
    interactive settings prompt. The capture engine's settings are the
    three numbers of `Settings`, the console is the `output` sequence of
    lines written, and an auto-start is recorded with the settings it saw. */
module LauncherCli {
  import opened Wrappers
  import opened Text

  datatype Settings = Settings(targetFps: int, scaleWidth: int, scaleHeight: int)

  datatype State = State(settings: Settings, autoStarts: seq<Settings>, output: seq<string>, exited: bool)

  function Say(st: State, line: string): (r: State)
    ensures r.output == st.output + [line]
  {
    st.(output := st.output + [line])
  }

  /** The `case` labels, on the lower-cased argument. */
  datatype Switch = AutoStartFlag | FpsFlag | ResolutionFlag | HelpFlag | NoFlag

  function Classify(a: string): Switch {
    if a == "--auto-start" then AutoStartFlag
    else if a == "--fps" then FpsFlag
    else if a == "--resolution" then ResolutionFlag
    else if a == "--help" then HelpFlag
    else NoFlag
  }

  /** `--fps N`: any 32-bit value is taken, with no range check. */
  function FpsArg(st: State, args: seq<string>, i: nat): (State, nat)
    requires i < |args|
  {
    if i + 1 < |args| && ParseInt32(args[i + 1]).Some? then
      var fps := ParseInt32(args[i + 1]).value;
      (Say(st.(settings := st.settings.(targetFps := fps)), "[INFO] Target FPS set to " + IntToString(fps)), i + 2)
    else (st, i + 1)
  }

  /** `--resolution W H`: both values must parse. */
  function ResolutionArg(st: State, args: seq<string>, i: nat): (State, nat)
    requires i < |args|
  {
    if i + 2 < |args| && ParseInt32(args[i + 1]).Some? && ParseInt32(args[i + 2]).Some? then
      var w := ParseInt32(args[i + 1]).value;
      var h := ParseInt32(args[i + 2]).value;
      (Say(st.(settings := st.settings.(scaleWidth := w, scaleHeight := h)),
           "[INFO] Resolution set to " + IntToString(w) + "x" + IntToString(h)), i + 3)
    else (st, i + 1)
  }

  /** One pass of the loop in `HandleCommandLineArgs` at index `i`, and the
      index it goes on from; `--help` ends the process, so no index after it
      is looked at. */
  function Step(st: State, args: seq<string>, i: nat): (r: (State, nat))
    requires i < |args|
    ensures i < r.1 <= |args|
  {
    match Classify(ToLower(args[i]))
    case AutoStartFlag => (st.(autoStarts := st.autoStarts + [st.settings]), i + 1)
    case FpsFlag => FpsArg(st, args, i)
    case ResolutionFlag => ResolutionArg(st, args, i)
    case HelpFlag => (st.(exited := true), |args|)
    case NoFlag => (st, i + 1)
  }

  /** `HandleCommandLineArgs` from index `i` on. */
  function Apply(st: State, args: seq<string>, i: nat): State
    requires i <= |args|
    decreases |args| - i
  {
    if i == |args| then st
    else
      var (s, j) := Step(st, args, i);
      Apply(s, args, j)
  }

  /** `--fps` takes any value that parses, zero and negatives included, and
      consumes it; otherwise only the flag is passed over. */
  lemma FpsStep(st: State, args: seq<string>, i: nat)
    requires i < |args| && ToLower(args[i]) == "--fps"
    ensures var (r, j) := Step(st, args, i);
      if i + 1 < |args| && ParseInt32(args[i + 1]).Some?
      then j == i + 2 && r.settings == st.settings.(targetFps := ParseInt32(args[i + 1]).value)
      else j == i + 1 && r == st
  {
    assert Classify(ToLower(args[i])) == FpsFlag;
    assert Step(st, args, i) == FpsArg(st, args, i);
  }

  /** `--resolution` applies and consumes both values only when both parse. */
  lemma ResolutionStep(st: State, args: seq<string>, i: nat)
    requires i < |args| && ToLower(args[i]) == "--resolution"
    ensures var (r, j) := Step(st, args, i);
      if i + 2 < |args| && ParseInt32(args[i + 1]).Some? && ParseInt32(args[i + 2]).Some?
      then j == i + 3 && r.settings == Settings(st.settings.targetFps, ParseInt32(args[i + 1]).value, ParseInt32(args[i + 2]).value)
      else j == i + 1 && r == st
  {
    assert Classify(ToLower(args[i])) == ResolutionFlag;
    assert Step(st, args, i) == ResolutionArg(st, args, i);
  }

  /** An argument that is none of the four flags is passed over. */
  lemma UnknownIgnored(st: State, args: seq<string>, i: nat)
    requires i < |args|
    requires ToLower(args[i]) !in {"--auto-start", "--fps", "--resolution", "--help"}
    ensures Step(st, args, i) == (st, i + 1)
  {
  }

  /** Once `--help` is reached nothing after it takes effect. */
  lemma HelpStops(st: State, args: seq<string>, i: nat)
    requires i < |args| && ToLower(args[i]) == "--help"
    ensures Apply(st, args, i) == st.(exited := true)
  {
    assert Classify(ToLower(args[i])) == HelpFlag;
  }

  /** No value the parser consumes can be `--help`, in any letter case. */
  lemma NumberIsNoHelp(t: string)
    requires ParseInt32(t).Some?
    ensures ToLower(t) != "--help"
  {
    if ToLower(t) == "--help" {
      assert LowerChar(t[0]) == ToLower(t)[0] == '-';
      assert LowerChar(t[5]) == ToLower(t)[5] == 'p';
      TrimOfUnpadded(t);
      ParsedEndsInDigit(t);
      assert false;
    }
  }

  /** The pass never undoes an exit. */
  lemma {:induction false} ExitedStays(st: State, args: seq<string>, i: nat)
    requires i <= |args| && st.exited
    ensures Apply(st, args, i).exited
    decreases |args| - i
  {
    if i < |args| {
      var (s, j) := Step(st, args, i);
      ExitedStays(s, args, j);
    }
  }

  /** A step that is not `--help` itself never jumps over a later `--help`. */
  lemma StepStopsBeforeHelp(st: State, args: seq<string>, i: nat, k: nat)
    requires i < k < |args| && ToLower(args[k]) == "--help"
    requires Classify(ToLower(args[i])) != HelpFlag
    ensures Step(st, args, i).1 <= k
  {
    var c := Classify(ToLower(args[i]));
    if c == FpsFlag {
      assert Step(st, args, i) == FpsArg(st, args, i);
      if k == i + 1 && ParseInt32(args[k]).Some? {
        NumberIsNoHelp(args[k]);
        assert false;
      }
    } else if c == ResolutionFlag {
      assert Step(st, args, i) == ResolutionArg(st, args, i);
      if k <= i + 2 && i + 2 < |args| && ParseInt32(args[i + 1]).Some? && ParseInt32(args[i + 2]).Some? {
        NumberIsNoHelp(args[k]);
        assert false;
      }
    }
  }

  /** A `--help` anywhere from index `i` on always ends the process: no
      value slot can swallow it, since it never parses as a number. */
  lemma {:induction false} HelpAnywhereExits(st: State, args: seq<string>, i: nat, k: nat)
    requires i <= k < |args| && ToLower(args[k]) == "--help"
    ensures Apply(st, args, i).exited
    decreases |args| - i
  {
    var (s, j) := Step(st, args, i);
    assert Apply(st, args, i) == Apply(s, args, j);
    if k == i {
      HelpStops(st, args, i);
    } else if Classify(ToLower(args[i])) == HelpFlag {
      ExitedStays(s, args, j);
    } else {
      StepStopsBeforeHelp(st, args, i, k);
      HelpAnywhereExits(s, args, j, k);
    }
  }

  /** Without `--help` the process never exits during the pass. */
  lemma {:induction false} NoHelpNoExit(st: State, args: seq<string>, i: nat)
    requires i <= |args| && !st.exited
    requires forall k :: i <= k < |args| ==> ToLower(args[k]) != "--help"
    ensures !Apply(st, args, i).exited
    decreases |args| - i
  {
    if i < |args| {
      var (s, j) := Step(st, args, i);
      NoHelpNoExit(s, args, j);
    }
  }

  // ------------------------------------------------- interactive settings

  /** The frame-rate prompt: a parsed answer in 1..120 is taken and announced. */
  function FpsAnswer(st: State, pf: Option<int>): State {
    if pf.Some? && 0 < pf.value <= 120
    then Say(st.(settings := st.settings.(targetFps := pf.value)), "\U{2705} FPS updated to " + IntToString(pf.value))
    else st
  }

  /** The width prompt: a parsed answer that is not negative is taken. */
  function WidthAnswer(st: State, pw: Option<int>): State {
    if pw.Some? && pw.value >= 0 then st.(settings := st.settings.(scaleWidth := pw.value)) else st
  }

  /** The height prompt: a parsed answer that is not negative is taken. */
  function HeightAnswer(st: State, ph: Option<int>): State {
    if ph.Some? && ph.value >= 0 then st.(settings := st.settings.(scaleHeight := ph.value)) else st
  }

  /** The resolution line, printed whenever both answers parse, even when
      one was refused. */
  function ResolutionLine(st: State, pw: Option<int>, ph: Option<int>): State {
    if pw.Some? && ph.Some?
    then Say(st, "\U{2705} Resolution updated to " +
                 (if pw.value > 0 && ph.value > 0 then IntToString(pw.value) + "x" + IntToString(ph.value) else "Original"))
    else st
  }

  /** The prompts of `ConfigureSettings` after each answer: a frame rate in
      1..120 and a width or height that is not negative are taken, anything
      else keeps the current value. */
  function Configure(st: State, fpsInput: string, widthInput: string, heightInput: string): State {
    var pf, pw, ph := ParseInt32(fpsInput), ParseInt32(widthInput), ParseInt32(heightInput);
    Say(ResolutionLine(HeightAnswer(WidthAnswer(FpsAnswer(st, pf), pw), ph), pw, ph),
        "\U{2705} Settings updated successfully!")
  }

  /** The prompt keeps the settings within its bounds: each value is either
      unchanged or the answer given, and then within range. */
  lemma ConfigureBounds(st: State, fpsInput: string, widthInput: string, heightInput: string)
    ensures var r := Configure(st, fpsInput, widthInput, heightInput).settings;
      && (r.targetFps == st.settings.targetFps || (Some(r.targetFps) == ParseInt32(fpsInput) && 1 <= r.targetFps <= 120))
      && (r.scaleWidth == st.settings.scaleWidth || (Some(r.scaleWidth) == ParseInt32(widthInput) && r.scaleWidth >= 0))
      && (r.scaleHeight == st.settings.scaleHeight || (Some(r.scaleHeight) == ParseInt32(heightInput) && r.scaleHeight >= 0))
  {
  }

  /** `--fps` and a value that parses, as the whole command line, set the
      frame rate to that value. */
  lemma FpsPairApplies(st: State, args: seq<string>)
    requires |args| == 2 && ToLower(args[0]) == "--fps" && ParseInt32(args[1]).Some?
    ensures Apply(st, args, 0).settings.targetFps == ParseInt32(args[1]).value
  {
    FpsStep(st, args, 0);
    var (s, j) := Step(st, args, 0);
    assert Apply(st, args, 0) == Apply(s, args, j);
  }

  /** The command line takes a frame rate the prompt refuses: outside
      1..120, `--fps` applies it while the prompt keeps the old one. */
  lemma CommandLineLooserThanPrompt(st: State, value: string, w: string, h: string)
    requires ParseInt32(value).Some? && !(1 <= ParseInt32(value).value <= 120)
    ensures Apply(st, ["--fps", value], 0).settings.targetFps == ParseInt32(value).value
    ensures Configure(st, value, w, h).settings.targetFps == st.settings.targetFps
  {
    var args := ["--fps", value];
    assert ToLower(args[0]) == "--fps" by {
      assert forall k :: 0 <= k < |args[0]| ==> LowerChar(args[0][k]) == args[0][k];
    }
    FpsPairApplies(st, args);
  }

  /** A refused answer can still be announced: two parsed but negative
      dimensions leave the resolution alone and print "Original". */
  lemma NegativeResolutionAnnounced(st: State, fpsInput: string, widthInput: string, heightInput: string)
    requires ParseInt32(widthInput).Some? && ParseInt32(widthInput).value < 0
    requires ParseInt32(heightInput).Some? && ParseInt32(heightInput).value < 0
    ensures var r := Configure(st, fpsInput, widthInput, heightInput);
      && r.settings.scaleWidth == st.settings.scaleWidth && r.settings.scaleHeight == st.settings.scaleHeight
      && r.output[|r.output| - 2] == "\U{2705} Resolution updated to Original"
  {
  }

  // ---------------------------------------------------------------- class

  /** The launcher's static settings and console. */
  class Launcher {
    var targetFps: int
    var scaleWidth: int
    var scaleHeight: int
    var autoStarts: seq<Settings>
    var output: seq<string>
    var exited: bool

    function Snapshot(): State
      reads this
    {
      State(Settings(targetFps, scaleWidth, scaleHeight), autoStarts, output, exited)
    }

    /** The capture engine starts with the given settings. */
    constructor (initial: Settings)
      ensures Snapshot() == State(initial, [], [], false)
    {
      targetFps, scaleWidth, scaleHeight := initial.targetFps, initial.scaleWidth, initial.scaleHeight;
      autoStarts, output, exited := [], [], false;
    }

    method HandleCommandLineArgs(args: seq<string>)
      modifies this
      ensures Snapshot() == Apply(old(Snapshot()), args, 0)
    {
      var i := 0;
      while i < |args|
        invariant 0 <= i <= |args|
        invariant Apply(Snapshot(), args, i) == Apply(old(Snapshot()), args, 0)
        decreases |args| - i
      {
        ghost var before := Snapshot();
        var next := HandleArg(args, i);
        assert (Snapshot(), next) == Step(before, args, i);
        i := next;
      }
    }

    method HandleArg(args: seq<string>, i: nat) returns (next: nat)
      requires i < |args|
      modifies this
      ensures (Snapshot(), next) == Step(old(Snapshot()), args, i)
    {
      next := i + 1;
      match Classify(ToLower(args[i]))
      case AutoStartFlag =>
        autoStarts := autoStarts + [Settings(targetFps, scaleWidth, scaleHeight)];
      case FpsFlag =>
        next := HandleFps(args, i);
      case ResolutionFlag =>
        next := HandleResolution(args, i);
      case HelpFlag =>
        exited := true;
        next := |args|;
      case NoFlag =>
    }

    /** The `--fps` case of the switch. */
    method HandleFps(args: seq<string>, i: nat) returns (next: nat)
      requires i < |args|
      modifies this`targetFps, this`output
      ensures (Snapshot(), next) == FpsArg(old(Snapshot()), args, i)
    {
      next := i + 1;
      if i + 1 < |args| && ParseInt32(args[i + 1]).Some? {
        var fps := ParseInt32(args[i + 1]).value;
        targetFps := fps;
        output := output + ["[INFO] Target FPS set to " + IntToString(fps)];
        next := i + 2;
      }
    }

    /** The `--resolution` case of the switch. */
    method HandleResolution(args: seq<string>, i: nat) returns (next: nat)
      requires i < |args|
      modifies this`scaleWidth, this`scaleHeight, this`output
      ensures (Snapshot(), next) == ResolutionArg(old(Snapshot()), args, i)
    {
      next := i + 1;
      if i + 2 < |args| && ParseInt32(args[i + 1]).Some? && ParseInt32(args[i + 2]).Some? {
        var w := ParseInt32(args[i + 1]).value;
        var h := ParseInt32(args[i + 2]).value;
        scaleWidth, scaleHeight := w, h;
        output := output + ["[INFO] Resolution set to " + IntToString(w) + "x" + IntToString(h)];
        next := i + 3;
      }
    }

    /** `ConfigureSettings`, with the three answers read. */
    method ConfigureSettings(fpsInput: string, widthInput: string, heightInput: string)
      modifies this
      ensures Snapshot() == Configure(old(Snapshot()), fpsInput, widthInput, heightInput)
    {
      var pf := ParseInt32(fpsInput);
      var pw := ParseInt32(widthInput);
      var ph := ParseInt32(heightInput);
      AnswerFps(pf);
      AnswerSize(pw, ph);
      AnnounceResolution(pw, ph);
      output := output + ["\U{2705} Settings updated successfully!"];
    }

    method AnswerFps(pf: Option<int>)
      modifies this`targetFps, this`output
      ensures Snapshot() == FpsAnswer(old(Snapshot()), pf)
    {
      if pf.Some? && pf.value > 0 && pf.value <= 120 {
        targetFps := pf.value;
        output := output + ["\U{2705} FPS updated to " + IntToString(pf.value)];
      }
    }

    method AnswerSize(pw: Option<int>, ph: Option<int>)
      modifies this`scaleWidth, this`scaleHeight
      ensures Snapshot() == HeightAnswer(WidthAnswer(old(Snapshot()), pw), ph)
    {
      if pw.Some? && pw.value >= 0 {
        scaleWidth := pw.value;
      }
      if ph.Some? && ph.value >= 0 {
        scaleHeight := ph.value;
      }
    }

    method AnnounceResolution(pw: Option<int>, ph: Option<int>)
      modifies this`output
      ensures Snapshot() == ResolutionLine(old(Snapshot()), pw, ph)
    {
      if pw.Some? && ph.Some? {
        var shown := if pw.value > 0 && ph.value > 0 then IntToString(pw.value) + "x" + IntToString(ph.value) else "Original";
        output := output + ["\U{2705} Resolution updated to " + shown];
      }
    }
  }
}
