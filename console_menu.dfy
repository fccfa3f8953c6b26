/** The loader's console menu: the level filter of its `Log`, the
    command-line pass that sets capture, projection and logging options,
    the choice between auto-start, the interactive menu and exiting after
    an update check, and the parsing of a typed keybind such as
    `CTRL+SHIFT+F5`. The console itself is the `output` sequence of lines
    written; the monitor count and the key-name lookup, which live outside
    this file, are inputs. What an auto-start goes on to do is not
    modelled: each call is recorded with the options it saw. */
module LoaderConsole {
  import opened Wrappers
  import opened Text

  /** The levels the menu logs at, in the enum's order. */
  datatype Level = Debug | Info | Warning | Error

  function Ordinal(l: Level): int {
    match l
    case Debug => 0
    case Info => 1
    case Warning => 2
    case Error => 3
  }

  function Prefix(l: Level): string {
    match l
    case Debug => "[DEBUG]"
    case Info => "[INFO]"
    case Warning => "[WARNING]"
    case Error => "[ERROR]"
  }

  /** `LogLevel.ToString()`: the name of a defined value, else its number. */
  function LevelName(v: int): string {
    if v == 0 then "Debug" else if v == 1 then "Info" else if v == 2 then "Warning"
    else if v == 3 then "Error" else IntToString(v)
  }

  /** `Enum.TryParse<LogLevel>(s, ignoreCase: true, ...)`: a level name in
      any letter case or any 32-bit number, with white space around it. A
      number need not name a defined level. */
  function ParseLevel(s: string): (r: Option<int>)
    ensures r.Some? ==> IsInt32(r.value)
  {
    var t := ToLower(Trim(s));
    if t == "debug" then Some(0)
    else if t == "info" then Some(1)
    else if t == "warning" then Some(2)
    else if t == "error" then Some(3)
    else ParseInt32(s)
  }

  /** The options one `AutoStartCapture` call sees. */
  datatype AutoStart = AutoStart(noProjection: bool, selectedMonitor: int)

  datatype State = State(
    autoMode: bool,
    noProjection: bool,
    /** The underlying value of `_logLevel`. */
    logLevel: int,
    checkUpdatesOnly: bool,
    checkUpdates: bool,
    targetFps: int,
    scaleWidth: int,
    scaleHeight: int,
    selectedMonitor: int,
    fpsLogging: bool,
    autoStarts: seq<AutoStart>,
    output: seq<string>)

  /** The field initialisers, with the capture engine's settings as given. */
  function Initial(targetFps: int, scaleWidth: int, scaleHeight: int): State {
    State(false, false, 1, false, false, targetFps, scaleWidth, scaleHeight, 0, false, [], [])
  }

  // -------------------------------------------------------------- logging

  /** `Log`: nothing below the current level; otherwise the line with its
      level's prefix. */
  function Log(st: State, level: Level, message: string): (r: State)
    ensures r.(output := st.output) == st
    ensures Ordinal(level) < st.logLevel ==> r.output == st.output
    ensures Ordinal(level) >= st.logLevel ==> r.output == st.output + [Prefix(level) + " " + message]
  {
    if Ordinal(level) < st.logLevel then st
    else st.(output := st.output + [Prefix(level) + " " + message])
  }

  /** A level is written exactly when it is at or above the current one. */
  lemma LogWritesAtOrAbove(st: State, level: Level, message: string)
    ensures Log(st, level, message) != st <==> Ordinal(level) >= st.logLevel
  {
    if Ordinal(level) >= st.logLevel {
      assert |Log(st, level, message).output| == |st.output| + 1;
    }
  }

  function RecordAutoStart(st: State): State {
    st.(autoStarts := st.autoStarts + [AutoStart(st.noProjection, st.selectedMonitor)])
  }

  // ------------------------------------------------------ command line

  /** The `case` labels of the switch, on the lower-cased argument. */
  datatype Switch = AutoStartFlag | FpsFlag | FpsLoggingFlag | ResolutionFlag | MonitorFlag
                  | NoProjectionFlag | LogLevelFlag | CheckUpdatesOnlyFlag | CheckUpdatesFlag | NoFlag

  function Classify(a: string): Switch {
    if a == "--auto-start" then AutoStartFlag
    else if a == "--fps" then FpsFlag
    else if a == "--fps-logging" then FpsLoggingFlag
    else if a == "--resolution" then ResolutionFlag
    else if a == "--monitor" then MonitorFlag
    else if a == "--no-projection" then NoProjectionFlag
    else if a == "--log-level" then LogLevelFlag
    else if a == "--check-updates-only" then CheckUpdatesOnlyFlag
    else if a == "--check-updates" then CheckUpdatesFlag
    else NoFlag
  }

  /** `--fps N`: a value that parses is consumed and applied within 1..600. */
  function FpsArg(st: State, args: seq<string>, i: nat): (State, nat)
    requires i < |args|
  {
    if i + 1 < |args| && ParseInt32(args[i + 1]).Some? then
      var fps := ParseInt32(args[i + 1]).value;
      if 0 < fps <= 600 then (Log(st.(targetFps := fps), Info, "Target FPS set to " + IntToString(fps)), i + 2)
      else (Log(st, Warning, "Invalid FPS value " + IntToString(fps) + ". Must be between 1 and 600."), i + 2)
    else (st, i + 1)
  }

  function ResolutionMessage(w: int, h: int): string {
    "Resolution set to " + IntToString(w) + "x" + IntToString(h)
  }

  /** `--resolution W H`: both values must parse; neither is range checked. */
  function ResolutionArg(st: State, args: seq<string>, i: nat): (State, nat)
    requires i < |args|
  {
    if i + 2 < |args| && ParseInt32(args[i + 1]).Some? && ParseInt32(args[i + 2]).Some? then
      var w := ParseInt32(args[i + 1]).value;
      var h := ParseInt32(args[i + 2]).value;
      (Log(st.(scaleWidth := w, scaleHeight := h), Info, ResolutionMessage(w, h)), i + 3)
    else (st, i + 1)
  }

  /** `--monitor M`: a value that parses is consumed and applied below the
      monitor count. */
  function MonitorArg(st: State, args: seq<string>, i: nat, monitorCount: int): (State, nat)
    requires i < |args|
  {
    if i + 1 < |args| && ParseInt32(args[i + 1]).Some? then
      var m := ParseInt32(args[i + 1]).value;
      if 0 <= m < monitorCount then (Log(st.(selectedMonitor := m), Info, "Target monitor set to " + IntToString(m)), i + 2)
      else (Log(st, Warning, "Invalid monitor " + IntToString(m) + ". Available: 0-" + IntToString(monitorCount - 1)), i + 2)
    else (st, i + 1)
  }

  /** `--log-level L`: the next token is consumed whether or not it names a
      level; the confirmation is filtered by the new level. */
  function LogLevelArg(st: State, args: seq<string>, i: nat): (State, nat)
    requires i < |args|
  {
    if i + 1 < |args| && ParseLevel(args[i + 1]).Some? then
      var v := ParseLevel(args[i + 1]).value;
      (Log(st.(logLevel := v), Info, "Log level set to " + LevelName(v)), i + 2)
    else if i + 1 < |args| then
      (Log(st, Warning, "Invalid log level '" + args[i + 1] + "'. Valid values: Debug, Info, Warning, Error"), i + 2)
    else (st, i + 1)
  }

  /** One pass of the switch in `HandleCommandLineArgs` at index `i`, and the
      index the loop goes on from: one past the flag and past every value
      it consumed. */
  function Step(st: State, args: seq<string>, i: nat, monitorCount: int): (r: (State, nat))
    requires i < |args|
    ensures i < r.1 <= |args|
  {
    match Classify(ToLower(args[i]))
    case AutoStartFlag => (RecordAutoStart(st.(autoMode := true)), i + 1)
    case FpsFlag => FpsArg(st, args, i)
    case FpsLoggingFlag => (Log(st.(fpsLogging := true), Info, "FPS logging enabled"), i + 1)
    case ResolutionFlag => ResolutionArg(st, args, i)
    case MonitorFlag => MonitorArg(st, args, i, monitorCount)
    case NoProjectionFlag => (Log(st.(noProjection := true), Info, "Projection disabled"), i + 1)
    case LogLevelFlag => LogLevelArg(st, args, i)
    case CheckUpdatesOnlyFlag => (Log(st.(checkUpdatesOnly := true), Info, "Check updates only mode enabled"), i + 1)
    case CheckUpdatesFlag => (Log(st.(checkUpdates := true), Info, "Manual update check requested"), i + 1)
    case NoFlag => (st, i + 1)
  }

  /** `HandleCommandLineArgs` from index `i` on. */
  function Apply(st: State, args: seq<string>, i: nat, monitorCount: int): State
    requires i <= |args|
    decreases |args| - i
  {
    if i == |args| then st
    else
      var (s, j) := Step(st, args, i, monitorCount);
      Apply(s, args, j, monitorCount)
  }

  /** `--fps`: the value is consumed whenever it parses, and applied only
      within 1..600; a missing or unparsable value consumes nothing. Nothing
      but the frame rate and the log changes. */
  lemma FpsStep(st: State, args: seq<string>, i: nat, monitorCount: int)
    requires i < |args| && ToLower(args[i]) == "--fps"
    ensures var (r, j) := Step(st, args, i, monitorCount);
      var parsed := i + 1 < |args| && ParseInt32(args[i + 1]).Some?;
      && j == (if parsed then i + 2 else i + 1)
      && r.targetFps == (if parsed && 0 < ParseInt32(args[i + 1]).value <= 600 then ParseInt32(args[i + 1]).value else st.targetFps)
      && r.(targetFps := st.targetFps, output := st.output) == st
  {
    assert Classify(ToLower(args[i])) == FpsFlag;
    assert Step(st, args, i, monitorCount) == FpsArg(st, args, i);
    if i + 1 < |args| && ParseInt32(args[i + 1]).Some? {
      var fps := ParseInt32(args[i + 1]).value;
      if 0 < fps <= 600 {
        assert FpsArg(st, args, i).0 == Log(st.(targetFps := fps), Info, "Target FPS set to " + IntToString(fps));
      }
    }
  }

  /** `--resolution`: both values consumed and applied, with no range check,
      only when both parse; otherwise the flag alone is skipped. */
  lemma ResolutionStep(st: State, args: seq<string>, i: nat, monitorCount: int)
    requires i < |args| && ToLower(args[i]) == "--resolution"
    ensures var (r, j) := Step(st, args, i, monitorCount);
      var both := i + 2 < |args| && ParseInt32(args[i + 1]).Some? && ParseInt32(args[i + 2]).Some?;
      && j == (if both then i + 3 else i + 1)
      && (both ==> r.scaleWidth == ParseInt32(args[i + 1]).value && r.scaleHeight == ParseInt32(args[i + 2]).value)
      && (!both ==> r == st)
  {
    assert Classify(ToLower(args[i])) == ResolutionFlag;
    assert Step(st, args, i, monitorCount) == ResolutionArg(st, args, i);
  }

  /** `--monitor`: consumed whenever it parses, accepted only below the
      monitor count and not negative. */
  lemma MonitorStep(st: State, args: seq<string>, i: nat, monitorCount: int)
    requires i < |args| && ToLower(args[i]) == "--monitor"
    ensures var (r, j) := Step(st, args, i, monitorCount);
      var parsed := i + 1 < |args| && ParseInt32(args[i + 1]).Some?;
      && j == (if parsed then i + 2 else i + 1)
      && r.selectedMonitor == (if parsed && 0 <= ParseInt32(args[i + 1]).value < monitorCount
                               then ParseInt32(args[i + 1]).value else st.selectedMonitor)
  {
    assert Classify(ToLower(args[i])) == MonitorFlag;
    assert Step(st, args, i, monitorCount) == MonitorArg(st, args, i, monitorCount);
  }

  /** `--log-level`: the next token is consumed whenever there is one, valid
      or not; the level changes only when it parses. */
  lemma LogLevelStep(st: State, args: seq<string>, i: nat, monitorCount: int)
    requires i < |args| && ToLower(args[i]) == "--log-level"
    ensures var (r, j) := Step(st, args, i, monitorCount);
      && j == (if i + 1 < |args| then i + 2 else i + 1)
      && r.logLevel == (if i + 1 < |args| && ParseLevel(args[i + 1]).Some? then ParseLevel(args[i + 1]).value else st.logLevel)
  {
    assert Classify(ToLower(args[i])) == LogLevelFlag;
    assert Step(st, args, i, monitorCount) == LogLevelArg(st, args, i);
  }

  /** A token that is no flag is skipped alone and changes nothing. */
  lemma UnknownSkipped(st: State, args: seq<string>, i: nat, monitorCount: int)
    requires i < |args|
    requires ToLower(args[i]) !in {"--auto-start", "--fps", "--fps-logging", "--resolution", "--monitor",
                                   "--no-projection", "--log-level", "--check-updates-only", "--check-updates"}
    ensures Step(st, args, i, monitorCount) == (st, i + 1)
  {
  }

  /** A string with no capital letter is its own lower case. */
  lemma LowerOfLowercase(s: string)
    requires forall k :: 0 <= k < |s| ==> !('A' <= s[k] <= 'Z')
    ensures ToLower(s) == s
  {
  }

  /** A flag is not a level: it neither names one nor is a number. */
  lemma FlagIsNoLevel(t: string)
    requires |t| > 2 && t[0] == '-' && t[1] == '-' && !IsSpace(t[|t| - 1])
    requires forall k :: 0 <= k < |t| ==> !('A' <= t[k] <= 'Z')
    requires t !in {"debug", "info", "warning", "error"}
    ensures ParseLevel(t).None?
  {
    TrimOfUnpadded(t);
    LowerOfLowercase(t);
    assert SplitSign(t).0[0] == '-';
  }

  /** `--log-level` followed by a token that is no level consumes both and
      leaves everything but the log untouched. */
  lemma LogLevelOverPair(st: State, args: seq<string>, monitorCount: int)
    requires |args| == 2 && ToLower(args[0]) == "--log-level" && ParseLevel(args[1]).None?
    ensures Apply(st, args, 0, monitorCount).noProjection == st.noProjection
  {
    LogLevelStep(st, args, 0, monitorCount);
    var (s, j) := Step(st, args, 0, monitorCount);
    assert Step(st, args, 0, monitorCount) == LogLevelArg(st, args, 0);
    assert s.noProjection == st.noProjection;
    assert Apply(st, args, 0, monitorCount) == Apply(s, args, j, monitorCount);
  }

  /** A value slot swallows the next token even when it is a flag:
      `--log-level --no-projection` leaves projection enabled. */
  lemma LogLevelSwallowsFlag(st: State, monitorCount: int)
    requires !st.noProjection
    ensures !Apply(st, ["--log-level", "--no-projection"], 0, monitorCount).noProjection
  {
    var args := ["--log-level", "--no-projection"];
    LowerOfLowercase(args[0]);
    FlagIsNoLevel(args[1]);
    LogLevelOverPair(st, args, monitorCount);
  }

  /** A numeric level beyond the named ones is accepted and silences every
      later line, its own confirmation included. */
  lemma NumericLevelSilences(st: State, monitorCount: int, level: Level, message: string)
    ensures var r := Apply(st, ["--log-level", "7"], 0, monitorCount);
      r.logLevel == 7 && r.output == st.output && Log(r, level, message) == r
  {
    var args := ["--log-level", "7"];
    LowerOfLowercase(args[0]);
    assert Trim("7") == "7" by {
      TrimOfUnpadded("7");
    }
    assert ParseInt32("7") == Some(7) by {
      assert SplitSign("7") == ("7", false);
      assert DigitsValue("7") == 7;
    }
    assert ParseLevel("7") == Some(7);
    assert Step(st, args, 0, monitorCount) == LogLevelArg(st, args, 0);
  }

  /** `--auto-start` acts at once, with only the options before it. */
  lemma AutoStartSeesEarlierOptions(st: State, monitorCount: int)
    ensures var r := Apply(st, ["--auto-start", "--no-projection"], 0, monitorCount);
      r.noProjection && r.autoStarts == st.autoStarts + [AutoStart(st.noProjection, st.selectedMonitor)]
  {
    var args := ["--auto-start", "--no-projection"];
    LowerOfLowercase(args[0]);
    LowerOfLowercase(args[1]);
    var (s1, j1) := Step(st, args, 0, monitorCount);
    assert j1 == 1 && s1.autoStarts == st.autoStarts + [AutoStart(st.noProjection, st.selectedMonitor)];
    var (s2, j2) := Step(s1, args, 1, monitorCount);
    assert j2 == 2 && s2.noProjection && s2.autoStarts == s1.autoStarts;
  }

  // ---------------------------------------------------------------- Run

  /** What `Run` goes on to after the command line. */
  datatype Plan = ExitAfterUpdateCheck | AutoStartLoop | InteractiveMenu

  predicate HasInteractive(args: seq<string>) {
    exists k :: 0 <= k < |args| && ToLower(args[k]) == "--interactive"
  }

  /** `Run` after the command line: exit after an update check, or announce
      the mode and, when auto-starting, start the capture once more. */
  function RunAfterArgs(s1: State, args: seq<string>): (State, Plan) {
    if s1.checkUpdatesOnly then (Log(s1, Info, "Check updates only mode - exiting after update check"), ExitAfterUpdateCheck)
    else
      var s2 := if s1.checkUpdates then Log(s1, Info, "Performing manual update check...") else s1;
      if !HasInteractive(args) && |args| > 0 then
        (RecordAutoStart(Log(s2, Info, "Running in auto-start mode (non-interactive)")), AutoStartLoop)
      else (Log(s2, Info, "Running in interactive menu mode"), InteractiveMenu)
  }

  /** The state and plan of `Run` up to the wait loop or the menu. */
  function RunStart(st: State, args: seq<string>, monitorCount: int): (State, Plan) {
    RunAfterArgs(if |args| > 0 then Apply(st, args, 0, monitorCount) else st, args)
  }

  /** Without arguments the menu is shown; with any arguments but
      `--interactive` the loader auto-starts, unless it only checks for
      updates; `--interactive` always means the menu. */
  lemma RunPlanCases(st: State, args: seq<string>, monitorCount: int)
    requires !st.checkUpdatesOnly
    ensures args == [] ==> RunStart(st, args, monitorCount).1 == InteractiveMenu
    ensures var s1 := if |args| > 0 then Apply(st, args, 0, monitorCount) else st;
      RunStart(st, args, monitorCount).1 ==
        if s1.checkUpdatesOnly then ExitAfterUpdateCheck
        else if HasInteractive(args) || args == [] then InteractiveMenu
        else AutoStartLoop
  {
  }

  /** `--auto-start` alone starts the capture twice: once while the flag is
      read and once more in auto-start mode. */
  lemma AutoStartTwice(st: State, monitorCount: int)
    requires !st.checkUpdatesOnly
    ensures |RunStart(st, ["--auto-start"], monitorCount).0.autoStarts| == |st.autoStarts| + 2
  {
    var args := ["--auto-start"];
    LowerOfLowercase(args[0]);
    var (s1, j) := Step(st, args, 0, monitorCount);
    assert j == 1 && |s1.autoStarts| == |st.autoStarts| + 1 && !s1.checkUpdatesOnly;
    assert Apply(st, args, 0, monitorCount) == s1;
    assert !HasInteractive(args) by {
      assert ToLower(args[0]) != "--interactive" by {
        assert |ToLower(args[0])| != |"--interactive"|;
      }
    }
  }

  // ------------------------------------------------------------- keybinds

  /** The modifiers named before the last `+`-separated part. */
  predicate NamesModifier(parts: seq<string>, name: string) {
    exists k :: 0 <= k < |parts| - 1 && parts[k] == name
  }

  /** `TryParseKeybindInput`: `CTRL`, `ALT` and `SHIFT` before the last part
      set their flags, anything else there is ignored, and the last part is
      the key name, looked up by `keyCode` (`-1` when unknown). */
  method TryParseKeybindInput(input: string, keyCode: string -> int)
    returns (ok: bool, ctrl: bool, alt: bool, shift: bool, virtualKey: int)
    ensures var parts := Split(input, '+');
      && virtualKey == keyCode(parts[|parts| - 1])
      && (ok <==> virtualKey != -1)
      && (ctrl <==> NamesModifier(parts, "CTRL"))
      && (alt <==> NamesModifier(parts, "ALT"))
      && (shift <==> NamesModifier(parts, "SHIFT"))
  {
    ctrl, alt, shift := false, false, false;
    virtualKey := -1;
    var parts := Split(input, '+');
    var keyName := parts[|parts| - 1];
    for i := 0 to |parts| - 1
      invariant ctrl <==> exists k :: 0 <= k < i && parts[k] == "CTRL"
      invariant alt <==> exists k :: 0 <= k < i && parts[k] == "ALT"
      invariant shift <==> exists k :: 0 <= k < i && parts[k] == "SHIFT"
    {
      if parts[i] == "CTRL" {
        ctrl := true;
      } else if parts[i] == "ALT" {
        alt := true;
      } else if parts[i] == "SHIFT" {
        shift := true;
      }
    }
    virtualKey := keyCode(keyName);
    ok := virtualKey != -1;
  }

  // --------------------------------------------------------------- class

  class ConsoleMenu {
    var autoMode: bool
    var noProjection: bool
    var logLevel: int
    var checkUpdatesOnly: bool
    var checkUpdates: bool
    /** The capture engine's `TargetFPS`, `ScaleWidth` and `ScaleHeight`. */
    var targetFps: int
    var scaleWidth: int
    var scaleHeight: int
    var selectedMonitor: int
    var fpsLogging: bool
    var autoStarts: seq<AutoStart>
    var output: seq<string>

    function Snapshot(): State
      reads this
    {
      State(autoMode, noProjection, logLevel, checkUpdatesOnly, checkUpdates, targetFps,
            scaleWidth, scaleHeight, selectedMonitor, fpsLogging, autoStarts, output)
    }

    constructor (targetFps: int, scaleWidth: int, scaleHeight: int)
      ensures Snapshot() == Initial(targetFps, scaleWidth, scaleHeight)
    {
      autoMode, noProjection, logLevel, checkUpdatesOnly, checkUpdates := false, false, 1, false, false;
      this.targetFps, this.scaleWidth, this.scaleHeight := targetFps, scaleWidth, scaleHeight;
      selectedMonitor, fpsLogging, autoStarts, output := 0, false, [], [];
    }

    method LogLine(message: string, level: Level)
      modifies this`output
      ensures Snapshot() == Log(old(Snapshot()), level, message)
    {
      if Ordinal(level) < logLevel {
        return;
      }
      output := output + [Prefix(level) + " " + message];
    }

    method AutoStartCapture()
      modifies this`autoStarts
      ensures Snapshot() == RecordAutoStart(old(Snapshot()))
    {
      autoStarts := autoStarts + [AutoStart(noProjection, selectedMonitor)];
    }

    method HandleCommandLineArgs(args: seq<string>, monitorCount: int)
      modifies this
      ensures Snapshot() == Apply(old(Snapshot()), args, 0, monitorCount)
    {
      var i := 0;
      while i < |args|
        invariant 0 <= i <= |args|
        invariant Apply(Snapshot(), args, i, monitorCount) == Apply(old(Snapshot()), args, 0, monitorCount)
        decreases |args| - i
      {
        ghost var before := Snapshot();
        var next := HandleArg(args, i, monitorCount);
        assert (Snapshot(), next) == Step(before, args, i, monitorCount);
        i := next;
      }
    }

    /** One pass of the loop's switch; returns where the loop goes on. */
    method HandleArg(args: seq<string>, i: nat, monitorCount: int) returns (next: nat)
      requires i < |args|
      modifies this
      ensures (Snapshot(), next) == Step(old(Snapshot()), args, i, monitorCount)
    {
      next := i + 1;
      match Classify(ToLower(args[i]))
      case AutoStartFlag =>
        ghost var s0 := Snapshot();
        autoMode := true;
        assert Snapshot() == s0.(autoMode := true);
        AutoStartCapture();
      case FpsFlag =>
        next := HandleFps(args, i);
      case FpsLoggingFlag =>
        ghost var s0 := Snapshot();
        fpsLogging := true;
        assert Snapshot() == s0.(fpsLogging := true);
        LogLine("FPS logging enabled", Info);
      case ResolutionFlag =>
        next := HandleResolution(args, i);
      case MonitorFlag =>
        next := HandleMonitor(args, i, monitorCount);
      case NoProjectionFlag =>
        ghost var s0 := Snapshot();
        noProjection := true;
        assert Snapshot() == s0.(noProjection := true);
        LogLine("Projection disabled", Info);
      case LogLevelFlag =>
        next := HandleLogLevel(args, i);
      case CheckUpdatesOnlyFlag =>
        ghost var s0 := Snapshot();
        checkUpdatesOnly := true;
        assert Snapshot() == s0.(checkUpdatesOnly := true);
        LogLine("Check updates only mode enabled", Info);
      case CheckUpdatesFlag =>
        ghost var s0 := Snapshot();
        checkUpdates := true;
        assert Snapshot() == s0.(checkUpdates := true);
        LogLine("Manual update check requested", Info);
      case NoFlag =>
    }

    method HandleFps(args: seq<string>, i: nat) returns (next: nat)
      requires i < |args|
      modifies this`targetFps, this`output
      ensures (Snapshot(), next) == FpsArg(old(Snapshot()), args, i)
    {
      next := i + 1;
      if i + 1 < |args| && ParseInt32(args[i + 1]).Some? {
        var fps := ParseInt32(args[i + 1]).value;
        if 0 < fps <= 600 {
          ghost var s0 := Snapshot();
          targetFps := fps;
          assert Snapshot() == s0.(targetFps := fps);
          LogLine("Target FPS set to " + IntToString(fps), Info);
        } else {
          LogLine("Invalid FPS value " + IntToString(fps) + ". Must be between 1 and 600.", Warning);
        }
        next := i + 2;
      }
    }

    method HandleResolution(args: seq<string>, i: nat) returns (next: nat)
      requires i < |args|
      modifies this`scaleWidth, this`scaleHeight, this`output
      ensures (Snapshot(), next) == ResolutionArg(old(Snapshot()), args, i)
    {
      next := i + 1;
      if i + 2 < |args| && ParseInt32(args[i + 1]).Some? && ParseInt32(args[i + 2]).Some? {
        ghost var s0 := Snapshot();
        var w := ParseInt32(args[i + 1]).value;
        var h := ParseInt32(args[i + 2]).value;
        scaleWidth, scaleHeight := w, h;
        assert Snapshot() == s0.(scaleWidth := w, scaleHeight := h);
        LogLine(ResolutionMessage(w, h), Info);
        next := i + 3;
      }
    }

    method HandleMonitor(args: seq<string>, i: nat, monitorCount: int) returns (next: nat)
      requires i < |args|
      modifies this`selectedMonitor, this`output
      ensures (Snapshot(), next) == MonitorArg(old(Snapshot()), args, i, monitorCount)
    {
      next := i + 1;
      if i + 1 < |args| && ParseInt32(args[i + 1]).Some? {
        var m := ParseInt32(args[i + 1]).value;
        if 0 <= m < monitorCount {
          ghost var s0 := Snapshot();
          selectedMonitor := m;
          assert Snapshot() == s0.(selectedMonitor := m);
          LogLine("Target monitor set to " + IntToString(m), Info);
        } else {
          LogLine("Invalid monitor " + IntToString(m) + ". Available: 0-" + IntToString(monitorCount - 1), Warning);
        }
        next := i + 2;
      }
    }

    method HandleLogLevel(args: seq<string>, i: nat) returns (next: nat)
      requires i < |args|
      modifies this`logLevel, this`output
      ensures (Snapshot(), next) == LogLevelArg(old(Snapshot()), args, i)
    {
      next := i + 1;
      if i + 1 < |args| && ParseLevel(args[i + 1]).Some? {
        var v := ParseLevel(args[i + 1]).value;
        ghost var s0 := Snapshot();
        logLevel := v;
        assert Snapshot() == s0.(logLevel := v);
        LogLine("Log level set to " + LevelName(v), Info);
        next := i + 2;
      } else if i + 1 < |args| {
        LogLine("Invalid log level '" + args[i + 1] + "'. Valid values: Debug, Info, Warning, Error", Warning);
        next := i + 2;
      }
    }

    /** `Run` up to the wait loop or the interactive menu. */
    method Run(args: seq<string>, monitorCount: int) returns (plan: Plan)
      modifies this
      ensures (Snapshot(), plan) == RunStart(old(Snapshot()), args, monitorCount)
    {
      if |args| > 0 {
        HandleCommandLineArgs(args, monitorCount);
      }
      plan := AfterArgs(args);
    }

    /** The rest of `Run`, once the command line is handled. */
    method AfterArgs(args: seq<string>) returns (plan: Plan)
      modifies this`output, this`autoStarts
      ensures (Snapshot(), plan) == RunAfterArgs(old(Snapshot()), args)
    {
      if checkUpdatesOnly {
        LogLine("Check updates only mode - exiting after update check", Info);
        return ExitAfterUpdateCheck;
      }
      if checkUpdates {
        LogLine("Performing manual update check...", Info);
      }
      ghost var s2 := Snapshot();
      var useInteractiveMenu := false;
      for k := 0 to |args|
        invariant useInteractiveMenu <==> exists j :: 0 <= j < k && ToLower(args[j]) == "--interactive"
      {
        if ToLower(args[k]) == "--interactive" {
          useInteractiveMenu := true;
        }
      }
      assert useInteractiveMenu == HasInteractive(args);
      if !useInteractiveMenu && |args| > 0 {
        LogLine("Running in auto-start mode (non-interactive)", Info);
        AutoStartCapture();
        plan := AutoStartLoop;
      } else {
        LogLine("Running in interactive menu mode", Info);
        plan := InteractiveMenu;
      }
    }
  }
}
