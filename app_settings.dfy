/** The WPF application's settings object: sixteen properties with their
    defaults, a `Validate` that repairs out-of-range values through the
    property setters, and the `PropertyChanged` event each setter raises
    when the value really changes. Strings are nullable, as a JSON document
    can leave them null. */
module GuiSettings {
  import opened Wrappers
  import opened Text

  /** The sixteen properties, in declaration order. */
  datatype Setting =
    | IsDarkTheme | AutoStartProjection | VerboseLogging | ProjectionRefreshIntervalMs
    | TargetFps | ResolutionWidth | ResolutionHeight | MonitorIndex | HardwareAcceleration
    | OutputDirectory | HotkeyToggleProjection | HotkeyStopAndRestore
    | LotteryNumbersPerTicket | LotteryMinNumber | LotteryMaxNumber | LotteryUniqueNumbers

  /** The value a property holds, whatever its type. */
  datatype SettingValue = BoolValue(b: bool) | IntValue(i: Int32) | TextValue(s: Option<string>)

  datatype Values = Values(
    isDarkTheme: bool, autoStartProjection: bool, verboseLogging: bool,
    projectionRefreshIntervalMs: Int32, targetFps: Int32,
    resolutionWidth: Int32, resolutionHeight: Int32, monitorIndex: Int32,
    hardwareAcceleration: bool,
    outputDirectory: Option<string>, hotkeyToggleProjection: Option<string>, hotkeyStopAndRestore: Option<string>,
    lotteryNumbersPerTicket: Int32, lotteryMinNumber: Int32, lotteryMaxNumber: Int32,
    lotteryUniqueNumbers: bool)

  const DEFAULT_OUTPUT: string := "output"
  const DEFAULT_TOGGLE_HOTKEY: string := "Ctrl+P"
  const DEFAULT_STOP_HOTKEY: string := "Ctrl+Shift+P"

  /** The field initialisers: dark theme, 500 ms, 60 fps, automatic
      resolution on monitor 0, and six unique numbers from 1 to 49. */
  const DEFAULTS: Values := Values(
    true, false, false, 500, 60, 0, 0, 0, true,
    Some(DEFAULT_OUTPUT), Some(DEFAULT_TOGGLE_HOTKEY), Some(DEFAULT_STOP_HOTKEY),
    6, 1, 49, true)

  /** `string.IsNullOrWhiteSpace`. */
  predicate NullOrBlank(s: Option<string>) {
    s.None? || IsBlank(s.value)
  }

  function Get(v: Values, s: Setting): SettingValue {
    match s
    case IsDarkTheme => BoolValue(v.isDarkTheme)
    case AutoStartProjection => BoolValue(v.autoStartProjection)
    case VerboseLogging => BoolValue(v.verboseLogging)
    case ProjectionRefreshIntervalMs => IntValue(v.projectionRefreshIntervalMs)
    case TargetFps => IntValue(v.targetFps)
    case ResolutionWidth => IntValue(v.resolutionWidth)
    case ResolutionHeight => IntValue(v.resolutionHeight)
    case MonitorIndex => IntValue(v.monitorIndex)
    case HardwareAcceleration => BoolValue(v.hardwareAcceleration)
    case OutputDirectory => TextValue(v.outputDirectory)
    case HotkeyToggleProjection => TextValue(v.hotkeyToggleProjection)
    case HotkeyStopAndRestore => TextValue(v.hotkeyStopAndRestore)
    case LotteryNumbersPerTicket => IntValue(v.lotteryNumbersPerTicket)
    case LotteryMinNumber => IntValue(v.lotteryMinNumber)
    case LotteryMaxNumber => IntValue(v.lotteryMaxNumber)
    case LotteryUniqueNumbers => BoolValue(v.lotteryUniqueNumbers)
  }

  // ----------------------------------------------------------- validation

  /** What `Validate` guarantees of the values it leaves. */
  predicate IsValid(v: Values) {
    && 50 <= v.projectionRefreshIntervalMs <= 10000
    && 1 <= v.targetFps <= 600
    && v.resolutionWidth >= 0 && v.resolutionHeight >= 0 && v.monitorIndex >= 0
    && !NullOrBlank(v.outputDirectory)
    && !NullOrBlank(v.hotkeyToggleProjection) && !NullOrBlank(v.hotkeyStopAndRestore)
    && v.lotteryNumbersPerTicket >= 1 && v.lotteryMinNumber >= 1
    && v.lotteryMaxNumber >= v.lotteryMinNumber
    && (v.lotteryUniqueNumbers ==> v.lotteryMaxNumber - v.lotteryMinNumber + 1 >= v.lotteryNumbersPerTicket)
  }

  /** A blank string replaced by a non-blank default is no longer blank. */
  function Repaired(s: Option<string>, default: string): (r: Option<string>)
    requires !IsBlank(default)
    ensures !NullOrBlank(r)
  {
    if NullOrBlank(s) then Some(default) else s
  }

  lemma DefaultStringsNotBlank()
    ensures !IsBlank(DEFAULT_OUTPUT) && !IsBlank(DEFAULT_TOGGLE_HOTKEY) && !IsBlank(DEFAULT_STOP_HOTKEY)
  {
    assert !IsSpace(DEFAULT_OUTPUT[0]) && !IsSpace(DEFAULT_TOGGLE_HOTKEY[0]) && !IsSpace(DEFAULT_STOP_HOTKEY[0]);
  }

  /** The values `Validate` leaves behind. */
  function Validated(v: Values): (r: Values)
    ensures IsValid(r)
    // each number below its range is lifted to the bound, each one above it lowered to the bound
    ensures v.projectionRefreshIntervalMs < 50 ==> r.projectionRefreshIntervalMs == 50
    ensures v.projectionRefreshIntervalMs > 10000 ==> r.projectionRefreshIntervalMs == 10000
    ensures v.targetFps < 1 ==> r.targetFps == 1
    ensures v.targetFps > 600 ==> r.targetFps == 600
    ensures v.resolutionWidth < 0 ==> r.resolutionWidth == 0
    ensures v.resolutionHeight < 0 ==> r.resolutionHeight == 0
    ensures v.monitorIndex < 0 ==> r.monitorIndex == 0
    ensures NullOrBlank(v.outputDirectory) ==> r.outputDirectory == Some(DEFAULT_OUTPUT)
    ensures NullOrBlank(v.hotkeyToggleProjection) ==> r.hotkeyToggleProjection == Some(DEFAULT_TOGGLE_HOTKEY)
    ensures NullOrBlank(v.hotkeyStopAndRestore) ==> r.hotkeyStopAndRestore == Some(DEFAULT_STOP_HOTKEY)
    // the maximum is raised to the (repaired) minimum, never lowered
    ensures r.lotteryMaxNumber == v.lotteryMaxNumber || r.lotteryMaxNumber == r.lotteryMinNumber > v.lotteryMaxNumber
    // unique numbers are only ever switched off, and only for a range too small
    ensures r.lotteryUniqueNumbers <==>
              v.lotteryUniqueNumbers
              && r.lotteryMaxNumber - r.lotteryMinNumber + 1 >= r.lotteryNumbersPerTicket
    // the flags it does not look at keep their values
    ensures r.isDarkTheme == v.isDarkTheme && r.autoStartProjection == v.autoStartProjection
    ensures r.verboseLogging == v.verboseLogging && r.hardwareAcceleration == v.hardwareAcceleration
  {
    FixedLottery(RepairedStrings(ClampedNumbers(v)))
  }

  /** The first five assignments of `Validate`: the numeric ranges. */
  function ClampedNumbers(v: Values): (r: Values)
    ensures 50 <= r.projectionRefreshIntervalMs <= 10000 && 1 <= r.targetFps <= 600
    ensures r.resolutionWidth >= 0 && r.resolutionHeight >= 0 && r.monitorIndex >= 0
  {
    Values(v.isDarkTheme, v.autoStartProjection, v.verboseLogging,
           Clamp(v.projectionRefreshIntervalMs, 50, 10000), Clamp(v.targetFps, 1, 600),
           AtLeast(v.resolutionWidth, 0), AtLeast(v.resolutionHeight, 0), AtLeast(v.monitorIndex, 0),
           v.hardwareAcceleration, v.outputDirectory, v.hotkeyToggleProjection, v.hotkeyStopAndRestore,
           v.lotteryNumbersPerTicket, v.lotteryMinNumber, v.lotteryMaxNumber, v.lotteryUniqueNumbers)
  }

  /** The next three: blank strings replaced by their defaults. */
  function RepairedStrings(v: Values): (r: Values)
    ensures !NullOrBlank(r.outputDirectory)
    ensures !NullOrBlank(r.hotkeyToggleProjection) && !NullOrBlank(r.hotkeyStopAndRestore)
  {
    DefaultStringsNotBlank();
    Values(v.isDarkTheme, v.autoStartProjection, v.verboseLogging,
           v.projectionRefreshIntervalMs, v.targetFps, v.resolutionWidth, v.resolutionHeight, v.monitorIndex,
           v.hardwareAcceleration,
           Repaired(v.outputDirectory, DEFAULT_OUTPUT),
           Repaired(v.hotkeyToggleProjection, DEFAULT_TOGGLE_HOTKEY),
           Repaired(v.hotkeyStopAndRestore, DEFAULT_STOP_HOTKEY),
           v.lotteryNumbersPerTicket, v.lotteryMinNumber, v.lotteryMaxNumber, v.lotteryUniqueNumbers)
  }

  /** The last four: the lottery parameters made consistent. */
  function FixedLottery(v: Values): (r: Values)
    ensures r.lotteryNumbersPerTicket >= 1 && r.lotteryMinNumber >= 1
    ensures r.lotteryMaxNumber >= r.lotteryMinNumber
    ensures r.lotteryUniqueNumbers ==> r.lotteryMaxNumber - r.lotteryMinNumber + 1 >= r.lotteryNumbersPerTicket
  {
    var perTicket := AtLeast(v.lotteryNumbersPerTicket, 1);
    var min := AtLeast(v.lotteryMinNumber, 1);
    var max := AtLeast(v.lotteryMaxNumber, min);
    // 1 <= min <= max, so max - min + 1 cannot overflow
    var unique := v.lotteryUniqueNumbers && !(max - min + 1 < perTicket);
    Values(v.isDarkTheme, v.autoStartProjection, v.verboseLogging,
           v.projectionRefreshIntervalMs, v.targetFps, v.resolutionWidth, v.resolutionHeight, v.monitorIndex,
           v.hardwareAcceleration, v.outputDirectory, v.hotkeyToggleProjection, v.hotkeyStopAndRestore,
           perTicket, min, max, unique)
  }

  /** `if (x < lo) x = lo; if (x > hi) x = hi;` */
  function Clamp(x: Int32, lo: Int32, hi: Int32): (r: Int32)
    requires lo <= hi
    ensures lo <= r <= hi
    ensures x < lo ==> r == lo
    ensures x > hi ==> r == hi
    ensures lo <= x <= hi ==> r == x
  {
    if x < lo then lo else if x > hi then hi else x
  }

  /** `if (x < lo) x = lo;` */
  function AtLeast(x: Int32, lo: Int32): (r: Int32)
    ensures r >= lo && r >= x
    ensures x < lo ==> r == lo
    ensures x >= lo ==> r == x
  {
    if x < lo then lo else x
  }

  /** Values that are already valid are left alone. */
  lemma ValidatedKeepsValid(v: Values)
    requires IsValid(v)
    ensures Validated(v) == v
  {
  }

  /** Validating twice is validating once. */
  lemma ValidateIdempotent(v: Values)
    ensures Validated(Validated(v)) == Validated(v)
  {
    ValidatedKeepsValid(Validated(v));
  }

  lemma DefaultsValid()
    ensures IsValid(DEFAULTS)
  {
    DefaultStringsNotBlank();
  }

  /** `[s]` when the property `s` changed. */
  function Event(changed: bool, s: Setting): seq<Setting> {
    if changed then [s] else []
  }

  /** `log` followed by the events of the first five assignments, which
      take the values from `v` to `n`. */
  function NumberEvents(log: seq<Setting>, v: Values, n: Values): seq<Setting> {
    log
    + Event(n.projectionRefreshIntervalMs != v.projectionRefreshIntervalMs, ProjectionRefreshIntervalMs)
    + Event(n.targetFps != v.targetFps, TargetFps)
    + Event(n.resolutionWidth != v.resolutionWidth, ResolutionWidth)
    + Event(n.resolutionHeight != v.resolutionHeight, ResolutionHeight)
    + Event(n.monitorIndex != v.monitorIndex, MonitorIndex)
  }

  /** The same for the next three. */
  function StringEvents(log: seq<Setting>, v: Values, n: Values): seq<Setting> {
    log
    + Event(n.outputDirectory != v.outputDirectory, OutputDirectory)
    + Event(n.hotkeyToggleProjection != v.hotkeyToggleProjection, HotkeyToggleProjection)
    + Event(n.hotkeyStopAndRestore != v.hotkeyStopAndRestore, HotkeyStopAndRestore)
  }

  /** The same for the last four. */
  function LotteryEvents(log: seq<Setting>, v: Values, n: Values): seq<Setting> {
    log
    + Event(n.lotteryNumbersPerTicket != v.lotteryNumbersPerTicket, LotteryNumbersPerTicket)
    + Event(n.lotteryMinNumber != v.lotteryMinNumber, LotteryMinNumber)
    + Event(n.lotteryMaxNumber != v.lotteryMaxNumber, LotteryMaxNumber)
    + Event(n.lotteryUniqueNumbers != v.lotteryUniqueNumbers, LotteryUniqueNumbers)
  }

  /** `log` followed by the events `Validate` raises, in the order of its
      assignments: one for each property whose value it changes. */
  function ValidateEvents(log: seq<Setting>, v: Values): seq<Setting> {
    var n := ClampedNumbers(v);
    var t := RepairedStrings(n);
    LotteryEvents(StringEvents(NumberEvents(log, v, n), n, t), t, FixedLottery(t))
  }

  /** The first five assignments raise one event for each of their
      properties that changed, and nothing for the others. */
  lemma InNumberEvents(log: seq<Setting>, v: Values, n: Values, s: Setting)
    ensures s in NumberEvents(log, v, n) <==>
              s in log
              || ((s.ProjectionRefreshIntervalMs? || s.TargetFps? || s.ResolutionWidth?
                   || s.ResolutionHeight? || s.MonitorIndex?) && Get(v, s) != Get(n, s))
  {
  }

  lemma InStringEvents(log: seq<Setting>, v: Values, n: Values, s: Setting)
    ensures s in StringEvents(log, v, n) <==>
              s in log
              || ((s.OutputDirectory? || s.HotkeyToggleProjection? || s.HotkeyStopAndRestore?)
                  && Get(v, s) != Get(n, s))
  {
  }

  lemma InLotteryEvents(log: seq<Setting>, v: Values, n: Values, s: Setting)
    ensures s in LotteryEvents(log, v, n) <==>
              s in log
              || ((s.LotteryNumbersPerTicket? || s.LotteryMinNumber? || s.LotteryMaxNumber?
                   || s.LotteryUniqueNumbers?) && Get(v, s) != Get(n, s))
  {
  }

  /** `Validate` raises an event for a property exactly when it changes
      that property's value. */
  lemma ValidateEventsExact(v: Values, s: Setting)
    ensures s in ValidateEvents([], v) <==> Get(v, s) != Get(Validated(v), s)
  {
    var n := ClampedNumbers(v);
    var t := RepairedStrings(n);
    var numbers := NumberEvents([], v, n);
    var strings := StringEvents(numbers, n, t);
    InNumberEvents([], v, n, s);
    InStringEvents(numbers, n, t, s);
    InLotteryEvents(strings, t, FixedLottery(t), s);
    // each property is assigned in one group only
    match s {
      case IsDarkTheme =>
      case AutoStartProjection =>
      case VerboseLogging =>
      case ProjectionRefreshIntervalMs =>
      case TargetFps =>
      case ResolutionWidth =>
      case ResolutionHeight =>
      case MonitorIndex =>
      case HardwareAcceleration =>
      case OutputDirectory =>
      case HotkeyToggleProjection =>
      case HotkeyStopAndRestore =>
      case LotteryNumbersPerTicket =>
      case LotteryMinNumber =>
      case LotteryMaxNumber =>
      case LotteryUniqueNumbers =>
    }
  }

  /** `Validate` raises nothing on values that are already valid. */
  lemma ValidateQuietOnValid(v: Values)
    requires IsValid(v)
    ensures ValidateEvents([], v) == []
  {
    ValidatedKeepsValid(v);
  }

  /** `SetProperty`: the field takes the new value, and the property's
      name is raised only when that value differs from the old one. */
  function SetProperty<T(==)>(field: T, value: T, name: Setting): (r: (T, seq<Setting>))
    ensures r.0 == value
    ensures r.1 == [] <==> field == value
    ensures r.1 != [] ==> r.1 == [name]
  {
    if field != value then (value, [name]) else (field, [])
  }

  // ------------------------------------------------------------- the object

  class AppSettings {
    var isDarkTheme: bool
    var autoStartProjection: bool
    var verboseLogging: bool
    var projectionRefreshIntervalMs: Int32
    var targetFps: Int32
    var resolutionWidth: Int32
    var resolutionHeight: Int32
    var monitorIndex: Int32
    var hardwareAcceleration: bool
    var outputDirectory: Option<string>
    var hotkeyToggleProjection: Option<string>
    var hotkeyStopAndRestore: Option<string>
    var lotteryNumbersPerTicket: Int32
    var lotteryMinNumber: Int32
    var lotteryMaxNumber: Int32
    var lotteryUniqueNumbers: bool
    /** The names passed to `PropertyChanged` so far, oldest first. */
    var raised: seq<Setting>

    function Snapshot(): Values
      reads this
    {
      Values(isDarkTheme, autoStartProjection, verboseLogging, projectionRefreshIntervalMs, targetFps,
             resolutionWidth, resolutionHeight, monitorIndex, hardwareAcceleration,
             outputDirectory, hotkeyToggleProjection, hotkeyStopAndRestore,
             lotteryNumbersPerTicket, lotteryMinNumber, lotteryMaxNumber, lotteryUniqueNumbers)
    }

    constructor ()
      ensures Snapshot() == DEFAULTS && raised == []
    {
      isDarkTheme, autoStartProjection, verboseLogging := true, false, false;
      projectionRefreshIntervalMs, targetFps := 500, 60;
      resolutionWidth, resolutionHeight, monitorIndex := 0, 0, 0;
      hardwareAcceleration := true;
      outputDirectory, hotkeyToggleProjection, hotkeyStopAndRestore :=
        Some(DEFAULT_OUTPUT), Some(DEFAULT_TOGGLE_HOTKEY), Some(DEFAULT_STOP_HOTKEY);
      lotteryNumbersPerTicket, lotteryMinNumber, lotteryMaxNumber, lotteryUniqueNumbers := 6, 1, 49, true;
      raised := [];
    }

    // The setters of the properties `Validate` assigns, each through `SetProperty`.

    method SetProjectionRefreshIntervalMs(value: Int32)
      modifies this`projectionRefreshIntervalMs, this`raised
      ensures projectionRefreshIntervalMs == value
      ensures raised == old(raised) + SetProperty(old(projectionRefreshIntervalMs), value, ProjectionRefreshIntervalMs).1
    {
      var (stored, events) := SetProperty(projectionRefreshIntervalMs, value, ProjectionRefreshIntervalMs);
      projectionRefreshIntervalMs, raised := stored, raised + events;
    }

    method SetTargetFps(value: Int32)
      modifies this`targetFps, this`raised
      ensures targetFps == value
      ensures raised == old(raised) + SetProperty(old(targetFps), value, TargetFps).1
    {
      var (stored, events) := SetProperty(targetFps, value, TargetFps);
      targetFps, raised := stored, raised + events;
    }

    method SetResolutionWidth(value: Int32)
      modifies this`resolutionWidth, this`raised
      ensures resolutionWidth == value
      ensures raised == old(raised) + SetProperty(old(resolutionWidth), value, ResolutionWidth).1
    {
      var (stored, events) := SetProperty(resolutionWidth, value, ResolutionWidth);
      resolutionWidth, raised := stored, raised + events;
    }

    method SetResolutionHeight(value: Int32)
      modifies this`resolutionHeight, this`raised
      ensures resolutionHeight == value
      ensures raised == old(raised) + SetProperty(old(resolutionHeight), value, ResolutionHeight).1
    {
      var (stored, events) := SetProperty(resolutionHeight, value, ResolutionHeight);
      resolutionHeight, raised := stored, raised + events;
    }

    method SetMonitorIndex(value: Int32)
      modifies this`monitorIndex, this`raised
      ensures monitorIndex == value
      ensures raised == old(raised) + SetProperty(old(monitorIndex), value, MonitorIndex).1
    {
      var (stored, events) := SetProperty(monitorIndex, value, MonitorIndex);
      monitorIndex, raised := stored, raised + events;
    }

    method SetOutputDirectory(value: Option<string>)
      modifies this`outputDirectory, this`raised
      ensures outputDirectory == value
      ensures raised == old(raised) + SetProperty(old(outputDirectory), value, OutputDirectory).1
    {
      var (stored, events) := SetProperty(outputDirectory, value, OutputDirectory);
      outputDirectory, raised := stored, raised + events;
    }

    method SetHotkeyToggleProjection(value: Option<string>)
      modifies this`hotkeyToggleProjection, this`raised
      ensures hotkeyToggleProjection == value
      ensures raised == old(raised) + SetProperty(old(hotkeyToggleProjection), value, HotkeyToggleProjection).1
    {
      var (stored, events) := SetProperty(hotkeyToggleProjection, value, HotkeyToggleProjection);
      hotkeyToggleProjection, raised := stored, raised + events;
    }

    method SetHotkeyStopAndRestore(value: Option<string>)
      modifies this`hotkeyStopAndRestore, this`raised
      ensures hotkeyStopAndRestore == value
      ensures raised == old(raised) + SetProperty(old(hotkeyStopAndRestore), value, HotkeyStopAndRestore).1
    {
      var (stored, events) := SetProperty(hotkeyStopAndRestore, value, HotkeyStopAndRestore);
      hotkeyStopAndRestore, raised := stored, raised + events;
    }

    method SetLotteryNumbersPerTicket(value: Int32)
      modifies this`lotteryNumbersPerTicket, this`raised
      ensures lotteryNumbersPerTicket == value
      ensures raised == old(raised) + SetProperty(old(lotteryNumbersPerTicket), value, LotteryNumbersPerTicket).1
    {
      var (stored, events) := SetProperty(lotteryNumbersPerTicket, value, LotteryNumbersPerTicket);
      lotteryNumbersPerTicket, raised := stored, raised + events;
    }

    method SetLotteryMinNumber(value: Int32)
      modifies this`lotteryMinNumber, this`raised
      ensures lotteryMinNumber == value
      ensures raised == old(raised) + SetProperty(old(lotteryMinNumber), value, LotteryMinNumber).1
    {
      var (stored, events) := SetProperty(lotteryMinNumber, value, LotteryMinNumber);
      lotteryMinNumber, raised := stored, raised + events;
    }

    method SetLotteryMaxNumber(value: Int32)
      modifies this`lotteryMaxNumber, this`raised
      ensures lotteryMaxNumber == value
      ensures raised == old(raised) + SetProperty(old(lotteryMaxNumber), value, LotteryMaxNumber).1
    {
      var (stored, events) := SetProperty(lotteryMaxNumber, value, LotteryMaxNumber);
      lotteryMaxNumber, raised := stored, raised + events;
    }

    method SetLotteryUniqueNumbers(value: bool)
      modifies this`lotteryUniqueNumbers, this`raised
      ensures lotteryUniqueNumbers == value
      ensures raised == old(raised) + SetProperty(old(lotteryUniqueNumbers), value, LotteryUniqueNumbers).1
    {
      var (stored, events) := SetProperty(lotteryUniqueNumbers, value, LotteryUniqueNumbers);
      lotteryUniqueNumbers, raised := stored, raised + events;
    }

    // One assignment group of `Validate` per property, in its order.

    method FixRefreshInterval()
      modifies this`projectionRefreshIntervalMs, this`raised
      ensures projectionRefreshIntervalMs == Clamp(old(projectionRefreshIntervalMs), 50, 10000)
      ensures raised == old(raised) + Event(projectionRefreshIntervalMs != old(projectionRefreshIntervalMs), ProjectionRefreshIntervalMs)
    {
      if projectionRefreshIntervalMs < 50 { SetProjectionRefreshIntervalMs(50); }
      if projectionRefreshIntervalMs > 10000 { SetProjectionRefreshIntervalMs(10000); }
    }

    method FixTargetFps()
      modifies this`targetFps, this`raised
      ensures targetFps == Clamp(old(targetFps), 1, 600)
      ensures raised == old(raised) + Event(targetFps != old(targetFps), TargetFps)
    {
      if targetFps < 1 { SetTargetFps(1); }
      if targetFps > 600 { SetTargetFps(600); }
    }

    method FixResolutionWidth()
      modifies this`resolutionWidth, this`raised
      ensures resolutionWidth == AtLeast(old(resolutionWidth), 0)
      ensures raised == old(raised) + Event(resolutionWidth != old(resolutionWidth), ResolutionWidth)
    {
      if resolutionWidth < 0 { SetResolutionWidth(0); }
    }

    method FixResolutionHeight()
      modifies this`resolutionHeight, this`raised
      ensures resolutionHeight == AtLeast(old(resolutionHeight), 0)
      ensures raised == old(raised) + Event(resolutionHeight != old(resolutionHeight), ResolutionHeight)
    {
      if resolutionHeight < 0 { SetResolutionHeight(0); }
    }

    method FixMonitorIndex()
      modifies this`monitorIndex, this`raised
      ensures monitorIndex == AtLeast(old(monitorIndex), 0)
      ensures raised == old(raised) + Event(monitorIndex != old(monitorIndex), MonitorIndex)
    {
      if monitorIndex < 0 { SetMonitorIndex(0); }
    }

    method FixOutputDirectory()
      modifies this`outputDirectory, this`raised
      ensures outputDirectory == Repaired(old(outputDirectory), DEFAULT_OUTPUT)
      ensures raised == old(raised) + Event(outputDirectory != old(outputDirectory), OutputDirectory)
    {
      DefaultStringsNotBlank();
      if NullOrBlank(outputDirectory) { SetOutputDirectory(Some(DEFAULT_OUTPUT)); }
    }

    method FixHotkeyToggleProjection()
      modifies this`hotkeyToggleProjection, this`raised
      ensures hotkeyToggleProjection == Repaired(old(hotkeyToggleProjection), DEFAULT_TOGGLE_HOTKEY)
      ensures raised == old(raised) + Event(hotkeyToggleProjection != old(hotkeyToggleProjection), HotkeyToggleProjection)
    {
      DefaultStringsNotBlank();
      if NullOrBlank(hotkeyToggleProjection) { SetHotkeyToggleProjection(Some(DEFAULT_TOGGLE_HOTKEY)); }
    }

    method FixHotkeyStopAndRestore()
      modifies this`hotkeyStopAndRestore, this`raised
      ensures hotkeyStopAndRestore == Repaired(old(hotkeyStopAndRestore), DEFAULT_STOP_HOTKEY)
      ensures raised == old(raised) + Event(hotkeyStopAndRestore != old(hotkeyStopAndRestore), HotkeyStopAndRestore)
    {
      DefaultStringsNotBlank();
      if NullOrBlank(hotkeyStopAndRestore) { SetHotkeyStopAndRestore(Some(DEFAULT_STOP_HOTKEY)); }
    }

    method FixNumbersPerTicket()
      modifies this`lotteryNumbersPerTicket, this`raised
      ensures lotteryNumbersPerTicket == AtLeast(old(lotteryNumbersPerTicket), 1)
      ensures raised == old(raised) + Event(lotteryNumbersPerTicket != old(lotteryNumbersPerTicket), LotteryNumbersPerTicket)
    {
      if lotteryNumbersPerTicket < 1 { SetLotteryNumbersPerTicket(1); }
    }

    method FixMinNumber()
      modifies this`lotteryMinNumber, this`raised
      ensures lotteryMinNumber == AtLeast(old(lotteryMinNumber), 1)
      ensures raised == old(raised) + Event(lotteryMinNumber != old(lotteryMinNumber), LotteryMinNumber)
    {
      if lotteryMinNumber < 1 { SetLotteryMinNumber(1); }
    }

    method FixMaxNumber()
      modifies this`lotteryMaxNumber, this`raised
      ensures lotteryMaxNumber == AtLeast(old(lotteryMaxNumber), lotteryMinNumber)
      ensures raised == old(raised) + Event(lotteryMaxNumber != old(lotteryMaxNumber), LotteryMaxNumber)
    {
      if lotteryMaxNumber < lotteryMinNumber { SetLotteryMaxNumber(lotteryMinNumber); }
    }

    method FixUniqueNumbers()
      requires 1 <= lotteryMinNumber <= lotteryMaxNumber
      modifies this`lotteryUniqueNumbers, this`raised
      ensures lotteryUniqueNumbers == (old(lotteryUniqueNumbers) && lotteryMaxNumber - lotteryMinNumber + 1 >= lotteryNumbersPerTicket)
      ensures raised == old(raised) + Event(lotteryUniqueNumbers != old(lotteryUniqueNumbers), LotteryUniqueNumbers)
    {
      if lotteryUniqueNumbers && lotteryMaxNumber - lotteryMinNumber + 1 < lotteryNumbersPerTicket {
        SetLotteryUniqueNumbers(false);
      }
    }

    /** The first five assignments of `Validate`. */
    method ClampNumbers()
      modifies this`projectionRefreshIntervalMs, this`targetFps, this`resolutionWidth
      modifies this`resolutionHeight, this`monitorIndex, this`raised
      ensures Snapshot() == ClampedNumbers(old(Snapshot()))
      ensures raised == NumberEvents(old(raised), old(Snapshot()), Snapshot())
    {
      ghost var v := Snapshot();
      FixRefreshInterval();
      FixTargetFps();
      FixResolutionWidth();
      FixResolutionHeight();
      FixMonitorIndex();
      assert Snapshot() == ClampedNumbers(v);
    }

    /** The next three. */
    method RepairStrings()
      modifies this`outputDirectory, this`hotkeyToggleProjection, this`hotkeyStopAndRestore, this`raised
      ensures Snapshot() == RepairedStrings(old(Snapshot()))
      ensures raised == StringEvents(old(raised), old(Snapshot()), Snapshot())
    {
      ghost var v := Snapshot();
      DefaultStringsNotBlank();
      FixOutputDirectory();
      FixHotkeyToggleProjection();
      FixHotkeyStopAndRestore();
      assert Snapshot() == RepairedStrings(v);
    }

    /** The last four. */
    method FixLottery()
      modifies this`lotteryNumbersPerTicket, this`lotteryMinNumber, this`lotteryMaxNumber
      modifies this`lotteryUniqueNumbers, this`raised
      ensures Snapshot() == FixedLottery(old(Snapshot()))
      ensures raised == LotteryEvents(old(raised), old(Snapshot()), Snapshot())
    {
      ghost var v := Snapshot();
      FixNumbersPerTicket();
      FixMinNumber();
      FixMaxNumber();
      FixUniqueNumbers();
      assert Snapshot() == FixedLottery(v);
    }

    /** Clamps the numbers, repairs blank strings and makes the lottery
        parameters consistent, each through its setter. */
    method Validate()
      modifies this
      ensures Snapshot() == Validated(old(Snapshot()))
      ensures raised == ValidateEvents(old(raised), old(Snapshot()))
    {
      ClampNumbers();
      RepairStrings();
      FixLottery();
    }
  }
}
