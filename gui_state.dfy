/** The mod menu's shared state: a log of at most 1000 entries kept in
    arrival order, the current settings object, and the UI scale kept in
    step with it whenever the settings are validated. The settings file is
    an outcome passed in by the caller; the write on save is not modelled. */
module ModGuiState {
  import opened Wrappers
  import opened LogQueue
  import ModGuiSettings

  /** One line of the in-game console. */
  datatype LogEntry = LogEntry(level: string, timestamp: int, message: string)

  /** What reading the settings file produced. */
  datatype SettingsFile =
    | Missing                                  // no file: the current settings stay
    | Document(parsed: Option<ModGuiSettings.Values>)  // the document, or `null` for a JSON null
    | Unreadable                               // reading or deserialising threw

  /** The values `LoadSettings` sets before validating them. */
  function Loaded(current: ModGuiSettings.Values, file: SettingsFile): ModGuiSettings.Values {
    match file
    case Missing => current
    case Document(Some(v)) => v
    case Document(None) => ModGuiSettings.DEFAULTS
    case Unreadable => ModGuiSettings.DEFAULTS
  }

  /** Loading ends with valid settings; a file that cannot be used gives the
      defaults, and a readable one is kept wherever it is already valid. */
  lemma LoadedThenValidated(current: ModGuiSettings.Values, file: SettingsFile)
    ensures ModGuiSettings.IsValid(ModGuiSettings.Validated(Loaded(current, file)))
    ensures file.Unreadable? || file == Document(None) ==>
              ModGuiSettings.Validated(Loaded(current, file)) == ModGuiSettings.DEFAULTS
    ensures file.Document? && file.parsed.Some? && ModGuiSettings.IsValid(file.parsed.value) ==>
              ModGuiSettings.Validated(Loaded(current, file)) == file.parsed.value
  {
    ModGuiSettings.DefaultsValid();
    if file.Document? && file.parsed.Some? && ModGuiSettings.IsValid(file.parsed.value) {
      ModGuiSettings.ValidatedKeepsValid(file.parsed.value);
    }
  }

  class GuiState {
    var logEntries: seq<LogEntry>
    var uiScale: real
    var selectedTabIndex: int
    var autoScrollLogs: bool
    var currentSettings: ModGuiSettings.ImGuiSettings
    var currentFps: real
    var droppedFrames: int
    var isCapturing: bool
    var isProjecting: bool
    var currentStatus: string

    /** The private constructor: the field initialisers, then `LoadSettings`. */
    constructor (file: SettingsFile)
      ensures logEntries == [] && selectedTabIndex == 0 && autoScrollLogs
      ensures currentFps == 0.0 && droppedFrames == 0 && !isCapturing && !isProjecting
      ensures currentStatus == "Idle"
      ensures currentSettings.Snapshot() == ModGuiSettings.Validated(Loaded(ModGuiSettings.DEFAULTS, file))
      ensures uiScale == currentSettings.uiScale
    {
      logEntries := [];
      uiScale := 1.0;
      selectedTabIndex := 0;
      autoScrollLogs := true;
      currentSettings := new ModGuiSettings.ImGuiSettings();
      currentFps := 0.0;
      droppedFrames := 0;
      isCapturing, isProjecting := false, false;
      currentStatus := "Idle";
      new;
      LoadSettings(file);
    }

    /** Appends the entry, then drops the oldest until at most 1000 remain. */
    method AddLogEntry(level: string, timestamp: int, message: string)
      modifies this`logEntries
      ensures logEntries == Newest(old(logEntries) + [LogEntry(level, timestamp, message)], MAX_LOG_ENTRIES)
    {
      logEntries := logEntries + [LogEntry(level, timestamp, message)];
      ghost var full := logEntries;
      while |logEntries| > MAX_LOG_ENTRIES
        invariant |logEntries| >= MAX_LOG_ENTRIES || logEntries == full
        invariant logEntries == full[|full| - |logEntries|..]
        decreases |logEntries|
      {
        logEntries := logEntries[1..];
      }
    }

    /** A copy of the log, oldest first. */
    method GetLogEntries() returns (entries: seq<LogEntry>)
      ensures entries == logEntries
    {
      entries := logEntries;
    }

    /** Validates the settings and brings the UI scale in line with them. */
    method SaveSettings()
      modifies currentSettings, this`uiScale
      ensures currentSettings.Snapshot() == ModGuiSettings.Validated(old(currentSettings.Snapshot()))
      ensures uiScale == currentSettings.uiScale
    {
      currentSettings.Validate();
      uiScale := currentSettings.uiScale;
    }

    /** Replaces the settings by what the file holds (the defaults when it
        cannot be used), validates them and syncs the UI scale. */
    method LoadSettings(file: SettingsFile)
      modifies this`currentSettings, currentSettings, this`uiScale
      ensures currentSettings.Snapshot() == ModGuiSettings.Validated(Loaded(old(currentSettings.Snapshot()), file))
      ensures uiScale == currentSettings.uiScale
    {
      if file.Document? && file.parsed.Some? {
        currentSettings := new ModGuiSettings.ImGuiSettings.From(file.parsed.value);
      } else if !file.Missing? {
        currentSettings := new ModGuiSettings.ImGuiSettings();
      }
      currentSettings.Validate();
      uiScale := currentSettings.uiScale;
    }
  }
}
