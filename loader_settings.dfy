/** The loader's user settings: six properties with their defaults and a
    `Validate` that overwrites out-of-range values in place. Unlike the
    WPF settings object it raises no events. */
module LoaderSettings {
  import opened Wrappers
  import opened Text
  import GuiSettings

  datatype Values = Values(
    autoStartProjection: bool, verboseLogging: bool,
    projectionRefreshIntervalMs: Int32,
    hotkeyToggleProjection: Option<string>, hotkeyStopAndRestore: Option<string>,
    outputDirectory: Option<string>)

  /** The property initialisers. */
  const DEFAULTS: Values := Values(
    false, false, 500,
    Some(GuiSettings.DEFAULT_TOGGLE_HOTKEY), Some(GuiSettings.DEFAULT_STOP_HOTKEY),
    Some(GuiSettings.DEFAULT_OUTPUT))

  /** What `Validate` guarantees of the values it leaves. */
  predicate IsValid(v: Values) {
    && 50 <= v.projectionRefreshIntervalMs <= 10000
    && !GuiSettings.NullOrBlank(v.outputDirectory)
    && !GuiSettings.NullOrBlank(v.hotkeyToggleProjection)
    && !GuiSettings.NullOrBlank(v.hotkeyStopAndRestore)
  }

  /** The values `Validate` leaves behind. */
  function Validated(v: Values): (r: Values)
    ensures IsValid(r)
    ensures v.projectionRefreshIntervalMs < 50 ==> r.projectionRefreshIntervalMs == 50
    ensures v.projectionRefreshIntervalMs > 10000 ==> r.projectionRefreshIntervalMs == 10000
    ensures 50 <= v.projectionRefreshIntervalMs <= 10000 ==>
              r.projectionRefreshIntervalMs == v.projectionRefreshIntervalMs
    // a blank string becomes its default, any other is kept
    ensures r.outputDirectory ==
              if GuiSettings.NullOrBlank(v.outputDirectory) then Some(GuiSettings.DEFAULT_OUTPUT) else v.outputDirectory
    ensures r.hotkeyToggleProjection ==
              if GuiSettings.NullOrBlank(v.hotkeyToggleProjection) then Some(GuiSettings.DEFAULT_TOGGLE_HOTKEY)
              else v.hotkeyToggleProjection
    ensures r.hotkeyStopAndRestore ==
              if GuiSettings.NullOrBlank(v.hotkeyStopAndRestore) then Some(GuiSettings.DEFAULT_STOP_HOTKEY)
              else v.hotkeyStopAndRestore
    // the two flags are never touched
    ensures r.autoStartProjection == v.autoStartProjection && r.verboseLogging == v.verboseLogging
  {
    GuiSettings.DefaultStringsNotBlank();
    Values(v.autoStartProjection, v.verboseLogging,
           GuiSettings.Clamp(v.projectionRefreshIntervalMs, 50, 10000),
           GuiSettings.Repaired(v.hotkeyToggleProjection, GuiSettings.DEFAULT_TOGGLE_HOTKEY),
           GuiSettings.Repaired(v.hotkeyStopAndRestore, GuiSettings.DEFAULT_STOP_HOTKEY),
           GuiSettings.Repaired(v.outputDirectory, GuiSettings.DEFAULT_OUTPUT))
  }

  /** Values that are already valid are left alone. */
  lemma ValidatedKeepsValid(v: Values)
    requires IsValid(v)
    ensures Validated(v) == v
  {
  }

  /** Validating twice is validating once. */
  lemma ValidateIdempotent(v: Values)
    ensures Validated(Validated(v)) == Validated(v)
  {
    ValidatedKeepsValid(Validated(v));
  }

  /** The defaults pass validation unchanged. */
  lemma DefaultsValid()
    ensures IsValid(DEFAULTS) && Validated(DEFAULTS) == DEFAULTS
  {
    GuiSettings.DefaultStringsNotBlank();
    ValidatedKeepsValid(DEFAULTS);
  }

  class UserSettings {
    var autoStartProjection: bool
    var verboseLogging: bool
    var projectionRefreshIntervalMs: Int32
    var hotkeyToggleProjection: Option<string>
    var hotkeyStopAndRestore: Option<string>
    var outputDirectory: Option<string>

    function Snapshot(): Values
      reads this
    {
      Values(autoStartProjection, verboseLogging, projectionRefreshIntervalMs,
             hotkeyToggleProjection, hotkeyStopAndRestore, outputDirectory)
    }

    constructor ()
      ensures Snapshot() == DEFAULTS
    {
      autoStartProjection, verboseLogging := false, false;
      projectionRefreshIntervalMs := 500;
      hotkeyToggleProjection := Some(GuiSettings.DEFAULT_TOGGLE_HOTKEY);
      hotkeyStopAndRestore := Some(GuiSettings.DEFAULT_STOP_HOTKEY);
      outputDirectory := Some(GuiSettings.DEFAULT_OUTPUT);
    }

    /** The interval into [50, 10000], then each blank string back to its default. */
    method Validate()
      modifies this
      ensures Snapshot() == Validated(old(Snapshot()))
    {
      if projectionRefreshIntervalMs < 50 {
        projectionRefreshIntervalMs := 50;
      } else if projectionRefreshIntervalMs > 10000 {
        projectionRefreshIntervalMs := 10000;
      }
      if GuiSettings.NullOrBlank(outputDirectory) {
        outputDirectory := Some(GuiSettings.DEFAULT_OUTPUT);
      }
      if GuiSettings.NullOrBlank(hotkeyToggleProjection) {
        hotkeyToggleProjection := Some(GuiSettings.DEFAULT_TOGGLE_HOTKEY);
      }
      if GuiSettings.NullOrBlank(hotkeyStopAndRestore) {
        hotkeyStopAndRestore := Some(GuiSettings.DEFAULT_STOP_HOTKEY);
      }
    }
  }
}
