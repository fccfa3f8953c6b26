/** The mod menu's settings: seven properties with their defaults and a
    `Validate` that reassigns each numeric property through a clamp. The
    `float` scale factor is modelled as a real number. */
module ModGuiSettings {
  import opened Text

  /** `Math.Max` / `Math.Min` on `int`. */
  function Max(a: int, b: int): int { if a >= b then a else b }
  function Min(a: int, b: int): int { if a <= b then a else b }

  /** `Math.Max` / `Math.Min` on `float`, away from NaN. */
  function MaxReal(a: real, b: real): real { if a >= b then a else b }
  function MinReal(a: real, b: real): real { if a <= b then a else b }

  datatype Values = Values(
    targetFps: Int32, resolutionWidth: Int32, resolutionHeight: Int32,
    hardwareAcceleration: bool, autoStartProjection: bool,
    uiScale: real, monitorIndex: Int32)

  /** 60 fps, automatic resolution, hardware acceleration, scale 1 on monitor 0. */
  const DEFAULTS: Values := Values(60, 0, 0, true, false, 1.0, 0)

  /** What `Validate` guarantees of the values it leaves. */
  predicate IsValid(v: Values) {
    && 1 <= v.targetFps <= 600
    && v.resolutionWidth >= 0 && v.resolutionHeight >= 0
    && 0.5 <= v.uiScale <= 3.0
    && v.monitorIndex >= 0
  }

  /** The values `Validate` leaves behind. */
  function Validated(v: Values): (r: Values)
    ensures IsValid(r)
    // each number inside its range is kept, one outside goes to the nearer bound
    ensures v.targetFps < 1 ==> r.targetFps == 1
    ensures v.targetFps > 600 ==> r.targetFps == 600
    ensures 1 <= v.targetFps <= 600 ==> r.targetFps == v.targetFps
    ensures r.resolutionWidth == (if v.resolutionWidth < 0 then 0 else v.resolutionWidth)
    ensures r.resolutionHeight == (if v.resolutionHeight < 0 then 0 else v.resolutionHeight)
    ensures r.monitorIndex == (if v.monitorIndex < 0 then 0 else v.monitorIndex)
    ensures v.uiScale < 0.5 ==> r.uiScale == 0.5
    ensures v.uiScale > 3.0 ==> r.uiScale == 3.0
    ensures 0.5 <= v.uiScale <= 3.0 ==> r.uiScale == v.uiScale
    // the two flags are never touched
    ensures r.hardwareAcceleration == v.hardwareAcceleration && r.autoStartProjection == v.autoStartProjection
  {
    Values(Max(1, Min(600, v.targetFps)), Max(0, v.resolutionWidth), Max(0, v.resolutionHeight),
           v.hardwareAcceleration, v.autoStartProjection,
           MaxReal(0.5, MinReal(3.0, v.uiScale)), Max(0, v.monitorIndex))
  }

  /** Values that are already valid are left alone. */
  lemma ValidatedKeepsValid(v: Values)
    requires IsValid(v)
    ensures Validated(v) == v
  {
  }

  /** Validating twice is validating once. */
  lemma ValidateIdempotent(v: Values)
    ensures Validated(Validated(v)) == Validated(v)
  {
    ValidatedKeepsValid(Validated(v));
  }

  /** The defaults pass validation unchanged. */
  lemma DefaultsValid()
    ensures IsValid(DEFAULTS) && Validated(DEFAULTS) == DEFAULTS
  {
  }

  class ImGuiSettings {
    var targetFps: Int32
    var resolutionWidth: Int32
    var resolutionHeight: Int32
    var hardwareAcceleration: bool
    var autoStartProjection: bool
    var uiScale: real
    var monitorIndex: Int32

    function Snapshot(): Values
      reads this
    {
      Values(targetFps, resolutionWidth, resolutionHeight, hardwareAcceleration,
             autoStartProjection, uiScale, monitorIndex)
    }

    constructor ()
      ensures Snapshot() == DEFAULTS
    {
      targetFps, resolutionWidth, resolutionHeight := 60, 0, 0;
      hardwareAcceleration, autoStartProjection := true, false;
      uiScale, monitorIndex := 1.0, 0;
    }

    /** An object holding the given values, as a deserialiser builds it. */
    constructor From(v: Values)
      ensures Snapshot() == v
    {
      targetFps, resolutionWidth, resolutionHeight := v.targetFps, v.resolutionWidth, v.resolutionHeight;
      hardwareAcceleration, autoStartProjection := v.hardwareAcceleration, v.autoStartProjection;
      uiScale, monitorIndex := v.uiScale, v.monitorIndex;
    }

    method Validate()
      modifies this
      ensures Snapshot() == Validated(old(Snapshot()))
    {
      targetFps := Max(1, Min(600, targetFps));
      resolutionWidth := Max(0, resolutionWidth);
      resolutionHeight := Max(0, resolutionHeight);
      uiScale := MaxReal(0.5, MinReal(3.0, uiScale));
      monitorIndex := Max(0, monitorIndex);
    }
  }
}
