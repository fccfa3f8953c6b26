/** The shared part of the Pick66 proxy DLLs: the cached `pick66_config.txt`
    reader, the Alt+F12 edge detector, the ImGui overlay manager and the
    D3D11 hook manager that the swap-chain proxy calls around every Present.

    Every step is defined once as a function on values (`…Step`, `Overlay…`),
    each class method is proved to perform that step on its fields, and the
    calls into ImGui, Win32 and DXGI appear in the `Journal`. What the host
    answers (key states, window handles, backend results) is passed in as
    `HostAnswers`. */
module ProxyCommon {
  import opened Wrappers
  import opened Text
  import opened Host

  const VK_F12: int := 0x7B
  const VK_MENU: int := 0x12
  const CONFIG_FILE_NAME: string := "pick66_config.txt"

  /** The address of `D3D11HookManager::WndProcHook`. */
  const WND_PROC_HOOK: Handle := 1
  /** The address of the `DXGI_SWAP_CHAIN_DESC` local that `GetDesc` fills. */
  const DESC_BUFFER: Handle := 2

  // ------------------------------------------------------------ configuration

  datatype ProxyConfig = ProxyConfig(
    overlayEnabled: bool,
    loggingEnabled: bool,
    overlayToggleKey: int,
    overlayModifierKey: int)

  /** The default member initialisers of `ProxyConfig`. */
  const DEFAULT_CONFIG: ProxyConfig := ProxyConfig(true, false, VK_F12, VK_MENU)

  /** The only spellings the reader takes for true. */
  predicate IsTrueText(value: string) {
    value == "true" || value == "True"
  }

  /** The effect of one line: split at the first '=', no trimming, two known keys. */
  function ApplyConfigLine(c: ProxyConfig, line: string): ProxyConfig {
    match SplitFirst(line, '=')
    case None => c
    case Some((key, value)) =>
      if key == "OverlayEnabled" then c.(overlayEnabled := IsTrueText(value))
      else if key == "LoggingEnabled" then c.(loggingEnabled := IsTrueText(value))
      else c
  }

  /** The configuration after reading `lines` in order, starting from `start`. */
  function ParseConfig(start: ProxyConfig, lines: seq<string>): ProxyConfig {
    if lines == [] then start
    else ApplyConfigLine(ParseConfig(start, lines[..|lines| - 1]), lines[|lines| - 1])
  }

  /** Reference reading: the value text of the last line whose key is `key`. */
  function LastValue(lines: seq<string>, key: string): Option<string> {
    if lines == [] then None
    else
      match SplitFirst(lines[|lines| - 1], '=')
      case Some((k, v)) => if k == key then Some(v) else LastValue(lines[..|lines| - 1], key)
      case None => LastValue(lines[..|lines| - 1], key)
  }

  function FlagFrom(last: Option<string>, default: bool): bool {
    match last
    case None => default
    case Some(v) => IsTrueText(v)
  }

  /** Each flag is decided by the last line carrying its key, and is left at
      its previous value when no line carries it; the key codes never change. */
  lemma {:induction false} ParseConfigLastWins(start: ProxyConfig, lines: seq<string>)
    ensures ParseConfig(start, lines).overlayEnabled == FlagFrom(LastValue(lines, "OverlayEnabled"), start.overlayEnabled)
    ensures ParseConfig(start, lines).loggingEnabled == FlagFrom(LastValue(lines, "LoggingEnabled"), start.loggingEnabled)
    ensures ParseConfig(start, lines).overlayToggleKey == start.overlayToggleKey
    ensures ParseConfig(start, lines).overlayModifierKey == start.overlayModifierKey
  {
    if lines != [] {
      ParseConfigLastWins(start, lines[..|lines| - 1]);
    }
  }

  /** The configuration read from the file, or the defaults when it cannot be opened. */
  function ConfigFromFile(file: Option<seq<string>>): ProxyConfig {
    match file
    case None => DEFAULT_CONFIG
    case Some(lines) => ParseConfig(DEFAULT_CONFIG, lines)
  }

  /** The `while (std::getline(file, line))` loop of `LoadConfig`. */
  method ReadConfigFile(file: Option<seq<string>>) returns (cfg: ProxyConfig)
    ensures cfg == ConfigFromFile(file)
  {
    cfg := DEFAULT_CONFIG;
    if file.None? {
      return;
    }
    var lines := file.value;
    var i := 0;
    while i < |lines|
      invariant 0 <= i <= |lines|
      invariant cfg == ParseConfig(DEFAULT_CONFIG, lines[..i])
    {
      var line := lines[i];
      match SplitFirst(line, '=') {
        case None =>
        case Some((key, value)) =>
          if key == "OverlayEnabled" {
            cfg := cfg.(overlayEnabled := IsTrueText(value));
          } else if key == "LoggingEnabled" {
            cfg := cfg.(loggingEnabled := IsTrueText(value));
          }
      }
      assert lines[..i + 1][..i] == lines[..i];
      i := i + 1;
    }
    assert lines[..i] == lines;
  }

  // ----------------------------------------------------- static caches

  /** `s_config`, `s_configLoaded` and the function-local `wasPressed`. */
  datatype CommonState = CommonState(config: ProxyConfig, configLoaded: bool, wasPressed: bool)

  const INITIAL_COMMON: CommonState := CommonState(DEFAULT_CONFIG, false, false)

  /** `LoadConfig`: the file is consulted only by the first call; the loaded
      flag is set before the file is read, so every later call (the one made
      through `Log` while reading, too) returns the cached value. */
  function LoadConfigStep(c: CommonState, file: Option<seq<string>>): (r: (CommonState, ProxyConfig))
    ensures r.0.configLoaded && r.0.config == r.1 && r.0.wasPressed == c.wasPressed
    ensures c.configLoaded ==> r == (c, c.config)
    ensures !c.configLoaded ==> r.1 == ConfigFromFile(file)
  {
    if c.configLoaded then (c, c.config)
    else
      var cfg := ConfigFromFile(file);
      (c.(config := cfg, configLoaded := true), cfg)
  }

  /** One poll of `IsOverlayTogglePressed`: (result, new `wasPressed`). */
  function ToggleStep(wasPressed: bool, pressedNow: bool): (bool, bool) {
    if pressedNow && !wasPressed then (true, true)
    else if !pressedNow then (false, false)
    else (false, wasPressed)
  }

  /** The results of a run of polls, given whether the combination is down at each. */
  function TogglePolls(wasPressed: bool, polls: seq<bool>): (r: seq<bool>)
    ensures |r| == |polls|
    decreases |polls|
  {
    if polls == [] then []
    else
      var (fired, now) := ToggleStep(wasPressed, polls[0]);
      [fired] + TogglePolls(now, polls[1..])
  }

  /** The detector fires exactly on rising edges: at a poll where the
      combination is down and was not down at the previous poll. */
  lemma {:induction false} TogglePollsAreRisingEdges(wasPressed: bool, polls: seq<bool>, k: nat)
    requires k < |polls|
    ensures TogglePolls(wasPressed, polls)[k] <==> polls[k] && !(if k == 0 then wasPressed else polls[k - 1])
    decreases k
  {
    if k > 0 {
      var (_, now) := ToggleStep(wasPressed, polls[0]);
      assert now == polls[0];
      TogglePollsAreRisingEdges(now, polls[1..], k - 1);
    }
  }

  function CountTrue(s: seq<bool>): nat {
    if s == [] then 0 else (if s[0] then 1 else 0) + CountTrue(s[1..])
  }

  /** Holding the combination through `n` polls fires exactly once (none if
      it was already held), and releasing it re-arms the detector. */
  lemma {:induction false} HoldingFiresOnce(wasPressed: bool, n: nat)
    ensures CountTrue(TogglePolls(wasPressed, seq(n, _ => true))) == (if wasPressed || n == 0 then 0 else 1)
    ensures TogglePolls(wasPressed, [false, true]) == [false, true]
    decreases n
  {
    if n > 0 {
      var polls := seq(n, _ => true);
      assert polls[1..] == seq(n - 1, _ => true);
      HoldingFiresOnce(true, n - 1);
    }
  }

  /** The class holding the static state of `ProxyCommon`. */
  class Statics {
    var config: ProxyConfig
    var configLoaded: bool
    var wasPressed: bool

    function State(): CommonState
      reads this
    {
      CommonState(config, configLoaded, wasPressed)
    }

    constructor ()
      ensures State() == INITIAL_COMMON
    {
      config := DEFAULT_CONFIG;
      configLoaded := false;
      wasPressed := false;
    }

    method LoadConfig(file: Option<seq<string>>) returns (cfg: ProxyConfig)
      modifies this
      ensures (State(), cfg) == LoadConfigStep(old(State()), file)
    {
      if configLoaded {
        return config;
      }
      config := DEFAULT_CONFIG;
      configLoaded := true;
      config := ReadConfigFile(file);
      cfg := config;
    }

    /** What `Log` does to this state: it consults (and on first use loads)
        the configuration; the writing of the log file is not modelled. */
    method Log(file: Option<seq<string>>)
      modifies this
      ensures State() == LoadConfigStep(old(State()), file).0
    {
      var _ := LoadConfig(file);
    }

    /** `IsOverlayTogglePressed`, given whether VK_MENU and VK_F12 are down. */
    method IsOverlayTogglePressed(modifierDown: bool, toggleDown: bool) returns (fired: bool)
      modifies this
      ensures (fired, wasPressed) == ToggleStep(old(wasPressed), modifierDown && toggleDown)
      ensures config == old(config) && configLoaded == old(configLoaded)
    {
      var isPressed := modifierDown && toggleDown;
      if isPressed && !wasPressed {
        wasPressed := true;
        return true;
      }
      if !isPressed {
        wasPressed := false;
      }
      fired := false;
    }
  }

  // ------------------------------------------------------------ host answers

  /** What the host answers to the calls a hook makes; each field matters only
      on the path that makes the corresponding call. */
  datatype HostAnswers = HostAnswers(
    configFile: Option<seq<string>>,  // lines of pick66_config.txt; None when it cannot be opened
    activeWindow: Handle,             // the IDXGIDevice → adapter → factory → GetActiveWindow chain; NULL if a step fails
    win32InitOk: bool,                // ImGui_ImplWin32_Init
    dx11InitOk: bool,                 // ImGui_ImplDX11_Init
    modifierDown: bool,               // GetAsyncKeyState(VK_MENU) & 0x8000
    toggleDown: bool,                 // GetAsyncKeyState(VK_F12) & 0x8000
    descResult: HResult,              // swapChain->GetDesc
    outputWindow: Handle,             // desc.OutputWindow
    previousWndProc: Handle,          // what SetWindowLongPtrW returns
    closeClicked: bool)               // the user closed the overlay window during RenderUI

  // ------------------------------------------------------------ overlay

  datatype OverlayState = OverlayState(
    initialized: bool,
    visible: bool,
    device: Handle,
    context: Handle,
    frameCount: nat)

  const INITIAL_OVERLAY: OverlayState := OverlayState(false, false, NULL, NULL, 0)

  /** `OverlayManager::Initialize`: (new state, result, calls made). */
  function OverlayInitialize(o: OverlayState, device: Handle, context: Handle, host: HostAnswers): (r: (OverlayState, bool, seq<Event>))
    ensures r.1 <==> o.initialized || (device != NULL && context != NULL && host.activeWindow != NULL && host.win32InitOk && host.dx11InitOk)
    ensures r.0.initialized == r.1
    ensures o.initialized ==> r.0 == o && r.2 == []
    ensures r.0.visible == o.visible && r.0.frameCount == o.frameCount
  {
    if o.initialized then (o, true, [])
    else if device == NULL || context == NULL then (o, false, [])
    else
      var o1 := o.(device := device, context := context);
      var w := host.activeWindow;
      if w == NULL then (o1, false, [ImGuiCreateContext])
      else if !host.win32InitOk then (o1, false, [ImGuiCreateContext, ImGuiWin32Init(w)])
      else if !host.dx11InitOk then
        (o1, false, [ImGuiCreateContext, ImGuiWin32Init(w), ImGuiDx11Init(device, context), ImGuiWin32Shutdown])
      else (o1.(initialized := true), true, [ImGuiCreateContext, ImGuiWin32Init(w), ImGuiDx11Init(device, context)])
  }

  /** `OverlayManager::Shutdown`: nothing unless initialised. */
  function OverlayShutdown(o: OverlayState): (r: (OverlayState, seq<Event>))
    ensures !r.0.initialized
    ensures !o.initialized ==> r == (o, [])
    ensures o.initialized ==> r.0.device == NULL && r.0.context == NULL
  {
    if !o.initialized then (o, [])
    else (o.(initialized := false, device := NULL, context := NULL), [ImGuiDx11Shutdown, ImGuiWin32Shutdown, ImGuiDestroyContext])
  }

  /** `OverlayManager::NewFrame`: counts the frame only when initialised. */
  function OverlayNewFrame(o: OverlayState): (r: (OverlayState, seq<Event>))
    ensures r.0.frameCount == if o.initialized then o.frameCount + 1 else o.frameCount
    ensures r.0 == o.(frameCount := r.0.frameCount)
  {
    if !o.initialized then (o, []) else (o.(frameCount := o.frameCount + 1), [ImGuiNewFrame])
  }

  /** `OverlayManager::Render`: only when initialised and visible; the close
      button (or the window's close box) hides the overlay. */
  function OverlayRender(o: OverlayState, closeClicked: bool): (r: (OverlayState, seq<Event>))
    ensures !(o.initialized && o.visible) ==> r == (o, [])
    // when drawn, the window stays open unless its close button was clicked
    ensures o.initialized && o.visible ==> r.1 == [ImGuiRender] && (r.0.visible <==> !closeClicked)
    ensures r.0 == o.(visible := r.0.visible)
  {
    if !o.initialized || !o.visible then (o, [])
    else (o.(visible := !closeClicked), [ImGuiRender])
  }

  /** `OverlayManager::Present`: submits the draw data only when initialised and visible. */
  function OverlayPresent(o: OverlayState): (r: seq<Event>)
    ensures r != [] <==> o.initialized && o.visible
  {
    if o.initialized && o.visible then [ImGuiRenderDrawData] else []
  }

  /** `OverlayManager::WndProc`: the ImGui handler is consulted only when
      initialised and visible; otherwise the result is 0. */
  function OverlayWndProc(o: OverlayState, m: Message, handled: bool): (r: (int, seq<Event>))
    ensures r.0 == (if o.initialized && o.visible && handled then 1 else 0)
    ensures r.1 != [] <==> o.initialized && o.visible
  {
    if o.initialized && o.visible then (if handled then 1 else 0, [ImGuiWndProcHandler(m)]) else (0, [])
  }

  class OverlayManager {
    var initialized: bool
    var visible: bool
    var device: Handle
    var context: Handle
    var frameCount: nat

    function State(): OverlayState
      reads this
    {
      OverlayState(initialized, visible, device, context, frameCount)
    }

    constructor ()
      ensures State() == INITIAL_OVERLAY
    {
      initialized, visible, device, context, frameCount := false, false, NULL, NULL, 0;
    }

    function IsVisible(): bool
      reads this
    {
      visible
    }

    method SetVisible(v: bool)
      modifies this
      ensures IsVisible() == v
      ensures State() == old(State()).(visible := v)
    {
      visible := v;
    }

    method Toggle()
      modifies this
      ensures IsVisible() == !old(IsVisible())
      ensures State() == old(State()).(visible := !old(visible))
    {
      visible := !visible;
    }

    method Initialize(dev: Handle, ctx: Handle, host: HostAnswers, j: Journal) returns (ok: bool)
      modifies this, j
      ensures var r := OverlayInitialize(old(State()), dev, ctx, host);
        State() == r.0 && ok == r.1 && j.events == old(j.events) + r.2
    {
      if initialized {
        return true;
      }
      if dev == NULL || ctx == NULL {
        return false;
      }
      device := dev;
      context := ctx;
      j.Record(ImGuiCreateContext);
      var hwnd := host.activeWindow;
      if hwnd == NULL {
        return false;
      }
      j.Record(ImGuiWin32Init(hwnd));
      if !host.win32InitOk {
        return false;
      }
      j.Record(ImGuiDx11Init(dev, ctx));
      if !host.dx11InitOk {
        j.Record(ImGuiWin32Shutdown);
        return false;
      }
      initialized := true;
      ok := true;
    }

    method Shutdown(j: Journal)
      modifies this, j
      ensures var r := OverlayShutdown(old(State()));
        State() == r.0 && j.events == old(j.events) + r.1
    {
      if !initialized {
        return;
      }
      j.Record(ImGuiDx11Shutdown);
      j.Record(ImGuiWin32Shutdown);
      j.Record(ImGuiDestroyContext);
      initialized := false;
      device := NULL;
      context := NULL;
    }

    method NewFrame(j: Journal)
      modifies this, j
      ensures var r := OverlayNewFrame(old(State()));
        State() == r.0 && j.events == old(j.events) + r.1
    {
      if !initialized {
        return;
      }
      frameCount := frameCount + 1;
      j.Record(ImGuiNewFrame);
    }

    method Render(closeClicked: bool, j: Journal)
      modifies this, j
      ensures var r := OverlayRender(old(State()), closeClicked);
        State() == r.0 && j.events == old(j.events) + r.1
    {
      if !initialized || !visible {
        return;
      }
      if closeClicked {
        visible := false;
      }
      j.Record(ImGuiRender);
    }

    method Present(j: Journal)
      modifies j
      ensures j.events == old(j.events) + OverlayPresent(State())
    {
      if !initialized || !visible {
        return;
      }
      j.Record(ImGuiRenderDrawData);
    }

    method WndProc(m: Message, handled: bool, j: Journal) returns (result: int)
      modifies j
      ensures var r := OverlayWndProc(State(), m, handled);
        result == r.0 && j.events == old(j.events) + r.1
    {
      result := 0;
      if initialized && visible {
        j.Record(ImGuiWndProcHandler(m));
        if handled {
          result := 1;
        }
      }
    }
  }

  // ------------------------------------------------------------ hook manager

  datatype HookState = HookState(
    initialized: bool,
    overlayInitialized: bool,
    device: Handle,
    context: Handle,
    overlayAttached: bool,   // m_overlayManager != nullptr
    originalWndProc: Handle,
    targetWindow: Handle)

  const INITIAL_HOOK: HookState := HookState(false, false, NULL, NULL, false, NULL, NULL)

  /** The hook manager together with the singletons it drives. */
  datatype Layer = Layer(hook: HookState, overlay: OverlayState, common: CommonState)

  /** Toggle polling, hook installation and overlay drawing are gated on this. */
  predicate OverlayGate(h: HookState) {
    h.initialized && h.overlayAttached && h.overlayInitialized
  }

  /** A recorded window procedure implies a recorded target window. */
  predicate HookInvariant(h: HookState) {
    h.originalWndProc != NULL ==> h.targetWindow != NULL
  }

  /** `D3D11HookManager::Initialize`: attaches the overlay manager; its log
      lines are the first `Log` calls, so the configuration is loaded here. */
  function HookInitialize(l: Layer, file: Option<seq<string>>): (r: Layer)
    ensures r.hook.initialized && r.hook.overlayAttached == (l.hook.initialized ==> l.hook.overlayAttached)
    ensures l.hook.initialized ==> r == l
    ensures !l.hook.initialized ==> r.common == LoadConfigStep(l.common, file).0 && r.overlay == l.overlay
    // the device, the context and the input hook's window fields are kept
    ensures r.hook == l.hook.(initialized := r.hook.initialized, overlayAttached := r.hook.overlayAttached)
  {
    if l.hook.initialized then l
    else Layer(l.hook.(overlayAttached := true, initialized := true), l.overlay, LoadConfigStep(l.common, file).0)
  }

  /** `InstallInputHook`: nothing if a procedure is recorded or the window is
      null; otherwise the window is recorded even when the swap returns null. */
  function InstallInputHookStep(h: HookState, window: Handle, previous: Handle): (r: (HookState, seq<Event>))
    ensures HookInvariant(h) ==> HookInvariant(r.0)
    ensures h.originalWndProc != NULL || window == NULL ==> r == (h, [])
    ensures h.originalWndProc == NULL && window != NULL ==>
      r.0 == h.(targetWindow := window, originalWndProc := previous) && r.1 == [SetWindowProc(window, WND_PROC_HOOK)]
  {
    if h.originalWndProc != NULL || window == NULL then (h, [])
    else (h.(targetWindow := window, originalWndProc := previous), [SetWindowProc(window, WND_PROC_HOOK)])
  }

  /** `RemoveInputHook`: only when both fields are set, restoring the saved procedure. */
  function RemoveInputHookStep(h: HookState): (r: (HookState, seq<Event>))
    ensures r.0.originalWndProc == NULL || r.0.targetWindow == NULL
    ensures HookInvariant(h) ==> HookInvariant(r.0)
    ensures h.originalWndProc != NULL && h.targetWindow != NULL ==>
      r.0 == h.(originalWndProc := NULL, targetWindow := NULL)
      && r.1 == [SetWindowProc(h.targetWindow, h.originalWndProc)]
    ensures !(h.originalWndProc != NULL && h.targetWindow != NULL) ==> r == (h, [])
  {
    if h.originalWndProc != NULL && h.targetWindow != NULL then
      (h.(originalWndProc := NULL, targetWindow := NULL), [SetWindowProc(h.targetWindow, h.originalWndProc)])
    else (h, [])
  }

  /** Removing twice is removing once. */
  lemma RemoveInputHookIdempotent(h: HookState)
    requires HookInvariant(h)
    ensures RemoveInputHookStep(RemoveInputHookStep(h).0) == (RemoveInputHookStep(h).0, [])
  {
  }

  /** `D3D11HookManager::Shutdown`; `overlayInitialized` is kept as it was. */
  function HookShutdown(l: Layer, file: Option<seq<string>>): (r: (Layer, seq<Event>))
    ensures r.0.hook.overlayInitialized == l.hook.overlayInitialized
    ensures l.hook.initialized ==> !r.0.hook.initialized && !r.0.hook.overlayAttached
    ensures l.common.configLoaded ==> r.0.common == l.common
    ensures !l.hook.initialized ==> r == (l, [])
    ensures l.hook.initialized ==> r.0.common == LoadConfigStep(l.common, file).0
    ensures l.hook.initialized ==> r.0.hook.device == NULL && r.0.hook.context == NULL
    // a recorded window procedure is put back first, and the hook forgotten
    ensures l.hook.initialized && l.hook.originalWndProc != NULL && l.hook.targetWindow != NULL ==>
      && |r.1| > 0 && r.1[0] == SetWindowProc(l.hook.targetWindow, l.hook.originalWndProc)
      && r.0.hook.originalWndProc == NULL && r.0.hook.targetWindow == NULL
    ensures !(l.hook.originalWndProc != NULL && l.hook.targetWindow != NULL) ==>
      r.0.hook.originalWndProc == l.hook.originalWndProc && r.0.hook.targetWindow == l.hook.targetWindow
    // the attached overlay is shut down; a detached one is left alone
    ensures l.hook.initialized && l.hook.overlayAttached ==> !r.0.overlay.initialized
    ensures l.hook.initialized && !l.hook.overlayAttached ==> r.0.overlay == l.overlay
  {
    if !l.hook.initialized then (l, [])
    else
      var (h1, e1) := RemoveInputHookStep(l.hook);
      var (o2, e2) := if h1.overlayAttached then OverlayShutdown(l.overlay) else (l.overlay, []);
      var c3 := LoadConfigStep(l.common, file).0;
      (Layer(h1.(overlayAttached := false, device := NULL, context := NULL, initialized := false), o2, c3), e1 + e2)
  }

  /** `OnDeviceCreated`: ignored unless initialised and both pointers are set;
      the overlay is initialised only if the configuration enables it and it
      is not initialised yet. */
  function OnDeviceCreatedStep(l: Layer, device: Handle, context: Handle, host: HostAnswers): (r: (Layer, seq<Event>))
    ensures !l.hook.initialized || device == NULL || context == NULL ==> r == (l, [])
    ensures l.hook.overlayInitialized ==> r.0.hook.overlayInitialized
    ensures r.0.hook.overlayInitialized && !l.hook.overlayInitialized ==>
      r.0.overlay.initialized && LoadConfigStep(l.common, host.configFile).1.overlayEnabled
    ensures r.0.common.configLoaded || r == (l, [])
    ensures r.0.hook.originalWndProc == l.hook.originalWndProc && r.0.hook.targetWindow == l.hook.targetWindow
  {
    if !l.hook.initialized || device == NULL || context == NULL then (l, [])
    else
      var h1 := l.hook.(device := device, context := context);
      var (c1, cfg) := LoadConfigStep(l.common, host.configFile);
      if cfg.overlayEnabled && h1.overlayAttached && !h1.overlayInitialized then
        var (o2, ok, e) := OverlayInitialize(l.overlay, device, context, host);
        (Layer(h1.(overlayInitialized := ok), o2, c1), e)
      else (Layer(h1, l.overlay, c1), [])
  }

  /** The hook-installation part of `OnBeforePresent`. */
  function MaybeInstallHook(h: HookState, swapChain: Handle, host: HostAnswers): (HookState, seq<Event>) {
    if h.originalWndProc == NULL && swapChain != NULL then
      var call := [OriginalCall(swapChain, GetDesc(DESC_BUFFER), host.descResult)];
      if Succeeded(host.descResult) && host.outputWindow != NULL then
        var (h1, e) := InstallInputHookStep(h, host.outputWindow, host.previousWndProc);
        (h1, call + e)
      else (h, call)
    else (h, [])
  }

  /** `OnBeforePresent`: nothing before the overlay is initialised; then poll
      the toggle, install the input hook if none is recorded, start a frame
      and render. */
  function OnBeforePresentStep(l: Layer, swapChain: Handle, host: HostAnswers): (r: (Layer, seq<Event>))
    ensures !OverlayGate(l.hook) ==> r == (l, [])
    ensures r.0.hook.initialized == l.hook.initialized && r.0.hook.overlayInitialized == l.hook.overlayInitialized
    ensures r.0.hook.overlayAttached == l.hook.overlayAttached
    ensures HookInvariant(l.hook) ==> HookInvariant(r.0.hook)
    ensures l.hook.originalWndProc != NULL ==> r.0.hook == l.hook
  {
    if !OverlayGate(l.hook) then (l, [])
    else
      var (c1, o1) := TogglePhase(l.common, l.overlay, host);
      var (h2, e2) := MaybeInstallHook(l.hook, swapChain, host);
      var (o3, e3) := DrawPhase(o1, host.closeClicked);
      (Layer(h2, o3, c1), e2 + e3)
  }

  /** The toggle part of `OnBeforePresent`: one poll, flipping visibility when it fires. */
  function TogglePhase(c: CommonState, o: OverlayState, host: HostAnswers): (CommonState, OverlayState) {
    var (fired, now) := ToggleStep(c.wasPressed, host.modifierDown && host.toggleDown);
    (c.(wasPressed := now), if fired then o.(visible := !o.visible) else o)
  }

  /** The drawing part of `OnBeforePresent`: `NewFrame` then `Render`. */
  function DrawPhase(o: OverlayState, closeClicked: bool): (OverlayState, seq<Event>) {
    var (o1, e1) := OverlayNewFrame(o);
    var (o2, e2) := OverlayRender(o1, closeClicked);
    (o2, e1 + e2)
  }

  /** `OnAfterPresent`: submits the overlay's draw data once it is initialised. */
  function OnAfterPresentStep(l: Layer): (r: seq<Event>)
    ensures !OverlayGate(l.hook) ==> r == []
  {
    if !OverlayGate(l.hook) then [] else OverlayPresent(l.overlay)
  }

  /** `OnSwapChainPresent`: both hooks back to back when initialised. */
  function OnSwapChainPresentStep(l: Layer, swapChain: Handle, host: HostAnswers): (r: (Layer, seq<Event>))
    ensures !l.hook.initialized ==> r == (l, [])
  {
    if !l.hook.initialized then (l, [])
    else
      var (l1, e1) := OnBeforePresentStep(l, swapChain, host);
      (l1, e1 + OnAfterPresentStep(l1))
  }

  /** `WndProcHook`: the overlay's non-zero answer, otherwise the saved
      procedure's answer `forwarded`. */
  function WndProcHookStep(l: Layer, m: Message, handled: bool, forwarded: int): (r: (int, seq<Event>))
    ensures var overlayAnswer := if l.hook.overlayAttached then OverlayWndProc(l.overlay, m, handled).0 else 0;
      r.0 == (if overlayAnswer != 0 then overlayAnswer else forwarded)
    ensures r.0 != forwarded ==> r.0 == 1
  {
    if l.hook.overlayAttached then
      var (res, e) := OverlayWndProc(l.overlay, m, handled);
      if res != 0 then (res, e) else (forwarded, e + [CallWindowProc(l.hook.originalWndProc, m)])
    else (forwarded, [CallWindowProc(l.hook.originalWndProc, m)])
  }

  /** What the manager keeps true of its input hook: a recorded window
      procedure comes with its window, and only while initialised. */
  predicate HookWellFormed(h: HookState) {
    HookInvariant(h) && (h.originalWndProc != NULL ==> h.initialized)
  }

  /** The manager starts well formed, and each of its public operations
      keeps it so (`InstallInputHook` and `RemoveInputHook` are private and
      run only inside `OnBeforePresent` and `Shutdown`). */
  lemma HookOperationsKeepWellFormed(l: Layer, file: Option<seq<string>>, device: Handle, context: Handle,
                                     swapChain: Handle, host: HostAnswers)
    requires HookWellFormed(l.hook)
    ensures HookWellFormed(INITIAL_HOOK)
    ensures HookWellFormed(HookInitialize(l, file).hook)
    ensures HookWellFormed(HookShutdown(l, file).0.hook)
    ensures HookWellFormed(OnDeviceCreatedStep(l, device, context, host).0.hook)
    ensures HookWellFormed(OnBeforePresentStep(l, swapChain, host).0.hook)
    ensures HookWellFormed(OnSwapChainPresentStep(l, swapChain, host).0.hook)
  {
  }

  /** Unloading with an input hook installed puts the original window
      procedure back before anything else, and leaves no hook recorded. */
  lemma UnloadRestoresWindowProc(l: Layer, file: Option<seq<string>>)
    requires HookWellFormed(l.hook)
    ensures HookShutdown(l, file).0.hook.originalWndProc == NULL
    ensures l.hook.originalWndProc != NULL ==>
      var events := HookShutdown(l, file).1;
      |events| > 0 && events[0] == SetWindowProc(l.hook.targetWindow, l.hook.originalWndProc)
  {
  }

  class D3D11HookManager {
    var initialized: bool
    var overlayInitialized: bool
    var device: Handle
    var context: Handle
    var overlayAttached: bool
    var originalWndProc: Handle
    var targetWindow: Handle
    const overlay: OverlayManager
    const statics: Statics

    function Hook(): HookState
      reads this
    {
      HookState(initialized, overlayInitialized, device, context, overlayAttached, originalWndProc, targetWindow)
    }

    function State(): Layer
      reads this, overlay, statics
    {
      Layer(Hook(), overlay.State(), statics.State())
    }

    constructor (overlay: OverlayManager, statics: Statics)
      ensures State() == Layer(INITIAL_HOOK, overlay.State(), statics.State())
      ensures this.overlay == overlay && this.statics == statics
    {
      this.overlay := overlay;
      this.statics := statics;
      initialized, overlayInitialized, device, context := false, false, NULL, NULL;
      overlayAttached, originalWndProc, targetWindow := false, NULL, NULL;
    }

    method Initialize(file: Option<seq<string>>) returns (ok: bool)
      modifies this, statics
      ensures ok && State() == HookInitialize(old(State()), file)
    {
      if initialized {
        return true;
      }
      statics.Log(file);
      overlayAttached := true;
      initialized := true;
      statics.Log(file);
      ok := true;
    }

    method InstallInputHook(window: Handle, previous: Handle, j: Journal)
      modifies this, j
      ensures var r := InstallInputHookStep(old(Hook()), window, previous);
        Hook() == r.0 && j.events == old(j.events) + r.1
    {
      if originalWndProc != NULL || window == NULL {
        return;
      }
      targetWindow := window;
      j.Record(SetWindowProc(window, WND_PROC_HOOK));
      originalWndProc := previous;
    }

    method RemoveInputHook(j: Journal)
      modifies this, j
      ensures var r := RemoveInputHookStep(old(Hook()));
        Hook() == r.0 && j.events == old(j.events) + r.1
    {
      if originalWndProc != NULL && targetWindow != NULL {
        j.Record(SetWindowProc(targetWindow, originalWndProc));
        originalWndProc := NULL;
        targetWindow := NULL;
      }
    }

    method Shutdown(file: Option<seq<string>>, j: Journal)
      modifies this, overlay, statics, j
      ensures var r := HookShutdown(old(State()), file);
        State() == r.0 && j.events == old(j.events) + r.1
    {
      if !initialized {
        return;
      }
      RemoveInputHook(j);
      if overlayAttached {
        overlay.Shutdown(j);
        overlayAttached := false;
      }
      device := NULL;
      context := NULL;
      initialized := false;
      statics.Log(file);
    }

    method OnDeviceCreated(dev: Handle, ctx: Handle, host: HostAnswers, j: Journal)
      modifies this, overlay, statics, j
      ensures var r := OnDeviceCreatedStep(old(State()), dev, ctx, host);
        State() == r.0 && j.events == old(j.events) + r.1
    {
      if !initialized || dev == NULL || ctx == NULL {
        return;
      }
      device := dev;
      context := ctx;
      var config := statics.LoadConfig(host.configFile);
      if config.overlayEnabled && overlayAttached && !overlayInitialized {
        var ok := overlay.Initialize(dev, ctx, host, j);
        if ok {
          overlayInitialized := true;
        }
      }
    }

    method OnBeforePresent(swapChain: Handle, host: HostAnswers, j: Journal)
      modifies this, overlay, statics, j
      ensures var r := OnBeforePresentStep(old(State()), swapChain, host);
        State() == r.0 && j.events == old(j.events) + r.1
    {
      if !initialized || !overlayAttached || !overlayInitialized {
        return;
      }
      PollToggle(host);
      MaybeInstall(swapChain, host, j);
      Draw(host.closeClicked, j);
    }

    /** The toggle part of `OnBeforePresent`. */
    method PollToggle(host: HostAnswers)
      modifies overlay, statics
      ensures (statics.State(), overlay.State()) == TogglePhase(old(statics.State()), old(overlay.State()), host)
    {
      var fired := statics.IsOverlayTogglePressed(host.modifierDown, host.toggleDown);
      if fired {
        overlay.Toggle();
      }
    }

    /** The drawing part of `OnBeforePresent`. */
    method Draw(closeClicked: bool, j: Journal)
      modifies overlay, j
      ensures var r := DrawPhase(old(overlay.State()), closeClicked);
        overlay.State() == r.0 && j.events == old(j.events) + r.1
    {
      overlay.NewFrame(j);
      overlay.Render(closeClicked, j);
    }

    /** The hook-installation part of `OnBeforePresent`. */
    method MaybeInstall(swapChain: Handle, host: HostAnswers, j: Journal)
      modifies this, j
      ensures var r := MaybeInstallHook(old(Hook()), swapChain, host);
        Hook() == r.0 && j.events == old(j.events) + r.1
    {
      if originalWndProc == NULL && swapChain != NULL {
        j.Record(OriginalCall(swapChain, GetDesc(DESC_BUFFER), host.descResult));
        if Succeeded(host.descResult) && host.outputWindow != NULL {
          InstallInputHook(host.outputWindow, host.previousWndProc, j);
        }
      }
    }

    method OnAfterPresent(j: Journal)
      modifies j
      ensures j.events == old(j.events) + OnAfterPresentStep(State())
    {
      if !initialized || !overlayAttached || !overlayInitialized {
        return;
      }
      overlay.Present(j);
    }

    method OnSwapChainPresent(swapChain: Handle, host: HostAnswers, j: Journal)
      modifies this, overlay, statics, j
      ensures var r := OnSwapChainPresentStep(old(State()), swapChain, host);
        State() == r.0 && j.events == old(j.events) + r.1
    {
      if !initialized {
        return;
      }
      OnBeforePresent(swapChain, host, j);
      OnAfterPresent(j);
    }

    /** The window procedure installed by `InstallInputHook`; `forwarded` is
        what `CallWindowProcW` returns. */
    method WndProcHook(m: Message, handled: bool, forwarded: int, j: Journal) returns (result: int)
      modifies j
      ensures var r := WndProcHookStep(State(), m, handled, forwarded);
        result == r.0 && j.events == old(j.events) + r.1
    {
      if overlayAttached {
        result := overlay.WndProc(m, handled, j);
        if result != 0 {
          return;
        }
      }
      j.Record(CallWindowProc(originalWndProc, m));
      result := forwarded;
    }
  }
}
