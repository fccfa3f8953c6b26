# Pick6 / Pick66 core in Dafny

This project models the sequential cores of the Pick6/Pick66 code base, a
FiveM capture, projection and overlay tool written in C# and C++, and proves
properties of them. One Dafny module stands for each core source file:

- **Presentation interception** (`ProxyCommon`, `DxgiProxy`, with the host
  world in `Host`). The swap-chain and factory proxies keep their own
  reference counts, answer `QueryInterface` for themselves and forward
  everything else. The hook manager runs in a fixed order around every
  `Present`, retries device discovery until it succeeds and installs the
  window-procedure hook at most once. The `pick66_config.txt` reader is
  cached, and the Alt+F12 detector fires on rising edges.
- **Proxy installer** (`ProxyManager`). It installs, backs up and
  uninstalls over a directory held as a map from file names to contents.
  The config file it writes is read back both by its own parser and by
  the native parser.
- **Frame statistics** (`Diagnostics`): a ring buffer of frame intervals,
  its counters, and the average, 95th-percentile and drop-rate queries.
- **Lottery picker and view-model** (`NumberPicker`, `ViewModel`). This
  covers parameter validation and the partial Fisher-Yates shuffle, with
  sorted, distinct, in-range tickets. It also covers the clamped, coupled
  property setters, the `CanGenerate` rule, a generation run's messages
  and the change notifications.
- **Settings validators** (`GuiSettings`, `LoaderSettings`,
  `ModGuiSettings`). They clamp values and restore defaults, and each is
  proved valid, idempotent and a no-op on valid settings.
- **Keybind registries**. `NativeKeybinds` holds the native map of
  actions, system hotkey registration, the save/load format and the
  key-name table. `GlobalKeybinds` holds the managed registry with
  bit-packed ids.
- **Small state machines and argument parsers**. These are the
  projection controller (`ProjectionControl`), the loader's run-mode
  choice (`LoaderEntry`), the loader console's argument pass and keybind
  parser (`LoaderConsole`), and the launchers' argument pass and prompts
  (`LauncherCli`).
- **Log plumbing and process filtering**. This covers the sink list
  (`CoreLog`) and the bounded log queues (`LogQueue`, `ModGuiState`,
  `GuiLogging`). It also covers the native process filter and monitor
  pass (`ProcessDetector`) and the managed two-pass FiveM finder
  (`FiveMDetector`).

Calls into the operating system, Direct3D, ImGui, the clock and the
random number generator are parameters (oracles). A process enumeration is
a snapshot given as input. `Text` and `Wrappers` hold the shared string
operations and the Option/Result types. Where the source changes state in
place, the model is a class whose methods are proved against functions on
values, and the lemmas about those functions carry the properties.

## Model

| member | source | states |
|---|---|---|
| ProxyCommon.ParseConfigLastWins | src/Pick66.ProxyDlls/Common/ProxyCommon.cpp:43-61 | After reading the lines, `OverlayEnabled` and `LoggingEnabled` hold the value of the last line with that key, true only for `true` or `True`, and keep their earlier value when no line has the key. The key bindings are never changed by the file. |
| ProxyCommon.ReadConfigFile | src/Pick66.ProxyDlls/Common/ProxyCommon.cpp:28-61 | The line loop yields the defaults when the file cannot be opened. Otherwise it yields the defaults updated by every `key=value` line in order (the last-wins reading above). |
| ProxyCommon.LoadConfigStep | src/Pick66.ProxyDlls/Common/ProxyCommon.cpp:23-71 | Once loaded, the cached configuration is returned unchanged and the file is not consulted again. The first call returns the configuration read from the file, caches it and leaves the key-edge state alone. |
| ProxyCommon.TogglePollsAreRisingEdges | src/Pick66.ProxyDlls/Common/ProxyCommon.cpp:134-150 | Poll k of Alt+F12 reports a toggle exactly when both keys are down now and were not both down at the previous poll (or before the first poll). |
| ProxyCommon.HoldingFiresOnce | src/Pick66.ProxyDlls/Common/ProxyCommon.cpp:134-150 | Holding Alt+F12 over n polls fires once, or never if it was already held. A release followed by a press fires again. |
| ProxyCommon.Statics.constructor | src/Pick66.ProxyDlls/Common/ProxyCommon.cpp:19-21 | The statics start with the default configuration, not loaded, and the key not pressed. |
| ProxyCommon.Statics.LoadConfig | src/Pick66.ProxyDlls/Common/ProxyCommon.cpp:23-71 | Performs the cached load step on the static fields and returns its configuration. |
| ProxyCommon.Statics.Log | src/Pick66.ProxyDlls/Common/ProxyCommon.cpp:73-77 | Logging first loads (and caches) the configuration; nothing else in the statics changes. |
| ProxyCommon.Statics.IsOverlayTogglePressed | src/Pick66.ProxyDlls/Common/ProxyCommon.cpp:134-150 | Returns the rising edge of Alt+F12 and records the new pressed state. The configuration cache is untouched. |
| ProxyCommon.OverlayInitialize | src/Pick66.ProxyDlls/Common/ProxyCommon.cpp:159-227 | Succeeds exactly when the overlay was already initialised, or when device and context are non-null, a window handle was found and both ImGui backends initialised. An already initialised overlay is left as it was and makes no calls. Visibility and the frame count are kept. |
| ProxyCommon.OverlayShutdown | src/Pick66.ProxyDlls/Common/ProxyCommon.cpp:229-243 | Afterwards the overlay is not initialised. Device and context are cleared when it was initialised. An uninitialised overlay makes no calls. |
| ProxyCommon.OverlayNewFrame | src/Pick66.ProxyDlls/Common/ProxyCommon.cpp:245-255 | The frame count grows by one exactly when the overlay is initialised; nothing else changes. |
| ProxyCommon.OverlayRender | src/Pick66.ProxyDlls/Common/ProxyCommon.cpp:257-309 | Nothing is drawn unless the overlay is both initialised and visible. When it is drawn, one ImGui frame is rendered and the overlay stays visible exactly when the Close button was not clicked. Nothing else changes. |
| ProxyCommon.OverlayPresent | src/Pick66.ProxyDlls/Common/ProxyCommon.cpp:266-272 | Draw data is submitted exactly when the overlay is initialised and visible. |
| ProxyCommon.OverlayWndProc | src/Pick66.ProxyDlls/Common/ProxyCommon.cpp:325-335 | Answers 1 only when the overlay is initialised, visible and ImGui handled the message; otherwise 0. ImGui is consulted only while initialised and visible. |
| ProxyCommon.OverlayManager.constructor | src/Pick66.ProxyDlls/Common/ProxyCommon.h:81-89 | A new overlay is uninitialised and hidden, with null device and context and no frames. |
| ProxyCommon.OverlayManager.SetVisible | src/Pick66.ProxyDlls/Common/ProxyCommon.h:68 | Sets visibility and changes nothing else. |
| ProxyCommon.OverlayManager.Toggle | src/Pick66.ProxyDlls/Common/ProxyCommon.h:69 | Flips visibility and changes nothing else. |
| ProxyCommon.OverlayManager.Initialize | src/Pick66.ProxyDlls/Common/ProxyCommon.cpp:159-227 | Performs the overlay initialisation step on its fields and journals the ImGui calls. |
| ProxyCommon.OverlayManager.Shutdown | src/Pick66.ProxyDlls/Common/ProxyCommon.cpp:229-243 | Performs the overlay shutdown step. |
| ProxyCommon.OverlayManager.NewFrame | src/Pick66.ProxyDlls/Common/ProxyCommon.cpp:245-255 | Performs the new-frame step. |
| ProxyCommon.OverlayManager.Render | src/Pick66.ProxyDlls/Common/ProxyCommon.cpp:257-309 | Performs the render step. |
| ProxyCommon.OverlayManager.Present | src/Pick66.ProxyDlls/Common/ProxyCommon.cpp:266-272 | Journals exactly the present step's calls and changes no field. |
| ProxyCommon.OverlayManager.WndProc | src/Pick66.ProxyDlls/Common/ProxyCommon.cpp:325-335 | Returns the window-procedure answer of the step above. |
| ProxyCommon.HookInitialize | src/Pick66.ProxyDlls/Common/ProxyCommon.cpp:344-356 | Initialising is idempotent. The first call attaches the overlay manager and loads the configuration through its log line, exactly as `LoadConfig` would, without touching the overlay. Device, context and the input hook's window fields are kept. |
| ProxyCommon.InstallInputHookStep | src/Pick66.ProxyDlls/Common/ProxyCommon.cpp:441-457 | Does nothing when a hook is already installed or the window is null. Otherwise it records the window and the previous procedure and makes exactly one SetWindowLongPtr call. The invariant "an installed hook has a target window" is preserved. |
| ProxyCommon.RemoveInputHookStep | src/Pick66.ProxyDlls/Common/ProxyCommon.cpp:459-468 | Acts only when both the saved procedure and the target window are set: it puts the original procedure back on the target window and clears both fields, changing nothing else. Otherwise it changes nothing and makes no call. |
| ProxyCommon.RemoveInputHookIdempotent | src/Pick66.ProxyDlls/Common/ProxyCommon.cpp:459-468 | Removing the input hook twice has the same effect as removing it once, and the second removal makes no calls. |
| ProxyCommon.HookShutdown | src/Pick66.ProxyDlls/Common/ProxyCommon.cpp:358-376 | An initialised manager first restores a recorded window procedure on its target window (the first journalled call) and clears both fields, then shuts the attached overlay down, and ends uninitialised, detached, with no device or context. The configuration is loaded by its log line and the overlay-initialised flag kept. An uninitialised manager does nothing. |
| ProxyCommon.HookOperationsKeepWellFormed | src/Pick66.ProxyDlls/Common/ProxyCommon.cpp:344-468 | The manager starts with no hook recorded, and Initialize, Shutdown, OnDeviceCreated, OnBeforePresent and OnSwapChainPresent keep a recorded window procedure paired with its window and confined to an initialised manager. |
| ProxyCommon.UnloadRestoresWindowProc | src/Pick66.ProxyDlls/Common/ProxyCommon.cpp:358-368 | For such a manager, shutting down leaves no window procedure recorded and, when one was, puts it back on the target window before any other call. |
| ProxyCommon.OnDeviceCreatedStep | src/Pick66.ProxyDlls/Common/ProxyCommon.cpp:378-395 | Does nothing before initialisation or with a null device or context. The overlay becomes initialised only when the configuration enables it, and stays initialised once it is. The input hook is untouched. |
| ProxyCommon.OnBeforePresentStep | src/Pick66.ProxyDlls/Common/ProxyCommon.cpp:407-431 | Nothing happens unless the manager, the overlay pointer and the overlay are all initialised. The flags are kept and the hook invariant is preserved. An installed hook is never replaced. |
| ProxyCommon.OnAfterPresentStep | src/Pick66.ProxyDlls/Common/ProxyCommon.cpp:433-439 | Makes no call unless the manager and its overlay are initialised. |
| ProxyCommon.OnSwapChainPresentStep | src/Pick66.ProxyDlls/Common/ProxyCommon.cpp:397-405 | An uninitialised manager does nothing around Present. |
| ProxyCommon.WndProcHookStep | src/Pick66.ProxyDlls/Common/ProxyCommon.cpp:470-482 | A non-zero overlay answer is returned. Otherwise the message goes to the original window procedure, whose answer is returned. The only overlay answer is 1. |
| ProxyCommon.D3D11HookManager.constructor | src/Pick66.ProxyDlls/Common/ProxyCommon.h:112-123 | A new manager is uninitialised, with no overlay attached and no hook. |
| ProxyCommon.D3D11HookManager.Initialize | src/Pick66.ProxyDlls/Common/ProxyCommon.cpp:344-356 | Always returns true and performs the initialisation step. |
| ProxyCommon.D3D11HookManager.InstallInputHook | src/Pick66.ProxyDlls/Common/ProxyCommon.cpp:441-457 | Performs the install step on the hook fields. |
| ProxyCommon.D3D11HookManager.RemoveInputHook | src/Pick66.ProxyDlls/Common/ProxyCommon.cpp:459-468 | Performs the remove step on the hook fields. |
| ProxyCommon.D3D11HookManager.Shutdown | src/Pick66.ProxyDlls/Common/ProxyCommon.cpp:358-376 | Performs the shutdown step on the manager, the overlay and the statics. |
| ProxyCommon.D3D11HookManager.OnDeviceCreated | src/Pick66.ProxyDlls/Common/ProxyCommon.cpp:378-395 | Performs the device-created step. |
| ProxyCommon.D3D11HookManager.OnBeforePresent | src/Pick66.ProxyDlls/Common/ProxyCommon.cpp:407-431 | Performs the before-present step. |
| ProxyCommon.D3D11HookManager.PollToggle | src/Pick66.ProxyDlls/Common/ProxyCommon.cpp:412-417 | Polls the toggle and flips the overlay's visibility on a rising edge. |
| ProxyCommon.D3D11HookManager.MaybeInstall | src/Pick66.ProxyDlls/Common/ProxyCommon.cpp:419-427 | Installs the input hook on the swap chain's output window only when no hook is installed, the swap chain is non-null and GetDesc succeeds with a window. |
| ProxyCommon.D3D11HookManager.Draw | src/Pick66.ProxyDlls/Common/ProxyCommon.cpp:429-430 | Starts a new overlay frame and renders it. |
| ProxyCommon.D3D11HookManager.OnAfterPresent | src/Pick66.ProxyDlls/Common/ProxyCommon.cpp:433-439 | Journals exactly the after-present step. |
| ProxyCommon.D3D11HookManager.OnSwapChainPresent | src/Pick66.ProxyDlls/Common/ProxyCommon.cpp:397-405 | Runs the before step and then the after step. |
| ProxyCommon.D3D11HookManager.WndProcHook | src/Pick66.ProxyDlls/Common/ProxyCommon.cpp:470-482 | Returns the hook procedure's answer. |
| DxgiProxy.DiscoveryStep | src/Pick66.ProxyDlls/DxgiProxy/DxgiProxy.cpp:63-80 | Discovery runs only while the device flag is clear, and its first call asks the original swap chain for the device. The flag becomes set exactly when the device call succeeded and both device and context are non-null. |
| DxgiProxy.OverlayCallsAreNotPresent | src/Pick66.ProxyDlls/DxgiProxy/DxgiProxy.cpp:72-91 | None of the hook manager's steps (device creation, before present, after present) calls the original Present. |
| DxgiProxy.PresentCalledOnce | src/Pick66.ProxyDlls/DxgiProxy/DxgiProxy.cpp:82-91 | In one proxied Present the original Present is called exactly once. It comes right after the discovery and before-present calls and before the after-present calls, with the caller's sync interval and flags. |
| DxgiProxy.FailedDiscoveryIsRetried | src/Pick66.ProxyDlls/DxgiProxy/DxgiProxy.cpp:63-80 | A failed discovery leaves the flag clear, so the next Present asks for the device again. |
| DxgiProxy.SwapChainProxy.constructor | src/Pick66.ProxyDlls/DxgiProxy/DxgiProxy.cpp:20-25 | A new swap-chain proxy has count 1 and no device, and it takes exactly one reference on the original. |
| DxgiProxy.SwapChainProxy.AddRef | src/Pick66.ProxyDlls/DxgiProxy/DxgiProxy.cpp:45-48 | The proxy's own count grows by one and the new value is returned. The original is untouched. |
| DxgiProxy.SwapChainProxy.Release | src/Pick66.ProxyDlls/DxgiProxy/DxgiProxy.cpp:27-31 | Returns the decremented count. The proxy is deleted exactly when the count reaches 0, and only then does it release its one reference on the original (the destructor). |
| DxgiProxy.SwapChainProxy.QueryInterface | src/Pick66.ProxyDlls/DxgiProxy/DxgiProxy.cpp:33-43 | For IUnknown or IDXGISwapChain the proxy returns itself with S_OK and one more reference, without calling the original. Any other IID is forwarded and yields the original's answer and object. |
| DxgiProxy.SwapChainProxy.Forward | src/Pick66.ProxyDlls/DxgiProxy/DxgiProxy.cpp:94-162 | Each non-intercepted swap-chain method calls the original once with the same arguments and returns exactly its result. |
| DxgiProxy.SwapChainProxy.Present | src/Pick66.ProxyDlls/DxgiProxy/DxgiProxy.cpp:58-92 | Discovery runs first, then the hooked present. The original's HRESULT is returned unchanged, the proxy's count is kept, and device and context references are released in every outcome. |
| DxgiProxy.SwapChainProxy.HookedPresent | src/Pick66.ProxyDlls/DxgiProxy/DxgiProxy.cpp:82-91 | Runs OnBeforePresent, the original Present and OnAfterPresent in that order, and returns the original's result. |
| DxgiProxy.SwapChainProxy.Discover | src/Pick66.ProxyDlls/DxgiProxy/DxgiProxy.cpp:63-80 | Performs the discovery step and passes device and context to the hook manager. The temporary references on device and context are balanced. |
| DxgiProxy.SwapChainProxy.HandOver | src/Pick66.ProxyDlls/DxgiProxy/DxgiProxy.cpp:72-77 | With a context in hand, the hook manager moves by OnDeviceCreated, the context's reference count ends where it started, and discovery is marked done. |
| DxgiProxy.FactoryProxy.constructor | src/Pick66.ProxyDlls/DxgiProxy/DxgiProxy.cpp:165-170 | A new factory proxy has count 1 and takes exactly one reference on the original. |
| DxgiProxy.FactoryProxy.AddRef | src/Pick66.ProxyDlls/DxgiProxy/DxgiProxy.cpp:190-193 | The proxy's own count grows by one and the new value is returned. |
| DxgiProxy.FactoryProxy.Release | src/Pick66.ProxyDlls/DxgiProxy/DxgiProxy.cpp:172-176 | Returns the decremented count. The proxy is deleted at 0, and only then releases its reference on the original. |
| DxgiProxy.FactoryProxy.QueryInterface | src/Pick66.ProxyDlls/DxgiProxy/DxgiProxy.cpp:178-188 | For IUnknown or IDXGIFactory the proxy returns itself with one more reference. Any other IID is forwarded to the original. |
| DxgiProxy.FactoryProxy.Forward | src/Pick66.ProxyDlls/DxgiProxy/DxgiProxy.cpp:217-255 | Each non-intercepted factory method returns exactly the original's result for the same arguments. |
| DxgiProxy.FactoryProxy.CreateSwapChain | src/Pick66.ProxyDlls/DxgiProxy/DxgiProxy.cpp:203-215 | Returns the original's HRESULT. It wraps exactly when the call succeeded, the out-pointer is non-null and a swap chain was produced. The creation reference is not released, so the real swap chain keeps one extra reference. |
| DxgiProxy.DxgiModule.constructor | src/Pick66.ProxyDlls/DxgiProxy/DxgiProxy.cpp:314-316 | The module starts with no library, no entry points and not initialised. |
| DxgiProxy.DxgiModule.Initialize | src/Pick66.ProxyDlls/DxgiProxy/DxgiProxy.cpp:318-352 | Once initialised it succeeds without doing anything. Otherwise it loads the system DXGI and succeeds exactly when the library loaded and `CreateDXGIFactory` resolved; Factory1 and Factory2 are optional. The hook manager is initialised only on success. |
| DxgiProxy.DxgiModule.Shutdown | src/Pick66.ProxyDlls/DxgiProxy/DxgiProxy.cpp:354-373 | Does nothing unless initialised. Then it shuts the hook manager down, frees the library and clears every pointer. |
| DxgiProxy.DxgiModule.CreateFactory | src/Pick66.ProxyDlls/DxgiProxy/DxgiProxy.cpp:260-312 | An unresolved export returns E_FAIL without calling anything and leaves the out-pointer's target as it was. Otherwise the real result is returned, and a produced factory is wrapped and its creation reference released, so the real factory's count is unchanged. |
| DxgiProxy.DxgiModule.DllMain | src/Pick66.ProxyDlls/DxgiProxy/DxgiProxy.cpp:383-396 | Attach returns Initialize's result. Detach returns TRUE and, when the module was initialised, shuts the hook manager down as HookShutdown says and frees the library; unloading with an input hook installed journals the restore of the original window procedure first and leaves no hook recorded. An uninitialised module's detach changes nothing. Every other reason returns TRUE and changes nothing. |
| ProxyManager.ProxyTypeNameParses | src/Pick66.Launcher/ProxyManager.cs:225-255 | The text the installer writes for a proxy type (a name, or the number of an undefined value) is parsed back by `Enum.TryParse` to the same type. |
| ProxyManager.BoolTextParses | src/Pick66.Launcher/ProxyManager.cs:226-259 | The `True`/`False` text written for the overlay flag is parsed back by `bool.TryParse` to the same flag. |
| ProxyManager.DllNameFor | src/Pick66.Launcher/ProxyManager.cs:41 | DXGI maps to `dxgi.dll` and every other type to `d3d11.dll`. |
| ProxyManager.DetectBestProxyType | src/Pick66.Launcher/ProxyManager.cs:193-211 | Auto-detection yields DXGI or D3D11. It yields D3D11 exactly when `dxgi.dll` is absent and `d3d11.dll` is present. |
| ProxyManager.LoadConfigLines | src/Pick66.Launcher/ProxyManager.cs:240-264 | The line loop yields the defaults (AutoDetect, overlay on) updated by each line in order: split at the first '=', trimmed, unknown keys and unparsable values ignored. |
| ProxyManager.SetKey | src/Pick66.Launcher/ProxyManager.cs:251-261 | A `ProxyType` or `OverlayEnabled` key whose value parses sets that field; anything else leaves the configuration unchanged. |
| ProxyManager.LoadConfig | src/Pick66.Launcher/ProxyManager.cs:233-236 | There is no configuration exactly when the config file is missing. |
| ProxyManager.ConfigTextLines | src/Pick66.Launcher/ProxyManager.cs:222-231 | Reading the written config file back line by line gives exactly the four `key=value` lines written. |
| ProxyManager.ConfigRoundTrip | src/Pick66.Launcher/ProxyManager.cs:222-270 | Loading the config file that CreateConfigFile wrote gives back the proxy type and overlay flag that were written. |
| ProxyManager.NativeReaderSeesOverlayFlag | src/Pick66.ProxyDlls/Common/ProxyCommon.cpp:43-61 | The native DLL's parser, given the file the launcher writes, yields the default configuration with the overlay flag the launcher wrote. The `True`/`False` spelling is one the native reader accepts. |
| ProxyManager.InstallFiles | src/Pick66.Launcher/ProxyManager.cs:21-80 | A missing directory fails with "Target directory does not exist" and changes nothing. An existing backup is never overwritten. A new backup is made only with autoBackup when the target DLL exists, and it copies that DLL. A missing source DLL fails with the target DLL and the config file untouched. Otherwise the DLL is replaced by the source and the config file is written. No file other than the selected DLL, its backup and the config file changes. |
| ProxyManager.RestoreBackup | src/Pick66.Launcher/ProxyManager.cs:107-117 | The DLL is deleted and, when a backup exists, the backup moves into its place, so the backup disappears. Every other file is unchanged. |
| ProxyManager.RemoveIfOurs | src/Pick66.Launcher/ProxyManager.cs:272-287 | Only a DLL recognised as this project's proxy is removed (restoring its backup). Any other directory is left exactly as it was. |
| ProxyManager.UninstallFiles | src/Pick66.Launcher/ProxyManager.cs:85-142 | A missing directory fails and changes nothing. Otherwise the result is success and the config file is gone. With a config file, the DLL it names is deleted and its backup, if any, moved back, and nothing else changes. Without one, dxgi.dll and then d3d11.dll are each removed only when recognised as ours, restoring their backups, and no other file changes. |
| ProxyManager.InstallThenUninstall | src/Pick66.Launcher/ProxyManager.cs:21-130 | Installing with autoBackup and no earlier backup, then uninstalling, gives back the original directory apart from a config file that was there before. |
| ProxyManager.StatusOf | src/Pick66.Launcher/ProxyManager.cs:147-191 | A missing directory gives the default status. "Installed" implies the reported path names an existing file recognised as this project's proxy. A backup path is reported exactly when a backup exists. Without a config file, backup and overlay are reported false. |
| ProxyManager.StatusAfterInstall | src/Pick66.Launcher/ProxyManager.cs:147-169 | After a successful install of this project's DLL, the status reports it installed, with the selected type, the overlay flag written and the DLL's path. |
| ProxyManager.Directory.constructor | src/Pick66.Launcher/ProxyManager.cs:21-25 | A directory model holds its path, whether it exists, and its files. |
| ProxyManager.Directory.CreateConfigFile | src/Pick66.Launcher/ProxyManager.cs:222-231 | Writes the four-line config file and changes nothing else. |
| ProxyManager.Directory.InstallProxy | src/Pick66.Launcher/ProxyManager.cs:21-80 | Performs the install on the directory's files and returns its result. |
| ProxyManager.Directory.DeleteAndRestore | src/Pick66.Launcher/ProxyManager.cs:107-117 | Deletes the DLL and moves its backup back. |
| ProxyManager.Directory.RemoveProxyDllIfExists | src/Pick66.Launcher/ProxyManager.cs:272-287 | Removes the DLL only if it is this project's proxy. |
| ProxyManager.Directory.UninstallProxy | src/Pick66.Launcher/ProxyManager.cs:85-142 | Performs the uninstall on the directory's files and returns its result. |
| ProxyManager.Directory.GetProxyStatus | src/Pick66.Launcher/ProxyManager.cs:147-191 | Returns the status of the directory's current files. |
| Diagnostics.SortReals | src/Pick6.Core/Diagnostics/FrameStatistics.cs:113-116 | The ordering used by the percentile is sorted ascending and is a permutation of the window. |
| Diagnostics.P95Index | src/Pick6.Core/Diagnostics/FrameStatistics.cs:118-119 | The clamped index ceil(0.95 n) - 1 lies in [0, n-1]. It is the smallest index at or below which at least 95% of the n values lie. |
| Diagnostics.Percentile95 | src/Pick6.Core/Diagnostics/FrameStatistics.cs:113-121 | The result is one of the window's values. It is the value at the P95 index of the sorted window: everything before it is no larger and everything after it no smaller. |
| Diagnostics.FrameStatistics.constructor | src/Pick6.Core/Diagnostics/FrameStatistics.cs:23-33 | A positive buffer size gives two zeroed arrays of that size and zero counters, with the ring invariant established. |
| Diagnostics.FrameStatistics.Window | src/Pick6.Core/Diagnostics/FrameStatistics.cs:88-114 | The averaged window is the first min(totalFrames, bufferSize) slots, and it is empty exactly when no frame was recorded. |
| Diagnostics.FrameStatistics.RecordFrame | src/Pick6.Core/Diagnostics/FrameStatistics.cs:40-56 | Slot writeIndex of both arrays receives the new interval and target, and nothing else in them changes. The total grows by 1, and the dropped count grows exactly when the delta exceeds 1.5 times the target. The invariant is kept: writeIndex < bufferSize, writeIndex == totalFrames mod bufferSize, dropped <= total. |
| Diagnostics.FrameStatistics.InstantFps | src/Pick6.Core/Diagnostics/FrameStatistics.cs:61-75 | 0 with no frames. Otherwise 1000 divided by the most recently written slot when that slot is positive, and 0 when it is not. |
| Diagnostics.FrameStatistics.AverageFps | src/Pick6.Core/Diagnostics/FrameStatistics.cs:80-97 | 0 with no frames or a non-positive sum. Otherwise 1000 divided by the mean of the window. |
| Diagnostics.FrameStatistics.P95FrameTimeMs | src/Pick6.Core/Diagnostics/FrameStatistics.cs:102-124 | 0 with no frames. Otherwise the 95th percentile of the window. |
| Diagnostics.FrameStatistics.DropRate | src/Pick6.Core/Diagnostics/FrameStatistics.cs:157-166 | Lies in [0, 100]. It is 0 with no frames, and otherwise dropped / total × 100. |
| Diagnostics.FrameStatistics.Reset | src/Pick6.Core/Diagnostics/FrameStatistics.cs:171-181 | Restores the freshly constructed state: both arrays zeroed and all counters 0. |
| Diagnostics.FrameStatistics.Summary | src/Pick6.Core/Diagnostics/FrameStatistics.cs:187-198 | The summary is "No frame data available" exactly when no frame was recorded. Otherwise it starts with "FPS: ". |
| Diagnostics.Create | src/Pick6.Core/Diagnostics/FrameStatistics.cs:23-25 | Fails with "Buffer size must be positive" exactly when the size is at most 0. Otherwise it gives a fresh, empty, valid ring of that size. |
| Diagnostics.CreateDefault | src/Pick6.Core/Diagnostics/FrameStatistics.cs:23 | Without an argument the ring has the default 240 slots and no frames. |
| Diagnostics.SteadyAverage | src/Pick6.Core/Diagnostics/FrameStatistics.cs:80-97 | When every interval in the window equals d > 0, the average FPS is 1000 / d. |
| NumberPicker.Validate | src/Pick66.Core/NumberPickerService.cs:109-119 | The parameters are rejected exactly when numbersPerTicket <= 0, or min > max, or unique mode asks for more numbers than the range holds. The first failing rule's message is returned, in that order. |
| NumberPicker.ValidateAsWrittenAgrees | src/Pick66.Core/NumberPickerService.cs:117 | The 32-bit rule as written agrees with the exact rule whenever the range size fits in an `int`. |
| NumberPicker.ValidateAsWrittenStricter | src/Pick66.Core/NumberPickerService.cs:117 | Whatever the rule as written accepts, the exact rule accepts too. |
| NumberPicker.ValidateAsWrittenRejectsWideRange | src/Pick66.Core/NumberPickerService.cs:117 | Six unique numbers from 0..int.MaxValue are rejected as written, though the range holds them. |
| NumberPicker.RandomNext | src/Pick66.Core/NumberPickerService.cs:81-100 | `Random.Next(lo, hi)` gives lo for an empty range and otherwise a value in [lo, hi). |
| NumberPicker.RandomUpperBoundWraps | src/Pick66.Core/NumberPickerService.cs:100 | With max == int.MaxValue the bound `max + 1` wraps below any other min, so `Random.Next` receives reversed bounds. |
| NumberPicker.SortInts | src/Pick66.Core/NumberPickerService.cs:88-102 | `Array.Sort`'s result is sorted ascending and is a permutation of its input. |
| NumberPicker.SortKeepsDistinct | src/Pick66.Core/NumberPickerService.cs:88 | Sorting distinct values gives a strictly increasing sequence. |
| NumberPicker.ArraySort | src/Pick66.Core/NumberPickerService.cs:88-102 | Sorts the array in place: its contents become the sorted permutation of the old contents. |
| NumberPicker.Shuffled | src/Pick66.Core/NumberPickerService.cs:79-83 | Each swap step keeps the length and is a permutation of the numbers. |
| NumberPicker.RangePermutation | src/Pick66.Core/NumberPickerService.cs:67-90 | Any permutation of min..min+n-1 is distinct and lies in that range. |
| NumberPicker.FillRange | src/Pick66.Core/NumberPickerService.cs:72-76 | The array holds min, min+1, … in order. |
| NumberPicker.ShufflePrefix | src/Pick66.Core/NumberPickerService.cs:79-83 | The in-place swaps of the first `count` positions produce the partial Fisher–Yates shuffle of the old contents for the given draws. |
| NumberPicker.CopyPrefix | src/Pick66.Core/NumberPickerService.cs:86-87 | A fresh array holds the first `count` numbers. |
| NumberPicker.GenerateUniqueNumbers | src/Pick66.Core/NumberPickerService.cs:67-90 | The result is the sorted first `count` entries of the shuffled range. |
| NumberPicker.UniqueNumbersAreValid | src/Pick66.Core/NumberPickerService.cs:67-90 | Unique mode yields exactly `count` strictly increasing (hence distinct and sorted) numbers in [min, max]. |
| NumberPicker.Draws | src/Pick66.Core/NumberPickerService.cs:98-101 | `count` draws of `Random.Next(min, max + 1)`, each in [min, max]. |
| NumberPicker.GenerateRandomNumbers | src/Pick66.Core/NumberPickerService.cs:95-104 | The array is the sorted draws: sorted, of length `count`, each number in [min, max]. |
| NumberPicker.GenerateTicket | src/Pick66.Core/NumberPickerService.cs:18-30 | Under the exact validation rules, fails with the validation message, and the parameter the failing rule names, exactly when validation fails. Otherwise the ticket has exactly numbersPerTicket numbers, sorted and in [min, max], and strictly increasing in unique mode. |
| NumberPicker.Progress | src/Pick66.Core/NumberPickerService.cs:58 | Progress reports are 1, 2, …, k in order. |
| NumberPicker.GenerateTickets | src/Pick66.Core/NumberPickerService.cs:35-62 | Under the exact validation rules, validation failure, then ticketCount <= 0 (naming `ticketCount`), are reported before any work or progress. Otherwise the run stops with Cancelled at the first cancelled check, before that ticket, so a token already cancelled yields no ticket. When nothing is cancelled it returns ticketCount valid tickets with progress 1..ticketCount. |
| ViewModel.AtLeastOne | src/Pick66.App/ViewModels/MainViewModel.cs:45-57 | `Math.Max(1, value)` is at least 1 and at least the value, and it is the value itself when that is already positive. |
| ViewModel.WithTicketCount | src/Pick66.App/ViewModels/MainViewModel.cs:40-234 | The setter stores max(1, value) and changes no other input. It raises TicketCount and then CanGenerate exactly when the stored value changed, and nothing otherwise. |
| ViewModel.WithNumbersPerTicket | src/Pick66.App/ViewModels/MainViewModel.cs:52-234 | The setter stores max(1, value) and raises NumbersPerTicket and then CanGenerate exactly when the value changed. |
| ViewModel.WithMin | src/Pick66.App/ViewModels/MainViewModel.cs:64-78 | The minimum becomes the value. A changing assignment leaves min <= max, and the maximum moves only up, to the new minimum, raising MaxInclusive exactly then. An unchanged value raises nothing; otherwise the events start with MinInclusive and end with CanGenerate. |
| ViewModel.WithMax | src/Pick66.App/ViewModels/MainViewModel.cs:80-94 | The mirror image: the maximum becomes the value, and the minimum moves only down to meet it, raising MinInclusive exactly then. |
| ViewModel.WithUnique | src/Pick66.App/ViewModels/MainViewModel.cs:96-106 | Stores the flag and raises Unique and CanGenerate exactly when it changed. |
| ViewModel.EditKeepsConsistent | src/Pick66.App/ViewModels/MainViewModel.cs:40-106 | Any single assignment to an input keeps both counts >= 1 and min <= max. |
| ViewModel.EditsKeepConsistent | src/Pick66.App/ViewModels/MainViewModel.cs:40-106 | Any sequence of assignments keeps those invariants. |
| ViewModel.DefaultsConsistent | src/Pick66.App/ViewModels/MainViewModel.cs:15-19 | The initial inputs (1 ticket, 6 numbers, 1..49, unique) satisfy the invariants. |
| ViewModel.CanGenerateMatchesService | src/Pick66.App/ViewModels/MainViewModel.cs:128-138 | CanGenerate holds exactly when the view-model is idle, the ticket count is positive and the service's 32-bit validation accepts the parameters. Then the exact validation accepts them too. |
| ViewModel.StartMessage | src/Pick66.App/ViewModels/MainViewModel.cs:164-171 | The busy message when a run starts is never "Working...". |
| ViewModel.ProgressMessages | src/Pick66.App/ViewModels/MainViewModel.cs:173-179 | One progress message per report in a range of reports, and none when a single ticket is asked for. |
| ViewModel.DeliveredEarlyIffAwaited | src/Pick66.Core/NumberPickerService.cs:44-58 | Every report is handled before the `finally` block exactly when the service awaited a `Task.Delay` (a positive multiple of 10) before posting the last report, that is when more than 10 reports were posted; otherwise none is. |
| ViewModel.ShownMessages | src/Pick66.App/ViewModels/MainViewModel.cs:164-211 | A run shows its start message first, then the reports handled before the `finally` block, then "Working..." from it, then the reports handled after it. With at most 10 reports "Working..." comes right after the start message. The message left displayed is the last report's ("Generated N of N tickets..." on success) when there are between 1 and 10 reports and more than one ticket, and "Working..." otherwise. |
| ViewModel.ShownMessageAt | src/Pick66.App/ViewModels/MainViewModel.cs:175-178 | With more than one ticket, report j shows "Generated j of N tickets...": at position j when handled before the `finally` block, at position j + 1, after "Working...", when handled after it. |
| ViewModel.ChangesSnoc | src/Pick66.App/ViewModels/MainViewModel.cs:228-234 | Assigning the busy message once more raises an event exactly when the value changes. |
| ViewModel.FormatAll | src/Pick66.App/ViewModels/MainViewModel.cs:193 | Each number is formatted with `D2`, in order. |
| ViewModel.ResultLines | src/Pick66.App/ViewModels/MainViewModel.cs:190-204 | A successful run gives one line per ticket, "Ticket {i+1:D3}: " followed by the numbers. A cancelled run gives no lines. An argument error gives the single line "Error: " followed by the exception's `Message`: the service's message, then " (Parameter 'name')" when the exception names a parameter. |
| ViewModel.NumbersTextParses | src/Pick66.App/ViewModels/MainViewModel.cs:193 | The numbers joined by single spaces parse back to the same numbers. |
| ViewModel.TicketLineRoundTrip | src/Pick66.App/ViewModels/MainViewModel.cs:193-194 | Each ticket line parses back to its 1-based index and its numbers, so the lines carry the tickets without loss. |
| ViewModel.MainViewModel.constructor | src/Pick66.App/ViewModels/MainViewModel.cs:14-34 | Starts idle with the default inputs, "Working..." as its message, no tickets and no events. |
| ViewModel.MainViewModel.Edit | src/Pick66.App/ViewModels/MainViewModel.cs:40-106 | An assignment to an input updates the inputs and the event journal as its setter does, keeps the invariants and leaves the tickets alone. |
| ViewModel.MainViewModel.ClearTickets | src/Pick66.App/ViewModels/MainViewModel.cs:214-217 | Empties the ticket list and changes nothing else. |
| ViewModel.MainViewModel.SetBusy | src/Pick66.App/ViewModels/MainViewModel.cs:108-118 | Sets IsBusy and raises IsBusy and CanGenerate only when it changed. |
| ViewModel.MainViewModel.SetBusyMessage | src/Pick66.App/ViewModels/MainViewModel.cs:120-124 | Sets the busy message and raises BusyMessage only when it changed. |
| ViewModel.MainViewModel.ShowAll | src/Pick66.App/ViewModels/MainViewModel.cs:173-179 | Showing a list of progress messages extends the journal by their changes and leaves the last one displayed. |
| ViewModel.MainViewModel.BeginRun | src/Pick66.App/ViewModels/MainViewModel.cs:157-171 | A run starts busy with the tickets cleared and the start message shown, raising BusyMessage only if the previous message differed. |
| ViewModel.MainViewModel.FinishRun | src/Pick66.App/ViewModels/MainViewModel.cs:190-211 | Up to the end of the `finally` block the view-model becomes idle with the result lines as its tickets and "Working..." as its message, raising IsBusy, CanGenerate and then BusyMessage if it changed. Reports still queued come after this. |
| ViewModel.MainViewModel.CallService | src/Pick66.App/ViewModels/MainViewModel.cs:181-188 | Under the exact validation rules, a call that CanGenerate let through never fails validation. It ends with Cancelled at the first cancelled check, or with ticketCount valid tickets. |
| ViewModel.MainViewModel.GenerateTickets | src/Pick66.App/ViewModels/MainViewModel.cs:151-212 | Nothing happens unless CanGenerate holds. Otherwise the service runs under the exact validation rules and the tickets become the result lines: one valid ticket per line on success, nothing after a cancellation. The messages go by as ShownMessages orders them, with the events each change raises between the two IsBusy/CanGenerate pairs and after the second. A successful run of 2 to 10 tickets leaves "Generated N of N tickets..." displayed; a single ticket or more than 10 leave "Working...". The view-model ends idle with the inputs unchanged. |
| GuiSettings.Repaired | src/Pick66.Gui/Services/AppSettings.cs:210-217 | A null or whitespace string is replaced by its (non-blank) default, so the result is never null or blank. |
| GuiSettings.Validated | src/Pick66.Gui/Services/AppSettings.cs:195-228 | Validation always yields valid settings: interval in [50, 10000], FPS in [1, 600], non-negative sizes and monitor, non-blank strings, and a consistent lottery. |
| GuiSettings.ClampedNumbers | src/Pick66.Gui/Services/AppSettings.cs:198-207 | The numeric settings land in their ranges. |
| GuiSettings.RepairedStrings | src/Pick66.Gui/Services/AppSettings.cs:210-217 | The output directory and both hotkeys are not null or blank. |
| GuiSettings.FixedLottery | src/Pick66.Gui/Services/AppSettings.cs:220-228 | numbersPerTicket >= 1, min >= 1 and max >= min. Unique mode stays on only when the range holds enough numbers. |
| GuiSettings.Clamp | src/Pick66.Gui/Services/AppSettings.cs:198-202 | The pair of `if`s clamps into [lo, hi]: low values become lo, high values hi, and values in range are kept. |
| GuiSettings.AtLeast | src/Pick66.Gui/Services/AppSettings.cs:204-222 | A lower bound: values below it become the bound, others are kept. |
| GuiSettings.ValidatedKeepsValid | src/Pick66.Gui/Services/AppSettings.cs:195-228 | Valid settings are left exactly as they were. |
| GuiSettings.ValidateIdempotent | src/Pick66.Gui/Services/AppSettings.cs:195-228 | Validating twice gives the same settings as validating once. |
| GuiSettings.DefaultsValid | src/Pick66.Gui/Services/AppSettings.cs:11-28 | The default settings are valid. |
| GuiSettings.ValidateEventsExact | src/Pick66.Gui/Services/AppSettings.cs:195-238 | Validate raises PropertyChanged for a setting exactly when validation changed that setting's value. |
| GuiSettings.ValidateQuietOnValid | src/Pick66.Gui/Services/AppSettings.cs:195-238 | Validating valid settings raises no event. |
| GuiSettings.SetProperty | src/Pick66.Gui/Services/AppSettings.cs:231-238 | The field takes the new value. The property's name is raised exactly when the value differed, and nothing is raised otherwise. |
| GuiSettings.AppSettings.constructor | src/Pick66.Gui/Services/AppSettings.cs:11-28 | New settings hold the defaults and have raised nothing. |
| GuiSettings.AppSettings.SetProjectionRefreshIntervalMs | src/Pick66.Gui/Services/AppSettings.cs:66-70 | Stores the value and raises the property only when it changed. |
| GuiSettings.AppSettings.SetTargetFps | src/Pick66.Gui/Services/AppSettings.cs:76-80 | Stores the value and raises the property only when it changed. |
| GuiSettings.AppSettings.SetResolutionWidth | src/Pick66.Gui/Services/AppSettings.cs:86-90 | Stores the value and raises the property only when it changed. |
| GuiSettings.AppSettings.SetResolutionHeight | src/Pick66.Gui/Services/AppSettings.cs:96-100 | Stores the value and raises the property only when it changed. |
| GuiSettings.AppSettings.SetMonitorIndex | src/Pick66.Gui/Services/AppSettings.cs:106-110 | Stores the value and raises the property only when it changed. |
| GuiSettings.AppSettings.SetOutputDirectory | src/Pick66.Gui/Services/AppSettings.cs:126-130 | Stores the value and raises the property only when it changed. |
| GuiSettings.AppSettings.SetHotkeyToggleProjection | src/Pick66.Gui/Services/AppSettings.cs:136-140 | Stores the value and raises the property only when it changed. |
| GuiSettings.AppSettings.SetHotkeyStopAndRestore | src/Pick66.Gui/Services/AppSettings.cs:146-150 | Stores the value and raises the property only when it changed. |
| GuiSettings.AppSettings.SetLotteryNumbersPerTicket | src/Pick66.Gui/Services/AppSettings.cs:156-160 | Stores the value and raises the property only when it changed. |
| GuiSettings.AppSettings.SetLotteryMinNumber | src/Pick66.Gui/Services/AppSettings.cs:166-170 | Stores the value and raises the property only when it changed. |
| GuiSettings.AppSettings.SetLotteryMaxNumber | src/Pick66.Gui/Services/AppSettings.cs:176-180 | Stores the value and raises the property only when it changed. |
| GuiSettings.AppSettings.SetLotteryUniqueNumbers | src/Pick66.Gui/Services/AppSettings.cs:186-190 | Stores the value and raises the property only when it changed. |
| GuiSettings.AppSettings.FixRefreshInterval | src/Pick66.Gui/Services/AppSettings.cs:198-199 | Clamps the refresh interval into [50, 10000], raising the property only when it moved. |
| GuiSettings.AppSettings.FixTargetFps | src/Pick66.Gui/Services/AppSettings.cs:201-202 | Clamps the target FPS into [1, 600]. |
| GuiSettings.AppSettings.FixResolutionWidth | src/Pick66.Gui/Services/AppSettings.cs:204 | Raises a negative width to 0. |
| GuiSettings.AppSettings.FixResolutionHeight | src/Pick66.Gui/Services/AppSettings.cs:205 | Raises a negative height to 0. |
| GuiSettings.AppSettings.FixMonitorIndex | src/Pick66.Gui/Services/AppSettings.cs:207 | Raises a negative monitor index to 0. |
| GuiSettings.AppSettings.FixOutputDirectory | src/Pick66.Gui/Services/AppSettings.cs:210-211 | Replaces a null or blank output directory by "output". |
| GuiSettings.AppSettings.FixHotkeyToggleProjection | src/Pick66.Gui/Services/AppSettings.cs:213-214 | Replaces a null or blank toggle hotkey by "Ctrl+P". |
| GuiSettings.AppSettings.FixHotkeyStopAndRestore | src/Pick66.Gui/Services/AppSettings.cs:216-217 | Replaces a null or blank stop hotkey by "Ctrl+Shift+P". |
| GuiSettings.AppSettings.FixNumbersPerTicket | src/Pick66.Gui/Services/AppSettings.cs:220 | Raises numbers per ticket to at least 1. |
| GuiSettings.AppSettings.FixMinNumber | src/Pick66.Gui/Services/AppSettings.cs:221 | Raises the lottery minimum to at least 1. |
| GuiSettings.AppSettings.FixMaxNumber | src/Pick66.Gui/Services/AppSettings.cs:222 | Raises the lottery maximum to at least the (already fixed) minimum. |
| GuiSettings.AppSettings.FixUniqueNumbers | src/Pick66.Gui/Services/AppSettings.cs:225-227 | Turns unique mode off exactly when it is on and the range holds fewer numbers than a ticket needs. |
| GuiSettings.AppSettings.ClampNumbers | src/Pick66.Gui/Services/AppSettings.cs:198-207 | Applies the numeric clamps, raising one event per setting that moved. |
| GuiSettings.AppSettings.RepairStrings | src/Pick66.Gui/Services/AppSettings.cs:210-217 | Repairs the three strings, raising one event per string replaced. |
| GuiSettings.AppSettings.FixLottery | src/Pick66.Gui/Services/AppSettings.cs:220-228 | Fixes the lottery settings in source order, raising one event per setting that moved. |
| GuiSettings.AppSettings.Validate | src/Pick66.Gui/Services/AppSettings.cs:195-228 | Replaces the settings by their validated form and raises the events of the validation. |
| LoaderSettings.Validated | src/Pick6.Loader/Settings/UserSettings.cs:49-77 | Validation always yields valid settings. A low interval becomes 50, a high one 10000, and one in range is kept. Null or blank strings get their defaults. |
| LoaderSettings.ValidatedKeepsValid | src/Pick6.Loader/Settings/UserSettings.cs:49-77 | Valid settings are left exactly as they were. |
| LoaderSettings.ValidateIdempotent | src/Pick6.Loader/Settings/UserSettings.cs:49-77 | Validating twice equals validating once. |
| LoaderSettings.DefaultsValid | src/Pick6.Loader/Settings/UserSettings.cs:13-44 | The defaults are valid and validation keeps them. |
| LoaderSettings.UserSettings.constructor | src/Pick6.Loader/Settings/UserSettings.cs:13-44 | New settings hold the defaults. |
| LoaderSettings.UserSettings.Validate | src/Pick6.Loader/Settings/UserSettings.cs:49-77 | Overwrites the properties with their validated values. |
| ModGuiSettings.Validated | src/Pick6.ModGui/ImGuiSettings.cs:55-62 | Validation always yields FPS in [1, 600], non-negative sizes and monitor, and a UI scale in [0.5, 3.0]. |
| ModGuiSettings.ValidatedKeepsValid | src/Pick6.ModGui/ImGuiSettings.cs:55-62 | Valid settings are left exactly as they were. |
| ModGuiSettings.ValidateIdempotent | src/Pick6.ModGui/ImGuiSettings.cs:55-62 | Validating twice equals validating once. |
| ModGuiSettings.DefaultsValid | src/Pick6.ModGui/ImGuiSettings.cs:13-50 | The defaults are valid and validation keeps them. |
| ModGuiSettings.ImGuiSettings.constructor | src/Pick6.ModGui/ImGuiSettings.cs:13-50 | New settings hold the defaults. |
| ModGuiSettings.ImGuiSettings.From | src/Pick6.ModGui/ImGuiSettings.cs:8-50 | Settings produced by deserialisation hold exactly the values read. |
| ModGuiSettings.ImGuiSettings.Validate | src/Pick6.ModGui/ImGuiSettings.cs:55-62 | Overwrites each property with its clamped value. |
| LogQueue.NewestIsSuffix | src/Pick6.ModGui/GuiState.cs:49-58 | Trimming keeps the newest entries: a suffix of length min(count, capacity). |
| LogQueue.NewestKeepsLatest | src/Pick6.ModGui/GuiState.cs:49-58 | The entry just added is always the last one kept. |
| LogQueue.NewestOnAppend | src/Pick66.Gui/Services/LoggingService.cs:33-39 | Below capacity an append keeps everything. At capacity it drops exactly the oldest entry. |
| ModGuiState.LoadedThenValidated | src/Pick6.ModGui/GuiState.cs:91-111 | Loading always ends with valid settings. An unreadable file or a `null` document gives the defaults, and a valid stored document is taken as it is. |
| ModGuiState.GuiState.constructor | src/Pick6.ModGui/GuiState.cs:16-44 | The state starts idle, with no log entries and the initial UI values, and with the settings loaded and validated; the UI scale is taken from them. |
| ModGuiState.GuiState.AddLogEntry | src/Pick6.ModGui/GuiState.cs:49-58 | Appends the entry and keeps only the newest 1000. |
| ModGuiState.GuiState.GetLogEntries | src/Pick6.ModGui/GuiState.cs:63-66 | Returns the queued entries, oldest first. |
| ModGuiState.GuiState.SaveSettings | src/Pick6.ModGui/GuiState.cs:71-89 | Validates the current settings and keeps the UI scale in sync with them. |
| ModGuiState.GuiState.LoadSettings | src/Pick6.ModGui/GuiState.cs:91-111 | Replaces the settings by the validated loaded ones and syncs the UI scale. |
| GuiLogging.MakeEntry | src/Pick66.Gui/Services/LoggingService.cs:31 | The entry carries the time, level and message, and the source, or "System" when none is given. |
| GuiLogging.LoggingService.constructor | src/Pick66.Gui/Services/LoggingService.cs:17-25 | A new service has no entries and has notified nothing. |
| GuiLogging.LoggingService.AddLogEntry | src/Pick66.Gui/Services/LoggingService.cs:29-43 | Appends the entry and keeps only the newest 1000. It then notifies the entry once, after the trimming. |
| GuiLogging.LoggingService.GetLogEntries | src/Pick66.Gui/Services/LoggingService.cs:45 | Returns the queued entries, oldest first. |
| GuiLogging.NotifiedEntryIsNewest | src/Pick66.Gui/Services/LoggingService.cs:29-43 | The entry an add notifies is the newest in the queue, and the queue holds at most 1000 entries. |
| CoreLog.RemoveFirst | src/Pick6.Core/Log.cs:69-77 | `List.Remove` takes out one occurrence of the sink when present, and nothing otherwise. |
| CoreLog.RemoveFirstSplits | src/Pick6.Core/Log.cs:75 | The occurrence removed is the first one. |
| CoreLog.Deliveries | src/Pick6.Core/Log.cs:98-108 | Every sink receives the message once, in list order, with the same level, each call stamped with its own reading of the clock. A sink that throws does not stop the ones after it. |
| CoreLog.Log.constructor | src/Pick6.Core/Log.cs:12 | The logger starts with no sinks. |
| CoreLog.Log.AddSink | src/Pick6.Core/Log.cs:55-63 | A null sink is ignored. Any other sink is appended, even when already present. |
| CoreLog.Log.RemoveSink | src/Pick6.Core/Log.cs:69-77 | A null sink is ignored. Otherwise the first occurrence of the sink is removed. |
| CoreLog.Log.ClearSinks | src/Pick6.Core/Log.cs:82-88 | Afterwards there are no sinks. |
| CoreLog.Log.LogMessage | src/Pick6.Core/Log.cs:90-110 | A null or empty message reaches no sink. Otherwise each sink in order receives it once, with the time read for its own call. |
| CoreLog.Log.Info | src/Pick6.Core/Log.cs:19-22 | Logs at Info level. |
| CoreLog.Log.Warn | src/Pick6.Core/Log.cs:28-31 | Logs at Warning level. |
| CoreLog.Log.Error | src/Pick6.Core/Log.cs:37-40 | Logs at Error level. |
| CoreLog.Log.Debug | src/Pick6.Core/Log.cs:46-49 | Logs at Debug level. |
| NativeKeybinds.Modifiers | cpp/src/gui/KeybindManager.cpp:70-74 | The Win32 modifier mask has bit 1 set exactly when Alt is held, bit 2 exactly when Control is held and bit 4 exactly when Shift is held. It is always below 8. |
| NativeKeybinds.SortedKeysSpec | cpp/src/gui/KeybindManager.cpp:21 | The order used to walk the `std::map` holds exactly its keys, in strictly ascending byte order. |
| NativeKeybinds.InitialValid | cpp/src/gui/KeybindManager.cpp:21-24 | A new manager is idle and has no registrations. Its next hotkey id is 1, and it satisfies the registry invariant. |
| NativeKeybinds.RegisterSystem | cpp/src/gui/KeybindManager.cpp:70-80 | The method always spends one hotkey id. If the system accepts that id, the action records it and the system holds it under the action's modifiers and key. If the system refuses, nothing else changes. Every other action is left alone. |
| NativeKeybinds.UnregisterSystem | cpp/src/gui/KeybindManager.cpp:82-88 | A registered action with a non-zero id gives that id back to the system and its id drops to 0. Otherwise nothing changes. |
| NativeKeybinds.RegisterSystemValid | cpp/src/gui/KeybindManager.cpp:70-80 | System registration keeps the id invariant: ids lie below the next id, ids are distinct, and every recorded id is held by the system. |
| NativeKeybinds.UnregisterSystemValid | cpp/src/gui/KeybindManager.cpp:82-88 | System unregistration keeps the id invariant. |
| NativeKeybinds.KeybindsOf | cpp/src/gui/KeybindManager.cpp:167-173 | The keybind map has the same keys as the registry, and each value is that action's keybind. |
| NativeKeybinds.RegisterAll | cpp/src/gui/KeybindManager.cpp:184-186 | Registering a list of actions keeps the registry's keys and the monitoring flag. It spends exactly one id per listed action. |
| NativeKeybinds.UnregisterAll | cpp/src/gui/KeybindManager.cpp:203-205 | Unregistering a list of actions keeps the registry's keys and the monitoring flag. |
| NativeKeybinds.FirstHandler | cpp/src/gui/KeybindManager.cpp:61-68 | A callback is found exactly when some listed action has that hotkey id and a callback. The callback returned belongs to such an action. |
| NativeKeybinds.RegisterEffect | cpp/src/gui/KeybindManager.cpp:123-131 | Registering stores the keybind and callback under the name and leaves the other actions alone. When idle, the id is 0 and no id is spent. When monitoring, one id is spent, and the action gets it if the system accepts it, else 0. |
| NativeKeybinds.RegisterValid | cpp/src/gui/KeybindManager.cpp:123-131 | Registering keeps the manager invariant. |
| NativeKeybinds.RegisterOverActiveOrphans | cpp/src/gui/KeybindManager.cpp:124-128 | Re-registering an action that holds a system hotkey overwrites its entry without unregistering. The old id stays with the system, and no action refers to it any more. |
| NativeKeybinds.UpdateEffect | cpp/src/gui/KeybindManager.cpp:133-148 | An unknown action changes nothing. A known action keeps its callback, gets the new keybind, and leaves the other actions alone. When monitoring, the old id is released and a new id is tried. When idle, the id stays 0. |
| NativeKeybinds.UpdateValid | cpp/src/gui/KeybindManager.cpp:133-148 | Updating keeps the manager invariant. |
| NativeKeybinds.RemoveEffect | cpp/src/gui/KeybindManager.cpp:150-157 | Removing erases exactly that name. A held system hotkey is released, and everything else is kept. |
| NativeKeybinds.RemoveValid | cpp/src/gui/KeybindManager.cpp:150-157 | Removing keeps the manager invariant. |
| NativeKeybinds.GetAfterSet | cpp/src/gui/KeybindManager.cpp:123-165 | Reading an action back returns the keybind just registered. After an update it returns the new keybind if the action existed and the empty keybind otherwise. After a removal it returns the empty keybind. |
| NativeKeybinds.RegisterAllAssigns | cpp/src/gui/KeybindManager.cpp:184-186 | Over distinct registered actions, the i-th listed action gets id next+i if the system accepts it, else 0. |
| NativeKeybinds.RegisterAllValid | cpp/src/gui/KeybindManager.cpp:184-186 | Registering every action keeps the id invariant. |
| NativeKeybinds.UnregisterAllClears | cpp/src/gui/KeybindManager.cpp:203-205 | Every listed action's id drops to 0 and its hotkey leaves the system. Unlisted actions are untouched, and the system keeps exactly the hotkeys no listed action held. |
| NativeKeybinds.UnregisterAllValid | cpp/src/gui/KeybindManager.cpp:203-205 | Unregistering every action keeps the id invariant. |
| NativeKeybinds.StartKeepsActions | cpp/src/gui/KeybindManager.cpp:175-192 | Starting an already monitoring manager changes nothing. Starting an idle one sets monitoring, keeps the actions, and spends one id per action. |
| NativeKeybinds.StartAssigns | cpp/src/gui/KeybindManager.cpp:180-186 | When an idle manager starts, the actions are taken in key order. The i-th action gets id next+i if the system accepts it, else 0. |
| NativeKeybinds.StartedFromIdle | cpp/src/gui/KeybindManager.cpp:180-186 | Starting from idle is the same as setting the flag and then registering every action in key order. |
| NativeKeybinds.StartValid | cpp/src/gui/KeybindManager.cpp:175-192 | Starting keeps the manager invariant. |
| NativeKeybinds.StartIdempotent | cpp/src/gui/KeybindManager.cpp:176-178 | Starting twice equals starting once. |
| NativeKeybinds.StopEffect | cpp/src/gui/KeybindManager.cpp:194-216 | Stopping an idle manager changes nothing. Stopping a monitoring one clears the flag, keeps the actions, zeroes every id, and releases every held hotkey. |
| NativeKeybinds.StopValid | cpp/src/gui/KeybindManager.cpp:194-216 | Stopping keeps the manager invariant, and every action is left idle. |
| NativeKeybinds.HandlerIsOwner | cpp/src/gui/KeybindManager.cpp:61-68 | Under the invariant, a hotkey message invokes the callback of the one action that holds that id. |
| NativeKeybinds.HandlerNeedsOwner | cpp/src/gui/KeybindManager.cpp:61-68 | A hotkey id that no action holds invokes nothing. |
| NativeKeybinds.LineSplits | cpp/src/gui/KeybindManager.cpp:226-247 | A saved line has no end of line, and splitting it at the first '=' gives back the action name and its data. |
| NativeKeybinds.DataParses | cpp/src/gui/KeybindManager.cpp:226-265 | Splitting a saved keybind's data at commas gives at least four tokens. The first parses back to the key, and the keybind rebuilt from the tokens is the one saved. |
| NativeKeybinds.LoadSavedLines | cpp/src/gui/KeybindManager.cpp:242-273 | Loading the lines saved from a keybind map that matches the registry never throws and leaves the keybind map unchanged. |
| NativeKeybinds.SaveThenLoad | cpp/src/gui/KeybindManager.cpp:218-274 | Loading the text that saving wrote restores every action's keybind and never throws. This holds when names carry no '=' and names and descriptions carry no ',' or end of line. |
| NativeKeybinds.VirtualKeyRoundTrip | cpp/src/gui/KeybindManager.cpp:276-352 | Every named key (A-Z, F1-F12, Space, Enter, Escape) survives conversion to its name and back. |
| NativeKeybinds.UnnamedKey | cpp/src/gui/KeybindManager.cpp:319-351 | Any other key is named "Unknown", and that name converts to 0. |
| NativeKeybinds.KeyNameRoundTrip | cpp/src/gui/KeybindManager.cpp:327-352 | Every name that converts to a non-zero key is a named key whose name is exactly that string. |
| NativeKeybinds.KeybindManager.constructor | cpp/src/gui/KeybindManager.cpp:108-112 | A new manager is in the initial state. |
| NativeKeybinds.KeybindManager.RegisterSystemHotkey | cpp/src/gui/KeybindManager.cpp:70-80 | Moves the manager by RegisterSystem. |
| NativeKeybinds.KeybindManager.UnregisterSystemHotkey | cpp/src/gui/KeybindManager.cpp:82-88 | Moves the manager by UnregisterSystem. |
| NativeKeybinds.KeybindManager.RegisterKeybind | cpp/src/gui/KeybindManager.cpp:123-131 | Moves the manager by Register (see RegisterEffect and RegisterValid). |
| NativeKeybinds.KeybindManager.UpdateKeybind | cpp/src/gui/KeybindManager.cpp:133-148 | Moves the manager by Update (see UpdateEffect and UpdateValid). |
| NativeKeybinds.KeybindManager.RemoveKeybind | cpp/src/gui/KeybindManager.cpp:150-157 | Moves the manager by Remove (see RemoveEffect and RemoveValid). |
| NativeKeybinds.KeybindManager.GetKeybind | cpp/src/gui/KeybindManager.cpp:159-165 | Returns the registered keybind, or the empty keybind for an unknown action. |
| NativeKeybinds.KeybindManager.GetAllKeybinds | cpp/src/gui/KeybindManager.cpp:167-173 | The loop's result has exactly the registry's keys, each mapped to its keybind. |
| NativeKeybinds.KeybindManager.NextKey | cpp/src/gui/KeybindManager.cpp:184-224 | Picks the least remaining key, which is the next one in `std::map` iteration order. |
| NativeKeybinds.KeybindManager.StartMonitoring | cpp/src/gui/KeybindManager.cpp:175-192 | The registering loop moves the manager by Started (see StartAssigns, StartValid and StartIdempotent). |
| NativeKeybinds.KeybindManager.StopMonitoring | cpp/src/gui/KeybindManager.cpp:194-216 | The unregistering loop moves the manager by Stopped (see StopEffect and StopValid). |
| NativeKeybinds.KeybindManager.HandleHotkey | cpp/src/gui/KeybindManager.cpp:61-68 | The loop invokes the first callback in key order whose action holds the id (see HandlerIsOwner). |
| NativeKeybinds.KeybindManager.SaveToFile | cpp/src/gui/KeybindManager.cpp:218-233 | Writes nothing when the file cannot be opened. Otherwise it writes one line per action in key order (see SaveThenLoad). |
| NativeKeybinds.KeybindManager.LoadFromFile | cpp/src/gui/KeybindManager.cpp:235-274 | Changes nothing when the file cannot be opened. Otherwise the line loop moves the manager by LoadLines: malformed lines are skipped, known actions are updated, and a non-numeric key throws. |
| GlobalKeybinds.IdFlags | src/Pick6.Core/GlobalKeybindManager.cs:88 | The low bits of a keybind id are ctrl 1, alt 2 and shift 4, each set exactly when its modifier is held. |
| GlobalKeybinds.Shift16Wraps | src/Pick6.Core/GlobalKeybindManager.cs:88 | `virtualKey << 16` is the key times 65536, wrapped to a 32-bit signed int. |
| GlobalKeybinds.KeybindId | src/Pick6.Core/GlobalKeybindManager.cs:85-89 | The id's low half holds the modifier flags and its high half the low 16 bits of the key. |
| GlobalKeybinds.KeybindIdCollides | src/Pick6.Core/GlobalKeybindManager.cs:85-89 | Two combinations get the same id exactly when their keys agree modulo 65536 and their modifiers agree. Keys that differ only above bit 15 collide. |
| GlobalKeybinds.KeybindIdInjective | src/Pick6.Core/GlobalKeybindManager.cs:85-89 | For keys below 0x8000 the id is unique to its combination. |
| GlobalKeybinds.KeybindIdSmall | src/Pick6.Core/GlobalKeybindManager.cs:85-89 | For keys below 0x8000 the id is key*65536 plus the flags, with no wrap-around, and it is non-negative. |
| GlobalKeybinds.Modifiers | src/Pick6.Core/GlobalKeybindManager.cs:91-98 | The `RegisterHotKey` mask has alt in bit 1, control in bit 2 and shift in bit 4, each set exactly when that modifier is held. |
| GlobalKeybinds.FlagLayouts | src/Pick6.Core/GlobalKeybindManager.cs:88-95 | The id's flag bits swap ctrl and alt relative to the Win32 mask. The two layouts agree only when ctrl and alt are both held or both released. |
| GlobalKeybinds.InitialValid | src/Pick6.Core/GlobalKeybindManager.cs:12-16 | A new manager satisfies the invariant: the OS holds only registered ids, and nothing is registered off Windows. |
| GlobalKeybinds.HotkeyAction | src/Pick6.Core/GlobalKeybindManager.cs:112-124 | A hotkey message finds an action exactly when its id is registered, and it finds that id's action. |
| GlobalKeybinds.RegisterEffect | src/Pick6.Core/GlobalKeybindManager.cs:23-40 | Registration succeeds exactly on Windows, for an id not yet taken, when the OS accepts it. Off Windows, or for a taken id, nothing changes. Otherwise the action is stored even when the OS refuses, and the OS holds the hotkey only when it accepted. |
| GlobalKeybinds.RegisterValid | src/Pick6.Core/GlobalKeybindManager.cs:23-40 | Registration keeps the invariant. |
| GlobalKeybinds.RegisteredRuns | src/Pick6.Core/GlobalKeybindManager.cs:23-40 | After registering a new combination, its hotkey message runs the registered action. |
| GlobalKeybinds.StartIdempotent | src/Pick6.Core/GlobalKeybindManager.cs:45-56 | Starting twice equals starting once. Starting keeps every keybind, and the manager then monitors exactly when it already did or runs on Windows. |
| GlobalKeybinds.StartValid | src/Pick6.Core/GlobalKeybindManager.cs:45-56 | Starting keeps the invariant. |
| GlobalKeybinds.StopEffect | src/Pick6.Core/GlobalKeybindManager.cs:61-83 | Stopping an idle manager changes nothing. Stopping a monitoring one clears the flag and cancels the token. On Windows it also unregisters every registered hotkey from the OS, keeps the OS's other hotkeys, and empties the dictionary. |
| GlobalKeybinds.StopIdempotent | src/Pick6.Core/GlobalKeybindManager.cs:61-63 | Stopping twice equals stopping once. |
| GlobalKeybinds.StopValid | src/Pick6.Core/GlobalKeybindManager.cs:61-83 | Stopping keeps the invariant and leaves the OS holding none of the manager's hotkeys. |
| GlobalKeybinds.RestartNeverListens | src/Pick6.Core/GlobalKeybindManager.cs:45-105 | A fresh manager on Windows listens once started. After a stop, a new start sets the monitoring flag, but the loop's condition is false because the token stays cancelled. |
| GlobalKeybinds.DefaultsRegistered | src/Pick6.Core/GlobalKeybindManager.cs:198-237 | On Windows, with none of the three ids taken, exactly the given actions are stored: Ctrl+L as 0x4C0001, Ctrl+P as 0x500001 and Ctrl+Shift+Esc as 0x1B0005. |
| GlobalKeybinds.DefaultsOffWindows | src/Pick6.Core/GlobalKeybindManager.cs:203 | Off Windows the defaults change nothing. |
| GlobalKeybinds.GlobalKeybindManager.constructor | src/Pick6.Core/GlobalKeybindManager.cs:12-16 | A new manager is empty, idle, not cancelled and not disposed. |
| GlobalKeybinds.GlobalKeybindManager.RegisterKeybind | src/Pick6.Core/GlobalKeybindManager.cs:23-40 | Moves the manager by Register (see RegisterEffect) and returns its result. |
| GlobalKeybinds.GlobalKeybindManager.StartMonitoring | src/Pick6.Core/GlobalKeybindManager.cs:45-56 | Moves the manager by Start. |
| GlobalKeybinds.GlobalKeybindManager.StopMonitoring | src/Pick6.Core/GlobalKeybindManager.cs:61-83 | The unregistering loop moves the manager by Stop (see StopEffect). |
| GlobalKeybinds.GlobalKeybindManager.HandleHotkeyMessage | src/Pick6.Core/GlobalKeybindManager.cs:112-124 | Returns the action HotkeyAction names for the id. |
| GlobalKeybinds.GlobalKeybindManager.Dispose | src/Pick6.Core/GlobalKeybindManager.cs:141-145 | Stops the manager and marks it disposed. |
| GlobalKeybinds.RegisterDefaultKeybinds | src/Pick6.Core/GlobalKeybindManager.cs:198-237 | Moves the manager by RegisterDefaults (see DefaultsRegistered). |
| ProjectionControl.WithStatus | src/Pick6.Loader/Controllers/ProjectionController.cs:301-309 | Setting a status records it as current, raises exactly one StatusChanged event with that status and message, and changes nothing else. |
| ProjectionControl.WithLog | src/Pick6.Loader/Controllers/ProjectionController.cs:311-314 | Emitting a log raises exactly one Log event with that level and message, and changes nothing else. |
| ProjectionControl.StartDisposed | src/Pick6.Loader/Controllers/ProjectionController.cs:109 | A disposed controller refuses to start and nothing changes. |
| ProjectionControl.StartWhileRunning | src/Pick6.Loader/Controllers/ProjectionController.cs:113-117 | Starting a running controller reports success. It only logs "Projection is already running", and the status and status events stay as they were. |
| ProjectionControl.StartFromIdle | src/Pick6.Loader/Controllers/ProjectionController.cs:119-152 | Starting an idle controller succeeds exactly when the guarded part does not throw. The running flag equals the result. The status ends at Running or Error, and the events are Starting followed by Running or by Error with the exception's message. |
| ProjectionControl.StartFromIdleLogs | src/Pick6.Loader/Controllers/ProjectionController.cs:125-143 | From idle, the logs gain the start line, the refresh-interval line when the interval is positive, and the failure line when the start threw. |
| ProjectionControl.StopEffect | src/Pick6.Loader/Controllers/ProjectionController.cs:158-191 | Stopping a disposed or idle controller changes nothing. Otherwise it clears the flag, and the events are Stopping followed by Idle, or by Error when stopping threw. |
| ProjectionControl.StopIdempotent | src/Pick6.Loader/Controllers/ProjectionController.cs:158-168 | Stopping twice equals stopping once. |
| ProjectionControl.DisposeLeavesRunning | src/Pick6.Loader/Controllers/ProjectionController.cs:316-321 | As written, disposing a running controller only sets the disposed flag. The flag is set before `Stop` runs, so `Stop` returns at once and the projection stays running. |
| ProjectionControl.DisposeIdempotent | src/Pick6.Loader/Controllers/ProjectionController.cs:316-319 | Disposing twice equals disposing once. A disposed controller can never be started again. |
| ProjectionControl.DisposeStoppingStops | src/Pick6.Loader/Controllers/ProjectionController.cs:316-325 | With `Stop` called before the flag is set, disposal always leaves the controller stopped and disposed. It equals stopping and then marking disposed, and it is idempotent. |
| ProjectionControl.CaptureErrorKeepsRunning | src/Pick6.Loader/Controllers/ProjectionController.cs:202-206 | A capture error sets the status to Error and leaves the running and disposed flags as they were. |
| ProjectionControl.OperationsKeepStarted | src/Pick6.Loader/Controllers/ProjectionController.cs:107-206 | Start, stop, dispose and capture errors all keep the invariant that a running controller has announced "Starting projection...". |
| ProjectionControl.ProjectionController.constructor | src/Pick6.Loader/Controllers/ProjectionController.cs:95-100 | A new controller is idle, not running and not disposed, and has raised no events. |
| ProjectionControl.ProjectionController.SetStatus | src/Pick6.Loader/Controllers/ProjectionController.cs:301-309 | Moves the controller by WithStatus. |
| ProjectionControl.ProjectionController.EmitLog | src/Pick6.Loader/Controllers/ProjectionController.cs:311-314 | Moves the controller by WithLog. |
| ProjectionControl.ProjectionController.Start | src/Pick6.Loader/Controllers/ProjectionController.cs:107-153 | Moves the controller by Started and returns its result. The outcome of the guarded part is a parameter. |
| ProjectionControl.ProjectionController.Stop | src/Pick6.Loader/Controllers/ProjectionController.cs:158-191 | Moves the controller by Stopped. |
| ProjectionControl.ProjectionController.Dispose | src/Pick6.Loader/Controllers/ProjectionController.cs:316-325 | Moves the controller by Disposed, the behaviour as written. |
| ProjectionControl.ProjectionController.OnCaptureError | src/Pick6.Loader/Controllers/ProjectionController.cs:202-206 | Moves the controller by CaptureError. |
| LoaderEntry.DetermineRunMode | src/Pick6.Loader/Program.cs:39-74 | The GUI is chosen exactly on a Windows build when `--gui` is given or `--console` is not. The warning is printed exactly when `--gui` is asked for off Windows. |
| LoaderEntry.HelpShortCircuit | src/Pick6.Loader/Program.cs:16-23 | Help is shown exactly when some argument is `--help` or `-h`, and adding more arguments never prevents it. |
| LoaderEntry.RunModeCases | src/Pick6.Loader/Program.cs:42-73 | Mode choice by case: `--console` alone gives the console. `--gui` wins when both are given, but falls back to the console with a warning off Windows. With neither flag the platform decides. |
| LoaderEntry.NoGuiOffWindows | src/Pick6.Loader/Program.cs:26-107 | Off Windows the GUI is never run. Without help, the console menu receives the original arguments. |
| LoaderEntry.HasFlagShouted | src/Pick6.Loader/Program.cs:19-43 | Flags are matched whatever their letter case: upper-casing every argument finds the same flags. |
| LoaderEntry.FlagsIgnoreCase | src/Pick6.Loader/Program.cs:16-74 | Upper-casing every argument changes neither the help decision nor the run mode. |
| LoaderConsole.ParseLevel | src/Pick6.Loader/ConsoleMenu.cs:240 | A parsed log level is always a 32-bit integer, because `Enum.TryParse` also accepts numbers. |
| LoaderConsole.Log | src/Pick6.Loader/ConsoleMenu.cs:61-75 | A message below the current level is dropped. Otherwise exactly one line, the level's prefix and the message, is printed. Nothing else changes. |
| LoaderConsole.LogWritesAtOrAbove | src/Pick6.Loader/ConsoleMenu.cs:63 | Logging changes the output exactly when the level is at or above the threshold. |
| LoaderConsole.Step | src/Pick6.Loader/ConsoleMenu.cs:180-260 | Handling one argument always moves forward and never moves past the end. |
| LoaderConsole.FpsStep | src/Pick6.Loader/ConsoleMenu.cs:188-203 | For `--fps`, a value that parses is consumed and applied only within 1..600. A missing or unparsable value consumes nothing. Only the frame rate and the output change. |
| LoaderConsole.ResolutionStep | src/Pick6.Loader/ConsoleMenu.cs:208-218 | For `--resolution`, two parsable values are consumed and applied with no range check. Otherwise only the flag is skipped and nothing changes. |
| LoaderConsole.MonitorStep | src/Pick6.Loader/ConsoleMenu.cs:219-234 | For `--monitor`, a value that parses is consumed and selected only when it is at least 0 and below the monitor count. |
| LoaderConsole.LogLevelStep | src/Pick6.Loader/ConsoleMenu.cs:239-251 | For `--log-level`, the next token is consumed whenever one exists, valid or not. The level changes only when the token parses. |
| LoaderConsole.UnknownSkipped | src/Pick6.Loader/ConsoleMenu.cs:182-260 | An argument that is no known flag is skipped alone and changes nothing. |
| LoaderConsole.LogLevelSwallowsFlag | src/Pick6.Loader/ConsoleMenu.cs:239-251 | `--log-level --no-projection` consumes the flag as an invalid level, so projection stays enabled. |
| LoaderConsole.NumericLevelSilences | src/Pick6.Loader/ConsoleMenu.cs:239-245 | `--log-level 7` is accepted and silences every later line, its own confirmation included. |
| LoaderConsole.AutoStartSeesEarlierOptions | src/Pick6.Loader/ConsoleMenu.cs:184-238 | `--auto-start` starts the capture at once and sees only the options given before it. A later `--no-projection` does not reach it. |
| LoaderConsole.RunPlanCases | src/Pick6.Loader/ConsoleMenu.cs:94-140 | With no arguments `Run` shows the menu. Otherwise it exits after an update check when one was asked for, shows the menu when `--interactive` is given, and auto-starts in every other case. |
| LoaderConsole.AutoStartTwice | src/Pick6.Loader/ConsoleMenu.cs:94-121 | `--auto-start` alone starts the capture twice: once while the flag is read and once more in auto-start mode. |
| LoaderConsole.TryParseKeybindInput | src/Pick6.Loader/ConsoleMenu.cs:436-458 | The key is the last '+'-separated part. Each modifier is set exactly when its exact upper-case name appears before that part, and the parse succeeds exactly when the key name resolves. |
| LoaderConsole.ConsoleMenu.constructor | src/Pick6.Loader/ConsoleMenu.cs:172-176 | A new menu has monitor 0, level Info and all flags false, and has written no output. |
| LoaderConsole.ConsoleMenu.LogLine | src/Pick6.Loader/ConsoleMenu.cs:61-75 | Moves the menu by Log. |
| LoaderConsole.ConsoleMenu.AutoStartCapture | src/Pick6.Loader/ConsoleMenu.cs:795-837 | Records one auto-start together with the projection flag and monitor in effect at that moment. |
| LoaderConsole.ConsoleMenu.HandleCommandLineArgs | src/Pick6.Loader/ConsoleMenu.cs:178-262 | The argument loop moves the menu by Apply, one Step per handled argument. |
| LoaderConsole.ConsoleMenu.HandleArg | src/Pick6.Loader/ConsoleMenu.cs:182-260 | Moves the menu by Step and returns the next index. |
| LoaderConsole.ConsoleMenu.HandleFps | src/Pick6.Loader/ConsoleMenu.cs:188-203 | Moves the menu by FpsArg (see FpsStep). |
| LoaderConsole.ConsoleMenu.HandleResolution | src/Pick6.Loader/ConsoleMenu.cs:208-218 | Moves the menu by ResolutionArg (see ResolutionStep). |
| LoaderConsole.ConsoleMenu.HandleMonitor | src/Pick6.Loader/ConsoleMenu.cs:219-234 | Moves the menu by MonitorArg (see MonitorStep). |
| LoaderConsole.ConsoleMenu.HandleLogLevel | src/Pick6.Loader/ConsoleMenu.cs:239-251 | Moves the menu by LogLevelArg (see LogLevelStep). |
| LoaderConsole.ConsoleMenu.Run | src/Pick6.Loader/ConsoleMenu.cs:77-140 | Moves the menu by RunStart and returns the plan (see RunPlanCases). |
| LoaderConsole.ConsoleMenu.AfterArgs | src/Pick6.Loader/ConsoleMenu.cs:99-140 | Moves the menu by RunAfterArgs. |
| LauncherCli.Say | src/Pick6.Launcher/Program.cs:96 | Writing a line appends exactly that line to the console output. |
| LauncherCli.Step | src/Pick6.Launcher/Program.cs:85-116 | Handling one argument always moves forward and never moves past the end. |
| LauncherCli.FpsStep | src/Pick6.Launcher/Program.cs:92-99 | `--fps` takes any value that parses, zero and negatives included, and consumes it. Otherwise only the flag is passed over and nothing changes. |
| LauncherCli.ResolutionStep | src/Pick6.Launcher/Program.cs:100-110 | `--resolution` applies and consumes both values, unchecked, only when both parse. Otherwise only the flag is passed over and nothing changes. |
| LauncherCli.UnknownIgnored | src/Pick6.Launcher/Program.cs:87-115 | An argument that is none of the four flags is passed over and changes nothing. |
| LauncherCli.HelpStops | src/Pick6.Launcher/Program.cs:111-114 | Once `--help` is reached the process exits, and nothing after it takes effect. |
| LauncherCli.NumberIsNoHelp | src/Pick6.Launcher/Program.cs:93-103 | No value the parser consumes can be `--help` in any letter case, so a value slot never hides a help request. |
| LauncherCli.ExitedStays | src/Pick6.Launcher/Program.cs:113 | After the exit, the remaining arguments leave the process exited. |
| LauncherCli.StepStopsBeforeHelp | src/Pick6.Launcher/Program.cs:85-116 | A step that starts before a `--help` never jumps past it. |
| LauncherCli.HelpAnywhereExits | src/Pick6.Launcher/Program.cs:83-117 | A `--help` anywhere in the arguments makes the process exit. |
| LauncherCli.NoHelpNoExit | src/Pick6.Launcher/Program.cs:83-117 | Without `--help` the process never exits. |
| LauncherCli.ConfigureBounds | src/Pick6.Launcher/Program.cs:313-334 | After the prompt, each setting is either unchanged or the answer given. A frame-rate answer is within 1..120, and a width or height answer is at least 0. |
| LauncherCli.CommandLineLooserThanPrompt | src/Pick6.Launcher/Program.cs:92-99 | A frame rate outside 1..120 is taken from the command line but refused by the prompt. |
| LauncherCli.NegativeResolutionAnnounced | src/Pick6.Launcher/Program.cs:321-339 | Negative width and height are both refused, yet the prompt still prints "Resolution updated to Original". |
| LauncherCli.Launcher.constructor | src/Pick6.Launcher/Program.cs:26 | The capture engine starts with the given settings and nothing written. |
| LauncherCli.Launcher.HandleCommandLineArgs | src/Pick6.Launcher/Program.cs:83-117 | The argument loop moves the launcher by Apply. |
| LauncherCli.Launcher.HandleArg | src/Pick6.Launcher/Program.cs:87-115 | Moves the launcher by Step and returns the next index. |
| LauncherCli.Launcher.HandleFps | src/Pick6.Launcher/Program.cs:92-99 | Moves the launcher by the `--fps` case of Step (see FpsStep) and returns the next index. |
| LauncherCli.Launcher.HandleResolution | src/Pick6.Launcher/Program.cs:100-110 | Moves the launcher by the `--resolution` case of Step (see ResolutionStep) and returns the next index. |
| LauncherCli.Launcher.ConfigureSettings | src/Pick6.Launcher/Program.cs:311-341 | Moves the launcher by Configure for the three answers read. |
| LauncherCli.Launcher.AnswerFps | src/Pick6.Launcher/Program.cs:313-319 | Moves the launcher by FpsAnswer. |
| LauncherCli.Launcher.AnswerSize | src/Pick6.Launcher/Program.cs:321-334 | Moves the launcher by WidthAnswer and then HeightAnswer. |
| LauncherCli.Launcher.AnnounceResolution | src/Pick6.Launcher/Program.cs:336-339 | Moves the launcher by ResolutionLine. |
| ProcessDetector.EqualitySubsumed | cpp/src/core/ProcessDetector.cpp:113-120 | The equality test in the filter adds nothing. A process is kept exactly when one of the listed names occurs in its name. |
| ProcessDetector.FilterFiveMProcesses | cpp/src/core/ProcessDetector.cpp:105-124 | The nested loop keeps, in order, exactly the processes whose name contains one of the ten FiveM or CitizenFX executable names. It adds each process once, at its first matching name. |
| ProcessDetector.FilterCounts | cpp/src/core/ProcessDetector.cpp:105-124 | The filter keeps each FiveM process as often as the snapshot holds it, and drops every other process. |
| ProcessDetector.FilterConcat | cpp/src/core/ProcessDetector.cpp:113-121 | Filtering two snapshots joined is joining their filtered parts, so the filter works process by process. |
| ProcessDetector.ByName | cpp/src/core/ProcessDetector.cpp:138-149 | The processes found by name are exactly the snapshot's processes whose name contains the name. |
| ProcessDetector.FindProcessesByName | cpp/src/core/ProcessDetector.cpp:138-149 | The loop collects, in order, the processes ByName describes. |
| ProcessDetector.ProcessExistsByName | cpp/src/core/ProcessDetector.cpp:165-168 | A process name exists exactly when some process of the snapshot has it in its name. |
| ProcessDetector.ByNameWitness | cpp/src/core/ProcessDetector.cpp:165-168 | The list found by name is non-empty exactly when some process matches. |
| ProcessDetector.RegisterFacts | cpp/src/core/ProcessDetector.cpp:84-92 | The new-process loop hands on only FiveM processes whose id was not known, each id at most once. The known list grows by exactly the ids handed on, ends up holding every FiveM id of the pass, and stays free of duplicates. |
| ProcessDetector.KeepAlive | cpp/src/core/ProcessDetector.cpp:94-99 | The clean-up keeps exactly the known ids that still belong to some process of the snapshot, and it keeps the list free of duplicates. |
| ProcessDetector.Detector.constructor | cpp/src/core/ProcessDetector.cpp:17-22 | A new detector is not monitoring, has no callback, knows no process and has reported nothing. |
| ProcessDetector.Detector.StartMonitoring | cpp/src/core/ProcessDetector.cpp:170-178 | Ignored while monitoring. Otherwise it keeps the callback and starts monitoring. |
| ProcessDetector.Detector.StopMonitoring | cpp/src/core/ProcessDetector.cpp:180-189 | Afterwards the detector is not monitoring. |
| ProcessDetector.Detector.MonitorIteration | cpp/src/core/ProcessDetector.cpp:79-103 | One pass of the monitor loop registers and reports the new FiveM processes, then erases the dead ids. |
| ProcessDetector.Detector.ReportNew | cpp/src/core/ProcessDetector.cpp:84-92 | The new-process loop moves the known list and the reports by Register. The callback gets exactly the processes handed on, and only when there is a callback. |
| ProcessDetector.Detector.RemoveDead | cpp/src/core/ProcessDetector.cpp:94-99 | The clean-up loop leaves the known list as KeepAlive. |
| ProcessDetector.NoRepeatNextPass | cpp/src/core/ProcessDetector.cpp:79-103 | No process reported in one pass is reported again in the next pass, whatever that pass sees. |
| ProcessDetector.KnownStaysDistinct | cpp/src/core/ProcessDetector.cpp:79-103 | A pass keeps the known list free of duplicates. |
| ProcessDetector.LivenessAgainstAllProcesses | cpp/src/core/ProcessDetector.cpp:94-99 | A known id survives a pass exactly when some process of the snapshot still has it, FiveM or not. |
| FiveMDetector.GtaSubsumes | src/Pick6.Core/FiveMDetector.cs:114-121 | The "gtaprocess", "gta5" and "gta_" tokens add nothing to the name test, because "gta" already covers them. |
| FiveMDetector.ExplicitNamesMatch | src/Pick6.Core/FiveMDetector.cs:12-25 | Every explicitly listed process name also passes the wildcard name/title test. |
| FiveMDetector.ByName | src/Pick6.Core/FiveMDetector.cs:80 | `GetProcessesByName` returns exactly the processes of the snapshot whose name equals the asked name in any letter case. |
| FiveMDetector.ScanConcat | src/Pick6.Core/FiveMDetector.cs:39-71 | Scanning two candidate lists one after the other is scanning their concatenation, so the two passes share one scan. |
| FiveMDetector.ScanFacts | src/Pick6.Core/FiveMDetector.cs:76-101 | A scan keeps the results consistent with the `seen` set, with no id twice. It only appends, and only entries of live, windowed candidates. Every live, windowed candidate's id ends up seen. |
| FiveMDetector.ScanOrigin | src/Pick6.Core/FiveMDetector.cs:51-93 | Every entry a scan appends is built from a live, windowed candidate of that scan, and the lemma names the candidate. |
| FiveMDetector.ScanKeepsConsistent | src/Pick6.Core/FiveMDetector.cs:51-93 | A scan only appends, keeps the `seen` set equal to the ids of the results with no id twice, and leaves the id of every live, windowed candidate seen. |
| FiveMDetector.TryAddByProcessName | src/Pick6.Core/FiveMDetector.cs:76-101 | The loop adds the not-yet-seen windowed processes of that name, in order. |
| FiveMDetector.FindFiveMProcesses | src/Pick6.Core/FiveMDetector.cs:33-74 | The results are the explicit pass followed by the wildcard pass, both scanned with one shared `seen` set. |
| FiveMDetector.ExplicitPass | src/Pick6.Core/FiveMDetector.cs:38-42 | The loop over the explicit names equals the explicit phase. |
| FiveMDetector.WildcardPass | src/Pick6.Core/FiveMDetector.cs:44-71 | The loop over all processes scans the live, windowed processes that match the name/title test. |
| FiveMDetector.ExplicitCandidatesNamed | src/Pick6.Core/FiveMDetector.cs:39-42 | An explicit-pass candidate is a process whose name equals a listed name in any letter case. |
| FiveMDetector.WildcardCandidatesMatch | src/Pick6.Core/FiveMDetector.cs:44-52 | A process is a wildcard candidate exactly when it passes the name/title test. |
| FiveMDetector.ResultsDistinct | src/Pick6.Core/FiveMDetector.cs:33-74 | No process id is found twice, and every process found has a window. |
| FiveMDetector.ExplicitFirst | src/Pick6.Core/FiveMDetector.cs:33-74 | The explicit matches come first, each named in the list. Every result passes the name/title test. |
| FiveMDetector.NoneMissed | src/Pick6.Core/FiveMDetector.cs:33-74 | Every live, windowed process that passes the name/title test is found. |
| FiveMDetector.VulkanOf | src/Pick6.Core/VulkanInjector.cs:18-42 | The Vulkan list holds exactly the FiveM processes the oracle reports as using Vulkan. |
| FiveMDetector.FindVulkanProcesses | src/Pick6.Core/VulkanInjector.cs:18-42 | The loop over a fresh enumeration collects, in order, the processes VulkanOf describes. |
| FiveMDetector.GetProcessSummary | src/Pick6.Core/FiveMDetector.cs:175-187 | The traditional list comes from one enumeration and the Vulkan list from a second. The total is the sum of their lengths, and Vulkan support means the Vulkan list is non-empty. |
| FiveMDetector.VulkanCountedTwice | src/Pick6.Core/FiveMDetector.cs:175-187 | On an unchanged process list every Vulkan process is also in the traditional list, so the total counts each of them twice. |
| FiveMDetector.VulkanDistinct | src/Pick6.Core/VulkanInjector.cs:18-42 | The Vulkan list has no id twice when the FiveM list has none. |
| FiveMDetector.DistinctIdsCount | src/Pick6.Core/FiveMDetector.cs:175-187 | A list with no id twice has as many ids as entries. |
| FiveMDetector.GetPrimaryFiveMProcess | src/Pick6.Core/FiveMDetector.cs:152-170 | The first Vulkan process is returned when there is one. Otherwise it is the first process of a second enumeration, or none. |
| FiveMDetector.PrimaryExists | src/Pick6.Core/FiveMDetector.cs:152-170 | On an unchanged process list, a primary process exists exactly when a FiveM process was found, and it is one of them. |
| FiveMDetector.IsFiveMRunning | src/Pick6.Core/FiveMDetector.cs:144-147 | Reports running exactly when either enumeration finds something. On an unchanged list that means exactly when a FiveM process was found. |
| ProxyManager.ParseProxyType | src/Pick66.Launcher/ProxyManager.cs:254-255 | Every value `Enum.TryParse` yields, from a member name or a decimal number, is a well-formed proxy type: a named one or an undefined 32-bit value. |
| NativeKeybinds.Update | cpp/src/gui/KeybindManager.cpp:133-148 | Updating a keybind never adds or removes an action and never changes whether the manager is monitoring. |
| ProxyCommon.TogglePolls | src/Pick66.ProxyDlls/Common/ProxyCommon.cpp:134-150 | A run of polls yields exactly one answer per poll. |
| Diagnostics.RingStep | src/Pick6.Core/Diagnostics/FrameStatistics.cs:40-56 | After a write the index is the frame total modulo the capacity, and the slot just before it, wrapping, is the one just written. |
| ViewModel.ProgressMessage | src/Pick66.App/ViewModels/MainViewModel.cs:173-179 | A progress message always differs from the initial busy message `Working...`. |

## Left out

- Real Win32, COM, Direct3D 11, DXGI and ImGui calls. These include `LoadLibrary`, `GetProcAddress`, `SetWindowLongPtr`, `CallWindowProc`, `GetAsyncKeyState`, `RegisterHotKey` and the ImGui backends. Their answers are parameters, and the calls are recorded in order in `Host.Journal`.
- Interlocked reference counts, locks and thread-safety. Every count is a plain sequential counter, and concurrent callers are not modelled.
- `OverlayManager::UpdateStats` (src/Pick66.ProxyDlls/Common/ProxyCommon.cpp:311-323), because it is floating point. Its frame rate divides by the frame delta with no zero guard.
- `FramePacer.cs` (stopwatch, sleeping, spinning and double arithmetic) is not part of this model.
- Diagnostics.P95Index: uses the exact ceiling of 0.95·n. The rounding of `0.95 * n` as a C# double is not modelled, and intervals are reals, not IEEE doubles.
- Writing the log file and formatting timestamps (ProxyCommon.cpp:73-115, and `FileLogSink`/`DebugLogSink` in Log.cs). These are file I/O and the clock. `Statics.Log` models only the configuration lookup it makes.
- Settings persistence through the JSON serializer and files (both `SettingsService.cs`). The validation rules are modelled in the settings modules, and a loaded settings file is an outcome passed in.
- ProxyManager: `IsOurProxyDll` reads a file's version resource and is the parameter `ours`. `DateTime.Now` is the parameter `installDate`. `Enum.TryParse` of comma-separated flag lists is not modelled. Exceptions from file copies are not modelled either: each file operation succeeds.
- The module directory lookup (`GetModuleDirectory`) is not modelled. The config file's lines are an input.
- ProcessDetector and FiveMDetector: the operating system's process list is a snapshot input. This includes the placeholder data the native enumeration returns. Whether a pid is still alive, whether a process uses Vulkan and a window's title are oracles. The monitor thread's timer and sleep are not modelled: one call is one iteration.
- The `catch` blocks of `FindFiveMProcesses`, `TryAddByProcessName` and `MatchesFiveM` are not modelled. They cover a process that exits or becomes inaccessible during the scan. The snapshot holds only processes whose properties can be read.
- The thin `src/Pick66.Core/FiveMDetector.cs` wrapper over `Process.GetProcessesByName` is not modelled.
- Members of the global keybind manager that `ConsoleMenu.cs` calls but that the manager's source does not define, such as `GetVirtualKeyFromName`. They are treated as abstract: the key-name lookup is a parameter of `TryParseKeybindInput`.
- `src/Pick66.Launcher/Program.cs` repeats the Pick6 launcher's argument pass (lines 82-113) and prompt rules (lines 264-292) word for word, so one `LauncherCli` model covers both files. Rows cite the Pick6 copy.
- What an auto-start, the capture engine and the projection window then do. An auto-start is recorded with the settings it saw. The capture and projection engines, window styling, stealth, DLL injection and the update pipeline are not part of this model.
- User-interface forms, converters, log sinks that only display, and entry points with no logic of their own. This includes the interactive menu loop of `ConsoleMenu`, apart from its run decision.
- Reference counting of the proxies: the source relies on `1 + AddRefs − Releases` reaching zero to delete the object. The model states each call's effect on the count, not a closed formula over a call history.
- Text.ToLower, Text.ToUpper, Text.Trim, Text.IsBlank, LoaderEntry.HasFlagShouted, LoaderEntry.FlagsIgnoreCase, GuiSettings.Repaired, FiveMDetector.ByName and LoaderConsole.ParseLevel assume ASCII text and the invariant culture. Case mapping covers only A-Z, and only ASCII whitespace counts as blank, so Unicode whitespace and culture-specific casing (such as the Turkish dotted I) are not modelled. LoaderConsole.ParseLevel does not accept the comma-separated flag lists that `Enum.TryParse` would.
- FiveMDetector: each query is given one snapshot of the process list. The source enumerates the system 20 times inside `FindFiveMProcesses`: one `Process.GetProcessesByName` per explicit name (src/Pick6.Core/FiveMDetector.cs:80), then `Process.GetProcesses` (line 45). The queries at lines 146-177 enumerate again for each call they make. A process that starts or exits between those enumerations is not modelled.
- ViewModel.ShownMessages, ViewModel.DeliveredEarlyIffAwaited and ViewModel.MainViewModel.GenerateTickets assume the WPF dispatcher's order. Progress reports and the view-model's continuation are posted to the same dispatcher at the same priority and handled first in, first out. A continuation runs inline only when the service completes synchronously (10 tickets or fewer); after an awaited `Task.Delay` the service completes in a later dispatcher operation, whose synchronization context is a different instance, so the continuation is queued behind every report. Another synchronization context, or a dispatcher that reused one context instance, would interleave them differently.
- ViewModel.MainViewModel.GenerateTickets fixes the ticket count at the start of the run. The source's progress handler reads `TicketCount` live when each report is handled (src/Pick66.App/ViewModels/MainViewModel.cs:175-178), so a count edited while reports are queued would change the later messages; the model does not capture that.
- NumberPicker.GenerateTicket, NumberPicker.GenerateTickets, ViewModel.MainViewModel.CallService and ViewModel.MainViewModel.GenerateTickets use the corrected validation and drawing rules of the Findings table, not the 32-bit arithmetic as written (src/Pick66.Core/NumberPickerService.cs:100, 117). With a range wider than `int.MaxValue` the source rejects unique tickets, or throws from `Random.Next` when max is `int.MaxValue`, and the view-model then shows an "Error: …" line, which these members never produce. In unique mode `new int[range]` (line 72) throws `OutOfMemoryException` for a range longer than .NET's array limit, which also ends in an "Error: …" line; allocation failure is not modelled either. The as-written behaviour is stated only by NumberPicker.ValidateAsWrittenRejectsWideRange and NumberPicker.RandomUpperBoundWraps.
- Diagnostics.FrameStatistics.RecordFrame: `_totalFrames` and `_droppedFrames` are 32-bit `int`s in the source (src/Pick6.Core/Diagnostics/FrameStatistics.cs:15). The model counts with unbounded naturals, so the wrap after 2^31 - 1 frames is not modelled.
- GlobalKeybinds.GlobalKeybindManager.Dispose records only that the manager is disposed. The source disposes its cancellation token source (src/Pick6.Core/GlobalKeybindManager.cs:144). A manager started again afterwards fails reading that token in its monitor loop (line 105), and stopping it then throws `ObjectDisposedException` at `Cancel` (line 66). Those exceptions are not modelled.
- NativeKeybinds.VirtualKeyToString and NativeKeybinds.StringToVirtualKey model only the Windows build (cpp/src/gui/KeybindManager.cpp:277-349). Elsewhere every code prints as "Key" followed by its number, and every name reads back as 0.
- The banners, prompts, help text and status lines the launchers and the loader console print are not modelled. Only the decisions behind them are.
- ViewModel.ArgumentMessage follows the `ArgumentException.Message` format of .NET Core 3.0 and later, " (Parameter 'name')" after the message. The older .NET Framework format, a second line "Parameter name: name", is not modelled.

## Findings

| source | as written | input that shows it | evidently intended | confidence | as-written member | corrected member |
|---|---|---|---|---|---|---|
| src/Pick66.Core/NumberPickerService.cs:117 | The range size `max - min + 1` is computed in 32-bit `int`, so a wide range wraps negative and unique tickets are rejected. | numbersPerTicket 6, min 0, max int.MaxValue, unique: the size wraps to int.MinValue, below 6 | Compare against the exact range size, which accepts these parameters | medium, not executed | NumberPicker.ValidateAsWrittenRejectsWideRange | NumberPicker.Validate |
| src/Pick66.Core/NumberPickerService.cs:100 | `random.Next(min, max + 1)` wraps `max + 1` when max is int.MaxValue, so the upper bound falls below min and `Random.Next` throws. | min 0, max int.MaxValue, unique false | Draw uniformly from the whole inclusive range [min, max] | medium, not executed | NumberPicker.RandomUpperBoundWraps | NumberPicker.GenerateRandomNumbers |
| src/Pick6.Loader/Controllers/ProjectionController.cs:316-321 | `Dispose` sets the disposed flag before calling `Stop`, and `Stop` returns at once when disposed, so a running controller is never stopped. | Start succeeds, then Dispose: the controller is still running | Stop the projection and capture before marking the controller disposed | medium, not executed | ProjectionControl.DisposeLeavesRunning | ProjectionControl.DisposeStoppingStops |
