/** The DXGI proxy DLL: wrappers around the real swap chain and factory that
    keep their own reference count, answer `QueryInterface` for their own
    interface with themselves, forward everything else unchanged, and run the
    hook manager around every `Present`; plus the exported factory entry
    points and the loading and unloading of the system `dxgi.dll`.

    The real objects are `ComObject`s whose reference counts the proxies
    change; what the real objects answer is passed in. */
module DxgiProxy {
  import opened Wrappers
  import opened Host
  import opened ProxyCommon

  /** Where `Present` asks the real swap chain to put the device pointer. */
  const DEVICE_OUT: Handle := 3

  /** The swap-chain methods that are passed straight to the real object. */
  predicate IsSwapChainForwarded(c: Call) {
    c.GetBuffer? || c.SetFullscreenState? || c.GetFullscreenState? || c.GetDesc? || c.ResizeBuffers?
    || c.ResizeTarget? || c.GetContainingOutput? || c.GetFrameStatistics? || c.GetLastPresentCount?
    || c.SetPrivateData? || c.SetPrivateDataInterface? || c.GetPrivateData? || c.GetParent? || c.GetDevice?
  }

  /** The factory methods that are passed straight to the real object. */
  predicate IsFactoryForwarded(c: Call) {
    c.EnumAdapters? || c.MakeWindowAssociation? || c.GetWindowAssociation? || c.CreateSoftwareAdapter?
    || c.SetPrivateData? || c.SetPrivateDataInterface? || c.GetPrivateData? || c.GetParent?
  }

  /** The device discovery at the head of `Present`: (flag afterwards, layer, calls). */
  function DiscoveryStep(obtained: bool, l: Layer, original: Handle, deviceResult: HResult,
                         device: Handle, context: Handle, host: HostAnswers): (r: (bool, Layer, seq<Event>))
    ensures r.0 <==> obtained || (Succeeded(deviceResult) && device != NULL && context != NULL)
    ensures obtained ==> r == (true, l, [])
    ensures !obtained ==> |r.2| >= 1 && r.2[0] == OriginalCall(original, GetDevice(ID3D11Device, DEVICE_OUT), deviceResult)
  {
    if obtained then (true, l, [])
    else
      var e0 := [OriginalCall(original, GetDevice(ID3D11Device, DEVICE_OUT), deviceResult)];
      if !Succeeded(deviceResult) || device == NULL then (false, l, e0)
      else
        var e1 := e0 + [GetImmediateContext(device)];
        if context == NULL then (false, l, e1)
        else
          var (l2, e2) := OnDeviceCreatedStep(l, device, context, host);
          (true, l2, e1 + e2)
  }

  /** The part of `Present` after discovery: the before-hook, the real
      `Present`, the after-hook. */
  function HookedPresentStep(l: Layer, original: Handle, syncInterval: nat, flags: nat,
                             host: HostAnswers, presentResult: HResult): (Layer, seq<Event>)
  {
    var (l1, e1) := OnBeforePresentStep(l, original, host);
    (l1, e1 + [OriginalCall(original, Present(syncInterval, flags), presentResult)] + OnAfterPresentStep(l1))
  }

  /** The calls one proxied `Present` makes. */
  function PresentEvents(obtained: bool, l: Layer, original: Handle, syncInterval: nat, flags: nat,
                         deviceResult: HResult, device: Handle, context: Handle, host: HostAnswers,
                         presentResult: HResult): seq<Event>
  {
    var d := DiscoveryStep(obtained, l, original, deviceResult, device, context, host);
    d.2 + HookedPresentStep(d.1, original, syncInterval, flags, host, presentResult).1
  }

  predicate IsPresentCall(e: Event) {
    e.OriginalCall? && e.call.Present?
  }

  predicate NoPresentCall(events: seq<Event>) {
    forall i :: 0 <= i < |events| ==> !IsPresentCall(events[i])
  }

  lemma OverlayCallsAreNotPresent(l: Layer, device: Handle, context: Handle, swapChain: Handle, host: HostAnswers)
    ensures NoPresentCall(OnDeviceCreatedStep(l, device, context, host).1)
    ensures NoPresentCall(OnBeforePresentStep(l, swapChain, host).1)
    ensures NoPresentCall(OnAfterPresentStep(l))
  {
  }

  /** The real `Present` is called exactly once per proxied `Present`: after
      every call the discovery and the before-hook make, before every call
      the after-hook makes, with the caller's arguments. */
  lemma PresentCalledOnce(obtained: bool, l: Layer, original: Handle, syncInterval: nat, flags: nat,
                          deviceResult: HResult, device: Handle, context: Handle, host: HostAnswers,
                          presentResult: HResult)
    ensures var events := PresentEvents(obtained, l, original, syncInterval, flags, deviceResult, device, context, host, presentResult);
      var d := DiscoveryStep(obtained, l, original, deviceResult, device, context, host);
      var k := |d.2| + |OnBeforePresentStep(d.1, original, host).1|;
      k < |events| && events[k] == OriginalCall(original, Present(syncInterval, flags), presentResult)
      && forall i :: 0 <= i < |events| && i != k ==> !IsPresentCall(events[i])
  {
    var d := DiscoveryStep(obtained, l, original, deviceResult, device, context, host);
    var b := OnBeforePresentStep(d.1, original, host);
    OverlayCallsAreNotPresent(l, device, context, original, host);
    OverlayCallsAreNotPresent(d.1, device, context, original, host);
    OverlayCallsAreNotPresent(b.0, device, context, original, host);
    assert NoPresentCall(d.2);
  }

  /** A discovery that did not obtain both device and context leaves the
      flag clear, so the next `Present` asks for the device again. */
  lemma FailedDiscoveryIsRetried(l: Layer, original: Handle, deviceResult: HResult, device: Handle, context: Handle,
                                 host: HostAnswers, l': Layer,
                                 deviceResult': HResult, device': Handle, context': Handle, host': HostAnswers)
    requires !(Succeeded(deviceResult) && device != NULL && context != NULL)
    ensures var r := DiscoveryStep(false, l, original, deviceResult, device, context, host);
      !r.0 && DiscoveryStep(r.0, l', original, deviceResult', device', context', host').2[0]
        == OriginalCall(original, GetDevice(ID3D11Device, DEVICE_OUT), deviceResult')
  {
  }

  function HandleOf(o: ComObject?): Handle {
    if o == null then NULL else o.handle
  }

  class SwapChainProxy {
    const handle: Handle
    const original: ComObject?
    var refCount: nat
    var deviceObtained: bool
    /** The object has been deleted by the `Release` that brought the count to 0. */
    var deleted: bool

    predicate Valid()
      reads this
    {
      deleted <==> refCount == 0
    }

    constructor (handle: Handle, original: ComObject?)
      modifies original
      ensures Valid() && !deleted
      ensures this.handle == handle && this.original == original
      ensures refCount == 1 && !deviceObtained
      ensures original != null ==> original.refCount == old(original.refCount) + 1
    {
      this.handle := handle;
      this.original := original;
      refCount := 1;
      deviceObtained := false;
      deleted := false;
      new;
      if original != null {
        original.AddRef();
      }
    }

    method AddRef() returns (count: nat)
      requires Valid() && !deleted
      modifies this
      ensures Valid() && !deleted
      ensures refCount == old(refCount) + 1 && count == refCount
      ensures deviceObtained == old(deviceObtained)
    {
      refCount := refCount + 1;
      count := refCount;
    }

    /** Drops one reference; the one that reaches 0 deletes the proxy, whose
        destructor releases the reference it holds on the real swap chain. */
    method Release() returns (count: nat)
      requires Valid() && !deleted
      modifies this, original
      ensures Valid()
      ensures count == old(refCount) - 1 && refCount == count
      ensures deleted <==> count == 0
      ensures deviceObtained == old(deviceObtained)
      ensures original != null ==>
        original.refCount == old(original.refCount) - (if count == 0 then 1 else 0)
    {
      refCount := refCount - 1;
      count := refCount;
      if count == 0 {
        deleted := true;
        if original != null {
          original.Release();
        }
      }
    }

    /** The proxy answers for IUnknown and IDXGISwapChain itself; any other
        interface is asked of the real swap chain, whose answer is returned. */
    method QueryInterface(riid: Iid, answer: HResult, answerObject: Handle, j: Journal) returns (hr: HResult, obj: Handle)
      requires Valid() && !deleted && original != null
      modifies this, j
      ensures Valid() && !deleted
      ensures riid == IUnknown || riid == IDXGISwapChain ==>
        hr == S_OK && obj == handle && refCount == old(refCount) + 1 && j.events == old(j.events)
      ensures !(riid == IUnknown || riid == IDXGISwapChain) ==>
        hr == answer && obj == answerObject && refCount == old(refCount)
        && j.events == old(j.events) + [OriginalCall(original.handle, Call.QueryInterface(riid), answer)]
      ensures deviceObtained == old(deviceObtained)
    {
      if riid == IUnknown || riid == IDXGISwapChain {
        var _ := AddRef();
        return S_OK, handle;
      }
      j.Record(OriginalCall(original.handle, Call.QueryInterface(riid), answer));
      hr, obj := answer, answerObject;
    }

    /** Every method other than the three of IUnknown and `Present`: the same
        call on the real swap chain, whose result is returned. */
    method Forward(call: Call, answer: HResult, j: Journal) returns (hr: HResult)
      requires original != null && IsSwapChainForwarded(call)
      modifies j
      ensures hr == answer
      ensures j.events == old(j.events) + [OriginalCall(original.handle, call, answer)]
    {
      j.Record(OriginalCall(original.handle, call, answer));
      hr := answer;
    }

    /** `Present`. `deviceResult` and `device` are what the real `GetDevice`
        answers (the device comes with a reference for the caller),
        `context` what `GetImmediateContext` answers (also with a reference),
        `presentResult` what the real `Present` answers. */
    method Present(syncInterval: nat, flags: nat, hm: D3D11HookManager,
                   deviceResult: HResult, device: ComObject?, context: ComObject?,
                   host: HostAnswers, presentResult: HResult, j: Journal) returns (hr: HResult)
      requires Valid() && !deleted && original != null
      modifies this, hm, hm.overlay, hm.statics, j, device, context
      ensures Valid() && !deleted && refCount == old(refCount)
      ensures hr == presentResult
      ensures var d := DiscoveryStep(old(deviceObtained), old(hm.State()), original.handle,
                                     deviceResult, HandleOf(device), HandleOf(context), host);
        var h := HookedPresentStep(d.1, original.handle, syncInterval, flags, host, presentResult);
        deviceObtained == d.0 && hm.State() == h.0 && j.events == old(j.events) + d.2 + h.1
      ensures device != null ==> device.refCount == old(device.refCount)
      ensures context != null ==> context.refCount == old(context.refCount)
    {
      Discover(hm, deviceResult, device, context, host, j);
      hr := HookedPresent(syncInterval, flags, hm, host, presentResult, j);
    }

    /** The hooks and the real `Present`, in that order. */
    method HookedPresent(syncInterval: nat, flags: nat, hm: D3D11HookManager,
                         host: HostAnswers, presentResult: HResult, j: Journal) returns (hr: HResult)
      requires original != null
      modifies hm, hm.overlay, hm.statics, j
      ensures hr == presentResult
      ensures var r := HookedPresentStep(old(hm.State()), original.handle, syncInterval, flags, host, presentResult);
        hm.State() == r.0 && j.events == old(j.events) + r.1
    {
      hm.OnBeforePresent(original.handle, host, j);
      j.Record(OriginalCall(original.handle, Call.Present(syncInterval, flags), presentResult));
      hr := presentResult;
      hm.OnAfterPresent(j);
    }

    /** The device discovery part of `Present`; every reference it is handed
        it gives back. */
    method Discover(hm: D3D11HookManager, deviceResult: HResult, device: ComObject?, context: ComObject?,
                    host: HostAnswers, j: Journal)
      requires original != null
      modifies this`deviceObtained, hm, hm.overlay, hm.statics, j, device, context
      ensures var r := DiscoveryStep(old(deviceObtained), old(hm.State()), original.handle,
                                     deviceResult, HandleOf(device), HandleOf(context), host);
        deviceObtained == r.0 && hm.State() == r.1 && j.events == old(j.events) + r.2
      ensures device != null ==> device.refCount == old(device.refCount)
      ensures context != null ==> context.refCount == old(context.refCount)
    {
      if deviceObtained {
        return;
      }
      ghost var l0 := hm.State();
      j.Record(OriginalCall(original.handle, GetDevice(ID3D11Device, DEVICE_OUT), deviceResult));
      if !Succeeded(deviceResult) || device == null {
        return;
      }
      device.AddRef();   // the reference GetDevice hands over
      j.Record(GetImmediateContext(device.handle));
      if context != null {
        assert hm.State() == l0;
        HandOver(hm, device, context, host, j);
      }
      device.Release();
    }

    /** A device and its context found: the hook manager is told, the
        reference `GetImmediateContext` handed over is given back, and
        discovery is over. */
    method HandOver(hm: D3D11HookManager, device: ComObject, context: ComObject, host: HostAnswers, j: Journal)
      modifies this`deviceObtained, hm, hm.overlay, hm.statics, j, context
      ensures deviceObtained
      ensures var r := OnDeviceCreatedStep(old(hm.State()), device.handle, context.handle, host);
        hm.State() == r.0 && j.events == old(j.events) + r.1
      ensures context.refCount == old(context.refCount)
    {
      context.AddRef();
      hm.OnDeviceCreated(device.handle, context.handle, host, j);
      context.Release();
      deviceObtained := true;
    }
  }

  class FactoryProxy {
    const handle: Handle
    const original: ComObject?
    var refCount: nat
    var deleted: bool

    predicate Valid()
      reads this
    {
      deleted <==> refCount == 0
    }

    constructor (handle: Handle, original: ComObject?)
      modifies original
      ensures Valid() && !deleted
      ensures this.handle == handle && this.original == original && refCount == 1
      ensures original != null ==> original.refCount == old(original.refCount) + 1
    {
      this.handle := handle;
      this.original := original;
      refCount := 1;
      deleted := false;
      new;
      if original != null {
        original.AddRef();
      }
    }

    method AddRef() returns (count: nat)
      requires Valid() && !deleted
      modifies this
      ensures Valid() && !deleted
      ensures refCount == old(refCount) + 1 && count == refCount
    {
      refCount := refCount + 1;
      count := refCount;
    }

    method Release() returns (count: nat)
      requires Valid() && !deleted
      modifies this, original
      ensures Valid()
      ensures count == old(refCount) - 1 && refCount == count
      ensures deleted <==> count == 0
      ensures original != null ==>
        original.refCount == old(original.refCount) - (if count == 0 then 1 else 0)
    {
      refCount := refCount - 1;
      count := refCount;
      if count == 0 {
        deleted := true;
        if original != null {
          original.Release();
        }
      }
    }

    /** The proxy answers for IUnknown and IDXGIFactory itself; any other
        interface is asked of the real factory. */
    method QueryInterface(riid: Iid, answer: HResult, answerObject: Handle, j: Journal) returns (hr: HResult, obj: Handle)
      requires Valid() && !deleted && original != null
      modifies this, j
      ensures Valid() && !deleted
      ensures riid == IUnknown || riid == IDXGIFactory ==>
        hr == S_OK && obj == handle && refCount == old(refCount) + 1 && j.events == old(j.events)
      ensures !(riid == IUnknown || riid == IDXGIFactory) ==>
        hr == answer && obj == answerObject && refCount == old(refCount)
        && j.events == old(j.events) + [OriginalCall(original.handle, Call.QueryInterface(riid), answer)]
    {
      if riid == IUnknown || riid == IDXGIFactory {
        var _ := AddRef();
        return S_OK, handle;
      }
      j.Record(OriginalCall(original.handle, Call.QueryInterface(riid), answer));
      hr, obj := answer, answerObject;
    }

    method Forward(call: Call, answer: HResult, j: Journal) returns (hr: HResult)
      requires original != null && IsFactoryForwarded(call)
      modifies j
      ensures hr == answer
      ensures j.events == old(j.events) + [OriginalCall(original.handle, call, answer)]
    {
      j.Record(OriginalCall(original.handle, call, answer));
      hr := answer;
    }

    /** `CreateSwapChain`: the real factory's result is returned unchanged.
        When it succeeded and a non-null swap chain `produced` was written
        through a non-null out-pointer, the caller receives a new proxy
        `wrapperHandle` around it instead; the reference the real factory
        handed over is kept, so the real swap chain ends up with one more. */
    method CreateSwapChain(device: Handle, desc: Handle, outGiven: bool, answer: HResult,
                           produced: ComObject?, wrapperHandle: Handle, j: Journal)
      returns (hr: HResult, out: Handle, proxy: SwapChainProxy?)
      requires original != null
      modifies j, produced
      ensures hr == answer
      ensures j.events == old(j.events) + [OriginalCall(original.handle, Call.CreateSwapChain(device, desc), answer)]
      ensures var wraps := Succeeded(answer) && outGiven && produced != null;
        (proxy != null <==> wraps)
        && (wraps ==> fresh(proxy) && proxy.original == produced && proxy.refCount == 1 && proxy.Valid()
                      && !proxy.deviceObtained && out == wrapperHandle && produced.refCount == old(produced.refCount) + 1)
        && (!wraps ==> out == (if outGiven then HandleOf(produced) else NULL)
                       && (produced != null ==> produced.refCount == old(produced.refCount)))
    {
      j.Record(OriginalCall(original.handle, Call.CreateSwapChain(device, desc), answer));
      hr := answer;
      out := if outGiven then HandleOf(produced) else NULL;
      proxy := null;
      if Succeeded(answer) && outGiven && produced != null {
        proxy := new SwapChainProxy(wrapperHandle, produced);
        out := wrapperHandle;
      }
    }
  }

  /** `DLL_PROCESS_ATTACH` and friends. */
  datatype Reason = ProcessAttach | ProcessDetach | ThreadAttach | ThreadDetach

  /** The file-level statics of the DXGI proxy: the loaded system library,
      the initialised flag and the three resolved entry points. */
  class DxgiModule {
    var library: Handle
    var initialized: bool
    var createFactory: Handle
    var createFactory1: Handle
    var createFactory2: Handle

    constructor ()
      ensures library == NULL && !initialized
      ensures createFactory == NULL && createFactory1 == NULL && createFactory2 == NULL
    {
      library, initialized := NULL, false;
      createFactory, createFactory1, createFactory2 := NULL, NULL, NULL;
    }

    /** `DllManagement::Initialize`. `loaded` is what `LoadLibraryW` returns
        for the system dxgi.dll, `proc0..2` what `GetProcAddress` returns for
        the three entry points. Every path writes a log line, so afterwards
        the configuration is always loaded. */
    method Initialize(loaded: Handle, proc0: Handle, proc1: Handle, proc2: Handle,
                      hm: D3D11HookManager, file: Option<seq<string>>, j: Journal) returns (ok: bool)
      modifies this, hm, hm.statics, j
      ensures old(initialized) ==> (ok && library == old(library) && initialized
        && createFactory == old(createFactory) && createFactory1 == old(createFactory1)
        && createFactory2 == old(createFactory2) && j.events == old(j.events) && hm.State() == old(hm.State()))
      ensures !old(initialized) ==> (j.events == old(j.events) + [LoadSystemDxgi] && library == loaded
        && (ok <==> loaded != NULL && proc0 != NULL) && initialized == ok
        && hm.statics.configLoaded
        && (loaded != NULL ==> createFactory == proc0 && createFactory1 == proc1 && createFactory2 == proc2)
        && (ok ==> hm.Hook() == HookInitialize(old(hm.State()), file).hook && hm.overlay.State() == old(hm.overlay.State()))
        && (!ok ==> hm.Hook() == old(hm.Hook()) && hm.overlay.State() == old(hm.overlay.State())))
    {
      if initialized {
        return true;
      }
      j.Record(LoadSystemDxgi);
      library := loaded;
      if library == NULL {
        hm.statics.Log(file);
        return false;
      }
      createFactory, createFactory1, createFactory2 := proc0, proc1, proc2;
      if createFactory == NULL {
        hm.statics.Log(file);
        return false;
      }
      ok := hm.Initialize(file);
      initialized := true;
      hm.statics.Log(file);
      ok := true;
    }

    /** `DllManagement::Shutdown`: nothing unless initialised; otherwise the
        hook manager is shut down, the library freed and every pointer cleared. */
    method Shutdown(hm: D3D11HookManager, file: Option<seq<string>>, j: Journal)
      modifies this, hm, hm.overlay, hm.statics, j
      ensures !old(initialized) ==> (library == old(library) && !initialized && j.events == old(j.events)
        && hm.State() == old(hm.State()))
      ensures old(initialized) ==>
        var r := HookShutdown(old(hm.State()), file);
        hm.State().hook == r.0.hook && hm.State().overlay == r.0.overlay
        && j.events == old(j.events) + r.1 + (if old(library) != NULL then [FreeLibrary(old(library))] else [])
        && library == NULL && !initialized
        && createFactory == NULL && createFactory1 == NULL && createFactory2 == NULL
    {
      if !initialized {
        return;
      }
      hm.Shutdown(file, j);
      if library != NULL {
        j.Record(FreeLibrary(library));
        library := NULL;
      }
      createFactory, createFactory1, createFactory2 := NULL, NULL, NULL;
      initialized := false;
      hm.statics.Log(file);
    }

    /** The three exported entry points (`version` 0, 1 or 2; only version 2
        takes `flags`). E_FAIL without calling anything when the entry point
        was not resolved, leaving `*ppFactory` (`outBefore`) as it was; otherwise the real function's result, and when it
        produced a factory through a non-null out-pointer, the caller gets
        a proxy around it instead and the reference the real function handed
        over is released, so the real factory's count is unchanged. */
    method CreateFactory(version: nat, flags: nat, riid: Iid, outGiven: bool, outBefore: Handle, answer: HResult,
                         produced: ComObject?, wrapperHandle: Handle, j: Journal)
      returns (hr: HResult, out: Handle, proxy: FactoryProxy?)
      requires version <= 2
      modifies j, produced
      ensures var entry := if version == 0 then createFactory else if version == 1 then createFactory1 else createFactory2;
        var callFlags := if version == 2 then flags else 0;
        var wraps := entry != NULL && Succeeded(answer) && outGiven && produced != null;
        // an unresolved export writes nothing through the out-pointer
        (entry == NULL ==> hr == E_FAIL && out == (if outGiven then outBefore else NULL) && j.events == old(j.events))
        && (entry != NULL ==> hr == answer && j.events == old(j.events) + [OriginalExport(version, callFlags, riid, answer)])
        && (proxy != null <==> wraps)
        && (wraps ==> fresh(proxy) && proxy.original == produced && proxy.refCount == 1 && proxy.Valid()
                      && out == wrapperHandle)
        && (entry != NULL && !wraps ==> out == (if outGiven then HandleOf(produced) else NULL))
        && (produced != null ==> produced.refCount == old(produced.refCount))
    {
      var entry := if version == 0 then createFactory else if version == 1 then createFactory1 else createFactory2;
      proxy := null;
      if entry == NULL {
        return E_FAIL, if outGiven then outBefore else NULL, null;
      }
      j.Record(OriginalExport(version, if version == 2 then flags else 0, riid, answer));
      hr := answer;
      out := if outGiven then HandleOf(produced) else NULL;
      if Succeeded(answer) && outGiven && produced != null {
        proxy := new FactoryProxy(wrapperHandle, produced);
        out := wrapperHandle;
        produced.Release();   // the proxy holds its own reference
      }
    }

    /** `DllMain`: attach initialises and returns its result, detach shuts
        down (restoring the window procedure of an installed input hook);
        every other reason returns TRUE. */
    method DllMain(reason: Reason, loaded: Handle, proc0: Handle, proc1: Handle, proc2: Handle,
                   hm: D3D11HookManager, file: Option<seq<string>>, j: Journal) returns (ok: bool)
      modifies this, hm, hm.overlay, hm.statics, j
      ensures reason.ProcessAttach? ==> (ok <==> old(initialized) || (loaded != NULL && proc0 != NULL))
      ensures reason.ProcessAttach? ==> hm.statics.configLoaded || old(initialized)
      ensures reason.ProcessDetach? ==> ok && !initialized
      ensures reason.ProcessDetach? && old(initialized) ==>
        var r := HookShutdown(old(hm.State()), file);
        hm.Hook() == r.0.hook && hm.overlay.State() == r.0.overlay
        && j.events == old(j.events) + r.1 + (if old(library) != NULL then [FreeLibrary(old(library))] else [])
      ensures reason.ProcessDetach? && !old(initialized) ==> j.events == old(j.events) && hm.State() == old(hm.State())
      // unloading with an input hook installed puts the original window procedure back
      ensures reason.ProcessDetach? && old(initialized) && HookWellFormed(old(hm.Hook())) ==>
        && hm.originalWndProc == NULL
        && (old(hm.originalWndProc) != NULL ==>
              |j.events| > |old(j.events)|
              && j.events[|old(j.events)|] == SetWindowProc(old(hm.targetWindow), old(hm.originalWndProc)))
      ensures reason.ThreadAttach? || reason.ThreadDetach? ==>
        ok && initialized == old(initialized) && library == old(library) && j.events == old(j.events)
    {
      match reason {
        case ProcessAttach =>
          ok := Initialize(loaded, proc0, proc1, proc2, hm, file, j);
        case ProcessDetach =>
          if HookWellFormed(hm.Hook()) {
            UnloadRestoresWindowProc(hm.State(), file);
          }
          Shutdown(hm, file, j);
          ok := true;
        case ThreadAttach =>
          ok := true;
        case ThreadDetach =>
          ok := true;
      }
    }
  }
}
