/** The host process as the interception layer sees it: window and object
    handles, HRESULTs, interface identifiers, the reference count of the real
    COM objects, and a journal of every call the layer makes into DXGI, D3D11,
    ImGui or Win32, in the order it makes them. */
module Host {

  /** A pointer or handle value; 0 is the null pointer. */
  type Handle = nat
  const NULL: Handle := 0
  /** The address of an existing object: never null. */
  type Address = h: Handle | h != NULL witness 1

  /** An HRESULT, read as a signed 32-bit value. */
  type HResult = int
  const S_OK: HResult := 0
  /** 0x80004005 as a signed 32-bit value. */
  const E_FAIL: HResult := -0x7FFF_BFFB

  /** `SUCCEEDED(hr)`: the sign bit is clear. */
  predicate Succeeded(hr: HResult) {
    hr >= 0
  }

  /** Interface identifiers the layer tells apart; every other one is `OtherIid`. */
  datatype Iid = IUnknown | IDXGISwapChain | IDXGIFactory | ID3D11Device | OtherIid(id: nat)

  /** A window message as passed to a window procedure. */
  datatype Message = Message(window: Handle, msg: nat, wParam: nat, lParam: nat)

  /** A call on a real DXGI object, with its arguments (pointers as handles). */
  datatype Call =
    | QueryInterface(riid: Iid)
    | Present(syncInterval: nat, flags: nat)
    | GetBuffer(buffer: nat, riid: Iid, surface: Handle)
    | SetFullscreenState(fullscreen: bool, target: Handle)
    | GetFullscreenState(fullscreenOut: Handle, targetOut: Handle)
    | GetDesc(desc: Handle)
    | ResizeBuffers(bufferCount: nat, width: nat, height: nat, format: nat, swapChainFlags: nat)
    | ResizeTarget(parameters: Handle)
    | GetContainingOutput(output: Handle)
    | GetFrameStatistics(stats: Handle)
    | GetLastPresentCount(count: Handle)
    | GetDevice(riid: Iid, device: Handle)
    | CreateSwapChain(device: Handle, desc: Handle)
    | EnumAdapters(adapter: nat, out: Handle)
    | MakeWindowAssociation(window: Handle, flags: nat)
    | GetWindowAssociation(window: Handle)
    | CreateSoftwareAdapter(dll: Handle, out: Handle)
    | SetPrivateData(name: nat, dataSize: nat, data: Handle)
    | SetPrivateDataInterface(name: nat, unknown: Handle)
    | GetPrivateData(name: nat, dataSize: Handle, data: Handle)
    | GetParent(riid: Iid, parent: Handle)

  /** One entry of the journal. */
  datatype Event =
    | OriginalCall(target: Handle, call: Call, result: HResult)
    | OriginalExport(version: nat, flags: nat, riid: Iid, result: HResult)
    | GetImmediateContext(device: Handle)
    | LoadSystemDxgi
    | FreeLibrary(dll: Handle)
    | ImGuiCreateContext
    | ImGuiWin32Init(window: Handle)
    | ImGuiDx11Init(device: Handle, context: Handle)
    | ImGuiDx11Shutdown
    | ImGuiWin32Shutdown
    | ImGuiDestroyContext
    | ImGuiNewFrame
    | ImGuiRender
    | ImGuiRenderDrawData
    | ImGuiWndProcHandler(message: Message)
    | SetWindowProc(window: Handle, proc: Handle)
    | CallWindowProc(proc: Handle, message: Message)

  /** The calls made so far, oldest first. */
  class Journal {
    var events: seq<Event>

    constructor ()
      ensures events == []
    {
      events := [];
    }

    method Record(e: Event)
      modifies this
      ensures events == old(events) + [e]
    {
      events := events + [e];
    }
  }

  /** A real COM object (swap chain, factory, device or context): its address
      and its reference count. */
  class ComObject {
    const handle: Address
    var refCount: int

    constructor (handle: Address, refCount: int)
      ensures this.handle == handle && this.refCount == refCount
    {
      this.handle := handle;
      this.refCount := refCount;
    }

    method AddRef()
      modifies this
      ensures refCount == old(refCount) + 1
    {
      refCount := refCount + 1;
    }

    method Release()
      modifies this
      ensures refCount == old(refCount) - 1
    {
      refCount := refCount - 1;
    }
  }
}
