/** The core library's global keybind manager: a dictionary from a keybind
    id, packed from the key and its modifier flags, to the action to run,
    each entry registered with the operating system as it is added. Whether
    the process runs on Windows is fixed when the manager is built; whether
    `RegisterHotKey` accepts a hotkey is an oracle. The operating system's
    table of hotkeys is the `os` map. The monitoring thread is reduced to
    the condition its message loop tests and the lookup it makes for one
    `WM_HOTKEY` message; the lock is not modelled. */
module GlobalKeybinds {
  import opened Wrappers
  import opened Text

  /** An `Action` delegate, identified by name. */
  type ActionId = nat

  // ------------------------------------------------------------ key ids

  /** The flag bits of a keybind id: ctrl 1, alt 2, shift 4. */
  function IdFlags(ctrl: bool, alt: bool, shift: bool): (f: int)
    ensures 0 <= f < 8
    ensures ctrl <==> f % 2 == 1
    ensures alt <==> f / 2 % 2 == 1
    ensures shift <==> f / 4 == 1
  {
    (if ctrl then 1 else 0) + (if alt then 2 else 0) + (if shift then 4 else 0)
  }

  /** `virtualKey << 16` on a C# `int`: the low 16 bits of the key move to
      the high half and the rest are shifted out. */
  function Shift16(vk: Int32): (r: Int32)
    ensures r % 0x1_0000 == 0
  {
    var low := vk % 0x1_0000;
    if low < 0x8000 then low * 0x1_0000 else (low - 0x1_0000) * 0x1_0000
  }

  /** The shift agrees with unchecked multiplication by 2^16. */
  lemma Shift16Wraps(vk: Int32)
    ensures Shift16(vk) == Wrap32(vk * 0x1_0000)
  {
    var low := vk % 0x1_0000;
    var q := vk / 0x1_0000;
    assert vk * 0x1_0000 == q * 0x1_0000_0000 + low * 0x1_0000;
    ModOfSum(vk * 0x1_0000, q, low * 0x1_0000);
  }

  lemma ModOfSum(a: int, q: int, b: int)
    requires a == q * 0x1_0000_0000 + b && 0 <= b < 0x1_0000_0000
    ensures a % 0x1_0000_0000 == b
  {
  }

  /** `GenerateKeybindId`: the shifted key or-ed with the flag bits, which
      lie below the shifted key's lowest set bit, so or-ing is adding. */
  function KeybindId(vk: Int32, ctrl: bool, alt: bool, shift: bool): (id: Int32)
    ensures id % 0x1_0000 == IdFlags(ctrl, alt, shift)
    ensures id / 0x1_0000 % 0x1_0000 == vk % 0x1_0000
  {
    var s := Shift16(vk);
    var f := IdFlags(ctrl, alt, shift);
    assert (s + f) / 0x1_0000 == s / 0x1_0000;
    s + f
  }

  /** Two keybinds get the same id exactly when their keys agree in the low
      16 bits and their flags agree. */
  lemma KeybindIdCollides(v1: Int32, c1: bool, a1: bool, s1: bool, v2: Int32, c2: bool, a2: bool, s2: bool)
    ensures KeybindId(v1, c1, a1, s1) == KeybindId(v2, c2, a2, s2) <==>
              v1 % 0x1_0000 == v2 % 0x1_0000 && c1 == c2 && a1 == a2 && s1 == s2
  {
    var i1 := KeybindId(v1, c1, a1, s1);
    var i2 := KeybindId(v2, c2, a2, s2);
    if v1 % 0x1_0000 == v2 % 0x1_0000 && c1 == c2 && a1 == a2 && s1 == s2 {
      assert Shift16(v1) == Shift16(v2);
    }
  }

  /** So ids are distinct for keys below 2^15, the range of virtual keys. */
  lemma KeybindIdInjective(v1: Int32, c1: bool, a1: bool, s1: bool, v2: Int32, c2: bool, a2: bool, s2: bool)
    requires 0 <= v1 < 0x8000 && 0 <= v2 < 0x8000
    requires KeybindId(v1, c1, a1, s1) == KeybindId(v2, c2, a2, s2)
    ensures v1 == v2 && c1 == c2 && a1 == a2 && s1 == s2
  {
    KeybindIdCollides(v1, c1, a1, s1, v2, c2, a2, s2);
  }

  /** For such a key the id is the plain `key * 2^16 + flags`. */
  lemma KeybindIdSmall(vk: Int32, ctrl: bool, alt: bool, shift: bool)
    requires 0 <= vk < 0x8000
    ensures KeybindId(vk, ctrl, alt, shift) == vk * 0x1_0000 + IdFlags(ctrl, alt, shift)
    ensures KeybindId(vk, ctrl, alt, shift) >= 0
  {
  }

  const MOD_ALT: int := 0x1
  const MOD_CONTROL: int := 0x2
  const MOD_SHIFT: int := 0x4

  /** `GetModifiers`: the `MOD_*` mask. */
  function Modifiers(ctrl: bool, alt: bool, shift: bool): (m: int)
    ensures 0 <= m < 8
    ensures alt <==> m % 2 == 1
    ensures ctrl <==> m / 2 % 2 == 1
    ensures shift <==> m / 4 == 1
  {
    (if ctrl then MOD_CONTROL else 0) + (if alt then MOD_ALT else 0) + (if shift then MOD_SHIFT else 0)
  }

  /** The id's flag bits and the system's mask differ: they are the same
      layout with ctrl and alt swapped, and agree only when those two agree. */
  lemma FlagLayouts(vk: Int32, ctrl: bool, alt: bool, shift: bool)
    ensures KeybindId(vk, ctrl, alt, shift) % 0x1_0000 == Modifiers(alt, ctrl, shift)
    ensures KeybindId(vk, ctrl, alt, shift) % 0x1_0000 == Modifiers(ctrl, alt, shift) <==> ctrl == alt
  {
  }

  // --------------------------------------------------------------- state

  /** What `RegisterHotKey` is given besides the id: the mask and
      `(uint)virtualKey`. */
  datatype Hotkey = Hotkey(modifiers: int, virtualKey: int)

  function HotkeyOf(vk: Int32, ctrl: bool, alt: bool, shift: bool): Hotkey {
    Hotkey(Modifiers(ctrl, alt, shift), vk % 0x1_0000_0000)
  }

  /** The dictionary, the monitoring flag, whether the cancellation token has
      been cancelled, and the system's hotkeys. */
  datatype State = State(
    registered: map<Int32, ActionId>,
    monitoring: bool,
    cancelled: bool,
    os: map<Int32, Hotkey>)

  const INITIAL: State := State(map[], false, false, map[])

  /** Every hotkey the system holds belongs to a registered keybind, and
      nothing is ever registered or monitored off Windows. */
  predicate Valid(st: State, isWindows: bool) {
    && st.os.Keys <= st.registered.Keys
    && (!isWindows ==> st.registered == map[] && st.os == map[] && !st.monitoring)
  }

  lemma InitialValid(isWindows: bool)
    ensures Valid(INITIAL, isWindows)
  {
  }

  /** `RegisterKeybind`: refused off Windows and for a combination already
      present; otherwise the action is stored first and the result is what
      the system answers, the action staying whatever the answer. */
  function Register(st: State, isWindows: bool, vk: Int32, ctrl: bool, alt: bool, shift: bool,
                    action: ActionId, accepted: bool): (State, bool)
  {
    var id := KeybindId(vk, ctrl, alt, shift);
    if !isWindows || id in st.registered then (st, false)
    else
      var s1 := st.(registered := st.registered[id := action]);
      if accepted then (s1.(os := s1.os[id := HotkeyOf(vk, ctrl, alt, shift)]), true) else (s1, false)
  }

  /** `StartMonitoring`: nothing while monitoring or off Windows; otherwise
      the flag is set and the thread started. The token is not renewed. */
  function Start(st: State, isWindows: bool): State {
    if st.monitoring || !isWindows then st else st.(monitoring := true)
  }

  /** `StopMonitoring`: nothing unless monitoring; otherwise the flag is
      cleared, the token cancelled and, on Windows, every keybind
      unregistered from the system and the dictionary cleared. */
  function Stop(st: State, isWindows: bool): State {
    if !st.monitoring then st
    else if isWindows then State(map[], false, true, st.os - st.registered.Keys)
    else st.(monitoring := false, cancelled := true)
  }

  /** The condition the monitoring thread's message loop runs under. */
  predicate Listening(st: State) {
    st.monitoring && !st.cancelled
  }

  /** The action one `WM_HOTKEY` message with id `id` runs, if any. */
  function HotkeyAction(st: State, id: int): (r: Option<ActionId>)
    ensures r.Some? <==> id in st.registered
    ensures r.Some? ==> r.value == st.registered[id]
  {
    if id in st.registered then Some(st.registered[id]) else None
  }

  // ---------------------------------------------------------- properties

  /** Registration succeeds exactly on Windows, for a new combination, when
      the system accepts it. A new combination on Windows is stored whatever
      the system answers; a refused one leaves the state as it was. */
  lemma RegisterEffect(st: State, isWindows: bool, vk: Int32, ctrl: bool, alt: bool, shift: bool,
                       action: ActionId, accepted: bool)
    ensures var (r, ok) := Register(st, isWindows, vk, ctrl, alt, shift, action, accepted);
      var id := KeybindId(vk, ctrl, alt, shift);
      && (ok <==> isWindows && id !in st.registered && accepted)
      && (!isWindows || id in st.registered ==> r == st)
      && (isWindows && id !in st.registered ==>
            && r.registered == st.registered[id := action]
            && r.monitoring == st.monitoring && r.cancelled == st.cancelled
            && r.os == if accepted then st.os[id := HotkeyOf(vk, ctrl, alt, shift)] else st.os)
  {
  }

  lemma RegisterValid(st: State, isWindows: bool, vk: Int32, ctrl: bool, alt: bool, shift: bool,
                      action: ActionId, accepted: bool)
    requires Valid(st, isWindows)
    ensures Valid(Register(st, isWindows, vk, ctrl, alt, shift, action, accepted).0, isWindows)
  {
  }

  /** A registered keybind's hotkey message runs its action. */
  lemma RegisteredRuns(st: State, isWindows: bool, vk: Int32, ctrl: bool, alt: bool, shift: bool,
                       action: ActionId, accepted: bool)
    requires isWindows && KeybindId(vk, ctrl, alt, shift) !in st.registered
    ensures HotkeyAction(Register(st, isWindows, vk, ctrl, alt, shift, action, accepted).0,
                         KeybindId(vk, ctrl, alt, shift)) == Some(action)
  {
  }

  /** Starting twice is starting once; starting keeps every keybind. */
  lemma StartIdempotent(st: State, isWindows: bool)
    ensures Start(Start(st, isWindows), isWindows) == Start(st, isWindows)
    ensures Start(st, isWindows).registered == st.registered && Start(st, isWindows).os == st.os
    ensures Start(st, isWindows).monitoring <==> st.monitoring || isWindows
  {
  }

  lemma StartValid(st: State, isWindows: bool)
    requires Valid(st, isWindows)
    ensures Valid(Start(st, isWindows), isWindows)
  {
  }

  /** Stopping while idle does nothing; stopping while monitoring on Windows
      takes every registered hotkey out of the system and forgets every
      keybind, keeping the system's other hotkeys. */
  lemma StopEffect(st: State, isWindows: bool)
    ensures !st.monitoring ==> Stop(st, isWindows) == st
    ensures st.monitoring ==> !Stop(st, isWindows).monitoring && Stop(st, isWindows).cancelled
    ensures st.monitoring && isWindows ==>
              && Stop(st, isWindows).registered == map[]
              && (forall id :: id in st.registered ==> id !in Stop(st, isWindows).os)
              && (forall id :: id in st.os && id !in st.registered ==>
                    id in Stop(st, isWindows).os && Stop(st, isWindows).os[id] == st.os[id])
  {
  }

  lemma StopIdempotent(st: State, isWindows: bool)
    ensures Stop(Stop(st, isWindows), isWindows) == Stop(st, isWindows)
  {
  }

  lemma StopValid(st: State, isWindows: bool)
    requires Valid(st, isWindows)
    ensures Valid(Stop(st, isWindows), isWindows)
    ensures st.monitoring ==> Stop(st, isWindows).os == map[]
  {
    if st.monitoring && isWindows {
      assert (st.os - st.registered.Keys).Keys == {};
    }
  }

  /** A first start on Windows leaves the message loop running, but once
      stopped the token stays cancelled, so a later start sets the flag
      while the new thread's loop exits at once. */
  lemma RestartNeverListens(st: State)
    requires st.monitoring
    ensures Listening(Start(INITIAL, true))
    ensures var again := Start(Stop(st, true), true); again.monitoring && !Listening(again)
  {
  }

  // ------------------------------------------------------ default keybinds

  const VK_L: Int32 := 0x4C
  const VK_P: Int32 := 0x50
  const VK_ESCAPE: Int32 := 0x1B

  /** `RegisterDefaultKeybinds`: off Windows nothing; otherwise Ctrl+L,
      Ctrl+P and Ctrl+Shift+Esc, each only when its action is given. */
  function RegisterDefaults(st: State, isWindows: bool, toggleLoader: Option<ActionId>,
                            toggleProjection: Option<ActionId>, closeProjection: Option<ActionId>,
                            accepts: int -> bool): State
  {
    if !isWindows then st
    else
      var s1 := if toggleLoader.Some? then Register(st, true, VK_L, true, false, false, toggleLoader.value, accepts(KeybindId(VK_L, true, false, false))).0 else st;
      var s2 := if toggleProjection.Some? then Register(s1, true, VK_P, true, false, false, toggleProjection.value, accepts(KeybindId(VK_P, true, false, false))).0 else s1;
      if closeProjection.Some? then Register(s2, true, VK_ESCAPE, true, false, true, closeProjection.value, accepts(KeybindId(VK_ESCAPE, true, false, true))).0 else s2
  }

  const ID_CTRL_L: int := 0x4C_0001
  const ID_CTRL_P: int := 0x50_0001
  const ID_CTRL_SHIFT_ESCAPE: int := 0x1B_0005

  /** One default registration on Windows: an absent action changes
      nothing, a given one is stored under a fresh id. */
  lemma DefaultStep(st: State, vk: Int32, ctrl: bool, shift: bool, action: Option<ActionId>, accepted: bool)
    requires KeybindId(vk, ctrl, false, shift) !in st.registered
    ensures var r := if action.Some? then Register(st, true, vk, ctrl, false, shift, action.value, accepted).0 else st;
      r.registered == if action.Some? then st.registered[KeybindId(vk, ctrl, false, shift) := action.value] else st.registered
  {
  }

  /** On a manager holding none of the three ids, exactly the given actions
      end up registered under their combinations' ids. */
  lemma DefaultsRegistered(st: State, toggleLoader: Option<ActionId>,
                           toggleProjection: Option<ActionId>, closeProjection: Option<ActionId>,
                           accepts: int -> bool)
    requires ID_CTRL_L !in st.registered && ID_CTRL_P !in st.registered && ID_CTRL_SHIFT_ESCAPE !in st.registered
    ensures var r := RegisterDefaults(st, true, toggleLoader, toggleProjection, closeProjection, accepts);
      var m1 := if toggleLoader.Some? then st.registered[ID_CTRL_L := toggleLoader.value] else st.registered;
      var m2 := if toggleProjection.Some? then m1[ID_CTRL_P := toggleProjection.value] else m1;
      r.registered == if closeProjection.Some? then m2[ID_CTRL_SHIFT_ESCAPE := closeProjection.value] else m2
  {
    KeybindIdSmall(VK_L, true, false, false);
    KeybindIdSmall(VK_P, true, false, false);
    KeybindIdSmall(VK_ESCAPE, true, false, true);
    var s1 := if toggleLoader.Some? then Register(st, true, VK_L, true, false, false, toggleLoader.value, accepts(ID_CTRL_L)).0 else st;
    DefaultStep(st, VK_L, true, false, toggleLoader, accepts(ID_CTRL_L));
    var s2 := if toggleProjection.Some? then Register(s1, true, VK_P, true, false, false, toggleProjection.value, accepts(ID_CTRL_P)).0 else s1;
    DefaultStep(s1, VK_P, true, false, toggleProjection, accepts(ID_CTRL_P));
    DefaultStep(s2, VK_ESCAPE, true, true, closeProjection, accepts(ID_CTRL_SHIFT_ESCAPE));
  }

  /** Off Windows the defaults change nothing. */
  lemma DefaultsOffWindows(st: State, toggleLoader: Option<ActionId>,
                           toggleProjection: Option<ActionId>, closeProjection: Option<ActionId>,
                           accepts: int -> bool)
    ensures RegisterDefaults(st, false, toggleLoader, toggleProjection, closeProjection, accepts) == st
  {
  }

  // --------------------------------------------------------------- class

  class GlobalKeybindManager {
    /** `OperatingSystem.IsWindows()`, fixed for the process. */
    const isWindows: bool
    var registered: map<Int32, ActionId>
    var monitoring: bool
    var cancelled: bool
    var os: map<Int32, Hotkey>
    var disposed: bool

    function Snapshot(): State
      reads this
    {
      State(registered, monitoring, cancelled, os)
    }

    constructor (isWindows: bool)
      ensures this.isWindows == isWindows && Snapshot() == INITIAL && !disposed
    {
      this.isWindows := isWindows;
      registered, monitoring, cancelled, os := map[], false, false, map[];
      disposed := false;
    }

    method RegisterKeybind(vk: Int32, ctrl: bool, alt: bool, shift: bool, description: string,
                           action: ActionId, accepted: bool) returns (ok: bool)
      modifies this`registered, this`os
      ensures (Snapshot(), ok) == Register(old(Snapshot()), isWindows, vk, ctrl, alt, shift, action, accepted)
    {
      if !isWindows {
        return false;
      }
      var id := KeybindId(vk, ctrl, alt, shift);
      if id in registered {
        return false;
      }
      registered := registered[id := action];
      // RegisterHotKey(IntPtr.Zero, id, GetModifiers(...), (uint)vk)
      if accepted {
        os := os[id := HotkeyOf(vk, ctrl, alt, shift)];
      }
      ok := accepted;
    }

    method StartMonitoring()
      modifies this`monitoring
      ensures Snapshot() == Start(old(Snapshot()), isWindows)
    {
      if monitoring || !isWindows {
        return;
      }
      monitoring := true;
    }

    method StopMonitoring()
      modifies this`monitoring, this`cancelled, this`registered, this`os
      ensures Snapshot() == Stop(old(Snapshot()), isWindows)
    {
      if !monitoring {
        return;
      }
      monitoring := false;
      cancelled := true;
      if isWindows {
        var remaining := registered.Keys;
        while remaining != {}
          invariant remaining <= registered.Keys
          invariant os == old(os) - (registered.Keys - remaining)
          invariant registered == old(registered) && !monitoring && cancelled
          decreases |remaining|
        {
          var id: Int32 :| id in remaining;
          // UnregisterHotKey(IntPtr.Zero, id)
          os := os - {id};
          assert os == old(os) - (registered.Keys - (remaining - {id}));
          remaining := remaining - {id};
        }
        assert registered.Keys - remaining == registered.Keys;
        registered := map[];
      }
    }

    /** The lookup the monitoring loop makes for one hotkey message. */
    method HandleHotkeyMessage(id: int) returns (action: Option<ActionId>)
      ensures action == HotkeyAction(Snapshot(), id)
    {
      if id in registered {
        action := Some(registered[id]);
      } else {
        action := None;
      }
    }

    /** `Dispose`: stops monitoring, then releases the token. */
    method Dispose()
      modifies this`monitoring, this`cancelled, this`registered, this`os, this`disposed
      ensures Snapshot() == Stop(old(Snapshot()), isWindows) && disposed
    {
      StopMonitoring();
      disposed := true;
    }
  }

  /** `DefaultKeybinds.RegisterDefaultKeybinds`; the console output is not
      modelled. */
  method RegisterDefaultKeybinds(manager: GlobalKeybindManager, toggleLoader: Option<ActionId>,
                                 toggleProjection: Option<ActionId>, closeProjection: Option<ActionId>,
                                 accepts: int -> bool)
    modifies manager`registered, manager`os
    ensures manager.Snapshot() == RegisterDefaults(old(manager.Snapshot()), manager.isWindows,
                                                   toggleLoader, toggleProjection, closeProjection, accepts)
  {
    if !manager.isWindows {
      return;
    }
    if toggleLoader.Some? {
      var _ := manager.RegisterKeybind(VK_L, true, false, false, "Ctrl+L - Toggle Loader",
                                       toggleLoader.value, accepts(KeybindId(VK_L, true, false, false)));
    }
    if toggleProjection.Some? {
      var _ := manager.RegisterKeybind(VK_P, true, false, false, "Ctrl+P - Toggle Projection",
                                       toggleProjection.value, accepts(KeybindId(VK_P, true, false, false)));
    }
    if closeProjection.Some? {
      var _ := manager.RegisterKeybind(VK_ESCAPE, true, false, true, "Ctrl+Shift+Esc - Close Projection",
                                       closeProjection.value, accepts(KeybindId(VK_ESCAPE, true, false, true)));
    }
  }
}
