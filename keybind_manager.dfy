/** The native GUI's keybind registry: a map from action name to keybind,
    callback and system hotkey id, kept in key order as `std::map` keeps it.
    While monitoring, every entry is registered with the operating system
    under a fresh id from a counter. Whether `RegisterHotKey` accepts an id
    is an oracle `accepts`; the operating system's own table of hotkeys is
    the `system` map. The message window, the message-loop thread and the
    callbacks' effects are not modelled: a callback is an identity, and
    `HandleHotkey` returns the one it would invoke. */
module NativeKeybinds {
  import opened Wrappers
  import opened Text

  datatype KeyBind = KeyBind(virtualKey: Int32, ctrl: bool, alt: bool, shift: bool, description: string)

  /** A value-initialised `KeyBind{}`. */
  const NO_KEYBIND: KeyBind := KeyBind(0, false, false, false, "")

  /** A non-empty `std::function`, identified by name. */
  type CallbackId = nat

  /** `RegisteredKeybind`: an id of 0 means "not registered with the system". */
  datatype Entry = Entry(keybind: KeyBind, callback: Option<CallbackId>, hotkeyId: int)

  // ------------------------------------------------------------ key order

  /** `std::string` ordering: lexicographic by character, a proper prefix first. */
  predicate StrLess(a: string, b: string) {
    if a == [] then b != []
    else b != [] && (a[0] < b[0] || (a[0] == b[0] && StrLess(a[1..], b[1..])))
  }

  lemma {:induction false} StrLessIrreflexive(a: string)
    ensures !StrLess(a, a)
  {
    if a != [] {
      StrLessIrreflexive(a[1..]);
    }
  }

  lemma {:induction false} StrLessTransitive(a: string, b: string, c: string)
    requires StrLess(a, b) && StrLess(b, c)
    ensures StrLess(a, c)
  {
    if a != [] && a[0] == b[0] && b[0] == c[0] {
      StrLessTransitive(a[1..], b[1..], c[1..]);
    }
  }

  lemma {:induction false} StrLessTotal(a: string, b: string)
    requires a != b
    ensures StrLess(a, b) || StrLess(b, a)
  {
    if a != [] && b != [] && a[0] == b[0] {
      assert a == [a[0]] + a[1..] && b == [b[0]] + b[1..];
      StrLessTotal(a[1..], b[1..]);
    }
  }

  /** `m` is the first of `s` in key order. */
  predicate IsLeast(m: string, s: set<string>) {
    m in s && forall x :: x in s ==> !StrLess(x, m)
  }

  lemma LeastOfTwo(x: string, m: string, t: set<string>)
    requires IsLeast(m, t)
    ensures IsLeast(if StrLess(x, m) then x else m, t + {x})
  {
    if StrLess(x, m) {
      StrLessIrreflexive(x);
      forall y | y in t + {x}
        ensures !StrLess(y, x)
      {
        if y != x && StrLess(y, x) {
          StrLessTransitive(y, x, m);
        }
      }
    }
  }

  lemma LeastUnique(a: string, b: string, s: set<string>)
    requires IsLeast(a, s) && IsLeast(b, s)
    ensures a == b
  {
    if a != b {
      StrLessTotal(a, b);
    }
  }

  ghost function MinOf(s: set<string>): (m: string)
    requires s != {}
    ensures IsLeast(m, s)
  {
    var x :| x in s;
    StrLessIrreflexive(x);
    if s == {x} then x
    else
      var m := MinOf(s - {x});
      LeastOfTwo(x, m, s - {x});
      assert s - {x} + {x} == s;
      if StrLess(x, m) then x else m
  }

  /** The order in which a `std::map` with key set `s` is traversed. */
  ghost function SortedKeys(s: set<string>): (r: seq<string>)
    ensures |r| == |s|
    ensures forall n :: n in r <==> n in s
    decreases |s|
  {
    if s == {} then [] else [MinOf(s)] + SortedKeys(s - {MinOf(s)})
  }

  /** Every key of `r` comes strictly before every later one. */
  predicate Ascending(r: seq<string>) {
    forall i, j :: 0 <= i < j < |r| ==> StrLess(r[i], r[j])
  }

  lemma ConsAscending(m: string, t: seq<string>)
    requires Ascending(t)
    requires forall k :: 0 <= k < |t| ==> StrLess(m, t[k])
    ensures Ascending([m] + t)
  {
    var r := [m] + t;
    forall i, j | 0 <= i < j < |r|
      ensures StrLess(r[i], r[j])
    {
      assert r[j] == t[j - 1];
      if i > 0 {
        assert r[i] == t[i - 1];
      }
    }
  }

  /** The traversal visits exactly the keys in ascending order. */
  lemma {:induction false} SortedKeysSpec(s: set<string>)
    ensures forall n :: n in SortedKeys(s) <==> n in s
    ensures Ascending(SortedKeys(s))
    decreases |s|
  {
    if s != {} {
      var m := MinOf(s);
      var t := SortedKeys(s - {m});
      SortedKeysSpec(s - {m});
      forall k | 0 <= k < |t|
        ensures StrLess(m, t[k])
      {
        assert t[k] in s - {m};
        StrLessTotal(m, t[k]);
      }
      ConsAscending(m, t);
    }
  }

  /** Ascending order has no repeated key. */
  lemma SortedKeysDistinct(s: set<string>)
    ensures forall n :: n in SortedKeys(s) <==> n in s
    ensures forall i, j :: 0 <= i < j < |SortedKeys(s)| ==> SortedKeys(s)[i] != SortedKeys(s)[j]
  {
    SortedKeysSpec(s);
    var r := SortedKeys(s);
    forall i, j | 0 <= i < j < |r|
      ensures r[i] != r[j]
    {
      StrLessIrreflexive(r[i]);
    }
  }

  /** The key traversal starts at the least key and goes on with the rest. */
  lemma SortedKeysStep(s: set<string>, m: string)
    requires IsLeast(m, s)
    ensures SortedKeys(s) == [m] + SortedKeys(s - {m})
  {
    LeastUnique(m, MinOf(s), s);
  }

  // ------------------------------------------------------ system hotkeys

  const MOD_ALT: int := 0x1
  const MOD_CONTROL: int := 0x2
  const MOD_SHIFT: int := 0x4

  /** What `RegisterHotKey` is called with besides the window and the id. */
  datatype Hotkey = Hotkey(modifiers: int, virtualKey: int)

  /** The `MOD_*` mask of a keybind: the three flags are distinct bits, so
      or-ing them is adding them. */
  function Modifiers(kb: KeyBind): (m: int)
    ensures 0 <= m < 8
    ensures kb.alt <==> m % 2 == 1
    ensures kb.ctrl <==> m / 2 % 2 == 1
    ensures kb.shift <==> m / 4 == 1
  {
    (if kb.ctrl then MOD_CONTROL else 0) + (if kb.alt then MOD_ALT else 0) + (if kb.shift then MOD_SHIFT else 0)
  }

  /** The registry, the monitoring flag, the id counter and the system's table. */
  datatype State = State(
    registry: map<string, Entry>,
    monitoring: bool,
    nextHotkeyId: int,
    system: map<int, Hotkey>)

  const INITIAL: State := State(map[], false, 1, map[])

  /** The id bookkeeping every operation keeps: the counter is positive and
      above every id handed out, each non-zero id of an entry is registered
      with the system, and no two entries share one. */
  predicate IdsValid(st: State) {
    && st.nextHotkeyId >= 1
    && (forall n :: n in st.registry ==> 0 <= st.registry[n].hotkeyId < st.nextHotkeyId)
    && (forall n :: n in st.registry && st.registry[n].hotkeyId != 0 ==> st.registry[n].hotkeyId in st.system)
    && (forall n, m :: n in st.registry && m in st.registry && n != m && st.registry[n].hotkeyId != 0 ==>
          st.registry[n].hotkeyId != st.registry[m].hotkeyId)
    && (forall id :: id in st.system ==> 1 <= id < st.nextHotkeyId)
  }

  /** Every entry is unregistered while the manager is not monitoring. */
  predicate AllIdle(reg: map<string, Entry>) {
    forall n :: n in reg ==> reg[n].hotkeyId == 0
  }

  predicate Valid(st: State) {
    IdsValid(st) && (!st.monitoring ==> AllIdle(st.registry))
  }

  lemma InitialValid()
    ensures Valid(INITIAL)
  {
  }

  /** `RegisterSystemHotkey`: the id is taken from the counter whether or not
      the system accepts it; only an accepted id is stored. `operator[]`
      would insert a default entry for an absent name. */
  function RegisterSystem(st: State, name: string, kb: KeyBind, accepts: int -> bool): (r: State)
    ensures r.nextHotkeyId == st.nextHotkeyId + 1 && r.monitoring == st.monitoring
    ensures name in st.registry ==> r.registry.Keys == st.registry.Keys
    ensures forall n :: n in st.registry && n != name ==> n in r.registry && r.registry[n] == st.registry[n]
    ensures name in st.registry ==>
              r.registry[name] == st.registry[name].(hotkeyId :=
                if accepts(st.nextHotkeyId) then st.nextHotkeyId else st.registry[name].hotkeyId)
    ensures r.system == if accepts(st.nextHotkeyId) then st.system[st.nextHotkeyId := Hotkey(Modifiers(kb), kb.virtualKey)]
                        else st.system
  {
    var id := st.nextHotkeyId;
    if accepts(id) then
      var e := if name in st.registry then st.registry[name] else Entry(NO_KEYBIND, None, 0);
      State(st.registry[name := e.(hotkeyId := id)], st.monitoring, id + 1,
            st.system[id := Hotkey(Modifiers(kb), kb.virtualKey)])
    else st.(nextHotkeyId := id + 1)
  }

  /** `UnregisterSystemHotkey`: a registered entry is removed from the system
      and its id reset to 0. */
  function UnregisterSystem(st: State, name: string): (r: State)
    ensures r.nextHotkeyId == st.nextHotkeyId && r.monitoring == st.monitoring
    ensures r.registry.Keys == st.registry.Keys
    ensures forall n :: n in st.registry && n != name ==> r.registry[n] == st.registry[n]
    ensures name in st.registry ==> r.registry[name] == st.registry[name].(hotkeyId := 0)
    ensures r.system == if name in st.registry && st.registry[name].hotkeyId != 0
                        then st.system - {st.registry[name].hotkeyId} else st.system
  {
    if name in st.registry && st.registry[name].hotkeyId != 0 then
      State(st.registry[name := st.registry[name].(hotkeyId := 0)], st.monitoring, st.nextHotkeyId,
            st.system - {st.registry[name].hotkeyId})
    else st
  }

  lemma RegisterSystemValid(st: State, name: string, kb: KeyBind, accepts: int -> bool)
    requires IdsValid(st)
    ensures IdsValid(RegisterSystem(st, name, kb, accepts))
  {
  }

  lemma UnregisterSystemValid(st: State, name: string)
    requires IdsValid(st)
    ensures IdsValid(UnregisterSystem(st, name))
  {
  }

  // --------------------------------------------------- registry operations

  /** `RegisterKeybind`: the entry is (re)placed with id 0, and registered
      with the system at once while monitoring. */
  function Register(st: State, name: string, kb: KeyBind, callback: Option<CallbackId>, accepts: int -> bool): (r: State)
  {
    var s1 := st.(registry := st.registry[name := Entry(kb, callback, 0)]);
    if st.monitoring then RegisterSystem(s1, name, kb, accepts) else s1
  }

  /** `UpdateKeybind`: an absent action is ignored; otherwise the keybind is
      replaced, the callback kept, and the system registration redone while
      monitoring. */
  function Update(st: State, name: string, kb: KeyBind, accepts: int -> bool): (r: State)
    ensures r.registry.Keys == st.registry.Keys && r.monitoring == st.monitoring
  {
    if name !in st.registry then st
    else
      var s1 := if st.monitoring then UnregisterSystem(st, name) else st;
      var s2 := s1.(registry := s1.registry[name := s1.registry[name].(keybind := kb)]);
      if st.monitoring then RegisterSystem(s2, name, kb, accepts) else s2
  }

  /** `RemoveKeybind`: unregistered first while monitoring, then erased. */
  function Remove(st: State, name: string): (r: State)
  {
    var s1 := if st.monitoring then UnregisterSystem(st, name) else st;
    s1.(registry := s1.registry - {name})
  }

  /** `GetKeybind`: the stored keybind, or a value-initialised one. */
  function KeybindOf(st: State, name: string): KeyBind {
    if name in st.registry then st.registry[name].keybind else NO_KEYBIND
  }

  /** `GetAllKeybinds`: the keybind of every action. */
  function KeybindsOf(reg: map<string, Entry>): (r: map<string, KeyBind>)
    ensures r.Keys == reg.Keys
    ensures forall n :: n in reg ==> r[n] == reg[n].keybind
  {
    var r := map n | n in reg :: reg[n].keybind;
    assert r.Keys == reg.Keys;
    r
  }

  /** Registration, in order, of each of `names` with the keybind it has. */
  function RegisterAll(st: State, names: seq<string>, accepts: int -> bool): (r: State)
    requires forall n :: n in names ==> n in st.registry
    ensures r.registry.Keys == st.registry.Keys && r.monitoring == st.monitoring
    ensures r.nextHotkeyId == st.nextHotkeyId + |names|
    decreases |names|
  {
    if names == [] then st
    else
      var s1 := RegisterSystem(st, names[0], st.registry[names[0]].keybind, accepts);
      assert forall n :: n in names[1..] ==> n in names;
      RegisterAll(s1, names[1..], accepts)
  }

  function UnregisterAll(st: State, names: seq<string>): (r: State)
    ensures r.registry.Keys == st.registry.Keys && r.monitoring == st.monitoring
    decreases |names|
  {
    if names == [] then st else UnregisterAll(UnregisterSystem(st, names[0]), names[1..])
  }

  /** `StartMonitoring`: no-op while monitoring; otherwise every action is
      registered with the system in key order. */
  ghost function Started(st: State, accepts: int -> bool): State {
    if st.monitoring then st
    else
      RegisterAll(st.(monitoring := true), SortedKeys(st.registry.Keys), accepts)
  }

  /** `StopMonitoring`: no-op unless monitoring; otherwise every action is
      unregistered in key order. */
  ghost function Stopped(st: State): State {
    if !st.monitoring then st
    else UnregisterAll(st.(monitoring := false), SortedKeys(st.registry.Keys))
  }

  /** `HandleHotkey`: the callback of the first action, in the order given,
      whose id matches and that has a callback. */
  function FirstHandler(reg: map<string, Entry>, names: seq<string>, id: int): (r: Option<CallbackId>)
    requires forall n :: n in names ==> n in reg
    ensures r.Some? <==> exists k :: 0 <= k < |names| && reg[names[k]].hotkeyId == id && reg[names[k]].callback.Some?
    ensures r.Some? ==> exists k :: 0 <= k < |names| && reg[names[k]].hotkeyId == id && reg[names[k]].callback == r
    decreases |names|
  {
    if names == [] then None
    else if reg[names[0]].hotkeyId == id && reg[names[0]].callback.Some? then reg[names[0]].callback
    else
      var rest := names[1..];
      assert forall k :: 0 <= k < |rest| ==> rest[k] == names[k + 1];
      assert forall n :: n in rest ==> n in names;
      var r := FirstHandler(reg, rest, id);
      assert forall k :: 0 < k < |names| ==> names[k] == rest[k - 1];
      r
  }

  // ------------------------------------------------- what the operations do

  /** `RegisterKeybind` (re)places exactly one entry: the keybind and callback
      given, with id 0 unless the system accepted a fresh one while monitoring. */
  lemma RegisterEffect(st: State, name: string, kb: KeyBind, callback: Option<CallbackId>, accepts: int -> bool)
    ensures var r := Register(st, name, kb, callback, accepts);
      && r.registry.Keys == st.registry.Keys + {name}
      && r.registry[name].keybind == kb && r.registry[name].callback == callback
      && (forall n :: n in st.registry && n != name ==> r.registry[n] == st.registry[n])
      && r.monitoring == st.monitoring
      && (!st.monitoring ==> r.registry[name].hotkeyId == 0 && r.nextHotkeyId == st.nextHotkeyId && r.system == st.system)
      && (st.monitoring ==> r.nextHotkeyId == st.nextHotkeyId + 1)
      && (st.monitoring ==> r.registry[name].hotkeyId == (if accepts(st.nextHotkeyId) then st.nextHotkeyId else 0))
  {
  }

  lemma RegisterValid(st: State, name: string, kb: KeyBind, callback: Option<CallbackId>, accepts: int -> bool)
    requires Valid(st)
    ensures Valid(Register(st, name, kb, callback, accepts))
  {
    var s1 := st.(registry := st.registry[name := Entry(kb, callback, 0)]);
    assert IdsValid(s1);
    if st.monitoring {
      RegisterSystemValid(s1, name, kb, accepts);
    }
  }

  /** Registering over an action that holds a system hotkey does not
      unregister it: the old id stays in the system with no entry left to
      answer it. */
  lemma RegisterOverActiveOrphans(st: State, name: string, kb: KeyBind, callback: Option<CallbackId>, accepts: int -> bool)
    requires Valid(st) && st.monitoring && name in st.registry && st.registry[name].hotkeyId != 0
    ensures var r := Register(st, name, kb, callback, accepts);
      var stale := st.registry[name].hotkeyId;
      stale in r.system && forall n :: n in r.registry ==> r.registry[n].hotkeyId != stale
  {
    RegisterEffect(st, name, kb, callback, accepts);
  }

  /** `UpdateKeybind` changes only the keybind of an existing action and
      keeps its callback; an absent action changes nothing. */
  lemma UpdateEffect(st: State, name: string, kb: KeyBind, accepts: int -> bool)
    requires Valid(st)
    ensures name !in st.registry ==> Update(st, name, kb, accepts) == st
    ensures name in st.registry ==> var r := Update(st, name, kb, accepts);
      && r.registry.Keys == st.registry.Keys
      && r.registry[name].keybind == kb && r.registry[name].callback == st.registry[name].callback
      && (forall n :: n in st.registry && n != name ==> r.registry[n] == st.registry[n])
      && (!st.monitoring ==> r.registry[name].hotkeyId == 0 && r.nextHotkeyId == st.nextHotkeyId && r.system == st.system)
      && (st.monitoring ==> r.nextHotkeyId == st.nextHotkeyId + 1)
      && (st.monitoring ==> r.registry[name].hotkeyId == (if accepts(st.nextHotkeyId) then st.nextHotkeyId else 0))
      && (st.monitoring && st.registry[name].hotkeyId != 0 ==> st.registry[name].hotkeyId !in r.system)
  {
  }

  lemma UpdateValid(st: State, name: string, kb: KeyBind, accepts: int -> bool)
    requires Valid(st)
    ensures Valid(Update(st, name, kb, accepts))
  {
    if name in st.registry {
      var s1 := if st.monitoring then UnregisterSystem(st, name) else st;
      if st.monitoring {
        UnregisterSystemValid(st, name);
      }
      var s2 := s1.(registry := s1.registry[name := s1.registry[name].(keybind := kb)]);
      assert IdsValid(s2);
      if st.monitoring {
        RegisterSystemValid(s2, name, kb, accepts);
      }
    }
  }

  /** `RemoveKeybind` erases only that action, and its system hotkey with it. */
  lemma RemoveEffect(st: State, name: string)
    requires Valid(st)
    ensures var r := Remove(st, name);
      && r.registry == st.registry - {name}
      && r.monitoring == st.monitoring && r.nextHotkeyId == st.nextHotkeyId
      && (name in st.registry && st.registry[name].hotkeyId != 0 ==>
            r.system == st.system - {st.registry[name].hotkeyId})
      && (name !in st.registry || st.registry[name].hotkeyId == 0 ==> r.system == st.system)
  {
    var s1 := if st.monitoring then UnregisterSystem(st, name) else st;
    assert s1.registry - {name} == st.registry - {name};
  }

  lemma RemoveValid(st: State, name: string)
    requires Valid(st)
    ensures Valid(Remove(st, name))
  {
    if st.monitoring {
      UnregisterSystemValid(st, name);
    }
  }

  /** `GetKeybind` after `RegisterKeybind` or `UpdateKeybind` gives the new keybind. */
  lemma GetAfterSet(st: State, name: string, kb: KeyBind, callback: Option<CallbackId>, accepts: int -> bool)
    requires Valid(st)
    ensures KeybindOf(Register(st, name, kb, callback, accepts), name) == kb
    ensures name in st.registry ==> KeybindOf(Update(st, name, kb, accepts), name) == kb
    ensures name !in st.registry ==> KeybindOf(Update(st, name, kb, accepts), name) == NO_KEYBIND
    ensures KeybindOf(Remove(st, name), name) == NO_KEYBIND
  {
    RegisterEffect(st, name, kb, callback, accepts);
    UpdateEffect(st, name, kb, accepts);
  }

  /** Registering `names` in order hands out consecutive ids, one per name
      whether or not the system accepts it. */
  lemma {:induction false} RegisterAllAssigns(st: State, names: seq<string>, accepts: int -> bool)
    requires forall n :: n in names ==> n in st.registry
    requires forall i, j :: 0 <= i < j < |names| ==> names[i] != names[j]
    ensures var r := RegisterAll(st, names, accepts);
      && (forall i :: 0 <= i < |names| ==>
            r.registry[names[i]] == st.registry[names[i]].(hotkeyId :=
              if accepts(st.nextHotkeyId + i) then st.nextHotkeyId + i else st.registry[names[i]].hotkeyId))
      && (forall n :: n in st.registry && n !in names ==> r.registry[n] == st.registry[n])
    decreases |names|
  {
    if names != [] {
      var s1 := RegisterSystem(st, names[0], st.registry[names[0]].keybind, accepts);
      var rest := names[1..];
      assert forall k :: 0 <= k < |rest| ==> rest[k] == names[k + 1];
      assert forall n :: n in rest ==> n in names;
      RegisterAllAssigns(s1, rest, accepts);
      assert names[0] !in rest;
      var r := RegisterAll(st, names, accepts);
      assert r == RegisterAll(s1, rest, accepts);
      forall i | 0 < i < |names|
        ensures r.registry[names[i]] == st.registry[names[i]].(hotkeyId :=
              if accepts(st.nextHotkeyId + i) then st.nextHotkeyId + i else st.registry[names[i]].hotkeyId)
      {
        assert names[i] == rest[i - 1] && names[i] != names[0];
      }
    }
  }

  lemma {:induction false} RegisterAllValid(st: State, names: seq<string>, accepts: int -> bool)
    requires forall n :: n in names ==> n in st.registry
    requires IdsValid(st)
    ensures IdsValid(RegisterAll(st, names, accepts))
    decreases |names|
  {
    if names != [] {
      var s1 := RegisterSystem(st, names[0], st.registry[names[0]].keybind, accepts);
      RegisterSystemValid(st, names[0], st.registry[names[0]].keybind, accepts);
      assert forall n :: n in names[1..] ==> n in names;
      RegisterAllValid(s1, names[1..], accepts);
    }
  }

  /** Unregistering `names` resets each one's id and takes its hotkey out
      of the system; ids no listed name holds stay. */
  lemma {:induction false} UnregisterAllClears(st: State, names: seq<string>)
    requires forall n :: n in names ==> n in st.registry
    requires forall i, j :: 0 <= i < j < |names| ==> names[i] != names[j]
    ensures var r := UnregisterAll(st, names);
      && r.nextHotkeyId == st.nextHotkeyId && r.monitoring == st.monitoring
      && (forall i :: 0 <= i < |names| ==> r.registry[names[i]] == st.registry[names[i]].(hotkeyId := 0))
      && (forall n :: n in st.registry && n !in names ==> r.registry[n] == st.registry[n])
      && (forall i :: 0 <= i < |names| && st.registry[names[i]].hotkeyId != 0 ==> st.registry[names[i]].hotkeyId !in r.system)
      && (forall id :: id in r.system ==> id in st.system && r.system[id] == st.system[id])
      && (forall id :: id in st.system && (forall n :: n in names ==> st.registry[n].hotkeyId != id) ==> id in r.system)
    decreases |names|
  {
    if names != [] {
      var s1 := UnregisterSystem(st, names[0]);
      var rest := names[1..];
      assert forall k :: 0 <= k < |rest| ==> rest[k] == names[k + 1];
      assert forall n :: n in rest ==> n in names;
      UnregisterAllClears(s1, rest);
      assert names[0] !in rest;
      var r := UnregisterAll(st, names);
      assert r == UnregisterAll(s1, rest);
      forall i | 0 < i < |names|
        ensures r.registry[names[i]] == st.registry[names[i]].(hotkeyId := 0)
        ensures st.registry[names[i]].hotkeyId != 0 ==> st.registry[names[i]].hotkeyId !in r.system
      {
        assert names[i] == rest[i - 1] && names[i] != names[0];
      }
      forall id | id in st.system && (forall n :: n in names ==> st.registry[n].hotkeyId != id)
        ensures id in r.system
      {
        assert forall n :: n in rest ==> s1.registry[n].hotkeyId != id;
      }
    }
  }

  lemma {:induction false} UnregisterAllValid(st: State, names: seq<string>)
    requires IdsValid(st)
    ensures IdsValid(UnregisterAll(st, names))
    decreases |names|
  {
    if names != [] {
      UnregisterSystemValid(st, names[0]);
      UnregisterAllValid(UnregisterSystem(st, names[0]), names[1..]);
    }
  }

  /** `StartMonitoring` while monitoring does nothing; from idle it sets the
      flag, keeps every action and takes one id per action from the counter. */
  lemma StartKeepsActions(st: State, accepts: int -> bool)
    ensures st.monitoring ==> Started(st, accepts) == st
    ensures !st.monitoring ==> var r := Started(st, accepts);
      && r.monitoring && r.registry.Keys == st.registry.Keys
      && r.nextHotkeyId == st.nextHotkeyId + |st.registry|
  {
    if !st.monitoring {
      var s0 := st.(monitoring := true);
      SortedKeysDistinct(st.registry.Keys);
      RegisterAllAssigns(s0, SortedKeys(st.registry.Keys), accepts);
    }
  }

  /** `StartMonitoring` from idle registers every action in key order: the
      i-th gets id `next + i` if the system accepts it, and keeps 0 otherwise;
      keybinds and callbacks are untouched. */
  lemma StartAssigns(st: State, accepts: int -> bool)
    requires !st.monitoring && AllIdle(st.registry)
    ensures var r := Started(st, accepts); var order := SortedKeys(st.registry.Keys);
      forall i :: 0 <= i < |order| ==>
        r.registry[order[i]] == st.registry[order[i]].(hotkeyId :=
          if accepts(st.nextHotkeyId + i) then st.nextHotkeyId + i else 0)
  {
    StartedFromIdle(st, accepts);
    RegisterMonitoredFromIdle(st, accepts);
  }

  lemma StartedFromIdle(st: State, accepts: int -> bool)
    requires !st.monitoring
    ensures Started(st, accepts) == RegisterAll(st.(monitoring := true), SortedKeys(st.registry.Keys), accepts)
  {
  }

  lemma RegisterMonitoredFromIdle(st: State, accepts: int -> bool)
    requires !st.monitoring && AllIdle(st.registry)
    ensures var r := RegisterAll(st.(monitoring := true), SortedKeys(st.registry.Keys), accepts);
      var order := SortedKeys(st.registry.Keys);
      forall i :: 0 <= i < |order| ==>
        r.registry[order[i]] == st.registry[order[i]].(hotkeyId :=
          if accepts(st.nextHotkeyId + i) then st.nextHotkeyId + i else 0)
  {
    var s0 := st.(monitoring := true);
    assert s0.registry == st.registry && s0.nextHotkeyId == st.nextHotkeyId;
    RegisterSortedFromIdle(s0, accepts);
  }

  lemma RegisterSortedFromIdle(st: State, accepts: int -> bool)
    requires AllIdle(st.registry)
    ensures var order := SortedKeys(st.registry.Keys); var r := RegisterAll(st, order, accepts);
      && r.nextHotkeyId == st.nextHotkeyId + |order|
      && (forall i :: 0 <= i < |order| ==>
            r.registry[order[i]] == st.registry[order[i]].(hotkeyId :=
              if accepts(st.nextHotkeyId + i) then st.nextHotkeyId + i else 0))
  {
    SortedKeysDistinct(st.registry.Keys);
    RegisterAllFromIdle(st, SortedKeys(st.registry.Keys), accepts);
  }

  lemma RegisterAllFromIdle(st: State, names: seq<string>, accepts: int -> bool)
    requires forall n :: n in names ==> n in st.registry && st.registry[n].hotkeyId == 0
    requires forall i, j :: 0 <= i < j < |names| ==> names[i] != names[j]
    ensures var r := RegisterAll(st, names, accepts);
      && r.nextHotkeyId == st.nextHotkeyId + |names|
      && (forall i :: 0 <= i < |names| ==>
            r.registry[names[i]] == st.registry[names[i]].(hotkeyId :=
              if accepts(st.nextHotkeyId + i) then st.nextHotkeyId + i else 0))
  {
    RegisterAllAssigns(st, names, accepts);
    var r := RegisterAll(st, names, accepts);
    forall i | 0 <= i < |names|
      ensures r.registry[names[i]] == st.registry[names[i]].(hotkeyId :=
              if accepts(st.nextHotkeyId + i) then st.nextHotkeyId + i else 0)
    {
      assert names[i] in names;
    }
  }

  lemma StartValid(st: State, accepts: int -> bool)
    requires Valid(st)
    ensures Valid(Started(st, accepts))
  {
    if !st.monitoring {
      var s0 := st.(monitoring := true);
      assert IdsValid(s0);
      RegisterAllValid(s0, SortedKeys(st.registry.Keys), accepts);
    }
  }

  /** Starting twice is starting once. */
  lemma StartIdempotent(st: State, accepts: int -> bool)
    ensures Started(Started(st, accepts), accepts) == Started(st, accepts)
  {
    if !st.monitoring {
      SortedKeysDistinct(st.registry.Keys);
      RegisterAllAssigns(st.(monitoring := true), SortedKeys(st.registry.Keys), accepts);
    }
  }

  /** `StopMonitoring` while monitoring unregisters every action: each id
      becomes 0 and each held hotkey leaves the system, while keybinds,
      callbacks and the counter stay. While idle it does nothing. */
  lemma StopEffect(st: State)
    ensures !st.monitoring ==> Stopped(st) == st
    ensures st.monitoring ==> var r := Stopped(st);
      && !r.monitoring && r.nextHotkeyId == st.nextHotkeyId && r.registry.Keys == st.registry.Keys
      && (forall n :: n in st.registry ==> r.registry[n] == st.registry[n].(hotkeyId := 0))
      && (forall n :: n in st.registry && st.registry[n].hotkeyId != 0 ==> st.registry[n].hotkeyId !in r.system)
  {
    if st.monitoring {
      var s0 := st.(monitoring := false);
      var order := SortedKeys(st.registry.Keys);
      SortedKeysDistinct(st.registry.Keys);
      UnregisterAllClears(s0, order);
      var r := UnregisterAll(s0, order);
      assert r == Stopped(st);
      forall n | n in st.registry
        ensures r.registry[n] == st.registry[n].(hotkeyId := 0)
        ensures st.registry[n].hotkeyId != 0 ==> st.registry[n].hotkeyId !in r.system
      {
        var i :| 0 <= i < |order| && order[i] == n;
      }
    }
  }

  lemma StopValid(st: State)
    requires Valid(st)
    ensures Valid(Stopped(st))
  {
    if st.monitoring {
      var s0 := st.(monitoring := false);
      assert IdsValid(s0);
      UnregisterAllValid(s0, SortedKeys(st.registry.Keys));
      StopEffect(st);
      var r := Stopped(st);
      assert AllIdle(r.registry);
    }
  }

  /** Under the bookkeeping invariant a hotkey id other than 0 belongs to at
      most one action, so `HandleHotkey` invokes the callback of exactly
      that action, if it has one, whatever the traversal order. */
  lemma HandlerIsOwner(st: State, id: int, n: string)
    requires Valid(st) && id != 0
    requires n in st.registry && st.registry[n].hotkeyId == id
    ensures FirstHandler(st.registry, SortedKeys(st.registry.Keys), id) == st.registry[n].callback
  {
    assert forall m :: m in st.registry && m != n ==> st.registry[m].hotkeyId != id;
    FirstHandlerOwner(st.registry, SortedKeys(st.registry.Keys), id, n);
  }

  /** Nothing is invoked for an id no action holds. */
  lemma HandlerNeedsOwner(st: State, id: int)
    requires forall n :: n in st.registry ==> st.registry[n].hotkeyId != id
    ensures FirstHandler(st.registry, SortedKeys(st.registry.Keys), id) == None
  {
  }

  lemma FirstHandlerOwner(reg: map<string, Entry>, names: seq<string>, id: int, n: string)
    requires forall m :: m in names ==> m in reg
    requires n in names && reg[n].hotkeyId == id
    requires forall m :: m in names && m != n ==> reg[m].hotkeyId != id
    ensures FirstHandler(reg, names, id) == reg[n].callback
  {
    var r := FirstHandler(reg, names, id);
    if r.Some? {
      var k :| 0 <= k < |names| && reg[names[k]].hotkeyId == id && reg[names[k]].callback == r;
      assert names[k] in names;
    } else {
      var i :| 0 <= i < |names| && names[i] == n;
    }
  }

  // ------------------------------------------------------------ the file

  function Flag(b: bool): string {
    if b then "1" else "0"
  }

  /** What `SaveToFile` writes after the '=': the virtual key in decimal and
      the three flags, each followed by a comma, then the description. */
  function KeybindData(kb: KeyBind): string {
    Join([IntToString(kb.virtualKey), Flag(kb.ctrl), Flag(kb.alt), Flag(kb.shift), kb.description], ',')
  }

  /** One line `SaveToFile` writes, without its end of line. */
  function KeybindLine(name: string, kb: KeyBind): string {
    name + "=" + KeybindData(kb)
  }

  function SaveLines(kbs: map<string, KeyBind>, names: seq<string>): seq<string>
    requires forall n :: n in names ==> n in kbs
    decreases |names|
  {
    if names == [] then []
    else
      assert forall n :: n in names[1..] ==> n in names;
      [KeybindLine(names[0], kbs[names[0]])] + SaveLines(kbs, names[1..])
  }

  /** What `SaveToFile` writes: one line per action, in key order. */
  ghost function SaveText(st: State): string {
    var kbs := KeybindsOf(st.registry);
    Unlines(SaveLines(kbs, SortedKeys(st.registry.Keys)), '\n')
  }

  /** The keybind `LoadFromFile` builds from at least four comma tokens. */
  function ParsedKeybind(vk: Int32, tokens: seq<string>): KeyBind
    requires |tokens| >= 4
  {
    KeyBind(vk, tokens[1] == "1", tokens[2] == "1", tokens[3] == "1", if |tokens| > 4 then tokens[4] else "")
  }

  /** `LoadFromFile` over the lines read: a line without '=' or with fewer
      than four tokens is skipped, a first token `std::stoi` rejects throws
      (the second result) and ends the load, and a registered action is
      updated. */
  function LoadLines(st: State, lines: seq<string>, accepts: int -> bool): (r: (State, bool))
    decreases |lines|
  {
    if lines == [] then (st, false)
    else
      var eq := SplitFirst(lines[0], '=');
      if eq.None? then LoadLines(st, lines[1..], accepts)
      else
        var name := eq.value.0;
        var tokens := GetlineTokens(eq.value.1, ',');
        if |tokens| < 4 then LoadLines(st, lines[1..], accepts)
        else
          var vk := Stoi(tokens[0]);
          if vk.None? then (st, true)
          else
            var kb := ParsedKeybind(vk.value, tokens);
            LoadLines(if name in st.registry then Update(st, name, kb, accepts) else st, lines[1..], accepts)
  }

  /** A name the file format can carry: the name ends at the first '=' and
      the line at the first end of line. */
  predicate SafeName(n: string) {
    '=' !in n && '\n' !in n
  }

  /** A description the file format can carry: it is the fifth comma token. */
  predicate SafeDescription(d: string) {
    ',' !in d && '\n' !in d
  }

  lemma IntToStringPlain(n: int)
    ensures ',' !in IntToString(n) && '\n' !in IntToString(n)
  {
    var m := if n < 0 then -n else n;
    var ds := NatToString(m);
    assert forall k :: 0 <= k < |ds| ==> IsDigit(ds[k]);
    if n < 0 {
      assert IntToString(n) == "-" + ds;
    }
  }

  /** The parts `KeybindData` joins, none holding a comma or an end of line. */
  lemma DataPartsPlain(kb: KeyBind)
    requires SafeDescription(kb.description)
    ensures var parts := [IntToString(kb.virtualKey), Flag(kb.ctrl), Flag(kb.alt), Flag(kb.shift), kb.description];
      forall k :: 0 <= k < |parts| ==> ',' !in parts[k] && '\n' !in parts[k]
  {
    IntToStringPlain(kb.virtualKey);
  }

  /** A written line holds no end of line and splits at the '=' after the name. */
  lemma LineSplits(name: string, kb: KeyBind)
    requires SafeName(name) && SafeDescription(kb.description)
    ensures '\n' !in KeybindLine(name, kb)
    ensures SplitFirst(KeybindLine(name, kb), '=') == Some((name, KeybindData(kb)))
  {
    DataPartsPlain(kb);
    JoinNoChar([IntToString(kb.virtualKey), Flag(kb.ctrl), Flag(kb.alt), Flag(kb.shift), kb.description], ',', '\n');
    SplitFirstOf(name, '=', KeybindData(kb));
  }

  /** Reading back a join of five comma-free fields gives the fields, less
      the last when it is empty. */
  lemma TokensOfFive(parts: seq<string>)
    requires |parts| == 5
    requires forall k :: 0 <= k < |parts| ==> ',' !in parts[k]
    ensures GetlineTokens(Join(parts, ','), ',') == if parts[4] == "" then parts[..4] else parts
  {
    if parts[4] == "" {
      SplitJoin(parts, ',');
    } else {
      GetlineNoTrailing(parts, ',');
    }
  }

  /** The data read back gives at least four tokens from which the same
      keybind is rebuilt. */
  lemma DataParses(kb: KeyBind)
    requires SafeDescription(kb.description)
    ensures var tokens := GetlineTokens(KeybindData(kb), ',');
      |tokens| >= 4 && Stoi(tokens[0]) == Some(kb.virtualKey as int) && ParsedKeybind(kb.virtualKey, tokens) == kb
  {
    var parts := [IntToString(kb.virtualKey), Flag(kb.ctrl), Flag(kb.alt), Flag(kb.shift), kb.description];
    DataPartsPlain(kb);
    TokensOfFive(parts);
    IntToStringParses(kb.virtualKey);
  }

  /** A join of parts free of `x` is free of `x`, when `x` is not the separator. */
  lemma {:induction false} JoinNoChar(parts: seq<string>, c: char, x: char)
    requires |parts| >= 1 && c != x
    requires forall k :: 0 <= k < |parts| ==> x !in parts[k]
    ensures x !in Join(parts, c)
  {
    if |parts| > 1 {
      assert forall k :: 0 <= k < |parts[1..]| ==> parts[1..][k] == parts[k + 1];
      JoinNoChar(parts[1..], c, x);
    }
  }

  /** `UpdateKeybind` with the keybind an action already has leaves every
      keybind as it was. */
  lemma UpdateSameKeybind(st: State, name: string, accepts: int -> bool)
    requires name in st.registry
    ensures KeybindsOf(Update(st, name, st.registry[name].keybind, accepts).registry) == KeybindsOf(st.registry)
  {
    var r := Update(st, name, st.registry[name].keybind, accepts);
    var s1 := if st.monitoring then UnregisterSystem(st, name) else st;
    var s2 := s1.(registry := s1.registry[name := s1.registry[name].(keybind := st.registry[name].keybind)]);
    assert forall n :: n in st.registry ==> r.registry[n].keybind == st.registry[n].keybind;
  }

  /** Loading the lines written for `names` updates each of those actions
      with the keybind it already has, and nothing throws. */
  lemma {:induction false} LoadSavedLines(st: State, kbs: map<string, KeyBind>, names: seq<string>, accepts: int -> bool)
    requires KeybindsOf(st.registry) == kbs
    requires forall n :: n in names ==> n in kbs
    requires forall n :: n in kbs ==> SafeName(n) && SafeDescription(kbs[n].description)
    ensures !LoadLines(st, SaveLines(kbs, names), accepts).1
    ensures KeybindsOf(LoadLines(st, SaveLines(kbs, names), accepts).0.registry) == kbs
    decreases |names|
  {
    if names != [] {
      var n := names[0];
      var lines := SaveLines(kbs, names);
      assert forall m :: m in names[1..] ==> m in names;
      assert lines == [KeybindLine(n, kbs[n])] + SaveLines(kbs, names[1..]);
      LineSplits(n, kbs[n]);
      DataParses(kbs[n]);
      UpdateSameKeybind(st, n, accepts);
      var tokens := GetlineTokens(KeybindData(kbs[n]), ',');
      var s1 := Update(st, n, ParsedKeybind(kbs[n].virtualKey, tokens), accepts);
      assert LoadLines(st, lines, accepts) == LoadLines(s1, lines[1..], accepts);
      assert lines[1..] == SaveLines(kbs, names[1..]);
      LoadSavedLines(s1, kbs, names[1..], accepts);
    }
  }

  lemma SaveLinesPlain(kbs: map<string, KeyBind>, names: seq<string>)
    requires forall n :: n in names ==> n in kbs
    requires forall n :: n in kbs ==> SafeName(n) && SafeDescription(kbs[n].description)
    ensures forall k :: 0 <= k < |SaveLines(kbs, names)| ==> '\n' !in SaveLines(kbs, names)[k]
    decreases |names|
  {
    if names != [] {
      assert forall m :: m in names[1..] ==> m in names;
      SaveLinesPlain(kbs, names[1..]);
      LineSplits(names[0], kbs[names[0]]);
    }
  }

  /** Saving and then loading on the same registry leaves every keybind as
      it was, as long as no name holds '=' or an end of line and no
      description holds ',' or an end of line. */
  lemma SaveThenLoad(st: State, accepts: int -> bool)
    requires forall n :: n in st.registry ==> SafeName(n) && SafeDescription(st.registry[n].keybind.description)
    ensures var loaded := LoadLines(st, GetlineTokens(SaveText(st), '\n'), accepts);
      !loaded.1 && KeybindsOf(loaded.0.registry) == KeybindsOf(st.registry)
  {
    var kbs := KeybindsOf(st.registry);
    var names := SortedKeys(st.registry.Keys);
    SaveLinesPlain(kbs, names);
    GetlineUnlines(SaveLines(kbs, names), '\n');
    LoadSavedLines(st, kbs, names, accepts);
  }

  // --------------------------------------------------------- virtual keys

  const VK_RETURN: int := 0x0D
  const VK_ESCAPE: int := 0x1B
  const VK_SPACE: int := 0x20
  const VK_F1: int := 0x70
  const VK_F2: int := 0x71
  const VK_F3: int := 0x72
  const VK_F4: int := 0x73
  const VK_F5: int := 0x74
  const VK_F6: int := 0x75
  const VK_F7: int := 0x76
  const VK_F8: int := 0x77
  const VK_F9: int := 0x78
  const VK_F10: int := 0x79
  const VK_F11: int := 0x7A
  const VK_F12: int := 0x7B

  /** The codes that have a name: the letters, F1 to F12, Space, Enter, Escape. */
  predicate IsNamedKey(vk: int) {
    (0x41 <= vk <= 0x5A) || (VK_F1 <= vk <= VK_F12) || vk == VK_SPACE || vk == VK_RETURN || vk == VK_ESCAPE
  }

  /** `VirtualKeyToString` on Windows. */
  function VirtualKeyToString(vk: int): string {
    if 0x41 <= vk <= 0x5A then [vk as char]
    else if vk == VK_F1 then "F1"
    else if vk == VK_F2 then "F2"
    else if vk == VK_F3 then "F3"
    else if vk == VK_F4 then "F4"
    else if vk == VK_F5 then "F5"
    else if vk == VK_F6 then "F6"
    else if vk == VK_F7 then "F7"
    else if vk == VK_F8 then "F8"
    else if vk == VK_F9 then "F9"
    else if vk == VK_F10 then "F10"
    else if vk == VK_F11 then "F11"
    else if vk == VK_F12 then "F12"
    else if vk == VK_SPACE then "Space"
    else if vk == VK_RETURN then "Enter"
    else if vk == VK_ESCAPE then "Escape"
    else "Unknown"
  }

  /** `StringToVirtualKey` on Windows: 0 for a name it does not know. */
  function StringToVirtualKey(s: string): int {
    if |s| == 1 && 'A' <= s[0] <= 'Z' then s[0] as int
    else if s == "Space" then VK_SPACE
    else if s == "Enter" then VK_RETURN
    else if s == "Escape" then VK_ESCAPE
    else if s == "F1" then VK_F1
    else if s == "F2" then VK_F2
    else if s == "F3" then VK_F3
    else if s == "F4" then VK_F4
    else if s == "F5" then VK_F5
    else if s == "F6" then VK_F6
    else if s == "F7" then VK_F7
    else if s == "F8" then VK_F8
    else if s == "F9" then VK_F9
    else if s == "F10" then VK_F10
    else if s == "F11" then VK_F11
    else if s == "F12" then VK_F12
    else 0
  }

  /** Every named code comes back from its name. */
  lemma VirtualKeyRoundTrip(vk: int)
    requires IsNamedKey(vk)
    ensures StringToVirtualKey(VirtualKeyToString(vk)) == vk
  {
  }

  /** A code without a name prints as "Unknown", which reads back as 0. */
  lemma UnnamedKey(vk: int)
    requires !IsNamedKey(vk)
    ensures VirtualKeyToString(vk) == "Unknown" && StringToVirtualKey(VirtualKeyToString(vk)) == 0
  {
  }

  /** Every name that is read as a code is that code's name: the two
      functions are inverse bijections between the named codes and their names. */
  lemma KeyNameRoundTrip(s: string)
    requires StringToVirtualKey(s) != 0
    ensures IsNamedKey(StringToVirtualKey(s)) && VirtualKeyToString(StringToVirtualKey(s)) == s
  {
    if |s| == 1 && 'A' <= s[0] <= 'Z' {
      assert s == [s[0]];
    }
  }

  /** Writing the least key's line first, then the rest. */
  lemma SaveLinesStep(kbs: map<string, KeyBind>, remaining: set<string>, name: string, text: string, line: string)
    requires remaining <= kbs.Keys && IsLeast(name, remaining) && line == KeybindLine(name, kbs[name])
    requires SortedKeys(remaining) == [name] + SortedKeys(remaining - {name})
    ensures text + Unlines(SaveLines(kbs, SortedKeys(remaining)), '\n')
            == (text + line + "\n") + Unlines(SaveLines(kbs, SortedKeys(remaining - {name})), '\n')
  {
    var rest := SaveLines(kbs, SortedKeys(remaining - {name}));
    assert SaveLines(kbs, SortedKeys(remaining)) == [line] + rest;
    UnlinesCons(text, line, rest);
  }

  lemma UnlinesCons(text: string, line: string, rest: seq<string>)
    ensures text + Unlines([line] + rest, '\n') == (text + line + "\n") + Unlines(rest, '\n')
  {
    assert ([line] + rest)[1..] == rest;
  }

  // ------------------------------------------------------------ the class

  class KeybindManager {
    var registry: map<string, Entry>
    var monitoring: bool
    var nextHotkeyId: int
    /** The hotkeys registered with the operating system, by id. */
    var system: map<int, Hotkey>

    function Snapshot(): State
      reads this
    {
      State(registry, monitoring, nextHotkeyId, system)
    }

    constructor ()
      ensures Snapshot() == INITIAL
    {
      registry, monitoring, nextHotkeyId, system := map[], false, 1, map[];
    }

    method RegisterSystemHotkey(name: string, kb: KeyBind, accepts: int -> bool)
      modifies this
      ensures Snapshot() == RegisterSystem(old(Snapshot()), name, kb, accepts)
    {
      var modifiers := Modifiers(kb);
      var hotkeyId := nextHotkeyId;
      nextHotkeyId := nextHotkeyId + 1;
      if accepts(hotkeyId) {
        system := system[hotkeyId := Hotkey(modifiers, kb.virtualKey)];
        var e := if name in registry then registry[name] else Entry(NO_KEYBIND, None, 0);
        registry := registry[name := e.(hotkeyId := hotkeyId)];
      }
    }

    method UnregisterSystemHotkey(name: string)
      modifies this
      ensures Snapshot() == UnregisterSystem(old(Snapshot()), name)
    {
      if name in registry && registry[name].hotkeyId != 0 {
        system := system - {registry[name].hotkeyId};
        registry := registry[name := registry[name].(hotkeyId := 0)];
      }
    }

    method RegisterKeybind(name: string, kb: KeyBind, callback: Option<CallbackId>, accepts: int -> bool)
      modifies this
      ensures Snapshot() == Register(old(Snapshot()), name, kb, callback, accepts)
    {
      registry := registry[name := Entry(kb, callback, 0)];
      if monitoring {
        RegisterSystemHotkey(name, kb, accepts);
      }
    }

    method UpdateKeybind(name: string, kb: KeyBind, accepts: int -> bool)
      modifies this
      ensures Snapshot() == Update(old(Snapshot()), name, kb, accepts)
    {
      if name in registry {
        if monitoring {
          UnregisterSystemHotkey(name);
        }
        registry := registry[name := registry[name].(keybind := kb)];
        if monitoring {
          RegisterSystemHotkey(name, kb, accepts);
        }
      }
    }

    method RemoveKeybind(name: string)
      modifies this
      ensures Snapshot() == Remove(old(Snapshot()), name)
    {
      if monitoring {
        UnregisterSystemHotkey(name);
      }
      registry := registry - {name};
    }

    method GetKeybind(name: string) returns (kb: KeyBind)
      ensures name in registry ==> kb == registry[name].keybind
      ensures name !in registry ==> kb == NO_KEYBIND
    {
      if name in registry {
        return registry[name].keybind;
      }
      return NO_KEYBIND;
    }

    method GetAllKeybinds() returns (result: map<string, KeyBind>)
      ensures result.Keys == registry.Keys
      ensures forall n :: n in result ==> result[n] == registry[n].keybind
    {
      result := map[];
      var remaining := registry.Keys;
      while remaining != {}
        invariant remaining <= registry.Keys
        invariant result.Keys == registry.Keys - remaining
        invariant forall n :: n in result ==> result[n] == registry[n].keybind
        decreases |remaining|
      {
        var name :| name in remaining;
        result := result[name := registry[name].keybind];
        remaining := remaining - {name};
      }
    }

    /** The least key of `remaining`, as the map traversal reaches it next. */
    method NextKey(remaining: set<string>) returns (name: string)
      requires remaining != {}
      ensures IsLeast(name, remaining)
      ensures SortedKeys(remaining) == [name] + SortedKeys(remaining - {name})
    {
      ghost var m := MinOf(remaining);
      name :| name in remaining && IsLeast(name, remaining);
      SortedKeysStep(remaining, name);
    }

    method StartMonitoring(accepts: int -> bool)
      modifies this
      ensures Snapshot() == Started(old(Snapshot()), accepts)
    {
      if monitoring {
        return;
      }
      monitoring := true;
      ghost var target := Started(old(Snapshot()), accepts);
      var remaining := registry.Keys;
      SortedKeysSpec(remaining);
      while remaining != {}
        invariant remaining <= registry.Keys
        invariant forall n :: n in SortedKeys(remaining) ==> n in registry
        invariant RegisterAll(Snapshot(), SortedKeys(remaining), accepts) == target
        decreases |remaining|
      {
        var name := NextKey(remaining);
        RegisterSystemHotkey(name, registry[name].keybind, accepts);
        remaining := remaining - {name};
        SortedKeysSpec(remaining);
      }
    }

    method StopMonitoring()
      modifies this
      ensures Snapshot() == Stopped(old(Snapshot()))
    {
      if !monitoring {
        return;
      }
      monitoring := false;
      ghost var target := Stopped(old(Snapshot()));
      var remaining := registry.Keys;
      while remaining != {}
        invariant UnregisterAll(Snapshot(), SortedKeys(remaining)) == target
        decreases |remaining|
      {
        var name := NextKey(remaining);
        UnregisterSystemHotkey(name);
        remaining := remaining - {name};
      }
    }

    /** A `WM_HOTKEY` with the given id: the callback invoked, if any. */
    method HandleHotkey(id: int) returns (invoked: Option<CallbackId>)
      ensures invoked == FirstHandler(registry, SortedKeys(registry.Keys), id)
    {
      SortedKeysSpec(registry.Keys);
      var remaining := registry.Keys;
      SortedKeysSpec(remaining);
      while remaining != {}
        invariant remaining <= registry.Keys
        invariant forall n :: n in SortedKeys(remaining) ==> n in registry
        invariant FirstHandler(registry, SortedKeys(remaining), id) == FirstHandler(registry, SortedKeys(registry.Keys), id)
        decreases |remaining|
      {
        var name := NextKey(remaining);
        SortedKeysSpec(remaining - {name});
        if registry[name].hotkeyId == id && registry[name].callback.Some? {
          return registry[name].callback;
        }
        remaining := remaining - {name};
      }
      return None;
    }

    /** The text written, or None when the file cannot be opened. */
    method SaveToFile(canOpen: bool) returns (written: Option<string>)
      ensures written == if canOpen then Some(SaveText(Snapshot())) else None
    {
      if !canOpen {
        return None;
      }
      ghost var kbs := KeybindsOf(registry);
      ghost var target := SaveText(Snapshot());
      var text := "";
      var remaining := registry.Keys;
      assert "" + Unlines(SaveLines(kbs, SortedKeys(remaining)), '\n') == target;
      while remaining != {}
        invariant remaining <= kbs.Keys
        invariant text + Unlines(SaveLines(kbs, SortedKeys(remaining)), '\n') == target
        decreases |remaining|
      {
        var name := NextKey(remaining);
        var line := KeybindLine(name, registry[name].keybind);
        SaveLinesStep(kbs, remaining, name, text, line);
        text := text + line + "\n";
        remaining := remaining - {name};
      }
      assert text + Unlines([], '\n') == text;
      return Some(text);
    }

    /** Reads the file's lines (None when it cannot be opened) and updates
        the registered actions they name; `threw` when `std::stoi` threw. */
    method LoadFromFile(content: Option<string>, accepts: int -> bool) returns (threw: bool)
      modifies this
      ensures (Snapshot(), threw) ==
                if content.None? then (old(Snapshot()), false)
                else LoadLines(old(Snapshot()), GetlineTokens(content.value, '\n'), accepts)
    {
      threw := false;
      if content.None? {
        return;
      }
      var lines := GetlineTokens(content.value, '\n');
      var i := 0;
      while i < |lines|
        invariant 0 <= i <= |lines|
        invariant LoadLines(Snapshot(), lines[i..], accepts) == LoadLines(old(Snapshot()), lines, accepts)
      {
        assert lines[i..][0] == lines[i] && lines[i..][1..] == lines[i + 1..];
        var eq := SplitFirst(lines[i], '=');
        if eq.Some? {
          var name := eq.value.0;
          var tokens := GetlineTokens(eq.value.1, ',');
          if |tokens| >= 4 {
            var vk := Stoi(tokens[0]);
            if vk.None? {
              return true;
            }
            var kb := ParsedKeybind(vk.value, tokens);
            if name in registry {
              UpdateKeybind(name, kb, accepts);
            }
          }
        }
        i := i + 1;
      }
      assert lines[i..] == [];
    }
  }
}
