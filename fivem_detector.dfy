/** The managed FiveM process finder: the explicit-name pass and the
    wildcard pass over all processes, the name/title token test, and the
    summary, primary-process and "is running" queries built on them. The
    operating system's process list is a snapshot given as input, one per
    query: every enumeration within a query sees that same list. Whether a
    process uses Vulkan is an oracle. */
module FiveMDetector {
  import opened Wrappers
  import opened Text

  /** A process as the snapshot shows it; `window == 0` is `IntPtr.Zero`. */
  datatype OsProcess = OsProcess(id: int, name: string, title: string, window: nat, exited: bool)

  datatype ProcessInfo = ProcessInfo(processId: int, processName: string, windowTitle: string, windowHandle: nat)

  /** The names tried one by one before the wildcard pass. */
  const ExplicitNames: seq<string> := [
    "FiveM", "FiveM_GTAProcess", "CitizenFX",
    "FiveM_b2060", "FiveM_b2060_GTAProcess",
    "FiveM_b2189", "FiveM_b2189_GTAProcess",
    "FiveM_b2372", "FiveM_b2372_GTAProcess",
    "FiveM_b2545", "FiveM_b2545_GTAProcess",
    "FiveM_b2612", "FiveM_b2612_GTAProcess",
    "FiveM_b2699", "FiveM_b2699_GTAProcess",
    "FiveM_b2802", "FiveM_b2802_GTAProcess",
    "FiveM_b2944", "FiveM_b2944_GTAProcess"
  ]

  // ------------------------------------------------------------ token test

  /** The name tokens, on the lower-cased name. */
  predicate NameHit(nl: string) {
    Contains(nl, "fivem") || Contains(nl, "citizenfx") || Contains(nl, "cfx") ||
    Contains(nl, "gtaprocess") || Contains(nl, "gta5") || Contains(nl, "gta_") || Contains(nl, "gta")
  }

  /** The title tokens, on the lower-cased title. */
  predicate TitleHit(tl: string) {
    Contains(tl, "fivem") || Contains(tl, "citizenfx") || Contains(tl, "grand theft auto") || Contains(tl, "gta")
  }

  /** `MatchesFiveM`: a name or title token occurs, in any letter case. */
  predicate MatchesFiveM(name: string, title: string) {
    NameHit(ToLower(name)) || TitleHit(ToLower(title))
  }

  /** "gta" alone decides the three longer gta tokens of the name test. */
  lemma GtaSubsumes(nl: string)
    ensures NameHit(nl) <==> Contains(nl, "fivem") || Contains(nl, "citizenfx") || Contains(nl, "cfx") || Contains(nl, "gta")
  {
    var gta := "gta";
    assert gta <= "gtaprocess" && gta <= "gta5" && gta <= "gta_";
    if Contains(nl, "gtaprocess") {
      ContainsTransitive(nl, "gtaprocess", gta);
    }
    if Contains(nl, "gta5") {
      ContainsTransitive(nl, "gta5", gta);
    }
    if Contains(nl, "gta_") {
      ContainsTransitive(nl, "gta_", gta);
    }
  }

  /** Lower-casing keeps a prefix's lower-cased form in front. */
  lemma LowerPrefix(s: string, p: string)
    requires p <= s
    ensures ToLower(p) <= ToLower(s)
  {
    assert forall k :: 0 <= k < |p| ==> ToLower(p)[k] == LowerChar(s[k]) == ToLower(s)[k];
  }

  /** Every explicit name but `CitizenFX` starts with `FiveM`. */
  lemma ExplicitNamesPrefixed(j: nat)
    requires j < |ExplicitNames|
    ensures if j == 2 then ExplicitNames[j] == "CitizenFX" else "FiveM" <= ExplicitNames[j]
  {
  }

  /** A name equal, in any letter case, to one with prefix `p` contains
      `p` lower-cased. */
  lemma PrefixedNameContains(name: string, n: string, p: string)
    requires p <= n && ToLower(name) == ToLower(n)
    ensures Contains(ToLower(name), ToLower(p))
  {
    LowerPrefix(n, p);
    assert ToLower(p) <= ToLower(name);
  }

  /** Every explicit name also passes the wildcard test, whatever the title. */
  lemma ExplicitNamesMatch(name: string, title: string)
    requires exists j :: 0 <= j < |ExplicitNames| && ToLower(name) == ToLower(ExplicitNames[j])
    ensures MatchesFiveM(name, title)
  {
    var j :| 0 <= j < |ExplicitNames| && ToLower(name) == ToLower(ExplicitNames[j]);
    ExplicitNamesPrefixed(j);
    if j == 2 {
      PrefixedNameContains(name, ExplicitNames[j], "CitizenFX");
      assert ToLower("CitizenFX") == "citizenfx";
    } else {
      PrefixedNameContains(name, ExplicitNames[j], "FiveM");
      assert ToLower("FiveM") == "fivem";
    }
  }

  // ---------------------------------------------------------------- passes

  /** A process the passes may take: still running, with a main window. */
  predicate Eligible(p: OsProcess) {
    !p.exited && p.window != 0
  }

  function Info(p: OsProcess): ProcessInfo {
    ProcessInfo(p.id, p.name, p.title, p.window)
  }

  /** `Process.GetProcessesByName`: the processes with that name, compared
      without regard to letter case. */
  function ByName(procs: seq<OsProcess>, name: string): (r: seq<OsProcess>)
    ensures forall p :: p in r <==> p in procs && ToLower(p.name) == ToLower(name)
  {
    if procs == [] then []
    else
      var last := procs[|procs| - 1];
      ByName(procs[..|procs| - 1], name) + (if ToLower(last.name) == ToLower(name) then [last] else [])
  }

  /** The candidates of the explicit pass: the processes found by each
      name in turn. */
  function ExplicitCandidates(names: seq<string>, procs: seq<OsProcess>): seq<OsProcess> {
    if names == [] then []
    else ExplicitCandidates(names[..|names| - 1], procs) + ByName(procs, names[|names| - 1])
  }

  /** The candidates of the wildcard pass: the processes whose name or
      title carries a token. */
  function WildcardCandidates(procs: seq<OsProcess>): seq<OsProcess> {
    if procs == [] then []
    else
      var last := procs[|procs| - 1];
      WildcardCandidates(procs[..|procs| - 1]) + (if MatchesFiveM(last.name, last.title) then [last] else [])
  }

  /** The results list and the `seen` set. */
  datatype Found = Found(results: seq<ProcessInfo>, seen: set<int>)

  /** Both passes' step: an eligible candidate whose id `seen.Add` accepts
      is appended. */
  function Scan(cands: seq<OsProcess>, st: Found): Found {
    if cands == [] then st
    else
      var s := Scan(cands[..|cands| - 1], st);
      var p := cands[|cands| - 1];
      if Eligible(p) && p.id !in s.seen then Found(s.results + [Info(p)], s.seen + {p.id}) else s
  }

  lemma {:induction false} ScanConcat(a: seq<OsProcess>, b: seq<OsProcess>, st: Found)
    ensures Scan(a + b, st) == Scan(b, Scan(a, st))
    decreases |b|
  {
    if b == [] {
      assert a + b == a;
    } else {
      assert (a + b)[..|a + b| - 1] == a + b[..|b| - 1];
      ScanConcat(a, b[..|b| - 1], st);
    }
  }

  function Ids(rs: seq<ProcessInfo>): set<int> {
    set r | r in rs :: r.processId
  }

  predicate Distinct(rs: seq<ProcessInfo>) {
    forall a, b :: 0 <= a < b < |rs| ==> rs[a].processId != rs[b].processId
  }

  /** The `seen` set is exactly the ids of the results, and no id is there twice. */
  predicate Consistent(st: Found) {
    st.seen == Ids(st.results) && Distinct(st.results)
  }

  /** A scan only appends, keeps `seen` consistent with the results, and
      leaves every eligible candidate's id seen. */
  lemma {:induction false} ScanKeepsConsistent(cands: seq<OsProcess>, st: Found)
    requires Consistent(st)
    ensures var r := Scan(cands, st);
      && Consistent(r)
      && st.results <= r.results
      && (forall p :: p in cands && Eligible(p) ==> p.id in r.seen)
    decreases |cands|
  {
    if cands != [] {
      var init := cands[..|cands| - 1];
      var p := cands[|cands| - 1];
      assert cands == init + [p];
      ScanKeepsConsistent(init, st);
      var s := Scan(init, st);
      if Eligible(p) && p.id !in s.seen {
        assert Ids(s.results + [Info(p)]) == Ids(s.results) + {p.id};
      }
    }
  }

  /** Every entry a scan appends is the info of an eligible candidate: the
      candidate entry `k` came from. */
  lemma {:induction false} ScanOrigin(cands: seq<OsProcess>, st: Found, k: nat) returns (p: OsProcess)
    requires |st.results| <= k < |Scan(cands, st).results|
    ensures p in cands && Eligible(p) && Scan(cands, st).results[k] == Info(p)
    decreases |cands|
  {
    var init := cands[..|cands| - 1];
    var last := cands[|cands| - 1];
    var s := Scan(init, st);
    if k < |s.results| {
      p := ScanOrigin(init, st, k);
      assert p in cands;
    } else {
      p := last;
    }
  }

  /** What a scan promises: the results only grow, by infos of eligible
      candidates; it keeps `seen` consistent with the results; and every
      eligible candidate's id ends up seen. */
  lemma ScanFacts(cands: seq<OsProcess>, st: Found)
    requires Consistent(st)
    ensures var r := Scan(cands, st);
      && Consistent(r)
      && st.results <= r.results
      && (forall k :: |st.results| <= k < |r.results| ==>
            exists p :: p in cands && Eligible(p) && r.results[k] == Info(p))
      && (forall p :: p in cands && Eligible(p) ==> p.id in r.seen)
  {
    ScanKeepsConsistent(cands, st);
    forall k | |st.results| <= k < |Scan(cands, st).results|
      ensures exists p :: p in cands && Eligible(p) && Scan(cands, st).results[k] == Info(p)
    {
      var p := ScanOrigin(cands, st, k);
    }
  }

  /** The state after the explicit pass. */
  function ExplicitPhase(procs: seq<OsProcess>): Found {
    Scan(ExplicitCandidates(ExplicitNames, procs), Found([], {}))
  }

  /** `FindFiveMProcesses` on one snapshot. */
  function FindAll(procs: seq<OsProcess>): seq<ProcessInfo> {
    Scan(WildcardCandidates(procs), ExplicitPhase(procs)).results
  }

  /** `TryAddByProcessName`: the processes of that name with a main window
      and an id not yet seen are appended. An exited process throws on
      `MainWindowHandle`, which is caught and skips it. */
  method TryAddByProcessName(name: string, procs: seq<OsProcess>, st: Found) returns (r: Found)
    ensures r == Scan(ByName(procs, name), st)
  {
    var found := ByName(procs, name);
    r := st;
    var i := 0;
    while i < |found|
      invariant 0 <= i <= |found|
      invariant r == Scan(found[..i], st)
    {
      var process := found[i];
      if !process.exited && process.window != 0 && process.id !in r.seen {
        r := Found(r.results + [Info(process)], r.seen + {process.id});
      }
      assert found[..i + 1][..i] == found[..i];
      i := i + 1;
    }
    assert found[..i] == found;
  }

  /** `FindFiveMProcesses`: the explicit names first, then every process
      carrying a token. */
  method FindFiveMProcesses(procs: seq<OsProcess>) returns (results: seq<ProcessInfo>)
    ensures results == FindAll(procs)
  {
    var st := ExplicitPass(procs);
    st := WildcardPass(procs, st);
    results := st.results;
  }

  /** The first loop of `FindFiveMProcesses`: one `TryAddByProcessName`
      per explicit name. */
  method ExplicitPass(procs: seq<OsProcess>) returns (st: Found)
    ensures st == ExplicitPhase(procs)
  {
    st := Found([], {});
    var i := 0;
    while i < |ExplicitNames|
      invariant 0 <= i <= |ExplicitNames|
      invariant st == Scan(ExplicitCandidates(ExplicitNames[..i], procs), Found([], {}))
    {
      assert ExplicitNames[..i + 1][..i] == ExplicitNames[..i];
      ScanConcat(ExplicitCandidates(ExplicitNames[..i], procs), ByName(procs, ExplicitNames[i]), Found([], {}));
      st := TryAddByProcessName(ExplicitNames[i], procs, st);
      i := i + 1;
    }
    assert ExplicitNames[..i] == ExplicitNames;
  }

  /** The second loop of `FindFiveMProcesses`: exited and windowless
      processes are passed over, the others are taken when they carry a
      token and `seen.Add` accepts their id. */
  method WildcardPass(procs: seq<OsProcess>, start: Found) returns (st: Found)
    ensures st == Scan(WildcardCandidates(procs), start)
  {
    st := start;
    var j := 0;
    while j < |procs|
      invariant 0 <= j <= |procs|
      invariant st == Scan(WildcardCandidates(procs[..j]), start)
    {
      var p := procs[j];
      assert procs[..j + 1][..j] == procs[..j];
      assert WildcardCandidates(procs[..j + 1]) ==
             WildcardCandidates(procs[..j]) + (if MatchesFiveM(p.name, p.title) then [p] else []);
      ScanConcat(WildcardCandidates(procs[..j]), if MatchesFiveM(p.name, p.title) then [p] else [], start);
      if !p.exited && p.window != 0 {
        if MatchesFiveM(p.name, p.title) && p.id !in st.seen {
          st := Found(st.results + [Info(p)], st.seen + {p.id});
        }
      }
      j := j + 1;
    }
    assert procs[..j] == procs;
  }

  // ----------------------------------------------------------- properties

  lemma {:induction false} ExplicitCandidatesNamed(names: seq<string>, procs: seq<OsProcess>, p: OsProcess)
    requires p in ExplicitCandidates(names, procs)
    ensures p in procs && exists j :: 0 <= j < |names| && ToLower(p.name) == ToLower(names[j])
  {
    var init := names[..|names| - 1];
    if p in ExplicitCandidates(init, procs) {
      ExplicitCandidatesNamed(init, procs, p);
      var j :| 0 <= j < |init| && ToLower(p.name) == ToLower(init[j]);
      assert names[j] == init[j];
    } else {
      assert ToLower(p.name) == ToLower(names[|names| - 1]);
    }
  }

  lemma {:induction false} WildcardCandidatesMatch(procs: seq<OsProcess>, p: OsProcess)
    ensures p in WildcardCandidates(procs) <==> p in procs && MatchesFiveM(p.name, p.title)
  {
    if procs != [] {
      var init := procs[..|procs| - 1];
      assert procs == init + [procs[|procs| - 1]];
      WildcardCandidatesMatch(init, p);
    }
  }

  /** The result names each process id at most once, and every entry has a
      main window. */
  lemma ResultsDistinct(procs: seq<OsProcess>)
    ensures Distinct(FindAll(procs))
    ensures forall r :: r in FindAll(procs) ==> r.windowHandle != 0
  {
    var e := ExplicitPhase(procs);
    ScanFacts(ExplicitCandidates(ExplicitNames, procs), Found([], {}));
    ScanFacts(WildcardCandidates(procs), e);
    var rs := FindAll(procs);
    forall r | r in rs
      ensures r.windowHandle != 0
    {
      var k :| 0 <= k < |rs| && rs[k] == r;
      if k >= |e.results| {
        var p :| p in WildcardCandidates(procs) && Eligible(p) && rs[k] == Info(p);
      } else {
        assert e.results[k] == r;
        var p :| p in ExplicitCandidates(ExplicitNames, procs) && Eligible(p) && e.results[k] == Info(p);
      }
    }
  }

  /** The explicit-name matches come first and the wildcard matches after
      them; every entry of either part carries a token. */
  lemma ExplicitFirst(procs: seq<OsProcess>)
    ensures var e := ExplicitPhase(procs).results; var rs := FindAll(procs);
      && e <= rs
      && (forall k :: 0 <= k < |e| ==>
            exists j :: 0 <= j < |ExplicitNames| && ToLower(e[k].processName) == ToLower(ExplicitNames[j]))
      && (forall k :: 0 <= k < |rs| ==> MatchesFiveM(rs[k].processName, rs[k].windowTitle))
  {
    var cands := ExplicitCandidates(ExplicitNames, procs);
    var e := ExplicitPhase(procs);
    assert Ids([]) == {};
    ScanKeepsConsistent(cands, Found([], {}));
    ScanKeepsConsistent(WildcardCandidates(procs), e);
    var rs := FindAll(procs);
    forall k | 0 <= k < |e.results|
      ensures exists j :: 0 <= j < |ExplicitNames| && ToLower(e.results[k].processName) == ToLower(ExplicitNames[j])
      ensures MatchesFiveM(e.results[k].processName, e.results[k].windowTitle)
    {
      var p := ScanOrigin(cands, Found([], {}), k);
      ExplicitCandidatesNamed(ExplicitNames, procs, p);
      ExplicitNamesMatch(p.name, p.title);
    }
    forall k | 0 <= k < |rs|
      ensures MatchesFiveM(rs[k].processName, rs[k].windowTitle)
    {
      if k >= |e.results| {
        var p := ScanOrigin(WildcardCandidates(procs), e, k);
        WildcardCandidatesMatch(procs, p);
      } else {
        assert rs[k] == e.results[k];
      }
    }
  }

  /** Nothing that carries a token and has a main window is missed: its id
      is in the result. */
  lemma NoneMissed(procs: seq<OsProcess>, p: OsProcess)
    requires p in procs && Eligible(p) && MatchesFiveM(p.name, p.title)
    ensures p.id in Ids(FindAll(procs))
  {
    var e := ExplicitPhase(procs);
    ScanFacts(ExplicitCandidates(ExplicitNames, procs), Found([], {}));
    ScanFacts(WildcardCandidates(procs), e);
    WildcardCandidatesMatch(procs, p);
  }

  // --------------------------------------------------- summary and primary

  /** `VulkanInjector.FindVulkanProcesses`: the FiveM processes that the
      oracle reports as using Vulkan. */
  function VulkanOf(fivem: seq<ProcessInfo>, usesVulkan: int -> bool): (r: seq<ProcessInfo>)
    ensures forall v :: v in r <==> v in fivem && usesVulkan(v.processId)
  {
    if fivem == [] then []
    else
      var last := fivem[|fivem| - 1];
      assert fivem == fivem[..|fivem| - 1] + [last];
      VulkanOf(fivem[..|fivem| - 1], usesVulkan) + (if usesVulkan(last.processId) then [last] else [])
  }

  /** The loop of `FindVulkanProcesses` over a fresh enumeration: each
      FiveM process the oracle reports as using Vulkan, in order. */
  method FindVulkanProcesses(procs: seq<OsProcess>, usesVulkan: int -> bool) returns (processes: seq<ProcessInfo>)
    ensures processes == VulkanOf(FindAll(procs), usesVulkan)
  {
    var fivem := FindFiveMProcesses(procs);
    processes := [];
    var i := 0;
    while i < |fivem|
      invariant 0 <= i <= |fivem|
      invariant processes == VulkanOf(fivem[..i], usesVulkan)
    {
      var info := fivem[i];
      if usesVulkan(info.processId) {
        processes := processes + [ProcessInfo(info.processId, info.processName, info.windowTitle, info.windowHandle)];
      }
      assert fivem[..i + 1][..i] == fivem[..i];
      i := i + 1;
    }
    assert fivem[..i] == fivem;
  }

  datatype Summary = Summary(traditional: seq<ProcessInfo>, vulkan: seq<ProcessInfo>,
                             totalProcessCount: int, hasVulkanSupport: bool)

  /** `GetProcessSummary`: the traditional list from one enumeration, the
      Vulkan list from a second one. */
  method GetProcessSummary(first: seq<OsProcess>, second: seq<OsProcess>, usesVulkan: int -> bool)
    returns (s: Summary)
    ensures s.traditional == FindAll(first)
    ensures s.vulkan == VulkanOf(FindAll(second), usesVulkan)
    ensures s.totalProcessCount == |s.traditional| + |s.vulkan|
    ensures s.hasVulkanSupport <==> s.vulkan != []
  {
    var traditional := FindFiveMProcesses(first);
    var vulkan := FindVulkanProcesses(second, usesVulkan);
    s := Summary(traditional, vulkan, |traditional| + |vulkan|, vulkan != []);
  }

  /** On an unchanged process list, every Vulkan process is also in the
      traditional list, so the total counts it twice. */
  lemma VulkanCountedTwice(procs: seq<OsProcess>, usesVulkan: int -> bool)
    ensures var t := FindAll(procs); var v := VulkanOf(t, usesVulkan);
      && (forall x :: x in v ==> x in t)
      && |t| + |v| == |t| + |set x | x in t && usesVulkan(x.processId) :: x.processId|
  {
    var t := FindAll(procs);
    var v := VulkanOf(t, usesVulkan);
    ResultsDistinct(procs);
    VulkanDistinct(t, usesVulkan);
    DistinctIdsCount(v);
    assert Ids(v) == set x | x in t && usesVulkan(x.processId) :: x.processId;
  }

  lemma {:induction false} VulkanDistinct(fivem: seq<ProcessInfo>, usesVulkan: int -> bool)
    requires Distinct(fivem)
    ensures Distinct(VulkanOf(fivem, usesVulkan))
  {
    if fivem != [] {
      var init := fivem[..|fivem| - 1];
      VulkanDistinct(init, usesVulkan);
      var last := fivem[|fivem| - 1];
      assert forall x :: x in VulkanOf(init, usesVulkan) ==> x in init && x.processId != last.processId;
    }
  }

  lemma {:induction false} DistinctIdsCount(rs: seq<ProcessInfo>)
    requires Distinct(rs)
    ensures |Ids(rs)| == |rs|
  {
    if rs != [] {
      var init := rs[..|rs| - 1];
      var last := rs[|rs| - 1];
      assert rs == init + [last];
      DistinctIdsCount(init);
      assert Ids(rs) == Ids(init) + {last.processId};
      assert last.processId !in Ids(init);
    }
  }

  /** `GetPrimaryFiveMProcess`: the first Vulkan process if there is one,
      else the first process of a fresh enumeration, else none. */
  method GetPrimaryFiveMProcess(first: seq<OsProcess>, second: seq<OsProcess>, usesVulkan: int -> bool)
    returns (r: Option<ProcessInfo>)
    ensures var v := VulkanOf(FindAll(first), usesVulkan);
      if v != [] then r == Some(v[0])
      else r == if FindAll(second) == [] then None else Some(FindAll(second)[0])
  {
    var vulkan := FindVulkanProcesses(first, usesVulkan);
    if vulkan != [] {
      var v := vulkan[0];
      return Some(ProcessInfo(v.processId, v.processName, v.windowTitle, v.windowHandle));
    }
    var traditional := FindFiveMProcesses(second);
    r := if traditional == [] then None else Some(traditional[0]);
  }

  /** On an unchanged process list a primary process exists exactly when
      some FiveM process was found, and it is one of them. */
  lemma PrimaryExists(procs: seq<OsProcess>, usesVulkan: int -> bool)
    ensures var t := FindAll(procs); var v := VulkanOf(t, usesVulkan);
      var primary := if v != [] then v[0] else if t != [] then t[0] else ProcessInfo(0, "", "", 0);
      && ((v != [] || t != []) <==> t != [])
      && (t != [] ==> primary in t)
  {
    var t := FindAll(procs);
    var v := VulkanOf(t, usesVulkan);
    if v != [] {
      assert v[0] in v;
    }
  }

  /** `IsFiveMRunning`: some process in either enumeration. */
  method IsFiveMRunning(first: seq<OsProcess>, second: seq<OsProcess>, usesVulkan: int -> bool)
    returns (running: bool)
    ensures running <==> FindAll(first) != [] || VulkanOf(FindAll(second), usesVulkan) != []
    ensures first == second ==> (running <==> FindAll(first) != [])
  {
    var traditional := FindFiveMProcesses(first);
    if traditional != [] {
      return true;
    }
    var vulkan := FindVulkanProcesses(second, usesVulkan);
    running := vulkan != [];
  }
}
