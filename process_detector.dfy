/** The native process detector: the filter that picks the FiveM client
    processes out of a process snapshot, one pass of the monitor thread
    with its list of known process ids, and the start/stop guards of the
    monitor. The operating system's process enumeration is a snapshot
    given as input, the monitor thread is one call per iteration, and the
    callback is recorded as the sequence of processes it was handed. */
module ProcessDetector {
  import opened Text

  datatype ProcessInfo = ProcessInfo(processId: nat, processName: string, windowTitle: string,
                                     hasVulkanSupport: bool, isVisible: bool)

  /** The executable names the filter looks for. */
  const FiveMNames: seq<string> := [
    "FiveM.exe", "FiveM_b2060.exe", "FiveM_b2189.exe", "FiveM_b2372.exe",
    "FiveM_b2545.exe", "FiveM_b2612.exe", "FiveM_b2699.exe", "FiveM_b2802.exe",
    "FiveM_b2944.exe", "CitizenFX.exe"
  ]

  /** The test of the inner loop: `find(name) != npos || processName == name`. */
  predicate Hit(processName: string, name: string) {
    Contains(processName, name) || processName == name
  }

  /** Some listed name passes the inner loop's test. */
  predicate MatchesAny(processName: string, names: seq<string>) {
    exists j :: 0 <= j < |names| && Hit(processName, names[j])
  }

  /** The equality test adds nothing: a process is kept exactly when one of
      the names occurs in its name. */
  lemma EqualitySubsumed(processName: string, names: seq<string>)
    ensures MatchesAny(processName, names) <==> exists j :: 0 <= j < |names| && Contains(processName, names[j])
  {
    if MatchesAny(processName, names) {
      var j :| 0 <= j < |names| && Hit(processName, names[j]);
      assert processName <= processName;
      assert Contains(processName, names[j]);
    }
  }

  predicate IsFiveM(p: ProcessInfo) {
    MatchesAny(p.processName, FiveMNames)
  }

  /** The processes of `ps` that the filter keeps, in their order. */
  function FiveMOnly(ps: seq<ProcessInfo>): seq<ProcessInfo> {
    if ps == [] then []
    else FiveMOnly(ps[..|ps| - 1]) + (if IsFiveM(ps[|ps| - 1]) then [ps[|ps| - 1]] else [])
  }

  /** `FilterFiveMProcesses`: for each process, the names are tried in turn
      and the first hit keeps the process and ends the inner loop. */
  method FilterFiveMProcesses(all: seq<ProcessInfo>) returns (fivem: seq<ProcessInfo>)
    ensures fivem == FiveMOnly(all)
  {
    fivem := [];
    var i := 0;
    while i < |all|
      invariant 0 <= i <= |all|
      invariant fivem == FiveMOnly(all[..i])
    {
      var process := all[i];
      var j := 0;
      var hit := false;
      while j < |FiveMNames|
        invariant 0 <= j <= |FiveMNames|
        invariant !hit ==> forall t :: 0 <= t < j ==> !Hit(process.processName, FiveMNames[t])
        invariant hit ==> IsFiveM(process)
        decreases |FiveMNames| - j, !hit
      {
        if Hit(process.processName, FiveMNames[j]) {
          hit := true;
          break;
        }
        j := j + 1;
      }
      if hit {
        fivem := fivem + [process];
      }
      assert all[..i + 1][..i] == all[..i];
      i := i + 1;
    }
    assert all[..i] == all;
  }

  /** The filter keeps exactly the FiveM processes, each as often as it occurs. */
  lemma {:induction false} FilterCounts(ps: seq<ProcessInfo>, p: ProcessInfo)
    ensures multiset(FiveMOnly(ps))[p] == if IsFiveM(p) then multiset(ps)[p] else 0
  {
    if ps != [] {
      var init, last := ps[..|ps| - 1], ps[|ps| - 1];
      assert ps == init + [last];
      FilterCounts(init, p);
    }
  }

  /** The filter keeps the order of its input: filtering a concatenation is
      the concatenation of the filtered parts. */
  lemma {:induction false} FilterConcat(a: seq<ProcessInfo>, b: seq<ProcessInfo>)
    ensures FiveMOnly(a + b) == FiveMOnly(a) + FiveMOnly(b)
    decreases |b|
  {
    if b == [] {
      assert a + b == a;
    } else {
      var init, last := b[..|b| - 1], b[|b| - 1];
      assert (a + b)[..|a + b| - 1] == a + init;
      FilterConcat(a, init);
    }
  }

  /** `FindProcessesByName`: the processes whose name contains `name`. */
  function ByName(ps: seq<ProcessInfo>, name: string): (r: seq<ProcessInfo>)
    ensures forall p :: p in r <==> p in ps && Contains(p.processName, name)
  {
    if ps == [] then []
    else
      var rest := ByName(ps[..|ps| - 1], name);
      var last := ps[|ps| - 1];
      assert ps == ps[..|ps| - 1] + [last];
      rest + (if Contains(last.processName, name) then [last] else [])
  }

  /** `FindProcessesByName` over the snapshot `all`: keeps, in order, each
      process whose name contains `name`. */
  method FindProcessesByName(all: seq<ProcessInfo>, name: string) returns (result: seq<ProcessInfo>)
    ensures result == ByName(all, name)
  {
    result := [];
    var i := 0;
    while i < |all|
      invariant 0 <= i <= |all|
      invariant result == ByName(all[..i], name)
    {
      if Contains(all[i].processName, name) {
        result := result + [all[i]];
      }
      assert all[..i + 1][..i] == all[..i];
      i := i + 1;
    }
    assert all[..i] == all;
  }

  /** `ProcessExists(name)`: some process of the snapshot has `name` in its name. */
  function ProcessExistsByName(ps: seq<ProcessInfo>, name: string): (r: bool)
    ensures r <==> exists p :: p in ps && Contains(p.processName, name)
  {
    ByNameWitness(ps, name);
    ByName(ps, name) != []
  }

  lemma ByNameWitness(ps: seq<ProcessInfo>, name: string)
    ensures (exists p :: p in ps && Contains(p.processName, name)) <==> ByName(ps, name) != []
  {
    if ByName(ps, name) != [] {
      assert ByName(ps, name)[0] in ByName(ps, name);
    }
    if exists p :: p in ps && Contains(p.processName, name) {
      var p :| p in ps && Contains(p.processName, name);
      assert p in ByName(ps, name);
    }
  }

  // -------------------------------------------------------------- monitor

  /** The process ids of a snapshot. */
  function Pids(ps: seq<ProcessInfo>): set<nat> {
    set p | p in ps :: p.processId
  }

  predicate NoDuplicates(s: seq<nat>) {
    forall a, b :: 0 <= a < b < |s| ==> s[a] != s[b]
  }

  /** The "new process" part of one iteration: every FiveM process whose
      id is not yet known is added to the known list and handed to the
      callback. The result is the new known list and the processes handed on. */
  function Register(known: seq<nat>, fivem: seq<ProcessInfo>): (seq<nat>, seq<ProcessInfo>)
    decreases |fivem|
  {
    if fivem == [] then (known, [])
    else
      var p := fivem[0];
      if p.processId in known then Register(known, fivem[1..])
      else
        var (k, handed) := Register(known + [p.processId], fivem[1..]);
        (k, [p] + handed)
  }

  /** What one registration pass promises: only unknown ids are handed on,
      each id at most once; the known list grows by exactly the ids handed
      on and so covers every FiveM id of the pass; and it stays free of
      duplicates. */
  lemma {:induction false} RegisterFacts(known: seq<nat>, fivem: seq<ProcessInfo>)
    ensures var (k, handed) := Register(known, fivem);
      && (forall q :: q in handed ==> q in fivem && q.processId !in known)
      && (forall x :: x in k <==> x in known || x in Pids(fivem))
      && (NoDuplicates(known) ==> NoDuplicates(k))
      && |handed| + |known| == |k|
      && (forall a, b :: 0 <= a < b < |handed| ==> handed[a].processId != handed[b].processId)
    decreases |fivem|
  {
    if fivem != [] {
      var p := fivem[0];
      assert fivem == [p] + fivem[1..];
      assert Pids(fivem) == {p.processId} + Pids(fivem[1..]);
      if p.processId in known {
        RegisterFacts(known, fivem[1..]);
      } else {
        var next := known + [p.processId];
        RegisterFacts(next, fivem[1..]);
        var (k, handed) := Register(next, fivem[1..]);
        assert forall q :: q in handed ==> q.processId != p.processId;
      }
    }
  }

  /** `erase(remove_if(...))`: the known ids still present among all the
      processes of the snapshot, in their order. */
  function KeepAlive(known: seq<nat>, alive: set<nat>): (r: seq<nat>)
    ensures forall x :: x in r <==> x in known && x in alive
    ensures NoDuplicates(known) ==> NoDuplicates(r)
  {
    if known == [] then []
    else
      var rest := KeepAlive(known[..|known| - 1], alive);
      var last := known[|known| - 1];
      assert known == known[..|known| - 1] + [last];
      rest + (if last in alive then [last] else [])
  }

  class Detector {
    var monitoring: bool
    var hasCallback: bool
    var knownProcesses: seq<nat>
    /** Every process handed to the callback so far, oldest first. */
    var reported: seq<ProcessInfo>

    constructor ()
      ensures !monitoring && !hasCallback && knownProcesses == [] && reported == []
    {
      monitoring, hasCallback, knownProcesses, reported := false, false, [], [];
    }

    /** `StartMonitoring`: ignored while monitoring; otherwise keeps the
        callback and starts the monitor thread. */
    method StartMonitoring(callback: bool)
      modifies this`monitoring, this`hasCallback
      ensures old(monitoring) ==> monitoring == old(monitoring) && hasCallback == old(hasCallback)
      ensures !old(monitoring) ==> monitoring && hasCallback == callback
    {
      if monitoring {
        return;
      }
      hasCallback := callback;
      monitoring := true;
    }

    /** `StopMonitoring`: ignored when not monitoring; otherwise ends the
        monitor thread and waits for it. */
    method StopMonitoring()
      modifies this`monitoring
      ensures !monitoring
    {
      if !monitoring {
        return;
      }
      monitoring := false;
    }

    /** One pass of `MonitorLoop` over the snapshot `processes`. */
    method MonitorIteration(processes: seq<ProcessInfo>)
      modifies this`knownProcesses, this`reported
      ensures var (k, handed) := Register(old(knownProcesses), FiveMOnly(processes));
        && knownProcesses == KeepAlive(k, Pids(processes))
        && reported == old(reported) + (if hasCallback then handed else [])
    {
      var fivem := FilterFiveMProcesses(processes);
      ReportNew(fivem);
      RemoveDead(Pids(processes));
    }

    /** The first loop of a pass: unknown ids are recorded and their
        processes handed to the callback, if there is one. */
    method ReportNew(fivem: seq<ProcessInfo>)
      modifies this`knownProcesses, this`reported
      ensures var (k, handed) := Register(old(knownProcesses), fivem);
        && knownProcesses == k
        && reported == old(reported) + (if hasCallback then handed else [])
    {
      ghost var target := Register(knownProcesses, fivem);
      ghost var handedSoFar: seq<ProcessInfo> := [];
      var i := 0;
      while i < |fivem|
        invariant 0 <= i <= |fivem|
        invariant target.0 == Register(knownProcesses, fivem[i..]).0
        invariant target.1 == handedSoFar + Register(knownProcesses, fivem[i..]).1
        invariant reported == old(reported) + (if hasCallback then handedSoFar else [])
      {
        var process := fivem[i];
        assert fivem[i..][0] == process && fivem[i..][1..] == fivem[i + 1..];
        if process.processId !in knownProcesses {
          knownProcesses := knownProcesses + [process.processId];
          handedSoFar := handedSoFar + [process];
          if hasCallback {
            reported := reported + [process];
          }
        }
        i := i + 1;
      }
      assert fivem[i..] == [];
    }

    /** The clean-up of a pass: ids no longer in the snapshot are erased. */
    method RemoveDead(alive: set<nat>)
      modifies this`knownProcesses
      ensures knownProcesses == KeepAlive(old(knownProcesses), alive)
    {
      var kept: seq<nat> := [];
      var j := 0;
      while j < |knownProcesses|
        invariant 0 <= j <= |knownProcesses|
        invariant kept == KeepAlive(knownProcesses[..j], alive)
      {
        if knownProcesses[j] in alive {
          kept := kept + [knownProcesses[j]];
        }
        assert knownProcesses[..j + 1][..j] == knownProcesses[..j];
        j := j + 1;
      }
      assert knownProcesses[..j] == knownProcesses;
      knownProcesses := kept;
    }
  }

  /** One monitor pass as a function of the known list and the snapshot:
      the new known list and the processes handed to the callback. */
  function Iterate(known: seq<nat>, processes: seq<ProcessInfo>): (seq<nat>, seq<ProcessInfo>) {
    var (k, handed) := Register(known, FiveMOnly(processes));
    (KeepAlive(k, Pids(processes)), handed)
  }

  /** After a pass every FiveM process of its snapshot is known: none of
      them is reported by the next pass, whatever that pass sees. */
  lemma NoRepeatNextPass(known: seq<nat>, first: seq<ProcessInfo>, second: seq<ProcessInfo>)
    ensures var (k1, handed1) := Iterate(known, first);
      var (_, handed2) := Iterate(k1, second);
      forall p, q :: p in handed1 && q in handed2 ==> p.processId != q.processId
  {
    var fivem := FiveMOnly(first);
    var (k, handed1) := Register(known, fivem);
    var k1 := KeepAlive(k, Pids(first));
    RegisterFacts(known, fivem);
    var (k1', _) := Iterate(known, first);
    RegisterFacts(k1', FiveMOnly(second));
    forall p | p in handed1
      ensures p.processId in k1
    {
      FilterCounts(first, p);
      assert multiset(fivem)[p] > 0;
      assert p in first;
    }
  }

  /** A pass keeps the known list free of duplicates. */
  lemma KnownStaysDistinct(known: seq<nat>, processes: seq<ProcessInfo>)
    requires NoDuplicates(known)
    ensures NoDuplicates(Iterate(known, processes).0)
  {
    RegisterFacts(known, FiveMOnly(processes));
  }

  /** A known id survives a pass exactly when some process of the snapshot,
      FiveM or not, still has it. */
  lemma LivenessAgainstAllProcesses(known: seq<nat>, processes: seq<ProcessInfo>, x: nat)
    requires x in known
    ensures x in Iterate(known, processes).0 <==> exists p :: p in processes && p.processId == x
  {
    RegisterFacts(known, FiveMOnly(processes));
  }
}
