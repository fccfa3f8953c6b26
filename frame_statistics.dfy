/** Frame timing statistics over a ring buffer of the last `bufferSize`
    frame intervals (milliseconds), with the drop count, the instantaneous
    and average frame rate, the 95th percentile frame time and a summary
    line. Intervals are `real`s: rounding of IEEE doubles is not modelled. */
module Diagnostics {
  import opened Wrappers
  import opened Text

  /** A frame counts as dropped when it took more than 1.5 times its target. */
  predicate IsDropped(deltaMs: real, targetIntervalMs: real) {
    deltaMs > targetIntervalMs * 1.5
  }

  function Sum(s: seq<real>): real {
    if s == [] then 0.0 else Sum(s[..|s| - 1]) + s[|s| - 1]
  }

  lemma {:induction false} SumNonNegative(s: seq<real>)
    requires forall i :: 0 <= i < |s| ==> s[i] >= 0.0
    ensures Sum(s) >= 0.0
  {
    if s != [] {
      SumNonNegative(s[..|s| - 1]);
    }
  }

  lemma {:induction false} SumPositive(s: seq<real>)
    requires s != [] && forall i :: 0 <= i < |s| ==> s[i] > 0.0
    ensures Sum(s) > 0.0
  {
    SumNonNegative(s[..|s| - 1]);
  }

  lemma {:induction false} SumConstant(s: seq<real>, d: real)
    requires forall i :: 0 <= i < |s| ==> s[i] == d
    ensures Sum(s) == |s| as real * d
  {
    if s != [] {
      SumConstant(s[..|s| - 1], d);
    }
  }

  predicate SortedReals(s: seq<real>) {
    forall i, j :: 0 <= i < j < |s| ==> s[i] <= s[j]
  }

  /** Every value of `r` is a value of `t` or `x`, so a lower bound of both bounds `r`. */
  lemma LowerBound(b: real, x: real, t: seq<real>, r: seq<real>)
    requires multiset(r) == multiset(t) + multiset{x}
    requires b <= x && forall k :: 0 <= k < |t| ==> b <= t[k]
    ensures forall k :: 0 <= k < |r| ==> b <= r[k]
  {
    forall k | 0 <= k < |r|
      ensures b <= r[k]
    {
      assert r[k] in multiset(r);
      if r[k] != x {
        assert r[k] in multiset(t);
      }
    }
  }

  lemma ConsSorted(x: real, s: seq<real>)
    requires SortedReals(s) && forall k :: 0 <= k < |s| ==> x <= s[k]
    ensures SortedReals([x] + s)
  {
  }

  /** Inserts `x` into a sorted sequence. */
  function InsertReal(x: real, s: seq<real>): (r: seq<real>)
    requires SortedReals(s)
    ensures SortedReals(r) && multiset(r) == multiset(s) + multiset{x}
  {
    if s == [] then [x]
    else if x <= s[0] then
      ConsSorted(x, s);
      [x] + s
    else
      var rest := InsertReal(x, s[1..]);
      assert s == [s[0]] + s[1..];
      LowerBound(s[0], x, s[1..], rest);
      ConsSorted(s[0], rest);
      [s[0]] + rest
  }

  /** `OrderBy(x => x)`: the same values in ascending order. */
  function SortReals(s: seq<real>): (r: seq<real>)
    ensures SortedReals(r) && multiset(r) == multiset(s) && |r| == |s|
  {
    if s == [] then []
    else
      assert s == [s[0]] + s[1..];
      InsertReal(s[0], SortReals(s[1..]))
  }

  /** `Math.Max(lo, Math.Min(k, hi))`. */
  function Clamp(k: int, lo: int, hi: int): (r: int)
    requires lo <= hi
    ensures lo <= r <= hi
    ensures lo <= k <= hi ==> r == k
  {
    if k < lo then lo else if k > hi then hi else k
  }

  /** `(int)Math.Ceiling(0.95 * n) - 1`, clamped into [0, n - 1]. */
  function P95Index(n: nat): (r: nat)
    requires n > 0
    ensures r < n
    // the smallest index at or below which lie at least 95% of n values
    ensures 20 * (r + 1) >= 19 * n && (r == 0 || 20 * r < 19 * n)
  {
    var ceiling := (19 * n + 19) / 20;
    Clamp(ceiling - 1, 0, n - 1)
  }

  /** The value at `P95Index` of the sorted values. */
  function Percentile95(w: seq<real>): (r: real)
    requires w != []
    ensures r in multiset(w)
    // at least 95% of the values lie at or below the result, and the rest at or above it
    ensures var s := SortReals(w); var k := P95Index(|w|);
      s[k] == r && (forall i :: 0 <= i <= k ==> s[i] <= r) && (forall i :: k <= i < |s| ==> s[i] >= r)
  {
    var sorted := SortReals(w);
    var k := P95Index(|w|);
    assert sorted[k] in multiset(sorted);
    SortedAround(sorted, k);
    sorted[k]
  }

  lemma SortedAround(s: seq<real>, k: nat)
    requires SortedReals(s) && k < |s|
    ensures forall i :: 0 <= i <= k ==> s[i] <= s[k]
    ensures forall i :: k <= i < |s| ==> s[i] >= s[k]
  {
  }

  /** `a % m` for `0 <= a`, `0 < m`: the `r` with `a == q * m + r`, `0 <= r < m`. */
  lemma ModOf(a: int, m: int, q: int, r: int)
    requires m > 0 && 0 <= r < m && a == q * m + r
    ensures a % m == r
  {
    var q0 := a / m;
    var r0 := a % m;
    assert a == q0 * m + r0;
    assert (q - q0) * m == r0 - r;
    if q > q0 {
      MulAtLeast(q - q0, m);
    } else if q < q0 {
      MulAtLeast(q0 - q, m);
    }
  }

  lemma {:induction false} MulAtLeast(d: int, m: int)
    requires d >= 1 && m > 0
    ensures d * m >= m
    decreases d
  {
    if d > 1 {
      MulAtLeast(d - 1, m);
      assert d * m == (d - 1) * m + m;
    }
  }

  /** One step of the ring: the write index advances by one, wrapping to 0,
      and the slot before the new index is the one just written. */
  lemma RingStep(total: nat, w: nat, b: nat)
    requires 0 <= w < b && w == total % b
    ensures (w + 1) % b == (total + 1) % b
    ensures ((w + 1) % b - 1 + b) % b == w
  {
    var q := total / b;
    assert total == q * b + w;
    if w + 1 < b {
      ModOf(w + 1, b, 0, w + 1);
      ModOf(total + 1, b, q, w + 1);
      ModOf(w + b, b, 1, w);
    } else {
      ModOf(w + 1, b, 1, 0);
      ModOf(total + 1, b, q + 1, 0);
      ModOf(b - 1, b, 0, w);
    }
  }

  const NO_DATA: string := "No frame data available"

  class FrameStatistics {
    const bufferSize: nat
    const frameIntervals: array<real>
    const targetIntervals: array<real>
    var writeIndex: nat
    var totalFrames: nat
    var droppedFrames: nat

    /** The ring invariant: two buffers of `bufferSize` slots, the write index
        is the number of frames recorded modulo the size, and at most every
        frame was dropped. */
    predicate Valid()
      reads this
    {
      bufferSize > 0 && frameIntervals.Length == bufferSize && targetIntervals.Length == bufferSize
      && frameIntervals != targetIntervals
      && writeIndex < bufferSize && writeIndex == totalFrames % bufferSize
      && droppedFrames <= totalFrames
    }

    constructor (bufferSize: nat)
      requires bufferSize > 0
      ensures Valid() && fresh(frameIntervals) && fresh(targetIntervals)
      ensures this.bufferSize == bufferSize && totalFrames == 0 && droppedFrames == 0 && writeIndex == 0
      ensures frameIntervals[..] == seq(bufferSize, _ => 0.0) && targetIntervals[..] == seq(bufferSize, _ => 0.0)
    {
      this.bufferSize := bufferSize;
      frameIntervals := new real[bufferSize](_ => 0.0);
      targetIntervals := new real[bufferSize](_ => 0.0);
      writeIndex := 0;
      totalFrames := 0;
      droppedFrames := 0;
    }

    /** The slots the window statistics range over: the first `min(total, size)`. */
    function Window(): (w: seq<real>)
      reads this, frameIntervals
      requires Valid()
      ensures |w| == if totalFrames < bufferSize then totalFrames else bufferSize
      ensures totalFrames == 0 <==> w == []
    {
      frameIntervals[..if totalFrames < bufferSize then totalFrames else bufferSize]
    }

    method RecordFrame(deltaMs: real, targetIntervalMs: real)
      requires Valid()
      modifies this, frameIntervals, targetIntervals
      ensures Valid()
      ensures frameIntervals[..] == old(frameIntervals[..])[old(writeIndex) := deltaMs]
      ensures targetIntervals[..] == old(targetIntervals[..])[old(writeIndex) := targetIntervalMs]
      ensures totalFrames == old(totalFrames) + 1
      ensures droppedFrames == old(droppedFrames) + (if IsDropped(deltaMs, targetIntervalMs) then 1 else 0)
      // the frame just recorded is the one the instantaneous rate reads
      ensures InstantFps() == if deltaMs > 0.0 then 1000.0 / deltaMs else 0.0
    {
      frameIntervals[writeIndex] := deltaMs;
      targetIntervals[writeIndex] := targetIntervalMs;
      RingStep(totalFrames, writeIndex, bufferSize);
      writeIndex := (writeIndex + 1) % bufferSize;
      totalFrames := totalFrames + 1;
      if IsDropped(deltaMs, targetIntervalMs) {
        droppedFrames := droppedFrames + 1;
      }
    }

    /** 1000 / the most recent interval; 0 with no frames or a non-positive interval. */
    function InstantFps(): (r: real)
      reads this, frameIntervals
      requires Valid()
      ensures totalFrames == 0 ==> r == 0.0
      ensures var last := frameIntervals[(writeIndex + bufferSize - 1) % bufferSize];
        (totalFrames > 0 && last > 0.0 ==> r * last == 1000.0)
        && (totalFrames > 0 && last <= 0.0 ==> r == 0.0)
    {
      if totalFrames == 0 then 0.0
      else
        var lastInterval := frameIntervals[(writeIndex - 1 + bufferSize) % bufferSize];
        if lastInterval > 0.0 then 1000.0 / lastInterval else 0.0
    }

    /** 1000 / the mean interval of the window. */
    function AverageFps(): (r: real)
      reads this, frameIntervals
      requires Valid()
      ensures totalFrames == 0 ==> r == 0.0
      ensures var w := Window(); w != [] && Sum(w) > 0.0 ==> r * (Sum(w) / |w| as real) == 1000.0
      ensures var w := Window(); (w == [] || Sum(w) <= 0.0) ==> r == 0.0
    {
      if totalFrames == 0 then 0.0
      else
        var window := Window();
        var avgInterval := Sum(window) / |window| as real;
        if avgInterval > 0.0 then 1000.0 / avgInterval else 0.0
    }

    /** The 95th percentile of the window: the value at `P95Index` once sorted. */
    function P95FrameTimeMs(): (r: real)
      reads this, frameIntervals
      requires Valid()
      ensures totalFrames == 0 ==> r == 0.0
      ensures totalFrames > 0 ==> r == Percentile95(Window())
    {
      if totalFrames == 0 then 0.0 else Percentile95(Window())
    }

    /** dropped / total as a percentage. */
    function DropRate(): (r: real)
      reads this
      requires Valid()
      ensures 0.0 <= r <= 100.0
      ensures totalFrames == 0 ==> r == 0.0
      ensures totalFrames > 0 ==> r * totalFrames as real == droppedFrames as real * 100.0
    {
      if totalFrames > 0 then (droppedFrames as real / totalFrames as real) * 100.0 else 0.0
    }

    method Reset()
      requires Valid()
      modifies this, frameIntervals, targetIntervals
      ensures Valid()
      ensures writeIndex == 0 && totalFrames == 0 && droppedFrames == 0
      ensures frameIntervals[..] == seq(bufferSize, _ => 0.0) && targetIntervals[..] == seq(bufferSize, _ => 0.0)
    {
      var i := 0;
      while i < bufferSize
        invariant 0 <= i <= bufferSize
        invariant forall k :: 0 <= k < i ==> frameIntervals[k] == 0.0 && targetIntervals[k] == 0.0
      {
        frameIntervals[i] := 0.0;
        targetIntervals[i] := 0.0;
        i := i + 1;
      }
      writeIndex := 0;
      totalFrames := 0;
      droppedFrames := 0;
    }

    /** `GetSummary`, with the `F1` rendering of a real as the parameter `f1`. */
    function Summary(f1: real -> string): (r: string)
      reads this, frameIntervals
      requires Valid()
      ensures totalFrames == 0 <==> r == NO_DATA
      ensures totalFrames > 0 ==> |r| >= 5 && r[..5] == "FPS: "
    {
      if totalFrames == 0 then NO_DATA
      else
        var r := "FPS: " + f1(InstantFps()) + " (avg: " + f1(AverageFps()) + ") | "
          + "P95: " + f1(P95FrameTimeMs()) + "ms | "
          + "Dropped: " + NatToString(droppedFrames) + "/" + NatToString(totalFrames) + " (" + f1(DropRate()) + "%)";
        assert r[..5] == "FPS: ";
        assert r[0] != NO_DATA[0];
        r
    }
  }

  /** `new FrameStatistics(bufferSize)`: a size of zero or less is rejected. */
  method Create(bufferSize: int) returns (r: Result<FrameStatistics, string>)
    ensures r.Failure? <==> bufferSize <= 0
    ensures r.Failure? ==> r.error == "Buffer size must be positive"
    ensures r.Success? ==> fresh(r.value) && r.value.Valid() && r.value.totalFrames == 0 && r.value.bufferSize == bufferSize
  {
    if bufferSize <= 0 {
      return Failure("Buffer size must be positive");
    }
    var stats := new FrameStatistics(bufferSize);
    return Success(stats);
  }

  /** The buffer size the constructor's optional parameter defaults to. */
  const DEFAULT_BUFFER_SIZE: int := 240

  /** `new FrameStatistics()`: a ring of the default size. */
  method CreateDefault() returns (stats: FrameStatistics)
    ensures fresh(stats) && stats.Valid() && stats.totalFrames == 0 && stats.bufferSize == DEFAULT_BUFFER_SIZE
  {
    var r := Create(DEFAULT_BUFFER_SIZE);
    stats := r.value;
  }

  /** Steady frames of `d` ms give an average rate of 1000 / d. */
  lemma {:induction false} SteadyAverage(stats: FrameStatistics, d: real)
    requires stats.Valid() && stats.totalFrames > 0 && d > 0.0
    requires forall i :: 0 <= i < |stats.Window()| ==> stats.Window()[i] == d
    ensures stats.AverageFps() * d == 1000.0
  {
    var w := stats.Window();
    SumConstant(w, d);
    assert Sum(w) / |w| as real == d;
  }
}
