/** The bounded in-memory log both user interfaces keep: a queue that is
    appended to and then trimmed from the front, one entry at a time, until
    it holds no more than its capacity. */
module LogQueue {
  /** The capacity both queues use. */
  const MAX_LOG_ENTRIES: nat := 1000

  /** At most the last `capacity` elements of `s`. */
  function Newest<T>(s: seq<T>, capacity: nat): seq<T> {
    if |s| <= capacity then s else s[|s| - capacity..]
  }

  /** What trimming keeps: no more than the capacity, as many as it allows,
      and always a suffix of the queue, so the oldest are dropped first. */
  lemma NewestIsSuffix<T>(s: seq<T>, capacity: nat)
    ensures |Newest(s, capacity)| == if |s| <= capacity then |s| else capacity
    ensures Newest(s, capacity) == s[|s| - |Newest(s, capacity)|..]
  {
  }

  /** The entry just appended survives the trimming when the capacity is positive. */
  lemma NewestKeepsLatest<T>(s: seq<T>, e: T, capacity: nat)
    requires capacity > 0
    ensures var r := Newest(s + [e], capacity); r != [] && r[|r| - 1] == e
  {
    var t := s + [e];
    var r := Newest(t, capacity);
    assert r == t[|t| - |r|..];
    assert r[|r| - 1] == t[|t| - 1];
  }

  /** Below the capacity nothing is dropped; at the capacity exactly the
      oldest entry is. */
  lemma NewestOnAppend<T>(s: seq<T>, e: T, capacity: nat)
    requires |s| <= capacity
    ensures |s| < capacity ==> Newest(s + [e], capacity) == s + [e]
    ensures |s| == capacity > 0 ==> Newest(s + [e], capacity) == s[1..] + [e]
  {
    if |s| == capacity > 0 {
      assert (s + [e])[1..] == s[1..] + [e];
    }
  }
}
