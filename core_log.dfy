/** The core library's static logger: a list of sinks that can be added,
    removed and cleared, and a dispatch that hands each non-empty message
    to every sink in registration order, ignoring any exception a sink
    throws. A sink is an identity; whether its `WriteLog` throws is an
    oracle, and the clock is a parameter: `clock(k)` is the time read for
    the call of the `k`-th sink. The lock is not modelled. */
module CoreLog {
  import opened Wrappers

  datatype LogLevel = Debug | Info | Warning | Error

  /** A registered sink, compared by reference as `List.Remove` does. */
  type SinkId = nat

  /** One call of a sink's `WriteLog`, and whether it threw. */
  datatype Delivery = Delivery(sink: SinkId, level: LogLevel, timestamp: int, message: string, threw: bool)

  /** `List.Remove`: `s` without its first occurrence of `x`. */
  function RemoveFirst(s: seq<SinkId>, x: SinkId): (r: seq<SinkId>)
    ensures x !in s ==> r == s
    ensures x in s ==> |r| == |s| - 1
    ensures multiset(r) == multiset(s) - multiset{x}
  {
    if s == [] then []
    else
      assert s == [s[0]] + s[1..];
      if s[0] == x then s[1..] else [s[0]] + RemoveFirst(s[1..], x)
  }

  /** `RemoveFirst` takes out exactly the first occurrence: what comes
      before it is kept, and so is everything after it, later copies of
      `x` included. */
  lemma {:induction false} RemoveFirstSplits(s: seq<SinkId>, x: SinkId, i: nat)
    requires i < |s| && s[i] == x && x !in s[..i]
    ensures RemoveFirst(s, x) == s[..i] + s[i + 1..]
    decreases i
  {
    if i > 0 {
      assert s[..i] == [s[0]] + s[1..][..i - 1];
      assert s[0] != x && x !in s[1..][..i - 1];
      RemoveFirstSplits(s[1..], x, i - 1);
      assert s[i + 1..] == s[1..][i..];
    }
  }

  /** The calls a dispatch of `message` at `level` makes, one per sink in
      order, whether or not earlier ones threw, each stamped with the time
      read just before it. */
  function Deliveries(sinks: seq<SinkId>, level: LogLevel, clock: nat -> int, message: string,
                      throws: SinkId -> bool): (r: seq<Delivery>)
    ensures |r| == |sinks|
    ensures forall k :: 0 <= k < |sinks| ==>
              r[k] == Delivery(sinks[k], level, clock(k), message, throws(sinks[k]))
  {
    if sinks == [] then []
    else Deliveries(sinks[..|sinks| - 1], level, clock, message, throws)
         + [Delivery(sinks[|sinks| - 1], level, clock(|sinks| - 1), message, throws(sinks[|sinks| - 1]))]
  }

  class Log {
    var sinks: seq<SinkId>
    /** Every `WriteLog` call made so far, oldest first. */
    var delivered: seq<Delivery>

    constructor ()
      ensures sinks == [] && delivered == []
    {
      sinks, delivered := [], [];
    }

    /** Appends a sink; `null` is ignored. */
    method AddSink(sink: Option<SinkId>)
      modifies this`sinks
      ensures sinks == if sink.None? then old(sinks) else old(sinks) + [sink.value]
    {
      if sink.None? {
        return;
      }
      sinks := sinks + [sink.value];
    }

    /** Removes the first registration of a sink; `null` is ignored. */
    method RemoveSink(sink: Option<SinkId>)
      modifies this`sinks
      ensures sinks == if sink.None? then old(sinks) else RemoveFirst(old(sinks), sink.value)
    {
      if sink.None? {
        return;
      }
      sinks := RemoveFirst(sinks, sink.value);
    }

    method ClearSinks()
      modifies this`sinks
      ensures sinks == []
    {
      sinks := [];
    }

    /** Hands a non-empty message to every sink in turn; a sink that throws
        is skipped over. A null or empty message reaches no sink. */
    method LogMessage(level: LogLevel, message: Option<string>, clock: nat -> int, throws: SinkId -> bool)
      modifies this`delivered
      ensures delivered == old(delivered) +
                (if message.None? || message.value == "" then []
                 else Deliveries(sinks, level, clock, message.value, throws))
    {
      if message.None? || message.value == "" {
        return;
      }
      var i := 0;
      while i < |sinks|
        invariant 0 <= i <= |sinks|
        invariant delivered == old(delivered) + Deliveries(sinks[..i], level, clock, message.value, throws)
      {
        var sink := sinks[i];
        // the sink is called; an exception it throws is caught and dropped
        delivered := delivered + [Delivery(sink, level, clock(i), message.value, throws(sink))];
        assert sinks[..i + 1][..i] == sinks[..i];
        i := i + 1;
      }
      assert sinks[..i] == sinks;
    }

    method Info(message: Option<string>, clock: nat -> int, throws: SinkId -> bool)
      modifies this`delivered
      ensures delivered == old(delivered) +
                (if message.None? || message.value == "" then []
                 else Deliveries(sinks, LogLevel.Info, clock, message.value, throws))
    {
      LogMessage(LogLevel.Info, message, clock, throws);
    }

    method Warn(message: Option<string>, clock: nat -> int, throws: SinkId -> bool)
      modifies this`delivered
      ensures delivered == old(delivered) +
                (if message.None? || message.value == "" then []
                 else Deliveries(sinks, LogLevel.Warning, clock, message.value, throws))
    {
      LogMessage(LogLevel.Warning, message, clock, throws);
    }

    method Error(message: Option<string>, clock: nat -> int, throws: SinkId -> bool)
      modifies this`delivered
      ensures delivered == old(delivered) +
                (if message.None? || message.value == "" then []
                 else Deliveries(sinks, LogLevel.Error, clock, message.value, throws))
    {
      LogMessage(LogLevel.Error, message, clock, throws);
    }

    method Debug(message: Option<string>, clock: nat -> int, throws: SinkId -> bool)
      modifies this`delivered
      ensures delivered == old(delivered) +
                (if message.None? || message.value == "" then []
                 else Deliveries(sinks, LogLevel.Debug, clock, message.value, throws))
    {
      LogMessage(LogLevel.Debug, message, clock, throws);
    }
  }
}
