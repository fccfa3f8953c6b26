/** The WPF application's logging service: a queue of at most 1000 entries
    and a `LogEntryAdded` event raised once per new entry. The clock is a
    parameter, and the console logger the service also creates is not
    modelled. */
module GuiLogging {
  import opened Wrappers
  import opened LogQueue

  /** `Microsoft.Extensions.Logging.LogLevel`. */
  datatype LogLevel = Trace | Debug | Information | Warning | Error | Critical | None

  datatype LogEntry = LogEntry(timestamp: int, level: LogLevel, message: string, source: string)

  /** The source a caller that names none is credited with. */
  const DEFAULT_SOURCE: string := "System"

  /** The entry `AddLogEntry` builds: a missing source becomes "System". */
  function MakeEntry(now: int, level: LogLevel, message: string, source: Option<string>): (e: LogEntry)
    ensures e.timestamp == now && e.level == level && e.message == message
    ensures source.Some? ==> e.source == source.value
    ensures source.None? ==> e.source == DEFAULT_SOURCE
  {
    LogEntry(now, level, message, if source.Some? then source.value else DEFAULT_SOURCE)
  }

  /** One raised `LogEntryAdded`: the entry it carries and the queue a
      handler would see at that moment. */
  datatype Notification = Notification(entry: LogEntry, queue: seq<LogEntry>)

  class LoggingService {
    var logEntries: seq<LogEntry>
    /** The `LogEntryAdded` events raised so far, oldest first. */
    var notifications: seq<Notification>

    constructor ()
      ensures logEntries == [] && notifications == []
    {
      logEntries, notifications := [], [];
    }

    /** Appends the entry, drops the oldest until at most 1000 remain, then
        raises `LogEntryAdded` with the entry. */
    method AddLogEntry(level: LogLevel, message: string, source: Option<string>, now: int)
      modifies this
      ensures logEntries == Newest(old(logEntries) + [MakeEntry(now, level, message, source)], MAX_LOG_ENTRIES)
      ensures notifications == old(notifications) + [Notification(MakeEntry(now, level, message, source), logEntries)]
    {
      var entry := MakeEntry(now, level, message, source);
      logEntries := logEntries + [entry];
      ghost var full := logEntries;
      while |logEntries| > MAX_LOG_ENTRIES
        invariant |logEntries| >= MAX_LOG_ENTRIES || logEntries == full
        invariant logEntries == full[|full| - |logEntries|..]
        invariant notifications == old(notifications)
        decreases |logEntries|
      {
        logEntries := logEntries[1..];
      }
      notifications := notifications + [Notification(entry, logEntries)];
    }

    /** A copy of the log, oldest first. */
    method GetLogEntries() returns (entries: seq<LogEntry>)
      ensures entries == logEntries
    {
      entries := logEntries;
    }
  }

  /** Every notification carries an entry the queue it describes ends with:
      the event comes after the trimming, and the trimming kept the entry. */
  lemma NotifiedEntryIsNewest(before: seq<LogEntry>, e: LogEntry)
    ensures var q := Newest(before + [e], MAX_LOG_ENTRIES); q != [] && q[|q| - 1] == e && |q| <= MAX_LOG_ENTRIES
  {
    NewestKeepsLatest(before, e, MAX_LOG_ENTRIES);
    NewestIsSuffix(before + [e], MAX_LOG_ENTRIES);
  }
}
