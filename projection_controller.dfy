/** The loader's projection controller: a running flag, a disposed flag and
    a status, changed by `Start`, `Stop`, `Dispose` and the capture engine's
    error event, with the `StatusChanged` and `Log` events each raises. An
    exception in the guarded part of `Start` or `Stop` is an input: `None`
    when that part completes, `Some(message)` when it throws. */
module ProjectionControl {
  import opened Wrappers
  import opened Text
  import LoaderSettings

  datatype ProjectionStatus = Idle | Starting | Running | Stopping | Error

  /** One raised `StatusChanged`. */
  datatype StatusEvent = StatusEvent(status: ProjectionStatus, message: Option<string>)

  /** One raised `Log`; the timestamp is not modelled. */
  datatype LogLine = LogLine(level: string, message: string)

  datatype State = State(
    running: bool,
    disposed: bool,
    status: ProjectionStatus,
    statusEvents: seq<StatusEvent>,
    logs: seq<LogLine>)

  const INITIAL: State := State(false, false, Idle, [], [])

  /** `SetStatus`: the status is set, then `StatusChanged` raised. */
  function WithStatus(st: State, status: ProjectionStatus, message: Option<string>): (r: State)
    ensures r.status == status && r.running == st.running && r.disposed == st.disposed
    ensures r.statusEvents == st.statusEvents + [StatusEvent(status, message)] && r.logs == st.logs
  {
    st.(status := status, statusEvents := st.statusEvents + [StatusEvent(status, message)])
  }

  function WithLog(st: State, level: string, message: string): (r: State)
    ensures r.logs == st.logs + [LogLine(level, message)]
    ensures r.(logs := st.logs) == st
  {
    st.(logs := st.logs + [LogLine(level, message)])
  }

  /** `Start`. A disposed controller refuses; a running one reports success
      and only logs. Otherwise the flag is set and the status goes to
      Starting, then to Running, or to Error with the flag cleared when the
      guarded part throws. */
  function Started(st: State, settings: LoaderSettings.Values, failure: Option<string>): (State, bool) {
    if st.disposed then (st, false)
    else if st.running then (WithLog(st, "Info", "Projection is already running"), true)
    else
      var s1 := WithStatus(st.(running := true), Starting, Some("Starting projection..."));
      var s2 := WithLog(s1, "Info", "Starting projection/injection system");
      var s3 := if settings.projectionRefreshIntervalMs > 0
                then WithLog(s2, "Info", "Using refresh interval: " + IntToString(settings.projectionRefreshIntervalMs) + "ms")
                else s2;
      if failure.None? then (WithStatus(s3, Running, Some("Monitoring for FiveM processes...")), true)
      else
        var s4 := WithLog(s3, "Error", "Failed to start projection: " + failure.value);
        (WithStatus(s4, Error, Some(failure.value)).(running := false), false)
  }

  /** `Stop`. Nothing when disposed or not running; otherwise the flag is
      cleared first, and the status goes Stopping, then Idle, or Error when
      stopping the monitor, the window or the capture throws. */
  function Stopped(st: State, failure: Option<string>): State {
    if st.disposed || !st.running then st
    else
      var s1 := WithStatus(st.(running := false), Stopping, Some("Stopping projection..."));
      var s2 := WithLog(s1, "Info", "Stopping projection/injection system");
      if failure.None? then
        WithLog(WithStatus(s2, Idle, Some("Projection stopped")), "Info", "Projection stopped successfully")
      else
        WithStatus(WithLog(s2, "Error", "Error while stopping projection: " + failure.value), Error, Some(failure.value))
  }

  /** `Dispose` as written: the flag is set before `Stop` is called, so that
      call returns at once. */
  function Disposed(st: State, failure: Option<string>): State {
    if st.disposed then st else Stopped(st.(disposed := true), failure)
  }

  /** `Dispose` with `Stop` called before the flag is set, as the method's
      intent reads. */
  function DisposeStopping(st: State, failure: Option<string>): State {
    if st.disposed then st else Stopped(st, failure).(disposed := true)
  }

  /** The capture engine's `ErrorOccurred` handler. */
  function CaptureError(st: State, message: string): State {
    WithStatus(WithLog(st, "Error", "Capture error: " + message), Error, Some(message))
  }

  // ---------------------------------------------------------- properties

  /** A disposed controller refuses to start and nothing changes. */
  lemma StartDisposed(st: State, settings: LoaderSettings.Values, failure: Option<string>)
    requires st.disposed
    ensures Started(st, settings, failure) == (st, false)
  {
  }

  /** Starting while running succeeds and changes only the log. */
  lemma StartWhileRunning(st: State, settings: LoaderSettings.Values, failure: Option<string>)
    requires !st.disposed && st.running
    ensures var (r, ok) := Started(st, settings, failure);
      ok && r.running && r.status == st.status && r.statusEvents == st.statusEvents
      && r.logs == st.logs + [LogLine("Info", "Projection is already running")]
  {
  }

  /** From idle, `Start` succeeds exactly when the guarded part completes:
      then it is running with status Running after Starting; otherwise it
      is stopped with status Error after Starting. */
  lemma StartFromIdle(st: State, settings: LoaderSettings.Values, failure: Option<string>)
    requires !st.disposed && !st.running
    ensures var (r, ok) := Started(st, settings, failure);
      && (ok <==> failure.None?)
      && r.running == ok && !r.disposed
      && r.status == (if ok then Running else Error)
      && r.statusEvents == st.statusEvents
           + [StatusEvent(Starting, Some("Starting projection...")),
              if ok then StatusEvent(Running, Some("Monitoring for FiveM processes..."))
              else StatusEvent(Error, Some(failure.value))]
  {
  }

  /** The log of a start from idle: the refresh interval is mentioned only
      when it is positive, and a failure carries the exception's message. */
  lemma StartFromIdleLogs(st: State, settings: LoaderSettings.Values, failure: Option<string>)
    requires !st.disposed && !st.running
    ensures var r := Started(st, settings, failure).0;
      var interval := if settings.projectionRefreshIntervalMs > 0
                      then [LogLine("Info", "Using refresh interval: " + IntToString(settings.projectionRefreshIntervalMs) + "ms")]
                      else [];
      r.logs == st.logs + [LogLine("Info", "Starting projection/injection system")] + interval
                + (if failure.None? then [] else [LogLine("Error", "Failed to start projection: " + failure.value)])
  {
  }

  /** Stop does nothing when disposed or idle. Otherwise it always clears
      the flag and ends at Idle, or at Error when stopping threw. */
  lemma StopEffect(st: State, failure: Option<string>)
    ensures st.disposed || !st.running ==> Stopped(st, failure) == st
    ensures !st.disposed && st.running ==>
              var r := Stopped(st, failure);
              && !r.running && !r.disposed
              && r.status == (if failure.None? then Idle else Error)
              && r.statusEvents == st.statusEvents
                   + [StatusEvent(Stopping, Some("Stopping projection...")),
                      if failure.None? then StatusEvent(Idle, Some("Projection stopped"))
                      else StatusEvent(Error, Some(failure.value))]
  {
  }

  /** Stopping twice is stopping once. */
  lemma StopIdempotent(st: State, f1: Option<string>, f2: Option<string>)
    ensures Stopped(Stopped(st, f1), f2) == Stopped(st, f1)
  {
  }

  /** As written, a running controller is still running after `Dispose`, and
      its status and events are as before. */
  lemma DisposeLeavesRunning(st: State, failure: Option<string>)
    requires !st.disposed && st.running
    ensures Disposed(st, failure) == st.(disposed := true)
    ensures Disposed(st, failure).running
  {
  }

  /** Disposing twice is disposing once, and a disposed controller no longer
      starts. */
  lemma DisposeIdempotent(st: State, f1: Option<string>, f2: Option<string>,
                          settings: LoaderSettings.Values, f3: Option<string>)
    ensures Disposed(Disposed(st, f1), f2) == Disposed(st, f1)
    ensures Disposed(st, f1).disposed
    ensures Started(Disposed(st, f1), settings, f3) == (Disposed(st, f1), false)
  {
  }

  /** With `Stop` first, a disposed controller is never running and a
      running one is stopped exactly as `Stop` stops it. */
  lemma DisposeStoppingStops(st: State, failure: Option<string>)
    ensures !DisposeStopping(st, failure).running || st.disposed
    ensures DisposeStopping(st, failure).disposed
    ensures !st.disposed ==> DisposeStopping(st, failure) == Stopped(st, failure).(disposed := true)
    ensures DisposeStopping(DisposeStopping(st, failure), failure) == DisposeStopping(st, failure)
  {
  }

  /** A capture error sets status Error and leaves the running flag. */
  lemma CaptureErrorKeepsRunning(st: State, message: string)
    ensures CaptureError(st, message).status == Error
    ensures CaptureError(st, message).running == st.running
    ensures CaptureError(st, message).disposed == st.disposed
  {
  }

  /** A controller that is running always had a Starting event: the
      running flag is only set together with one. */
  predicate RunningHasStarted(st: State) {
    st.running ==> StatusEvent(Starting, Some("Starting projection...")) in st.statusEvents
  }

  lemma OperationsKeepStarted(st: State, settings: LoaderSettings.Values, failure: Option<string>, message: string)
    requires RunningHasStarted(st)
    ensures RunningHasStarted(Started(st, settings, failure).0)
    ensures RunningHasStarted(Stopped(st, failure))
    ensures RunningHasStarted(Disposed(st, failure))
    ensures RunningHasStarted(CaptureError(st, message))
  {
  }

  // --------------------------------------------------------------- class

  class ProjectionController {
    var isRunning: bool
    var isDisposed: bool
    var currentStatus: ProjectionStatus
    /** The `StatusChanged` events raised so far. */
    var statusEvents: seq<StatusEvent>
    /** The `Log` events raised so far. */
    var logs: seq<LogLine>

    function Snapshot(): State
      reads this
    {
      State(isRunning, isDisposed, currentStatus, statusEvents, logs)
    }

    constructor ()
      ensures Snapshot() == INITIAL
    {
      isRunning, isDisposed, currentStatus, statusEvents, logs := false, false, Idle, [], [];
    }

    method SetStatus(status: ProjectionStatus, message: Option<string>)
      modifies this`currentStatus, this`statusEvents
      ensures Snapshot() == WithStatus(old(Snapshot()), status, message)
    {
      currentStatus := status;
      statusEvents := statusEvents + [StatusEvent(status, message)];
    }

    method EmitLog(level: string, message: string)
      modifies this`logs
      ensures Snapshot() == WithLog(old(Snapshot()), level, message)
    {
      logs := logs + [LogLine(level, message)];
    }

    method Start(settings: LoaderSettings.Values, failure: Option<string>) returns (ok: bool)
      modifies this`isRunning, this`currentStatus, this`statusEvents, this`logs
      ensures (Snapshot(), ok) == Started(old(Snapshot()), settings, failure)
    {
      if isDisposed {
        return false;
      }
      if isRunning {
        EmitLog("Info", "Projection is already running");
        return true;
      }
      isRunning := true;
      SetStatus(Starting, Some("Starting projection..."));
      EmitLog("Info", "Starting projection/injection system");
      if settings.projectionRefreshIntervalMs > 0 {
        EmitLog("Info", "Using refresh interval: " + IntToString(settings.projectionRefreshIntervalMs) + "ms");
      }
      if failure.None? {
        SetStatus(Running, Some("Monitoring for FiveM processes..."));
        return true;
      }
      EmitLog("Error", "Failed to start projection: " + failure.value);
      SetStatus(Error, Some(failure.value));
      isRunning := false;
      return false;
    }

    method Stop(failure: Option<string>)
      modifies this`isRunning, this`currentStatus, this`statusEvents, this`logs
      ensures Snapshot() == Stopped(old(Snapshot()), failure)
    {
      if isDisposed {
        return;
      }
      if !isRunning {
        return;
      }
      isRunning := false;
      SetStatus(Stopping, Some("Stopping projection..."));
      EmitLog("Info", "Stopping projection/injection system");
      if failure.None? {
        SetStatus(Idle, Some("Projection stopped"));
        EmitLog("Info", "Projection stopped successfully");
      } else {
        EmitLog("Error", "Error while stopping projection: " + failure.value);
        SetStatus(Error, Some(failure.value));
      }
    }

    method Dispose(failure: Option<string>)
      modifies this`isDisposed, this`isRunning, this`currentStatus, this`statusEvents, this`logs
      ensures Snapshot() == Disposed(old(Snapshot()), failure)
    {
      if isDisposed {
        return;
      }
      isDisposed := true;
      Stop(failure);
    }

    method OnCaptureError(message: string)
      modifies this`currentStatus, this`statusEvents, this`logs
      ensures Snapshot() == CaptureError(old(Snapshot()), message)
    {
      EmitLog("Error", "Capture error: " + message);
      SetStatus(Error, Some(message));
    }
  }
}
