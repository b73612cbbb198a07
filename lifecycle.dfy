/*
 * The open/close lifecycle of a HardwareDevice and the body of its
 * acquisition thread, as steps over the session's state. Foreign calls
 * into the driver, calls of the error handler and the thread's write of
 * Stopped are recorded, in order, in `trace`; the calls' outcomes are
 * parameters. The acquisition thread's body is one sequential step taking
 * the outcomes of starting and running the driver session and whether
 * packet handling ran out of memory meanwhile.
 */
module Lifecycle {
  import opened Driver

  datatype AcquisitionState = Stopped | Running

  /** The acquisition thread object: none, spawned (its body not yet
      finished), or finished but not yet joined. */
  datatype AcquisitionThread = NoThread | Spawned | Finished

  predicate Joinable(th: AcquisitionThread)
  {
    th != NoThread
  }

  /** What the error handler receives: the driver's error message, or the
      translated out-of-memory message. */
  datatype Report = DriverErrorReport(what: string) | OutOfMemoryReport

  /** The events of a session, in the order they happen: the foreign calls
      into the driver and the thread library, the acquisition thread's calls
      of the error handler, and the thread's own writes of Stopped. */
  datatype SessionEvent =
    | DeviceOpen | SessionAddDevice | AddDatafeedCallback | SpawnAcquisition
    | RemoveDatafeedCallbacks | SessionStop | JoinAcquisition | SessionRemoveDevices | DeviceClose
    | SessionStart | SessionRun
    | HandlerCalled(report: Report) | StoppedByThread

  datatype Session = Session(
    deviceOpen: bool,
    state: AcquisitionState,
    thread: AcquisitionThread,
    outOfMemory: bool,
    trace: seq<SessionEvent>)

  /** A session between operations: a closed device has no thread and is
      stopped; an open device has a thread to join. */
  predicate Consistent(s: Session)
  {
    (!s.deviceOpen ==> s.state == Stopped && s.thread == NoThread) &&
    (s.deviceOpen ==> Joinable(s.thread))
  }

  /** The calls `close` makes on an open device. */
  function CloseCalls(s: Session): seq<SessionEvent>
  {
    [RemoveDatafeedCallbacks] +
    (if s.state != Stopped then [SessionStop] else []) +
    (if Joinable(s.thread) then [JoinAcquisition] else []) +
    [SessionRemoveDevices, DeviceClose]
  }

  function CloseStep(s: Session): Session
  {
    if !s.deviceOpen then s
    else
      var removed := s.trace + [RemoveDatafeedCallbacks];
      var stopped := if s.state != Stopped then removed + [SessionStop] else removed;
      var joined := if Joinable(s.thread) then stopped + [JoinAcquisition] else stopped;
      Session(false, Stopped, NoThread, s.outOfMemory, joined + [SessionRemoveDevices] + [DeviceClose])
  }

  /** The session after `open`, and the error it throws, if any. */
  datatype OpenResult = OpenResult(session: Session, thrown: Option<string>)

  /** The calls `open` makes after the driver opened the device. */
  const OpenedCalls: seq<SessionEvent> := [SessionAddDevice, AddDatafeedCallback, SpawnAcquisition]

  function OpenStep(s: Session, driverOpen: Outcome): OpenResult
  {
    var c := if s.deviceOpen then CloseStep(s) else s;
    match driverOpen
    case Error(what) => OpenResult(c.(trace := c.trace + [DeviceOpen]), Some(what))
    case Ok =>
      OpenResult(Session(true, Running, Spawned, c.outOfMemory,
                         c.trace + [DeviceOpen] + [SessionAddDevice] + [AddDatafeedCallback] + [SpawnAcquisition]),
                 None)
  }

  /** The session after the acquisition thread's body, and the reports it passes to the error handler, in order. */
  datatype AcquisitionResult = AcquisitionResult(session: Session, reports: seq<Report>)

  function AcquisitionStep(s: Session, start: Outcome, run: Outcome, outOfMemoryDuringRun: bool): AcquisitionResult
  {
    var started := s.(outOfMemory := false, trace := s.trace + [SessionStart]);
    match start
    case Error(what) =>
      AcquisitionResult(started.(thread := Finished, trace := started.trace + [HandlerCalled(DriverErrorReport(what))]),
                        [DriverErrorReport(what)])
    case Ok =>
      var ran := started.(state := Running, trace := started.trace + [SessionRun], outOfMemory := outOfMemoryDuringRun);
      match run
      case Error(what) =>
        var reported := ran.trace + [HandlerCalled(DriverErrorReport(what))];
        AcquisitionResult(ran.(state := Stopped, thread := Finished, trace := reported + [StoppedByThread]),
                          [DriverErrorReport(what)])
      case Ok =>
        var stopped := ran.trace + [StoppedByThread];
        if ran.outOfMemory then
          AcquisitionResult(ran.(state := Stopped, thread := Finished, trace := stopped + [HandlerCalled(OutOfMemoryReport)]),
                            [OutOfMemoryReport])
        else AcquisitionResult(ran.(state := Stopped, thread := Finished, trace := stopped), [])
  }

  /** The reports passed to the error handler among `events`, in order. */
  function HandlerCalls(events: seq<SessionEvent>): seq<Report>
    decreases |events|
  {
    if events == [] then []
    else (if events[0].HandlerCalled? then [events[0].report] else []) + HandlerCalls(events[1..])
  }

  /** `close` on a closed device changes nothing. */
  lemma CloseWhenClosedIsNoop(s: Session)
    requires !s.deviceOpen
    ensures CloseStep(s) == s
  {
  }

  /** After `close` the device is closed, stopped and its thread joined;
      closing again changes nothing. */
  lemma CloseLeavesClosedAndStopped(s: Session)
    requires Consistent(s)
    ensures var c := CloseStep(s);
      !c.deviceOpen && c.state == Stopped && c.thread == NoThread && Consistent(c) && CloseStep(c) == c
  {
  }

  /** Closing a device whose acquisition still runs stops the driver
      session first and then joins the thread, before closing the device. */
  lemma CloseStopsThenJoins(s: Session)
    requires Consistent(s) && s.deviceOpen && s.state == Running
    ensures CloseStep(s).trace == s.trace + [RemoveDatafeedCallbacks, SessionStop, JoinAcquisition, SessionRemoveDevices, DeviceClose]
  {
  }

  /** A driver-open failure is thrown to the caller and leaves the device closed. */
  lemma OpenFailureThrows(s: Session, what: string)
    requires Consistent(s)
    ensures var r := OpenStep(s, Error(what));
      r.thrown == Some(what) && !r.session.deviceOpen && r.session.state == Stopped && Consistent(r.session)
  {
  }

  /** A successful open leaves the device open, running, with a thread spawned. */
  lemma OpenSuccessRuns(s: Session)
    ensures var r := OpenStep(s, Ok);
      r.thrown == None && r.session.deviceOpen && r.session.state == Running &&
      r.session.thread == Spawned && Consistent(r.session)
  {
  }

  /** Opening an open device first closes it: its thread is joined and
      the device closed before the driver opens it again. */
  lemma ReopenClosesFirst(s: Session, driverOpen: Outcome)
    requires Consistent(s) && s.deviceOpen
    ensures JoinAcquisition in CloseCalls(s)
    ensures CloseCalls(s)[|CloseCalls(s)| - 1] == DeviceClose
    ensures OpenStep(s, driverOpen).session.trace ==
      s.trace + CloseCalls(s) + [DeviceOpen] + (if driverOpen.Ok? then OpenedCalls else [])
  {
  }

  /** The order of the acquisition thread's events. A start error is
      reported, nothing runs and the state is left as it was; a run error is
      reported and only then is Stopped written; out-of-memory is reported
      only after a normal end of the run, once Stopped has been written, and
      exactly when the flag was set. */
  lemma AcquisitionOrder(s: Session, start: Outcome, run: Outcome, oom: bool)
    ensures var r := AcquisitionStep(s, start, run, oom);
      r.session.thread == Finished && r.session.deviceOpen == s.deviceOpen
    ensures var r := AcquisitionStep(s, start, run, oom);
      start.Error? ==>
        r.reports == [DriverErrorReport(start.what)] && r.session.state == s.state &&
        r.session.trace == s.trace + [SessionStart, HandlerCalled(DriverErrorReport(start.what))]
    ensures var r := AcquisitionStep(s, start, run, oom);
      start.Ok? && run.Error? ==>
        r.reports == [DriverErrorReport(run.what)] && r.session.state == Stopped &&
        r.session.trace == s.trace + [SessionStart, SessionRun, HandlerCalled(DriverErrorReport(run.what)), StoppedByThread]
    ensures var r := AcquisitionStep(s, start, run, oom);
      start.Ok? && run.Ok? ==>
        r.reports == (if oom then [OutOfMemoryReport] else []) && r.session.state == Stopped &&
        r.session.trace == s.trace + [SessionStart, SessionRun, StoppedByThread] +
          (if oom then [HandlerCalled(OutOfMemoryReport)] else [])
    ensures var r := AcquisitionStep(s, start, run, oom);
      OutOfMemoryReport in r.reports <==> start.Ok? && run.Ok? && oom
  {
  }

  /** The error handler's calls among each event sequence the acquisition thread can append. */
  lemma HandlerCallsOfThreadEvents(what: string)
    ensures HandlerCalls([SessionStart, HandlerCalled(DriverErrorReport(what))]) == [DriverErrorReport(what)]
    ensures HandlerCalls([SessionStart, SessionRun, HandlerCalled(DriverErrorReport(what)), StoppedByThread]) ==
      [DriverErrorReport(what)]
    ensures HandlerCalls([SessionStart, SessionRun, StoppedByThread, HandlerCalled(OutOfMemoryReport)]) == [OutOfMemoryReport]
    ensures HandlerCalls([SessionStart, SessionRun, StoppedByThread]) == []
  {
    var startError := [SessionStart, HandlerCalled(DriverErrorReport(what))];
    assert HandlerCalls(startError) == HandlerCalls(startError[1..]) == [DriverErrorReport(what)];
    var runError := [SessionStart, SessionRun, HandlerCalled(DriverErrorReport(what)), StoppedByThread];
    assert HandlerCalls(runError[3..]) == [];
    assert HandlerCalls(runError[2..]) == [DriverErrorReport(what)] + HandlerCalls(runError[3..]);
    assert HandlerCalls(runError) == HandlerCalls(runError[1..]) == HandlerCalls(runError[2..]);
    var ended := [SessionStart, SessionRun, StoppedByThread];
    assert HandlerCalls(ended[2..]) == [];
    assert HandlerCalls(ended) == HandlerCalls(ended[1..]) == HandlerCalls(ended[2..]);
    var exhausted := ended + [HandlerCalled(OutOfMemoryReport)];
    assert HandlerCalls(exhausted[3..]) == [OutOfMemoryReport];
    assert HandlerCalls(exhausted) == HandlerCalls(exhausted[1..]) == HandlerCalls(exhausted[2..]) == HandlerCalls(exhausted[3..]);
  }

  /** The acquisition thread calls the error handler at most once, it only
      appends to the trace, and the reports it answers are exactly the
      handler calls it appended. */
  lemma AcquisitionReports(s: Session, start: Outcome, run: Outcome, oom: bool)
    ensures var r := AcquisitionStep(s, start, run, oom);
      |r.reports| <= 1 && |s.trace| <= |r.session.trace| && r.session.trace[..|s.trace|] == s.trace &&
      HandlerCalls(r.session.trace[|s.trace|..]) == r.reports
  {
    var r := AcquisitionStep(s, start, run, oom);
    AcquisitionOrder(s, start, run, oom);
    var added := r.session.trace[|s.trace|..];
    assert r.session.trace == s.trace + added;
    if start.Error? {
      HandlerCallsOfThreadEvents(start.what);
      assert added == [SessionStart, HandlerCalled(DriverErrorReport(start.what))];
    } else if run.Error? {
      HandlerCallsOfThreadEvents(run.what);
      assert added == [SessionStart, SessionRun, HandlerCalled(DriverErrorReport(run.what)), StoppedByThread];
    } else if oom {
      HandlerCallsOfThreadEvents("");
      assert added == [SessionStart, SessionRun, StoppedByThread, HandlerCalled(OutOfMemoryReport)];
    } else {
      HandlerCallsOfThreadEvents("");
      assert added == [SessionStart, SessionRun, StoppedByThread];
    }
  }


  /** Every step keeps the session consistent. */
  lemma StepsKeepConsistent(s: Session, o: Outcome, start: Outcome, run: Outcome, oom: bool)
    requires Consistent(s)
    ensures Consistent(CloseStep(s))
    ensures Consistent(OpenStep(s, o).session)
    ensures s.thread == Spawned ==> Consistent(AcquisitionStep(s, start, run, oom).session)
  {
  }
}
