/**
 * The endpoint supervisor (createManagedEndpointSupervisor.ts) as a state machine.
 *
 * A step is one run of synchronous code between two awaits. What the event loop holds on behalf of
 * the supervisor (armed timers, suspended probes, settled start promises) is part of the state, so
 * that runs may resume any of it in any order, or never.
 */
module EndpointModel {
  import opened Options
  import opened ConnectionTypes

  datatype EndpointStatus = EndpointStatus(conn: Status, lastProbe: Option<Probe>)

  /** A probe suspended at its await, with the values its closure captured. */
  datatype Flight = Flight(generation: nat, attempt: int, initial: bool, start: Option<nat>, begun: nat)

  datatype Listener = Subscriber(id: nat) | Waiter(id: nat)

  datatype WaiterState = Pending | Resolved | AuthRejection | TimedOut

  /** The listener set, and what its members have come to. */
  datatype Audience = Audience(
    listeners: set<Listener>,
    subscribers: set<nat>,
    inbox: map<nat, seq<EndpointStatus>>,
    waiters: map<nat, WaiterState>,
    waiterTimers: set<nat>)

  /** What the event loop holds: armed timers with the attempt they captured, suspended probes, settled promises. */
  datatype Loop = Loop(
    armed: map<nat, int>,
    nextTimer: nat,
    flights: map<nat, Flight>,
    nextFlight: nat,
    settledStarts: set<nat>,
    nextStart: nat,
    steps: nat)

  /**
   * History: every published status, the step of the last report, the step that began the probe
   * behind `online`, and the length of the log at the last launching start.
   */
  datatype Past = Past(log: seq<EndpointStatus>, lastReport: nat, provenAt: nat, mark: nat)

  /** The closure's own variables, and the world around them. */
  datatype State = State(
    status: EndpointStatus,
    retryTimer: Option<nat>,
    isStarted: bool,
    isStopped: bool,
    generation: nat,
    pendingInvalidate: bool,
    startInFlight: Option<nat>,
    audience: Audience,
    loop: Loop,
    past: Past)

  const INITIAL := State(
    EndpointStatus(INITIAL_STATUS, None), None, false, false, 0, false, None,
    Audience({}, {}, map[], map[], {}), Loop(map[], 0, map[], 0, {}, 0, 0), Past([], 0, 0, 0))

  function ClearRetryTimer(s: State): State {
    match s.retryTimer
    case None => s
    case Some(id) => s.(retryTimer := None, loop := s.loop.(armed := s.loop.armed - {id}))
  }

  predicate Settles(phase: Phase) {
    phase == Online || phase == AuthFailed
  }

  function Settlement(phase: Phase): WaiterState {
    if phase == Online then Resolved else AuthRejection
  }

  /** Calling some listeners; a waiter's listener removes itself once its phase has come. */
  function NotifySome(a: Audience, called: set<Listener>, next: EndpointStatus): Audience {
    var phase := next.conn.phase;
    Audience(
      (set l | l in a.listeners && !(l in called && l.Waiter? && Settles(phase))),
      a.subscribers,
      (map id | id in a.inbox :: if Subscriber(id) in called then a.inbox[id] + [next] else a.inbox[id]),
      (map id | id in a.waiters :: if Waiter(id) in called && Settles(phase) then Settlement(phase) else a.waiters[id]),
      (set id | id in a.waiterTimers && !(Waiter(id) in called && Settles(phase))))
  }

  /** Calling one listener. */
  function NotifyOne(a: Audience, l: Listener, next: EndpointStatus): Audience
    requires if l.Subscriber? then l.id in a.inbox else l.id in a.waiters
  {
    if l.Subscriber? then a.(inbox := a.inbox[l.id := a.inbox[l.id] + [next]])
    else if Settles(next.conn.phase) then
      a.(listeners := a.listeners - {l}, waiterTimers := a.waiterTimers - {l.id},
         waiters := a.waiters[l.id := Settlement(next.conn.phase)])
    else a
  }

  /** Every listener is called. */
  function Notify(a: Audience, next: EndpointStatus): Audience {
    NotifySome(a, a.listeners, next)
  }

  function Publish(s: State, next: EndpointStatus): State {
    s.(status := next, past := s.past.(log := s.past.log + [next]), audience := Notify(s.audience, next))
  }

  function ArmRetryTimer(s: State, attempt: int): State {
    var l := s.loop;
    s.(retryTimer := Some(l.nextTimer),
       loop := l.(armed := l.armed[l.nextTimer := attempt], nextTimer := l.nextTimer + 1))
  }

  function ScheduleProbe(s: State, attempt: int, delay: real, probe: Probe, now: real): State {
    if s.isStopped then s
    else
      var conn := s.status.conn;
      var reason := ReasonOf(Some(probe), None);
      var offline := Status(Offline, Some(reason), attempt, Some(now + delay), conn.lastConnectedAt,
                            Some(now), ErrorMessage(Some(probe), conn.lastErrorMessage));
      ArmRetryTimer(Publish(ClearRetryTimer(s), EndpointStatus(offline, Some(probe))), attempt)
  }

  /** The promise of a launching `start` settles when the probe it awaits returns. */
  function Finish(s: State, start: Option<nat>): State {
    match start
    case None => s
    case Some(id) => s.(loop := s.loop.(settledStarts := s.loop.settledStarts + {id}))
  }

  function RunProbe(s: State, attempt: int, initial: bool, start: Option<nat>): State {
    var s1 := ClearRetryTimer(s.(generation := s.generation + 1));
    if s1.isStopped then Finish(s1, start)
    else
      var conn := s1.status.conn;
      var connecting := conn.(phase := Connecting, reason := if initial then Some(InitialConnect) else conn.reason,
                              attempt := attempt, nextRetryAt := None, lastErrorMessage := None);
      var s2 := Publish(s1, s1.status.(conn := connecting));
      var l := s2.loop;
      s2.(loop := l.(flights := l.flights[l.nextFlight := Flight(s1.generation, attempt, initial, start, l.steps)],
                     nextFlight := l.nextFlight + 1))
  }

  function RejectAuth(s: State, attempt: int, probe: Probe): State {
    var conn := s.status.conn;
    Publish(s, EndpointStatus(
      conn.(phase := AuthFailed, reason := Some(ReasonOf(Some(probe), None)), attempt := attempt, nextRetryAt := None,
            lastErrorMessage := ErrorMessage(Some(probe), conn.lastErrorMessage)),
      Some(probe)))
  }

  function GoOnline(s: State, f: Flight, now: real): State {
    var conn := s.status.conn;
    var online := Status(Online, if f.initial then Some(InitialConnect) else conn.reason, f.attempt, None, Some(now),
                         conn.lastDisconnectedAt, None);
    var s1 := Publish(s.(past := s.past.(provenAt := f.begun)), EndpointStatus(online, Some(Ready)));
    if s1.pendingInvalidate then RunProbe(s1.(pendingInvalidate := false), s1.status.conn.attempt, false, None) else s1
  }

  /** What the answer of a probe that is still wanted does. */
  function HeedProbe(c: Config, s: State, f: Flight, probe: Probe, now: real, random: real): State {
    match probe
    case AuthRejected(_) => RejectAuth(s, f.attempt, probe)
    case Ready => GoOnline(s, f, now)
    case _ => ScheduleProbe(s, f.attempt + 1, RequestedOr(probe, FastOrBackoff(c, f.attempt + 1, random)), probe, now)
  }

  /** What follows the await of a probe. */
  function ResumeProbe(c: Config, s: State, id: nat, probe: Probe, now: real, random: real): State
    requires id in s.loop.flights
  {
    var f := s.loop.flights[id];
    var s1 := s.(loop := s.loop.(flights := s.loop.flights - {id}));
    var stale := s1.isStopped || f.generation != s1.generation;
    Finish(if stale then s1 else HeedProbe(c, s1, f, probe, now, random), f.start)
  }

  /** Remembers that a caller has cast doubt on what is known. */
  function Report(s: State): State {
    s.(past := s.past.(lastReport := s.loop.steps))
  }

  function Invalidate(s: State): State {
    if s.isStopped then s
    else
      var s1 := Report(s);
      if s1.status.conn.phase == Connecting then s1.(pendingInvalidate := true)
      else RunProbe(s1.(pendingInvalidate := false), s1.status.conn.attempt, false, None)
  }

  function NextAttempt(s: State): int {
    if s.status.conn.attempt + 1 >= 1 then s.status.conn.attempt + 1 else 1
  }

  function ReportFailure(c: Config, s: State, message: Option<string>, now: real, random: real): State {
    if s.isStopped then s
    else
      var s1 := Report(s);
      if s1.status.conn.phase != Online && s1.status.conn.phase != Connecting then s1
      else
        ScheduleProbe(s1.(generation := s1.generation + 1), NextAttempt(s1), FastOrBackoff(c, NextAttempt(s1), random),
                      ServerUnreachable(message), now)
  }

  function ApplyReport(c: Config, s: State, probe: Failure, now: real, random: real): State {
    if probe.AuthRejected? then RejectAuth(s, s.status.conn.attempt, probe)
    else ScheduleProbe(s, NextAttempt(s), RequestedOr(probe, FastOrBackoff(c, NextAttempt(s), random)), probe, now)
  }

  function ReportProbeResult(c: Config, s: State, probe: Failure, now: real, random: real): State {
    if s.isStopped then s
    else
      var s1 := Report(s);
      if s1.status.conn.phase !in {Online, Connecting, Offline} then s1
      else
        var s2 := ClearRetryTimer(s1.(generation := s1.generation + 1)).(pendingInvalidate := false);
        ApplyReport(c, s2, probe, now, random)
  }

  function FireTimer(s: State, id: nat): State
    requires id in s.loop.armed
  {
    RunProbe(s.(loop := s.loop.(armed := s.loop.armed - {id}), retryTimer := None), s.loop.armed[id], false, None)
  }

  /** A launching start: the run of probes that follows counts its failures from here. */
  function Launch(s: State, initial: bool, id: nat): State {
    RunProbe(s.(pendingInvalidate := false, past := s.past.(mark := |s.past.log|)), 0, initial, Some(id))
  }

  function Start(s: State): State {
    if s.startInFlight.Some? && !s.isStopped then s
    else
      var id := s.loop.nextStart;
      var s1 := s.(loop := s.loop.(nextStart := id + 1));
      var s2 :=
        if s1.isStarted && !s1.isStopped then
          if s1.status.conn.phase == Online || s1.status.conn.phase == Connecting then Finish(s1, Some(id))
          else Launch(s1, false, id)
        else Launch(s1.(isStarted := true, isStopped := false), true, id);
      s2.(startInFlight := Some(id))
  }

  function SettleStart(s: State, id: nat): State {
    s.(loop := s.loop.(settledStarts := s.loop.settledStarts - {id}),
       startInFlight := if s.startInFlight == Some(id) then None else s.startInFlight)
  }

  function Stop(s: State): State {
    if s.isStopped then s
    else
      var s1 := ClearRetryTimer(s.(isStopped := true, startInFlight := None, pendingInvalidate := false));
      var conn := s1.status.conn;
      var down := conn.(phase := ShuttingDown, reason := Some(IntentionalShutdown), nextRetryAt := None);
      Publish(s1, s1.status.(conn := down))
  }

  /** A new listener hears the current status at once. */
  function Subscribe(s: State, id: nat): State {
    var a := s.audience;
    s.(audience := a.(
      listeners := a.listeners + {Subscriber(id)},
      subscribers := a.subscribers + {id},
      inbox := a.inbox[id := (if id in a.inbox then a.inbox[id] else []) + [s.status]]))
  }

  function Unsubscribe(s: State, id: nat): State {
    var a := s.audience;
    s.(audience := a.(listeners := a.listeners - {Subscriber(id)}, subscribers := a.subscribers - {id}))
  }

  function WaitUntilOnline(s: State, id: nat, timed: bool): State {
    var a := s.audience;
    var phase := s.status.conn.phase;
    if Settles(phase) then s.(audience := a.(waiters := a.waiters[id := Settlement(phase)]))
    else s.(audience := a.(
      waiters := a.waiters[id := Pending],
      listeners := a.listeners + {Waiter(id)},
      waiterTimers := if timed then a.waiterTimers + {id} else a.waiterTimers))
  }

  function TimeOutWaiter(s: State, id: nat): State {
    var a := s.audience;
    s.(audience := a.(
      listeners := a.listeners - {Waiter(id)},
      waiterTimers := a.waiterTimers - {id},
      waiters := a.waiters[id := TimedOut]))
  }

  datatype Event =
    | CallStart
    | CallStop
    | CallInvalidate
    | CallReportFailure(message: Option<string>, now: real, random: real)
    | CallReportProbeResult(failure: Failure, now: real, random: real)
    | CallSubscribe(id: nat)
    | CallUnsubscribe(id: nat)
    | CallWaitUntilOnline(id: nat, timed: bool)
    | TimerFires(id: nat)
    | ProbeAnswers(id: nat, probe: Probe, now: real, random: real)
    | StartSettles(id: nat)
    | WaiterTimesOut(id: nat)

  /** Only what the event loop holds can resume; a call to wait is a new promise. */
  predicate Enabled(s: State, e: Event) {
    match e
    case TimerFires(id) => id in s.loop.armed
    case ProbeAnswers(id, _, _, _) => id in s.loop.flights
    case StartSettles(id) => id in s.loop.settledStarts
    case WaiterTimesOut(id) => id in s.audience.waiterTimers
    case CallWaitUntilOnline(id, _) => id !in s.audience.waiters
    case _ => true
  }

  function Tick(s: State): State {
    s.(loop := s.loop.(steps := s.loop.steps + 1))
  }

  function Apply(c: Config, s: State, e: Event): State
    requires Enabled(s, e)
  {
    var t := Tick(s);
    match e
    case CallStart => Start(t)
    case CallStop => Stop(t)
    case CallInvalidate => Invalidate(t)
    case CallReportFailure(message, now, random) => ReportFailure(c, t, message, now, random)
    case CallReportProbeResult(failure, now, random) => ReportProbeResult(c, t, failure, now, random)
    case CallSubscribe(id) => Subscribe(t, id)
    case CallUnsubscribe(id) => Unsubscribe(t, id)
    case CallWaitUntilOnline(id, timed) => WaitUntilOnline(t, id, timed)
    case TimerFires(id) => FireTimer(t, id)
    case ProbeAnswers(id, probe, now, random) => ResumeProbe(c, t, id, probe, now, random)
    case StartSettles(id) => SettleStart(t, id)
    case WaiterTimesOut(id) => TimeOutWaiter(t, id)
  }

  /** Events that can happen one after the other. */
  predicate Legal(c: Config, s: State, es: seq<Event>)
    decreases |es|
  {
    es == [] || (Enabled(s, es[0]) && Legal(c, Apply(c, s, es[0]), es[1..]))
  }

  function Run(c: Config, s: State, es: seq<Event>): State
    requires Legal(c, s, es)
    decreases |es|
  {
    if es == [] then s else Run(c, Apply(c, s, es[0]), es[1..])
  }
}
