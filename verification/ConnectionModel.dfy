/**
 * The connection supervisor (createManagedConnectionSupervisor.ts) as a state machine.
 *
 * As in EndpointModel, a step is one run of synchronous code between two awaits. Transports are
 * numbered in the order of their creation; a transport calls its listeners only while they are attached.
 */
module ConnectionModel {
  import opened Options
  import opened ConnectionTypes

  datatype HookKind = OnConnected | OnDisconnected | OnError

  /** One listener attached to one transport. */
  datatype Hook = Hook(transport: nat, kind: HookKind)

  /** What the listeners of a transport captured when it was created. */
  datatype Origin = Origin(generation: nat, initial: bool, attempt: int)

  /** How far the teardown of a transport has come. */
  datatype Teardown = Disconnecting(intentional: bool) | Destroying | Gone

  /** A suspended continuation, with the values its closure captured. */
  datatype Frame =
    | AwaitCleanup(generation: nat, initial: bool, attempt: int, torn: nat, start: Option<nat>)
    | AwaitInitialProbe(generation: nat, attempt: int, start: Option<nat>)
    | AwaitConnect(generation: nat, start: Option<nat>)
    | AwaitReportCleanup(generation: nat, failure: Failure, awaited: Option<nat>, start: Option<nat>)
    | AwaitReconnectProbe(generation: nat, attempt: int)
    | AwaitBeforeReconnect(generation: nat, attempt: int)
    | AwaitDisconnectNotice(generation: nat, attempt: int, intentional: bool)
    | AwaitAuthNotice(generation: nat, start: Option<nat>)

  /** What the event loop holds: armed timers with the attempt they captured, suspended frames, settled promises. */
  datatype Loop = Loop(
    armed: map<nat, int>,
    nextTimer: nat,
    frames: map<nat, Frame>,
    nextFrame: nat,
    settledStarts: set<nat>,
    nextStart: nat)

  /** Every transport created so far, the listeners attached, and the teardowns begun. */
  datatype World = World(
    origins: map<nat, Origin>,
    nextTransport: nat,
    hooks: set<Hook>,
    teardowns: map<nat, Teardown>)

  /**
   * History: every published status, the transports handed to cleanup, and the generations of the
   * reconnects that reached `establishConnection`.
   */
  datatype Past = Past(log: seq<Status>, handed: seq<nat>, winners: seq<nat>)

  datatype State = State(
    status: Status,
    currentTransport: Option<nat>,
    retryTimer: Option<nat>,
    isStarted: bool,
    isStopped: bool,
    reconnectAttempt: int,
    generation: nat,
    detachCurrentListeners: seq<Hook>,
    startInFlight: Option<nat>,
    world: World,
    loop: Loop,
    past: Past)

  const INITIAL := State(
    INITIAL_STATUS, None, None, false, false, 0, 0, [], None,
    World(map[], 0, {}, map[]), Loop(map[], 0, map[], 0, {}, 0), Past([], [], []))

  function Publish(s: State, next: Status): State {
    s.(status := next, past := s.past.(log := s.past.log + [next]))
  }

  function ClearRetryTimer(s: State): State {
    match s.retryTimer
    case None => s
    case Some(id) => s.(retryTimer := None, loop := s.loop.(armed := s.loop.armed - {id}))
  }

  function Suspend(s: State, f: Frame): State {
    s.(loop := s.loop.(frames := s.loop.frames[s.loop.nextFrame := f], nextFrame := s.loop.nextFrame + 1))
  }

  /** The promise of a `start` settles when the chain of awaits behind it returns. */
  function Finish(s: State, start: Option<nat>): State {
    match start
    case None => s
    case Some(id) => s.(loop := s.loop.(settledStarts := s.loop.settledStarts + {id}))
  }

  function HooksOf(t: nat): seq<Hook> {
    [Hook(t, OnConnected), Hook(t, OnDisconnected), Hook(t, OnError)]
  }

  /** The synchronous part of cleanupTransport; the teardown then proceeds on its own. */
  function CleanupTransport(s: State, intentional: bool): State {
    var w := s.world;
    var w1 := w.(hooks := w.hooks - (set h | h in s.detachCurrentListeners));
    var s1 := s.(currentTransport := None, detachCurrentListeners := [], world := w1);
    match s.currentTransport
    case None => s1
    case Some(t) =>
      s1.(world := w1.(teardowns := w1.teardowns[t := Disconnecting(intentional)]),
          past := s.past.(handed := s.past.handed + [t]))
  }

  function ScheduleReconnect(s: State, attempt: int, delay: real, probe: Option<Probe>, now: real): State {
    if s.isStopped then s
    else
      var offline := s.status.(phase := Offline, reason := Some(ReasonOf(probe, None)), attempt := attempt,
                               nextRetryAt := Some(now + delay),
                               lastErrorMessage := ErrorMessage(probe, s.status.lastErrorMessage));
      var s1 := Publish(ClearRetryTimer(s), offline);
      var l := s1.loop;
      s1.(retryTimer := Some(l.nextTimer),
          loop := l.(armed := l.armed[l.nextTimer := attempt], nextTimer := l.nextTimer + 1))
  }

  function RejectAuth(s: State, attempt: int, probe: Probe): State {
    Publish(s, s.status.(phase := AuthFailed, reason := Some(ReasonOf(Some(probe), None)), attempt := attempt,
                         nextRetryAt := None, lastErrorMessage := ErrorMessage(Some(probe), s.status.lastErrorMessage)))
  }

  /** Creates, adopts and wires a transport, and begins to connect it. */
  function OpenTransport(s: State, generation: nat, initial: bool, attempt: int, start: Option<nat>): State {
    var t := s.world.nextTransport;
    var w := s.world.(origins := s.world.origins[t := Origin(generation, initial, attempt)], nextTransport := t + 1,
                      hooks := s.world.hooks + (set h | h in HooksOf(t)));
    var s1 := s.(currentTransport := Some(t), detachCurrentListeners := HooksOf(t), world := w);
    var connecting := s.status.(phase := Connecting,
                                reason := if initial then Some(InitialConnect) else s.status.reason,
                                attempt := attempt, nextRetryAt := None, lastErrorMessage := None);
    Suspend(Publish(s1, connecting), AwaitConnect(generation, start))
  }

  /** The part of establishConnection behind its cleanup; the generation is not checked here. */
  function AfterCleanup(c: Config, s: State, generation: nat, initial: bool, attempt: int, start: Option<nat>): State {
    if s.isStopped then Finish(s, start)
    else if initial && c.probeBeforeInitialConnect then Suspend(s, AwaitInitialProbe(generation, attempt, start))
    else OpenTransport(s, generation, initial, attempt, start)
  }

  function EstablishConnection(c: Config, s: State, initial: bool, attempt: int, start: Option<nat>): State {
    var s1 := ClearRetryTimer(s.(generation := s.generation + 1));
    match s1.currentTransport
    case None => AfterCleanup(c, s1, s1.generation, initial, attempt, start)
    case Some(t) => Suspend(CleanupTransport(s1, false), AwaitCleanup(s1.generation, initial, attempt, t, start))
  }

  function AtLeastOne(n: int): int {
    if n >= 1 then n else 1
  }

  function AfterInitialProbe(c: Config, s: State, f: Frame, probe: Probe, now: real, random: real): State
    requires f.AwaitInitialProbe?
  {
    var attempt := AtLeastOne(f.attempt + 1);
    if f.generation != s.generation || s.isStopped then Finish(s, f.start)
    else match probe
      case AuthRejected(_) => Suspend(RejectAuth(s, attempt, probe), AwaitAuthNotice(f.generation, f.start))
      case Ready => OpenTransport(s, f.generation, true, f.attempt, f.start)
      case _ =>
        var delay := RequestedOr(probe, BackoffDelay(c, attempt, random));
        Finish(ScheduleReconnect(s, attempt, delay, Some(probe), now), f.start)
  }

  /** Up to the cleanup that applyExternallyReportedProbeResult awaits. */
  function ApplyReport(s: State, probe: Failure, start: Option<nat>): State {
    if s.isStopped || s.status.phase !in {Online, Connecting, Offline} then Finish(s, start)
    else
      var s1 := ClearRetryTimer(s.(generation := s.generation + 1));
      Suspend(CleanupTransport(s1, true), AwaitReportCleanup(s1.generation, probe, s.currentTransport, start))
  }

  function AfterReportCleanup(c: Config, s: State, f: Frame, now: real, random: real): State
    requires f.AwaitReportCleanup?
  {
    var attempt := AtLeastOne(s.status.attempt + 1);
    Finish(
      if s.isStopped || f.generation != s.generation then s
      else if f.failure.AuthRejected? then RejectAuth(s, s.status.attempt, f.failure)
      else
        ScheduleReconnect(s, attempt, RequestedOr(f.failure, FastOrBackoff(c, attempt, random)), Some(f.failure), now),
      f.start)
  }

  function AfterConnect(s: State, f: Frame, rejection: Option<Failure>): State
    requires f.AwaitConnect?
  {
    if rejection.None? || f.generation != s.generation || s.isStopped then Finish(s, f.start)
    else ApplyReport(s, rejection.value, f.start)
  }

  function AfterReconnectProbe(c: Config, s: State, f: Frame, probe: Probe, now: real, random: real): State
    requires f.AwaitReconnectProbe?
  {
    if s.isStopped || f.generation != s.generation then s
    else match probe
      case AuthRejected(_) => Suspend(RejectAuth(s, f.attempt, probe), AwaitAuthNotice(f.generation, None))
      case Ready => Suspend(s, AwaitBeforeReconnect(f.generation, f.attempt))
      case _ =>
        var delay := RequestedOr(probe, BackoffDelay(c, f.attempt + 1, random));
        ScheduleReconnect(s, f.attempt + 1, delay, Some(probe), now)
  }

  function AfterBeforeReconnect(c: Config, s: State, f: Frame): State
    requires f.AwaitBeforeReconnect?
  {
    if s.isStopped || f.generation != s.generation then s
    else RecordWinner(EstablishConnection(c, s, false, f.attempt, None), f.generation)
  }

  function RecordWinner(s: State, generation: nat): State {
    s.(past := s.past.(winners := s.past.winners + [generation]))
  }

  function AfterDisconnectNotice(c: Config, s: State, f: Frame, now: real, random: real): State
    requires f.AwaitDisconnectNotice?
  {
    if f.intentional || s.isStopped || f.generation != s.generation || s.status.phase == AuthFailed then s
    else ScheduleReconnect(s, f.attempt, FastOrBackoff(c, f.attempt, random), None, now)
  }

  /** Whether what a frame awaits has come, `answer` being the value it resumes with. */
  predicate Ripe(s: State, f: Frame, answer: Option<Probe>) {
    match f
    case AwaitCleanup(_, _, _, t, _) => t in s.world.teardowns && s.world.teardowns[t] == Gone
    case AwaitReportCleanup(_, _, Some(t), _) => t in s.world.teardowns && s.world.teardowns[t] == Gone
    case AwaitInitialProbe(_, _, _) => answer.Some?
    case AwaitReconnectProbe(_, _) => answer.Some?
    case AwaitConnect(_, _) => answer.Some? ==> !answer.value.Ready?
    case _ => true
  }

  function Continue(c: Config, s: State, f: Frame, answer: Option<Probe>, now: real, random: real): State
    requires Ripe(s, f, answer)
  {
    match f
    case AwaitCleanup(generation, initial, attempt, _, start) => AfterCleanup(c, s, generation, initial, attempt, start)
    case AwaitInitialProbe(_, _, _) => AfterInitialProbe(c, s, f, answer.value, now, random)
    case AwaitConnect(_, _) => AfterConnect(s, f, if answer.Some? then Some(answer.value) else None)
    case AwaitReportCleanup(_, _, _, _) => AfterReportCleanup(c, s, f, now, random)
    case AwaitReconnectProbe(_, _) => AfterReconnectProbe(c, s, f, answer.value, now, random)
    case AwaitBeforeReconnect(_, _) => AfterBeforeReconnect(c, s, f)
    case AwaitDisconnectNotice(_, _, _) => AfterDisconnectNotice(c, s, f, now, random)
    case AwaitAuthNotice(_, start) => Finish(s, start)
  }

  function Resume(c: Config, s: State, id: nat, answer: Option<Probe>, now: real, random: real): State
    requires id in s.loop.frames && Ripe(s, s.loop.frames[id], answer)
  {
    var s1 := s.(loop := s.loop.(frames := s.loop.frames - {id}));
    Continue(c, s1, s.loop.frames[id], answer, now, random)
  }

  /** The guard at the top of every transport listener. */
  predicate Superseded(s: State, t: nat)
    requires t in s.world.origins
  {
    s.world.origins[t].generation != s.generation || s.isStopped
  }

  function HandleConnected(s: State, t: nat, now: real): State
    requires t in s.world.origins
  {
    var o := s.world.origins[t];
    if Superseded(s, t) then s
    else
      var s1 := ClearRetryTimer(s).(reconnectAttempt := o.attempt);
      var reason := if o.initial then Some(InitialConnect) else s.status.reason;
      Publish(s1, Status(Online, reason, o.attempt, None, Some(now),
                         s.status.lastDisconnectedAt, None))
  }

  function HandleDisconnected(s: State, t: nat, event: DisconnectEvent, now: real): State
    requires t in s.world.origins
  {
    if Superseded(s, t) then s
    else
      var attempt := s.reconnectAttempt + 1;
      var offline := s.status.(phase := Offline, reason := Some(ReasonOf(None, Some(event))), attempt := attempt,
                               nextRetryAt := None, lastDisconnectedAt := Some(now), lastErrorMessage := event.error);
      Suspend(Publish(s.(reconnectAttempt := attempt), offline),
              AwaitDisconnectNotice(s.generation, attempt, event.intentional))
  }

  function HandleError(c: Config, s: State, t: nat, message: string, classified: Option<Failure>, connected: bool,
                       now: real, random: real): State
    requires t in s.world.origins
  {
    var attempt := AtLeastOne(s.status.attempt + 1);
    if Superseded(s, t) then s
    else if s.status.phase == Connecting && s.currentTransport == Some(t) && !connected then
      if classified.Some? then ApplyReport(s, classified.value, None)
      else ScheduleReconnect(s, attempt, FastOrBackoff(c, attempt, random), Some(ServerUnreachable(Some(message))), now)
    else Publish(s, s.status.(lastErrorMessage := Some(message)))
  }

  /** The callback of the retry timer, up to the await of its probe. */
  function FireTimer(s: State, id: nat): State
    requires id in s.loop.armed
  {
    var s1 := s.(loop := s.loop.(armed := s.loop.armed - {id}), retryTimer := None);
    if s1.isStopped then s1 else Suspend(s1, AwaitReconnectProbe(s1.generation, s.loop.armed[id]))
  }

  function Launch(c: Config, s: State, initial: bool, id: nat): State {
    EstablishConnection(c, s.(reconnectAttempt := 0), initial, 0, Some(id))
  }

  function Start(c: Config, s: State): State {
    if s.startInFlight.Some? && !s.isStopped then s
    else
      var id := s.loop.nextStart;
      var s1 := s.(loop := s.loop.(nextStart := id + 1));
      var s2 :=
        if s1.isStarted && !s1.isStopped then
          if s1.status.phase == Online || s1.status.phase == Connecting then Finish(s1, Some(id))
          else Launch(c, s1, c.probeBeforeInitialConnect, id)
        else Launch(c, s1.(isStarted := true, isStopped := false), true, id);
      s2.(startInFlight := Some(id))
  }

  function SettleStart(s: State, id: nat): State {
    s.(loop := s.loop.(settledStarts := s.loop.settledStarts - {id}),
       startInFlight := if s.startInFlight == Some(id) then None else s.startInFlight)
  }

  function Stop(s: State): State {
    if s.isStopped then s
    else
      var s1 := ClearRetryTimer(s.(isStopped := true, startInFlight := None));
      CleanupTransport(
        Publish(s1, s1.status.(phase := ShuttingDown, reason := Some(IntentionalShutdown), nextRetryAt := None)), true)
  }

  function AdvanceTeardown(s: State, t: nat, stage: Teardown): State {
    s.(world := s.world.(teardowns := s.world.teardowns[t := stage]))
  }

  datatype Event =
    | CallStart
    | CallStop
    | CallReport(failure: Failure)
    | TimerFires(id: nat)
    | Connected(t: nat, now: real)
    | Disconnected(t: nat, event: DisconnectEvent, now: real)
    | Errored(t: nat, message: string, classified: Option<Failure>, connected: bool, now: real, random: real)
    | DisconnectSettles(t: nat)
    | DestroySettles(t: nat)
    | Resumes(id: nat, answer: Option<Probe>, now: real, random: real)
    | StartSettles(id: nat)

  /** Only what the event loop holds can resume, and only attached listeners are called. */
  predicate Enabled(s: State, e: Event) {
    match e
    case CallStart => true
    case CallStop => true
    case CallReport(_) => true
    case TimerFires(id) => id in s.loop.armed
    case Connected(t, _) => t in s.world.origins && Hook(t, OnConnected) in s.world.hooks
    case Disconnected(t, _, _) => t in s.world.origins && Hook(t, OnDisconnected) in s.world.hooks
    case Errored(t, _, _, _, _, _) => t in s.world.origins && Hook(t, OnError) in s.world.hooks
    case DisconnectSettles(t) => t in s.world.teardowns && s.world.teardowns[t].Disconnecting?
    case DestroySettles(t) => t in s.world.teardowns && s.world.teardowns[t].Destroying?
    case Resumes(id, answer, _, _) => id in s.loop.frames && Ripe(s, s.loop.frames[id], answer)
    case StartSettles(id) => id in s.loop.settledStarts
  }

  function Apply(c: Config, s: State, e: Event): State
    requires Enabled(s, e)
  {
    match e
    case CallStart => Start(c, s)
    case CallStop => Stop(s)
    case CallReport(failure) => ApplyReport(s, failure, None)
    case TimerFires(id) => FireTimer(s, id)
    case Connected(t, now) => HandleConnected(s, t, now)
    case Disconnected(t, event, now) => HandleDisconnected(s, t, event, now)
    case Errored(t, message, classified, connected, now, random) =>
      HandleError(c, s, t, message, classified, connected, now, random)
    case DisconnectSettles(t) => AdvanceTeardown(s, t, Destroying)
    case DestroySettles(t) => AdvanceTeardown(s, t, Gone)
    case Resumes(id, answer, now, random) => Resume(c, s, id, answer, now, random)
    case StartSettles(id) => SettleStart(s, id)
  }

  /** Events that can happen one after the other. */
  predicate Legal(c: Config, s: State, es: seq<Event>)
    decreases |es|
  {
    es == [] || (Enabled(s, es[0]) && Legal(c, Apply(c, s, es[0]), es[1..]))
  }

  function Run(c: Config, s: State, es: seq<Event>): State
    requires Legal(c, s, es)
    decreases |es|
  {
    if es == [] then s else Run(c, Apply(c, s, es[0]), es[1..])
  }
}
