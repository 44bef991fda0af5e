/**
 * What each event makes the connection supervisor publish, arm and begin, in every state of every run
 * (createManagedConnectionSupervisor.ts).
 */
module ConnectionLaws {
  import opened Options
  import opened ConnectionTypes
  import opened RetryDelays
  import opened ConnectionModel
  import opened ConnectionProofs
  import ConnectionLeaks

  ghost predicate Reached(c: Config, s: State) {
    exists es :: Legal(c, INITIAL, es) && Run(c, INITIAL, es) == s
  }

  lemma ReachedKeeps(c: Config, s: State)
    requires Reached(c, s)
    ensures Inv(s)
  {
    var es :| Legal(c, INITIAL, es) && Run(c, INITIAL, es) == s;
    EveryRun(c, es);
  }

  lemma BeginsIdle()
    ensures INITIAL.status == Status(Idle, None, 0, None, None, None, None)
    ensures INITIAL.generation == 0 && INITIAL.reconnectAttempt == 0 && !INITIAL.isStarted && !INITIAL.isStopped
    ensures INITIAL.currentTransport == None && INITIAL.retryTimer == None && INITIAL.startInFlight == None
  {
  }

  /** The continuation resumes and is of the current generation. */
  predicate Heeds(s: State, e: Event, f: Frame) {
    && e.Resumes? && e.id in s.loop.frames && s.loop.frames[e.id] == f
    && !s.isStopped && f.generation == s.generation
  }

  predicate Fails(answer: Option<Probe>) {
    answer.Some? && (answer.value.ServerUnreachable? || answer.value.RetryLater?)
  }

  /** The frames but for the one that resumed. */
  function Rest(s: State, e: Event): map<nat, Frame>
    requires e.Resumes?
  {
    s.loop.frames - {e.id}
  }

  ghost predicate Publishes(s: State, t: State, next: Status) {
    t.status == next && t.past.log == s.past.log + [next]
  }

  /** Nothing about transports changes. */
  ghost predicate SameTransports(s: State, t: State) {
    && t.world == s.world && t.currentTransport == s.currentTransport && t.generation == s.generation
    && t.isStopped == s.isStopped && t.isStarted == s.isStarted && t.past.handed == s.past.handed
    && t.detachCurrentListeners == s.detachCurrentListeners
  }

  /** Offline at that attempt, for that reason, and one timer holds the attempt until the retry is due. */
  ghost predicate Retries(s: State, t: State, reason: Reason, attempt: int, due: real, message: Option<string>) {
    && t.status == Status(Offline, Some(reason), attempt, Some(due), s.status.lastConnectedAt,
                          s.status.lastDisconnectedAt, message)
    && t.past.log == s.past.log + [t.status]
    && t.retryTimer.Some? && t.loop.armed == map[t.retryTimer.value := attempt]
    && SameTransports(s, t)
  }

  lemma Scheduled(s: State, attempt: int, delay: real, probe: Option<Probe>, now: real)
    requires Inv(s) && !s.isStopped
    ensures var t := ScheduleReconnect(s, attempt, delay, probe, now);
      && Retries(s, t, ReasonOf(probe, None), attempt, now + delay, ErrorMessage(probe, s.status.lastErrorMessage))
      && t.reconnectAttempt == s.reconnectAttempt && t.loop.frames == s.loop.frames
      && t.loop.settledStarts == s.loop.settledStarts
  {
    hide GenerationsDistinct, TransportsTracked, WinnersOrdered;
  }

  /** A continuation resumes without its frame. */
  lemma Resumed(c: Config, s: State, e: Event, f: Frame)
    requires Enabled(s, e) && Heeds(s, e, f)
    ensures var s1 := s.(loop := s.loop.(frames := Rest(s, e)));
      && Ripe(s1, f, e.answer) && Apply(c, s, e) == Continue(c, s1, f, e.answer, e.now, e.random)
      && s1.generation == f.generation && !s1.isStopped && s1.status == s.status
    ensures !s.isStopped && e.id in s.loop.frames
  {
    hide Continue;
  }

  /** A retry scheduled by a continuation that resumed, whose start then returns. */
  lemma ScheduledOnResume(s: State, e: Event, t: State, attempt: int, delay: real, probe: Option<Probe>, now: real,
          start: Option<nat>)
    requires Inv(s) && e.Resumes? && e.id in s.loop.frames && !s.isStopped
    requires var s1 := s.(loop := s.loop.(frames := Rest(s, e)));
      t == Finish(ScheduleReconnect(s1, attempt, delay, probe, now), start)
    ensures Retries(s, t, ReasonOf(probe, None), attempt, now + delay, ErrorMessage(probe, s.status.lastErrorMessage))
    ensures t.loop.frames == Rest(s, e) && t.reconnectAttempt == s.reconnectAttempt
    ensures t.loop.settledStarts == s.loop.settledStarts + (if start.Some? then {start.value} else {})
  {
    var s1 := s.(loop := s.loop.(frames := Rest(s, e)));
    DropKeeps(s, e.id);
    hide Inv, ReasonOf, ErrorMessage, ScheduleReconnect;
    Scheduled(s1, attempt, delay, probe, now);
  }

  lemma FailureReads(probe: Probe, last: Option<string>)
    requires probe.ServerUnreachable? || probe.RetryLater?
    ensures ReasonOf(Some(probe), None) == if probe.RetryLater? then ProbeFailed else ServerDown
    ensures ErrorMessage(Some(probe), last) == if probe.message.Some? then probe.message else last
  {
  }

  lemma ReconnectSchedules(c: Config, s: State, e: Event, attempt: int, probe: Probe)
    requires Enabled(s, e) && Heeds(s, e, AwaitReconnectProbe(s.generation, attempt))
    requires e.answer == Some(probe) && Fails(e.answer)
    ensures var s1, n := s.(loop := s.loop.(frames := Rest(s, e))), attempt + 1;
      var delay := RequestedOr(probe, BackoffDelay(c, n, e.random));
      Apply(c, s, e) == Finish(ScheduleReconnect(s1, n, delay, Some(probe), e.now), None)
  {
    Resumed(c, s, e, AwaitReconnectProbe(s.generation, attempt));
    hide Apply, Enabled, ScheduleReconnect, RequestedOr, BackoffDelay, RejectAuth;
  }

  /**
   * A failed probe before a reconnect: the attempt is one more than the one the timer held, and the wait is the one
   * for that attempt, what the server asks for or the backoff.
   */
  lemma FailedReconnectCounts(c: Config, s: State, e: Event, attempt: int)
    requires Reached(c, s) && Enabled(s, e) && Heeds(s, e, AwaitReconnectProbe(s.generation, attempt))
    requires Fails(e.answer)
    ensures var t, probe := Apply(c, s, e), e.answer.value;
      && Retries(s, t, if probe.RetryLater? then ProbeFailed else ServerDown, attempt + 1,
          e.now + Wait(c, Some(probe), false, attempt + 1, e.random),
          if probe.message.Some? then probe.message else s.status.lastErrorMessage)
      && t.loop.frames == Rest(s, e) && t.reconnectAttempt == s.reconnectAttempt
  {
    var probe, n := e.answer.value, attempt + 1;
    ReconnectSchedules(c, s, e, attempt, probe);
    ReachedKeeps(c, s);
    FailureReads(probe, s.status.lastErrorMessage);
    WaitsAre(c, probe, n, e.random);
    assert !s.isStopped && e.id in s.loop.frames;
    hide *;
    var delay := RequestedOr(probe, BackoffDelay(c, n, e.random));
    ScheduledOnResume(s, e, Apply(c, s, e), n, delay, Some(probe), e.now, None);
  }

  lemma InitialProbeSchedules(c: Config, s: State, e: Event, attempt: int, start: Option<nat>, probe: Probe, n: int)
    requires Enabled(s, e) && Heeds(s, e, AwaitInitialProbe(s.generation, attempt, start))
    requires e.answer == Some(probe) && Fails(e.answer) && n == if attempt < 0 then 1 else attempt + 1
    ensures var s1 := s.(loop := s.loop.(frames := Rest(s, e)));
      var delay := RequestedOr(probe, BackoffDelay(c, n, e.random));
      Apply(c, s, e) == Finish(ScheduleReconnect(s1, n, delay, Some(probe), e.now), start)
  {
    Resumed(c, s, e, AwaitInitialProbe(s.generation, attempt, start));
    hide Apply, Enabled, ScheduleReconnect, RequestedOr, BackoffDelay, RejectAuth, OpenTransport, Finish;
  }

  /** A failed probe before the first connect counts likewise, from one on, and lets the start return. */
  lemma FailedInitialProbeCounts(c: Config, s: State, e: Event, attempt: int, start: Option<nat>)
    requires Reached(c, s) && Enabled(s, e) && Heeds(s, e, AwaitInitialProbe(s.generation, attempt, start))
    requires Fails(e.answer)
    ensures var t, probe, n := Apply(c, s, e), e.answer.value, if attempt < 0 then 1 else attempt + 1;
      && Retries(s, t, if probe.RetryLater? then ProbeFailed else ServerDown, n,
          e.now + Wait(c, Some(probe), false, n, e.random),
          if probe.message.Some? then probe.message else s.status.lastErrorMessage)
      && t.loop.frames == Rest(s, e) && t.reconnectAttempt == s.reconnectAttempt
      && t.loop.settledStarts == s.loop.settledStarts + (if start.Some? then {start.value} else {})
  {
    var probe, n := e.answer.value, if attempt < 0 then 1 else attempt + 1;
    InitialProbeSchedules(c, s, e, attempt, start, probe, n);
    ReachedKeeps(c, s);
    FailureReads(probe, s.status.lastErrorMessage);
    WaitsAre(c, probe, n, e.random);
    assert !s.isStopped && e.id in s.loop.frames;
    hide *;
    var delay := RequestedOr(probe, BackoffDelay(c, n, e.random));
    ScheduledOnResume(s, e, Apply(c, s, e), n, delay, Some(probe), e.now, start);
  }

  lemma ReportSchedules(c: Config, s: State, e: Event, failure: Failure, torn: Option<nat>, start: Option<nat>, n: int)
    requires Enabled(s, e) && Heeds(s, e, AwaitReportCleanup(s.generation, failure, torn, start))
    requires !failure.AuthRejected? && n == if s.status.attempt < 0 then 1 else s.status.attempt + 1
    ensures var s1 := s.(loop := s.loop.(frames := Rest(s, e)));
      var delay := RequestedOr(failure, FastOrBackoff(c, n, e.random));
      Apply(c, s, e) == Finish(ScheduleReconnect(s1, n, delay, Some(failure), e.now), start)
  {
    Resumed(c, s, e, AwaitReportCleanup(s.generation, failure, torn, start));
    hide Apply, Enabled, ScheduleReconnect, RequestedOr, FastOrBackoff, RejectAuth, Finish;
  }

  /** A reported failure, once the transport is torn down: one attempt more, and the first retries are fast. */
  lemma ReportedFailureCounts(c: Config, s: State, e: Event, failure: Failure, torn: Option<nat>, start: Option<nat>)
    requires Reached(c, s) && Enabled(s, e) && Heeds(s, e, AwaitReportCleanup(s.generation, failure, torn, start))
    requires !failure.AuthRejected?
    ensures var t, n := Apply(c, s, e), if s.status.attempt < 0 then 1 else s.status.attempt + 1;
      && Retries(s, t, if failure.RetryLater? then ProbeFailed else ServerDown, n,
          e.now + Wait(c, Some(failure), true, n, e.random),
          if failure.message.Some? then failure.message else s.status.lastErrorMessage)
      && t.loop.frames == Rest(s, e) && t.reconnectAttempt == s.reconnectAttempt
      && t.loop.settledStarts == s.loop.settledStarts + (if start.Some? then {start.value} else {})
  {
    var n := if s.status.attempt < 0 then 1 else s.status.attempt + 1;
    ReportSchedules(c, s, e, failure, torn, start, n);
    ReachedKeeps(c, s);
    FailureReads(failure, s.status.lastErrorMessage);
    WaitsAre(c, failure, n, e.random);
    assert !s.isStopped && e.id in s.loop.frames;
    hide *;
    var delay := RequestedOr(failure, FastOrBackoff(c, n, e.random));
    ScheduledOnResume(s, e, Apply(c, s, e), n, delay, Some(failure), e.now, start);
  }

  /** The refusals: of a probe before a reconnect or before the first connect, and of a reported result. */
  lemma RefusalsRest(c: Config, s: State, e: Event, probe: Probe, attempt: int, f: Frame)
    requires Reached(c, s) && Enabled(s, e) && Heeds(s, e, f) && probe.AuthRejected?
    requires
      || (f == AwaitReconnectProbe(s.generation, attempt) && e.answer == Some(probe))
      || (f.AwaitInitialProbe? && attempt == (if f.attempt < 0 then 1 else f.attempt + 1) && e.answer == Some(probe))
      || (f.AwaitReportCleanup? && attempt == s.status.attempt && f.failure == probe)
    ensures var t := Apply(c, s, e);
      && Publishes(s, t, Status(AuthFailed, Some(AuthInvalid), attempt, None, s.status.lastConnectedAt,
          s.status.lastDisconnectedAt, if probe.message.Some? then probe.message else s.status.lastErrorMessage))
      && t.loop.armed == s.loop.armed && SameTransports(s, t) && t.reconnectAttempt == s.reconnectAttempt
      && t.loop.settledStarts
        == s.loop.settledStarts + (if f.AwaitReportCleanup? && f.start.Some? then {f.start.value} else {})
      && t.loop.frames == (
          if f.AwaitReportCleanup? then Rest(s, e)
          else Rest(s, e)[s.loop.nextFrame :=
            AwaitAuthNotice(s.generation, if f.AwaitInitialProbe? then f.start else None)])
  {
    var s1 := s.(loop := s.loop.(frames := Rest(s, e)));
    Refused(s1, attempt, probe);
    hide RejectAuth, Reached, Ripe;
  }

  lemma Refused(s: State, attempt: int, probe: Probe)
    requires probe.AuthRejected?
    ensures var t := RejectAuth(s, attempt, probe);
      && Publishes(s, t, Status(AuthFailed, Some(AuthInvalid), attempt, None, s.status.lastConnectedAt,
          s.status.lastDisconnectedAt, if probe.message.Some? then probe.message else s.status.lastErrorMessage))
      && t == s.(status := t.status, past := s.past.(log := t.past.log))
  {
  }

  // ----- transports -----

  /** One more transport is created, adopted and wired, and its connect is awaited; it is connecting at that attempt. */
  ghost predicate Opens(s: State, t: State, generation: nat, initial: bool, attempt: int, start: Option<nat>) {
    var u := s.world.nextTransport;
    && t.currentTransport == Some(u) && t.world.nextTransport == u + 1
    && t.world.origins == s.world.origins[u := Origin(generation, initial, attempt)]
    && t.world.hooks == s.world.hooks + {Hook(u, OnConnected), Hook(u, OnDisconnected), Hook(u, OnError)}
    && t.world.teardowns == s.world.teardowns && t.isStopped == s.isStopped
    && Publishes(s, t, Status(Connecting, if initial then Some(InitialConnect) else s.status.reason, attempt, None,
                              s.status.lastConnectedAt, s.status.lastDisconnectedAt, None))
    && t.loop.frames == s.loop.frames[s.loop.nextFrame := AwaitConnect(generation, start)]
  }

  lemma OpensTransport(s: State, generation: nat, initial: bool, attempt: int, start: Option<nat>)
    ensures Opens(s, OpenTransport(s, generation, initial, attempt, start), generation, initial, attempt, start)
    ensures var t := OpenTransport(s, generation, initial, attempt, start);
      && t.generation == s.generation && t.loop.armed == s.loop.armed && t.reconnectAttempt == s.reconnectAttempt
      && t.retryTimer == s.retryTimer && t.startInFlight == s.startInFlight && t.isStarted == s.isStarted
      && t.loop.nextStart == s.loop.nextStart && t.loop.settledStarts == s.loop.settledStarts
  {
    var u := s.world.nextTransport;
    assert (set h | h in HooksOf(u)) == {Hook(u, OnConnected), Hook(u, OnDisconnected), Hook(u, OnError)};
  }

  /** A ready probe before the first connect opens the transport, at the attempt the start began with. */
  lemma ReadyInitialProbeOpens(c: Config, s: State, e: Event, attempt: int, start: Option<nat>)
    requires Enabled(s, e) && Heeds(s, e, AwaitInitialProbe(s.generation, attempt, start)) && e.answer == Some(Ready)
    ensures Opens(s.(loop := s.loop.(frames := Rest(s, e))), Apply(c, s, e), s.generation, true, attempt, start)
    ensures Apply(c, s, e).generation == s.generation
  {
    hide OpenTransport, Opens;
    OpensTransport(s.(loop := s.loop.(frames := Rest(s, e))), s.generation, true, attempt, start);
  }

  /** A ready probe before a reconnect is followed by the hook of the caller, for the same attempt. */
  lemma ReadyReconnectProbeGoesOn(c: Config, s: State, e: Event, attempt: int)
    requires Enabled(s, e) && Heeds(s, e, AwaitReconnectProbe(s.generation, attempt)) && e.answer == Some(Ready)
    ensures var t := Apply(c, s, e);
      && t.loop.frames == Rest(s, e)[s.loop.nextFrame := AwaitBeforeReconnect(s.generation, attempt)]
      && t.status == s.status && t.past.log == s.past.log && t.loop.armed == s.loop.armed && SameTransports(s, t)
  {
  }

  /** The old transport is handed over and its listeners are detached. */
  ghost predicate HandsOver(s: State, t: State, intentional: bool) {
    && t.currentTransport == None && t.detachCurrentListeners == []
    && t.world.hooks == s.world.hooks - (set h | h in s.detachCurrentListeners)
    && t.world.origins == s.world.origins && t.world.nextTransport == s.world.nextTransport
    && match s.currentTransport
       case None => t.world.teardowns == s.world.teardowns && t.past.handed == s.past.handed
       case Some(u) =>
         && t.world.teardowns == s.world.teardowns[u := Disconnecting(intentional)]
         && t.past.handed == s.past.handed + [u]
  }

  /**
   * A connection is established in a new generation, with no timer left: at once, after a probe, or, with an old
   * transport to hand over, unintentionally, after that cleanup.
   */
  ghost predicate Establishes(c: Config, s: State, t: State, initial: bool, attempt: int, start: Option<nat>) {
    && t.generation == s.generation + 1 && t.loop.armed == map[] && t.retryTimer == None && t.isStopped == s.isStopped
    && match s.currentTransport
       case Some(u) =>
         && HandsOver(s, t, false) && t.status == s.status && t.past.log == s.past.log
         && t.loop.frames == s.loop.frames[s.loop.nextFrame := AwaitCleanup(t.generation, initial, attempt, u, start)]
       case None =>
         if initial && c.probeBeforeInitialConnect then
           && t.status == s.status && t.past.log == s.past.log && t.world == s.world && t.currentTransport == None
           && t.loop.frames == s.loop.frames[s.loop.nextFrame := AwaitInitialProbe(t.generation, attempt, start)]
         else Opens(s, t, t.generation, initial, attempt, start)
  }

  /** What establishing does not look at. */
  lemma EstablishesFrame(c: Config, s: State, t: State, u: State, v: State, initial: bool, attempt: int,
          start: Option<nat>)
    requires Establishes(c, s, t, initial, attempt, start)
    requires u.generation == s.generation && u.currentTransport == s.currentTransport && u.world == s.world
    requires u.detachCurrentListeners == s.detachCurrentListeners && u.status == s.status && u.past == s.past
    requires u.loop.frames == s.loop.frames && u.loop.nextFrame == s.loop.nextFrame && u.isStopped == s.isStopped
    requires v == t.(startInFlight := v.startInFlight)
    ensures Establishes(c, u, v, initial, attempt, start)
  {
  }

  lemma Established(c: Config, s: State, initial: bool, attempt: int, start: Option<nat>)
    requires TimersTracked(s) && !s.isStopped
    ensures Establishes(c, s, EstablishConnection(c, s, initial, attempt, start), initial, attempt, start)
    ensures var t := EstablishConnection(c, s, initial, attempt, start);
      && t.startInFlight == s.startInFlight && t.isStarted == s.isStarted && t.reconnectAttempt == s.reconnectAttempt
      && t.loop.nextStart == s.loop.nextStart && t.loop.settledStarts == s.loop.settledStarts
  {
    hide OpenTransport;
    var s1 := ClearRetryTimer(s.(generation := s.generation + 1));
    OpensTransport(s1, s1.generation, initial, attempt, start);
  }

  /** After the hook the reconnect is carried out, at the same attempt. */
  lemma ReconnectsEstablish(c: Config, s: State, e: Event, attempt: int)
    requires Reached(c, s) && Enabled(s, e) && Heeds(s, e, AwaitBeforeReconnect(s.generation, attempt))
    ensures Establishes(c, s.(loop := s.loop.(frames := Rest(s, e))), Apply(c, s, e), false, attempt, None)
  {
    var s1 := s.(loop := s.loop.(frames := Rest(s, e)));
    ReachedKeeps(c, s);
    assert TimersTracked(s1);
    hide Inv, EstablishConnection, TimersTracked;
    Established(c, s1, false, attempt, None);
  }

  /** After the cleanup: the probe, or the transport; whatever generation it is by then. */
  lemma CleanupsGoOn(c: Config, s: State, e: Event)
    requires Enabled(s, e) && e.Resumes? && s.loop.frames[e.id].AwaitCleanup? && !s.isStopped
    ensures var f, t, s1 := s.loop.frames[e.id], Apply(c, s, e), s.(loop := s.loop.(frames := Rest(s, e)));
      && t.generation == s.generation && t.loop.armed == s.loop.armed
      && if f.initial && c.probeBeforeInitialConnect then
           && t.status == s.status && t.past.log == s.past.log && t.world == s.world
           && t.loop.frames == s1.loop.frames[s.loop.nextFrame := AwaitInitialProbe(f.generation, f.attempt, f.start)]
         else Opens(s1, t, f.generation, f.initial, f.attempt, f.start)
  {
    hide OpenTransport, Opens;
    var f := s.loop.frames[e.id];
    OpensTransport(s.(loop := s.loop.(frames := Rest(s, e))), f.generation, f.initial, f.attempt, f.start);
  }

  /** A continuation that is superseded, stopped or awaited a notice lets its start return, and does nothing else. */
  lemma OthersLetReturn(c: Config, s: State, e: Event)
    requires Enabled(s, e) && e.Resumes?
    requires var f := s.loop.frames[e.id];
      f.AwaitAuthNotice? || s.isStopped || (f.generation != s.generation && !f.AwaitCleanup?)
    ensures var f := s.loop.frames[e.id];
      var none := f.AwaitReconnectProbe? || f.AwaitBeforeReconnect? || f.AwaitDisconnectNotice?;
      var start := if none then None else f.start;
      Apply(c, s, e) == s.(loop := s.loop.(frames := Rest(s, e),
        settledStarts := s.loop.settledStarts + (if start.Some? then {start.value} else {})))
  {
    hide OpenTransport, EstablishConnection, ScheduleReconnect, RejectAuth, ApplyReport, RequestedOr, FastOrBackoff,
      BackoffDelay;
  }

  // ----- what transports report -----

  /** A connection: online at the attempt of the transport, from which the next disconnect counts; no timer is left. */
  lemma ConnectionsAreOnline(c: Config, s: State, e: Event)
    requires Reached(c, s) && Enabled(s, e) && e.Connected? && !Superseded(s, e.t)
    ensures var t, origin := Apply(c, s, e), s.world.origins[e.t];
      && Publishes(s, t, Status(Online, if origin.initial then Some(InitialConnect) else s.status.reason,
          origin.attempt, None, Some(e.now), s.status.lastDisconnectedAt, None))
      && t.reconnectAttempt == origin.attempt && t.loop.armed == map[] && t.retryTimer == None
      && t.loop.frames == s.loop.frames && SameTransports(s, t)
  {
    ReachedKeeps(c, s);
    assert TimersTracked(s);
    hide Inv;
  }

  /** A disconnect: offline, one attempt on, with nothing due until the caller has been told. */
  lemma DisconnectsCount(c: Config, s: State, e: Event)
    requires Reached(c, s) && Enabled(s, e) && e.Disconnected? && !Superseded(s, e.t)
    ensures var t, n := Apply(c, s, e), s.reconnectAttempt + 1;
      && Publishes(s, t, Status(Offline, Some(if e.event.intentional then ManualDisconnect else TransportDisconnect), n,
          None, s.status.lastConnectedAt, Some(e.now), e.event.error))
      && t.reconnectAttempt == n && t.loop.armed == s.loop.armed && SameTransports(s, t)
      && t.loop.frames == s.loop.frames[s.loop.nextFrame := AwaitDisconnectNotice(s.generation, n, e.event.intentional)]
  {
  }

  lemma NoProbeReads(last: Option<string>)
    ensures ReasonOf(None, None) == TransportDisconnect && ErrorMessage(None, last) == last
  {
  }

  /** Once told: a retry at that attempt, fast for the first ones, unless the disconnect was meant or it is refused. */
  lemma DisconnectsRetry(c: Config, s: State, e: Event, attempt: int, intentional: bool)
    requires Reached(c, s) && Enabled(s, e)
    requires Heeds(s, e, AwaitDisconnectNotice(s.generation, attempt, intentional))
    ensures var t := Apply(c, s, e);
      && t.loop.frames == Rest(s, e) && t.reconnectAttempt == s.reconnectAttempt
      && if intentional || s.status.phase == AuthFailed then t == s.(loop := s.loop.(frames := Rest(s, e)))
         else Retries(s, t, TransportDisconnect, attempt, e.now + Wait(c, None, true, attempt, e.random),
           s.status.lastErrorMessage)
  {
    if !intentional && s.status.phase != AuthFailed {
      var s1 := s.(loop := s.loop.(frames := Rest(s, e)));
      var delay := FastOrBackoff(c, attempt, e.random);
      assert Apply(c, s, e) == Finish(ScheduleReconnect(s1, attempt, delay, None, e.now), None) by {
        Resumed(c, s, e, AwaitDisconnectNotice(s.generation, attempt, intentional));
        hide Apply, Enabled, Reached, ScheduleReconnect, FastOrBackoff;
      }
      assert !s.isStopped && e.id in s.loop.frames;
      ReachedKeeps(c, s);
      NoProbeReads(s.status.lastErrorMessage);
      hide *;
      WaitsAre(c, Ready, attempt, e.random);
      ScheduledOnResume(s, e, Apply(c, s, e), attempt, delay, None, e.now, None);
    } else {
      hide Reached, ScheduleReconnect;
    }
  }

  /** A reported result that is heeded: a new generation, no timer, and the transport handed over, as intended. */
  ghost predicate Reports(s: State, t: State, failure: Failure, start: Option<nat>) {
    && t.generation == s.generation + 1 && t.loop.armed == map[] && t.retryTimer == None && HandsOver(s, t, true)
    && t.status == s.status && t.past.log == s.past.log && t.reconnectAttempt == s.reconnectAttempt
    && t.isStopped == s.isStopped
    && t.loop.frames ==
      s.loop.frames[s.loop.nextFrame := AwaitReportCleanup(t.generation, failure, s.currentTransport, start)]
  }

  lemma Reported(s: State, failure: Failure, start: Option<nat>)
    requires TimersTracked(s) && !s.isStopped && s.status.phase in {Online, Connecting, Offline}
    ensures Reports(s, ApplyReport(s, failure, start), failure, start)
  {
  }

  /** A reported result is heeded exactly in these phases; elsewhere it changes nothing. */
  lemma ReportsAreHeeded(c: Config, s: State, failure: Failure)
    requires Reached(c, s)
    ensures var t := Apply(c, s, CallReport(failure));
      if !s.isStopped && s.status.phase in {Online, Connecting, Offline} then Reports(s, t, failure, None) else t == s
  {
    ReachedKeeps(c, s);
    hide ApplyReport, Inv, Reports;
    if !s.isStopped && s.status.phase in {Online, Connecting, Offline} {
      assert TimersTracked(s) by { TimersOf(s); }
      Reported(s, failure, None);
    } else {
      IgnoredReport(s, failure, None);
    }
  }

  lemma TimersOf(s: State)
    requires Inv(s)
    ensures TimersTracked(s)
  {
  }

  lemma IgnoredReport(s: State, failure: Failure, start: Option<nat>)
    requires s.isStopped || s.status.phase !in {Online, Connecting, Offline}
    ensures ApplyReport(s, failure, start) == Finish(s, start)
  {
  }

  /**
   * A transport error. While this transport is connecting, it is a reported result if it can be classified, and else a
   * failure that counts; otherwise it is only shown.
   */
  lemma ErrorsCount(c: Config, s: State, e: Event)
    requires Reached(c, s) && Enabled(s, e) && e.Errored? && !Superseded(s, e.t)
    ensures var t, n := Apply(c, s, e), if s.status.attempt < 0 then 1 else s.status.attempt + 1;
      if s.status.phase == Connecting && s.currentTransport == Some(e.t) && !e.connected then
        if e.classified.Some? then Reports(s, t, e.classified.value, None)
        else
          && Retries(s, t, ServerDown, n, e.now + Wait(c, None, true, n, e.random), Some(e.message))
          && t.loop.frames == s.loop.frames && t.reconnectAttempt == s.reconnectAttempt
      else
        && t == s.(status := s.status.(lastErrorMessage := Some(e.message)), past := t.past)
        && t.past.log == s.past.log + [t.status]
  {
    var n := AtLeastOne(s.status.attempt + 1);
    ReachedKeeps(c, s);
    TimersOf(s);
    WaitsAre(c, Ready, n, e.random);
    hide Inv, TimersTracked, Wait, FastOrBackoff, ScheduleReconnect, ApplyReport, Reports;
    Scheduled(s, n, FastOrBackoff(c, n, e.random), Some(ServerUnreachable(Some(e.message))), e.now);
    if e.classified.Some? && s.status.phase == Connecting {
      Reported(s, e.classified.value, None);
    }
  }

  /** A connect that fails is a reported result; one that returns only lets the start return. */
  lemma FailedConnectsAreReports(c: Config, s: State, e: Event, start: Option<nat>)
    requires Reached(c, s) && Enabled(s, e) && Heeds(s, e, AwaitConnect(s.generation, start))
    ensures var s1 := s.(loop := s.loop.(frames := Rest(s, e))); var t := Apply(c, s, e);
      if e.answer.Some? && s.status.phase in {Online, Connecting, Offline} then Reports(s1, t, e.answer.value, start)
      else t == s1.(loop := s1.loop.(settledStarts :=
        s.loop.settledStarts + (if start.Some? then {start.value} else {})))
  {
    var s1 := s.(loop := s.loop.(frames := Rest(s, e)));
    ReachedKeeps(c, s);
    TimersOf(s);
    assert TimersTracked(s1);
    hide Inv, TimersTracked, ApplyReport, Reports;
    if e.answer.Some? {
      if s.status.phase in {Online, Connecting, Offline} {
        Reported(s1, e.answer.value, start);
      } else {
        IgnoredReport(s1, e.answer.value, start);
      }
    }
  }

  // ----- calls and timers -----

  /** The retry: a probe for the attempt that the timer held, in the generation of that moment. */
  lemma RetriesProbe(c: Config, s: State, id: nat)
    requires Reached(c, s) && Enabled(s, TimerFires(id))
    ensures var t := Apply(c, s, TimerFires(id));
      && t.loop.frames == s.loop.frames[s.loop.nextFrame := AwaitReconnectProbe(s.generation, s.loop.armed[id])]
      && t.loop.armed == map[] && t.retryTimer == None && t.status == s.status && t.past.log == s.past.log
      && SameTransports(s, t) && t.reconnectAttempt == s.reconnectAttempt
  {
    ReachedKeeps(c, s);
    hide GenerationsDistinct, TransportsTracked, WinnersOrdered;
  }

  /**
   * A start: joined while another is in flight; with nothing to do when online or connecting; and otherwise a new
   * connection at attempt zero, initial unless the supervisor is running and probes nothing before the first connect.
   */
  lemma StartsEstablish(c: Config, s: State)
    requires Reached(c, s)
    ensures var t, id := Apply(c, s, CallStart), s.loop.nextStart;
      var running := s.isStarted && !s.isStopped;
      if s.startInFlight.Some? && !s.isStopped then t == s
      else
        && t.startInFlight == Some(id) && t.loop.nextStart == id + 1 && t.isStarted
        && if running && s.status.phase in {Online, Connecting} then
             t == s.(startInFlight := Some(id),
                     loop := s.loop.(nextStart := id + 1, settledStarts := s.loop.settledStarts + {id}))
           else
             && t.reconnectAttempt == 0
             && Establishes(c, s.(isStopped := false), t, !running || c.probeBeforeInitialConnect, 0, Some(id))
  {
    var running := s.isStarted && !s.isStopped;
    ReachedKeeps(c, s);
    TimersOf(s);
    if (s.startInFlight.None? || s.isStopped) && !(running && s.status.phase in {Online, Connecting}) {
      hide *;
      StartLaunches(c, s, !running || c.probeBeforeInitialConnect, s.loop.nextStart);
    } else {
      hide Inv, TimersTracked, EstablishConnection, Establishes;
    }
  }

  lemma StartIsLaunch(c: Config, s: State, s1: State, initial: bool, id: nat)
    requires (s.startInFlight.None? || s.isStopped) && id == s.loop.nextStart
    requires !(s.isStarted && !s.isStopped && s.status.phase in {Online, Connecting})
    requires initial == (!(s.isStarted && !s.isStopped) || c.probeBeforeInitialConnect)
    requires s1 ==
      s.(loop := s.loop.(nextStart := id + 1), isStarted := true, isStopped := false, reconnectAttempt := 0)
    ensures Apply(c, s, CallStart) == EstablishConnection(c, s1, initial, 0, Some(id)).(startInFlight := Some(id))
  {
    hide EstablishConnection;
  }

  lemma StartLaunches(c: Config, s: State, initial: bool, id: nat)
    requires TimersTracked(s) && (s.startInFlight.None? || s.isStopped) && id == s.loop.nextStart
    requires !(s.isStarted && !s.isStopped && s.status.phase in {Online, Connecting})
    requires initial == (!(s.isStarted && !s.isStopped) || c.probeBeforeInitialConnect)
    ensures var t := Apply(c, s, CallStart);
      && t.startInFlight == Some(id) && t.loop.nextStart == id + 1 && t.isStarted && t.reconnectAttempt == 0
      && Establishes(c, s.(isStopped := false), t, initial, 0, Some(id))
  {
    var s1 := s.(loop := s.loop.(nextStart := id + 1), isStarted := true, isStopped := false, reconnectAttempt := 0);
    assert TimersTracked(s1);
    StartIsLaunch(c, s, s1, initial, id);
    var t := Apply(c, s, CallStart);
    hide *;
    LaunchEstablishes(c, s, s1, initial, id, t);
  }

  lemma LaunchEstablishes(c: Config, s: State, s1: State, initial: bool, id: nat, t: State)
    requires s1 ==
      s.(loop := s.loop.(nextStart := id + 1), isStarted := true, isStopped := false, reconnectAttempt := 0)
    requires TimersTracked(s1)
    requires t == EstablishConnection(c, s1, initial, 0, Some(id)).(startInFlight := Some(id))
    ensures t.startInFlight == Some(id) && t.loop.nextStart == id + 1 && t.isStarted && t.reconnectAttempt == 0
    ensures Establishes(c, s.(isStopped := false), t, initial, 0, Some(id))
  {
    hide *;
    var u := EstablishConnection(c, s1, initial, 0, Some(id));
    Established(c, s1, initial, 0, Some(id));
    EstablishesFrame(c, s1, u, s.(isStopped := false), t, initial, 0, Some(id));
  }

  /** A stop: shutting down, no timer, no start in flight, and the transport handed over as intended. */
  lemma StopsAll(c: Config, s: State)
    requires Reached(c, s)
    ensures var t := Apply(c, s, CallStop);
      if s.isStopped then t == s
      else
        && t.isStopped && t.startInFlight == None && t.loop.armed == map[] && t.retryTimer == None
        && HandsOver(s, t, true) && t.generation == s.generation && t.loop.frames == s.loop.frames
        && Publishes(s, t, s.status.(phase := ShuttingDown, reason := Some(IntentionalShutdown), nextRetryAt := None))
  {
    ReachedKeeps(c, s);
    TimersOf(s);
    hide Inv;
  }

  /** A teardown disconnects, then destroys, then is done; a start that has settled is forgotten. */
  lemma TeardownsProceed(c: Config, s: State, e: Event)
    requires Enabled(s, e)
    ensures e.DisconnectSettles? ==>
      Apply(c, s, e) == s.(world := s.world.(teardowns := s.world.teardowns[e.t := Destroying]))
    ensures e.DestroySettles? ==>
      Apply(c, s, e) == s.(world := s.world.(teardowns := s.world.teardowns[e.t := Gone]))
    ensures e.StartSettles? ==>
      Apply(c, s, e) == s.(startInFlight := if s.startInFlight == Some(e.id) then None else s.startInFlight,
                           loop := s.loop.(settledStarts := s.loop.settledStarts - {e.id}))
  {
  }

  // ----- the count over a run -----

  lemma ReachesOn(c: Config, s: State, e: Event)
    requires Reached(c, s) && Enabled(s, e)
    ensures Reached(c, Apply(c, s, e))
  {
    var es :| Legal(c, INITIAL, es) && Run(c, INITIAL, es) == s;
    ConnectionLeaks.RunExtends(c, INITIAL, es, e);
  }

  predicate IsProbe(s: State, f: Frame) {
    f.AwaitReconnectProbe? && f.generation == s.generation
  }

  /** Offline at attempt `n`, with the one timer armed for it, or its probe out, and no other probe. */
  ghost predicate Retrying(s: State, n: int) {
    && !s.isStopped && s.status.phase == Offline && s.status.attempt == n
    && (forall id :: id in s.loop.frames && IsProbe(s, s.loop.frames[id]) ==> s.loop.frames[id].attempt == n)
    && (forall id, other | id in s.loop.frames && other in s.loop.frames ::
          IsProbe(s, s.loop.frames[id]) && IsProbe(s, s.loop.frames[other]) ==> id == other)
    && (forall id :: id in s.loop.armed ==> s.loop.armed[id] == n)
    && (s.loop.armed != map[] ==> forall id :: id in s.loop.frames ==> !IsProbe(s, s.loop.frames[id]))
  }

  /** The answer to the probe of this generation is a failure. */
  predicate ProbeFails(s: State, e: Event) {
    e.Resumes? && e.id in s.loop.frames && IsProbe(s, s.loop.frames[e.id]) && Fails(e.answer)
  }

  /** The timer, a failed probe, a teardown, a settled start, or anything that is superseded. */
  predicate OnlyRetries(s: State, e: Event)
    requires Enabled(s, e)
  {
    match e
    case TimerFires(_) => true
    case DisconnectSettles(_) => true
    case DestroySettles(_) => true
    case StartSettles(_) => true
    case Connected(t, _) => Superseded(s, t)
    case Disconnected(t, _, _) => Superseded(s, t)
    case Errored(t, _, _, _, _, _) => Superseded(s, t)
    case Resumes(id, _, _, _) =>
      ProbeFails(s, e) || (!s.loop.frames[id].AwaitCleanup? && s.loop.frames[id].generation != s.generation)
    case _ => false
  }

  predicate OnlyRetriesIn(c: Config, s: State, es: seq<Event>)
    requires Legal(c, s, es)
    decreases |es|
  {
    es == [] || (OnlyRetries(s, es[0]) && OnlyRetriesIn(c, Apply(c, s, es[0]), es[1..]))
  }

  function FailedProbes(c: Config, s: State, es: seq<Event>): nat
    requires Legal(c, s, es)
    decreases |es|
  {
    if es == [] then 0
    else (if ProbeFails(s, es[0]) then 1 else 0) + FailedProbes(c, Apply(c, s, es[0]), es[1..])
  }

  lemma RetryCounts(c: Config, s: State, e: Event, n: int)
    requires Reached(c, s) && Retrying(s, n) && Enabled(s, e) && OnlyRetries(s, e)
    ensures Retrying(Apply(c, s, e), n + if ProbeFails(s, e) then 1 else 0)
  {
    hide Reached;
    match e {
      case TimerFires(id) =>
        RetriesProbe(c, s, id);
        hide Apply;
      case Resumes(id, _, _, _) =>
        if ProbeFails(s, e) {
          FailedReconnectCounts(c, s, e, n);
          hide Apply, Wait;
        } else {
          StaleFramesAreIgnored(c, s, id, e.answer, e.now, e.random);
          hide Resume;
        }
      case DisconnectSettles(_) =>
      case DestroySettles(_) =>
      case StartSettles(_) =>
      case Connected(t, _) => SupersededIsIgnored(c, s, t, e);
      case Disconnected(t, _, _) => SupersededIsIgnored(c, s, t, e);
      case Errored(t, _, _, _, _, _) => SupersededIsIgnored(c, s, t, e);
      case _ =>
    }
  }

  /**
   * The attempts count the failures: over any run of retries, in which nothing but timers, failed probes and what is
   * superseded comes up, the attempt is the old one and one more for each probe that has failed.
   */
  lemma {:induction false} AttemptsCountFailures(c: Config, s: State, es: seq<Event>, n: int)
    requires Reached(c, s) && Retrying(s, n) && Legal(c, s, es) && OnlyRetriesIn(c, s, es)
    ensures var t := Run(c, s, es);
      && Retrying(t, n + FailedProbes(c, s, es)) && t.status.attempt == n + FailedProbes(c, s, es)
      && forall id :: id in t.loop.armed ==> t.loop.armed[id] == n + FailedProbes(c, s, es)
    decreases |es|
  {
    hide Reached, Apply, Enabled, OnlyRetries, ProbeFails;
    if es != [] {
      RetryCounts(c, s, es[0], n);
      ReachesOn(c, s, es[0]);
      hide Retrying;
      AttemptsCountFailures(c, Apply(c, s, es[0]), es[1..], n + if ProbeFails(s, es[0]) then 1 else 0);
    }
  }
}
