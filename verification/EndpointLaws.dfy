/**
 * What each event makes the endpoint supervisor publish, arm and begin, in every state of every run
 * (createManagedEndpointSupervisor.ts).
 */
module EndpointLaws {
  import opened Options
  import opened ConnectionTypes
  import opened RetryDelays
  import opened EndpointModel
  import opened EndpointProofs
  import opened EndpointRuns

  ghost predicate Reached(c: Config, s: State) {
    exists es :: Legal(c, INITIAL, es) && Run(c, INITIAL, es) == s
  }

  lemma ReachedKeeps(c: Config, s: State)
    requires Reached(c, s)
    ensures Inv(s)
  {
    var es :| Legal(c, INITIAL, es) && Run(c, INITIAL, es) == s;
    EveryRun(c, es);
  }

  lemma BeginsIdle()
    ensures INITIAL.status == EndpointStatus(Status(Idle, None, 0, None, None, None, None), None)
    ensures INITIAL.generation == 0 && !INITIAL.isStarted && !INITIAL.isStopped && !INITIAL.pendingInvalidate
    ensures INITIAL.retryTimer == None && INITIAL.startInFlight == None && INITIAL.audience.listeners == {}
  {
  }

  /** The event brings a result that counts: the answer of the wanted probe, or a report in a phase that heeds it. */
  ghost predicate Brings(s: State, e: Event, probe: Probe, now: real, random: real) {
    && !s.isStopped
    && match e
      case ProbeAnswers(id, p, n, r) => id in Wanted(s) && p == probe && n == now && r == random
      case CallReportFailure(message, n, r) =>
        && s.status.conn.phase in {Online, Connecting}
        && probe == ServerUnreachable(message) && n == now && r == random
      case CallReportProbeResult(p, n, r) =>
        s.status.conn.phase in {Online, Connecting, Offline} && p == probe && n == now && r == random
      case _ => false
  }

  /** Published once, with this timer armed and nothing else. */
  ghost predicate Publishes(s: State, t: State, next: EndpointStatus) {
    t.status == next && t.past.log == s.past.log + [next]
  }

  /** No probe is wanted any more. */
  ghost predicate Idles(t: State) {
    Wanted(t) == {}
  }

  /** The next attempt is due, and one timer holds it. */
  ghost predicate Arms(t: State, attempt: int) {
    t.retryTimer.Some? && t.loop.armed == map[t.retryTimer.value := attempt]
  }

  /** Offline with one attempt more than before, and the retry due after the wait for that attempt. */
  ghost predicate FailsOnce(c: Config, s: State, t: State, probe: Probe, now: real, random: real) {
    var conn, n := s.status.conn, s.status.conn.attempt + 1;
    && Publishes(s, t, EndpointStatus(
        Status(Offline, Some(Because(probe)), n, Some(now + Wait(c, Some(probe), true, n, random)),
               conn.lastConnectedAt, Some(now), MessageOf(probe, conn.lastErrorMessage)),
        Some(probe)))
    && Arms(t, n) && Idles(t)
  }

  lemma Scheduled(s: State, attempt: int, delay: real, probe: Probe, now: real)
    requires TimersTracked(s) && !s.isStopped
    ensures var t, conn := ScheduleProbe(s, attempt, delay, probe, now), s.status.conn;
      && Publishes(s, t, EndpointStatus(
          Status(Offline, Some(ReasonOf(Some(probe), None)), attempt, Some(now + delay), conn.lastConnectedAt,
                 Some(now), ErrorMessage(Some(probe), conn.lastErrorMessage)),
          Some(probe)))
      && Arms(t, attempt) && t.loop.flights == s.loop.flights && t.generation == s.generation
      && t.pendingInvalidate == s.pendingInvalidate
  {
    hide Notify;
  }

  lemma FailureReads(probe: Probe, last: Option<string>)
    ensures ReasonOf(Some(probe), None) == Because(probe) && ErrorMessage(Some(probe), last) == MessageOf(probe, last)
  {
  }

  /** A failure scheduled from a state in which no probe is wanted any more. */
  lemma FailsFrom(c: Config, s: State, u: State, t: State, probe: Probe, now: real, random: real)
    requires TimersTracked(u) && !u.isStopped && Idles(u)
    requires u.status == s.status && u.past.log == s.past.log
    requires var n := s.status.conn.attempt + 1;
      var v := ScheduleProbe(u, n, Wait(c, Some(probe), true, n, random), probe, now);
      && t.status == v.status && t.past.log == v.past.log && t.generation == v.generation
      && t.retryTimer == v.retryTimer && t.loop.armed == v.loop.armed && t.loop.flights == v.loop.flights
    ensures FailsOnce(c, s, t, probe, now, random)
  {
    var n := s.status.conn.attempt + 1;
    FailureReads(probe, s.status.conn.lastErrorMessage);
    hide ScheduleProbe, Wait, ReasonOf, ErrorMessage, Because, MessageOf, TimersTracked;
    Scheduled(u, n, Wait(c, Some(probe), true, n, random), probe, now);
  }

  lemma AnswerSchedules(c: Config, s: State, e: Event, u: State, n: int, delay: real)
    requires Enabled(s, e) && e.ProbeAnswers? && (e.probe.ServerUnreachable? || e.probe.RetryLater?) && !s.isStopped
    requires s.loop.flights[e.id].generation == s.generation && n == s.loop.flights[e.id].attempt + 1
    requires u == Tick(s).(loop := Tick(s).loop.(flights := s.loop.flights - {e.id}))
    requires delay == RequestedOr(e.probe, FastOrBackoff(c, n, e.random))
    ensures Apply(c, s, e) == Finish(ScheduleProbe(u, n, delay, e.probe, e.now), s.loop.flights[e.id].start)
  {
    hide RequestedOr, FastOrBackoff, ScheduleProbe, Finish;
  }

  lemma AnswerFails(c: Config, s: State, e: Event)
    requires Inv(s) && e.ProbeAnswers? && !s.isStopped && e.id in Wanted(s)
    requires e.probe.ServerUnreachable? || e.probe.RetryLater?
    ensures var t := Apply(c, s, e);
      FailsOnce(c, s, t, e.probe, e.now, e.random) && t.pendingInvalidate == s.pendingInvalidate
  {
    var n, u := s.status.conn.attempt + 1, Tick(s).(loop := Tick(s).loop.(flights := s.loop.flights - {e.id}));
    AnswerLeavesNone(s, e.id);
    var delay := Wait(c, Some(e.probe), true, n, e.random);
    WaitsAre(c, e.probe, n, e.random);
    AnswerSchedules(c, s, e, u, n, delay);
    hide Inv, Apply, Enabled, Wait, RequestedOr, FastOrBackoff, ScheduleProbe, FailsOnce, TimersTracked, Wanted;
    Scheduled(u, n, delay, e.probe, e.now);
    FailsFrom(c, s, u, Apply(c, s, e), e.probe, e.now, e.random);
  }

  /** The wanted probe is the only one, it carries the attempt, and without it none is wanted. */
  lemma AnswerLeavesNone(s: State, id: nat)
    requires Inv(s) && !s.isStopped && id in Wanted(s)
    ensures var u := Tick(s).(loop := Tick(s).loop.(flights := s.loop.flights - {id}));
      && TimersTracked(u) && Idles(u)
      && s.loop.flights[id].attempt == s.status.conn.attempt && s.loop.flights[id].generation == s.generation
  {
    assert Live(s.loop.flights, s.generation, id);
  }

  lemma AttemptIsCount(s: State)
    requires Inv(s)
    ensures s.status.conn.attempt >= 0 && TimersTracked(s)
    ensures forall id :: id in s.loop.flights ==> s.loop.flights[id].generation <= s.generation
  {
  }

  lemma ReportFails(c: Config, s: State, e: Event)
    requires Inv(s) && e.CallReportFailure? && !s.isStopped && s.status.conn.phase in {Online, Connecting}
    ensures var t := Apply(c, s, e);
      && FailsOnce(c, s, t, ServerUnreachable(e.message), e.now, e.random)
      && t.pendingInvalidate == s.pendingInvalidate
  {
    var n, u := s.status.conn.attempt + 1, Report(Tick(s)).(generation := s.generation + 1);
    AttemptIsCount(s);
    assert TimersTracked(u) && Idles(u);
    hide Inv;
    var probe := ServerUnreachable(e.message);
    WaitsAre(c, probe, n, e.random);
    hide Wait, FastOrBackoff, ScheduleProbe, FailsOnce, TimersTracked, Wanted;
    Scheduled(u, n, Wait(c, Some(probe), true, n, e.random), probe, e.now);
    FailsFrom(c, s, u, Apply(c, s, e), probe, e.now, e.random);
  }

  lemma ResultFails(c: Config, s: State, e: Event)
    requires Inv(s) && e.CallReportProbeResult? && !s.isStopped && s.status.conn.phase in {Online, Connecting, Offline}
    requires !e.failure.AuthRejected?
    ensures var t := Apply(c, s, e); FailsOnce(c, s, t, e.failure, e.now, e.random) && !t.pendingInvalidate
  {
    var n := s.status.conn.attempt + 1;
    var u := ClearRetryTimer(Report(Tick(s)).(generation := s.generation + 1)).(pendingInvalidate := false);
    AttemptIsCount(s);
    assert TimersTracked(u) && Idles(u);
    hide Inv;
    WaitsAre(c, e.failure, n, e.random);
    hide Wait, RequestedOr, FastOrBackoff, ScheduleProbe, FailsOnce, TimersTracked, Wanted;
    Scheduled(u, n, Wait(c, Some(e.failure), true, n, e.random), e.failure, e.now);
    FailsFrom(c, s, u, Apply(c, s, e), e.failure, e.now, e.random);
  }

  lemma FailureMeans(c: Config, s: State, t: State, probe: Probe, now: real, random: real)
    requires FailsOnce(c, s, t, probe, now, random) && (probe.ServerUnreachable? || probe.RetryLater?)
    ensures var conn, n := s.status.conn, s.status.conn.attempt + 1;
      && t.status == EndpointStatus(
          Status(Offline, Some(if probe.RetryLater? then ProbeFailed else ServerDown), n,
                 Some(now + Wait(c, Some(probe), true, n, random)), conn.lastConnectedAt, Some(now),
                 if probe.message.Some? then probe.message else conn.lastErrorMessage),
          Some(probe))
      && t.past.log == s.past.log + [t.status]
      && t.retryTimer.Some? && t.loop.armed == map[t.retryTimer.value := n] && Wanted(t) == {}
  {
    hide Wait, Wanted;
  }

  /**
   * Every failure that counts, from whichever side it comes, raises the attempt by one, and the retry is due after the
   * wait for that attempt: what the server asks for, or the fast delay for the first retries, or the backoff.
   */
  lemma EveryFailureCounts(c: Config, s: State, e: Event, probe: Probe, now: real, random: real)
    requires Reached(c, s) && Enabled(s, e) && Brings(s, e, probe, now, random)
    requires probe.ServerUnreachable? || probe.RetryLater?
    ensures var t, conn, n := Apply(c, s, e), s.status.conn, s.status.conn.attempt + 1;
      var due := now + Wait(c, Some(probe), true, n, random);
      && t.status == EndpointStatus(
          Status(Offline, Some(if probe.RetryLater? then ProbeFailed else ServerDown), n, Some(due),
                 conn.lastConnectedAt, Some(now),
                 if probe.message.Some? then probe.message else conn.lastErrorMessage),
          Some(probe))
      && t.past.log == s.past.log + [t.status]
      && t.retryTimer.Some? && t.loop.armed == map[t.retryTimer.value := n]
      && Wanted(t) == {} && t.pendingInvalidate == (s.pendingInvalidate && !e.CallReportProbeResult?)
  {
    ReachedKeeps(c, s);
    hide Inv, Apply, Enabled, Wanted, Wait, FailsOnce;
    match e {
      case ProbeAnswers(_, _, _, _) => AnswerFails(c, s, e);
      case CallReportFailure(_, _, _) => ReportFails(c, s, e);
      case CallReportProbeResult(_, _, _) => ResultFails(c, s, e);
    }
    FailureMeans(c, s, Apply(c, s, e), probe, now, random);
  }

  lemma AnswerRefused(c: Config, s: State, e: Event)
    requires Inv(s) && e.ProbeAnswers? && !s.isStopped && e.id in Wanted(s) && e.probe.AuthRejected?
    ensures var t, conn := Apply(c, s, e), s.status.conn;
      && Publishes(s, t, EndpointStatus(
          conn.(phase := AuthFailed, reason := Some(AuthInvalid), nextRetryAt := None,
                lastErrorMessage := MessageOf(e.probe, conn.lastErrorMessage)),
          Some(e.probe)))
      && t.loop.armed == map[] && Idles(t) && t.pendingInvalidate == s.pendingInvalidate
  {
    assert Live(s.loop.flights, s.generation, e.id);
    hide Notify;
    assert s.loop.flights[e.id].attempt == s.status.conn.attempt;
  }

  lemma ResultRefused(c: Config, s: State, e: Event)
    requires Inv(s) && e.CallReportProbeResult? && !s.isStopped && s.status.conn.phase in {Online, Connecting, Offline}
    requires e.failure.AuthRejected?
    ensures var t, conn := Apply(c, s, e), s.status.conn;
      && Publishes(s, t, EndpointStatus(
          conn.(phase := AuthFailed, reason := Some(AuthInvalid), nextRetryAt := None,
                lastErrorMessage := MessageOf(e.failure, conn.lastErrorMessage)),
          Some(e.failure)))
      && t.loop.armed == map[] && Idles(t) && !t.pendingInvalidate
  {
    assert forall id :: id in s.loop.flights ==> s.loop.flights[id].generation <= s.generation;
    assert s.loop.armed.Keys == (if s.retryTimer.Some? then {s.retryTimer.value} else {});
    hide Notify, Inv;
  }

  /** A refusal that counts ends the retries, at the attempt that was reached. */
  lemma EveryRefusalRests(c: Config, s: State, e: Event, probe: Probe, now: real, random: real)
    requires Reached(c, s) && Enabled(s, e) && Brings(s, e, probe, now, random) && probe.AuthRejected?
    ensures var t, conn := Apply(c, s, e), s.status.conn;
      && t.status == EndpointStatus(
          Status(AuthFailed, Some(AuthInvalid), conn.attempt, None, conn.lastConnectedAt, conn.lastDisconnectedAt,
                 if probe.message.Some? then probe.message else conn.lastErrorMessage),
          Some(probe))
      && t.past.log == s.past.log + [t.status]
      && t.loop.armed == map[] && Wanted(t) == {}
      && t.pendingInvalidate == (s.pendingInvalidate && !e.CallReportProbeResult?)
  {
    ReachedKeeps(c, s);
    hide Inv, Apply, Enabled, Wanted;
    match e {
      case ProbeAnswers(_, _, _, _) => AnswerRefused(c, s, e);
      case CallReportProbeResult(_, _, _) => ResultRefused(c, s, e);
      case _ =>
    }
  }

  /** One probe begins and nothing else is under way: it is new, of a new generation, and the only wanted one. */
  ghost predicate Begins(s: State, t: State, attempt: int, initial: bool, start: Option<nat>) {
    && t.loop.flights.Keys - s.loop.flights.Keys == {s.loop.nextFlight}
    && Wanted(t) == {s.loop.nextFlight} && t.loop.nextFlight == s.loop.nextFlight + 1
    && t.loop.flights[s.loop.nextFlight] == Flight(t.generation, attempt, initial, start, t.loop.steps)
    && t.generation == s.generation + 1 && t.loop.armed == map[] && t.retryTimer == None
  }

  lemma ProbeBegins(s: State, attempt: int, initial: bool, start: Option<nat>)
    requires TimersTracked(s) && FlightsDistinct(s) && !s.isStopped
    ensures var t := RunProbe(s, attempt, initial, start);
      && Begins(s, t, attempt, initial, start) && t.loop.steps == s.loop.steps
      && Publishes(s, t, s.status.(conn := ConnectingFrom(s.status.conn, attempt, initial)))
      && t.pendingInvalidate == s.pendingInvalidate && t.startInFlight == s.startInFlight
      && t.isStarted == s.isStarted && t.isStopped == s.isStopped && t.loop.nextStart == s.loop.nextStart
  {
    hide Notify;
    var t := RunProbe(s, attempt, initial, start);
    assert t.loop.flights.Keys == s.loop.flights.Keys + {s.loop.nextFlight};
    assert s.loop.nextFlight !in s.loop.flights;
    forall id | id in Wanted(t) ensures id == s.loop.nextFlight {}
    assert s.loop.nextFlight in Wanted(t);
  }

  function ConnectingFrom(conn: Status, attempt: int, initial: bool): Status {
    Status(Connecting, if initial then Some(InitialConnect) else conn.reason, attempt, None, conn.lastConnectedAt,
           conn.lastDisconnectedAt, None)
  }

  lemma BookkeepingStays(s: State, t: State)
    requires TimersTracked(s) && FlightsDistinct(s)
    requires t.loop == s.loop && t.retryTimer == s.retryTimer && t.generation == s.generation
    ensures TimersTracked(t) && FlightsDistinct(t) && Wanted(t) == Wanted(s)
  {
  }

  /** The state in which a ready answer has been published, without its flight. */
  ghost function Answered(s: State, f: Flight, id: nat, now: real): State {
    var u := Tick(s).(loop := Tick(s).loop.(flights := s.loop.flights - {id}));
    var conn := s.status.conn;
    var reason := if f.initial then Some(InitialConnect) else conn.reason;
    var online := Status(Online, reason, f.attempt, None, Some(now), conn.lastDisconnectedAt, None);
    Publish(u.(past := u.past.(provenAt := f.begun)), EndpointStatus(online, Some(Ready)))
  }

  lemma AnswerIsOnline(c: Config, s: State, e: Event)
    requires Enabled(s, e) && e.ProbeAnswers? && !s.isStopped && e.probe == Ready
    requires s.loop.flights[e.id].generation == s.generation
    ensures var f := s.loop.flights[e.id];
      var v := Answered(s, f, e.id, e.now);
      Apply(c, s, e) == Finish(
        if s.pendingInvalidate then RunProbe(v.(pendingInvalidate := false), f.attempt, false, None) else v, f.start)
  {
    hide Notify, RunProbe;
  }

  lemma AnsweredMeans(s: State, f: Flight, id: nat, now: real)
    requires Inv(s) && !s.isStopped && id in Wanted(s) && f == s.loop.flights[id]
    ensures var v, conn := Answered(s, f, id, now), s.status.conn;
      var reason := if f.initial then Some(InitialConnect) else conn.reason;
      && Publishes(s, v, EndpointStatus(
          Status(Online, reason, conn.attempt, None, Some(now), conn.lastDisconnectedAt, None), Some(Ready)))
      && TimersTracked(v) && FlightsDistinct(v) && Wanted(v) == {} && v.loop.armed == map[]
      && v.generation == s.generation && !v.isStopped && v.pendingInvalidate == s.pendingInvalidate
      && v.loop.flights == s.loop.flights - {id} && v.loop.nextFlight == s.loop.nextFlight && id < s.loop.nextFlight
  {
    AnswerLeavesNone(s, id);
    assert Live(s.loop.flights, s.generation, id);
    assert s.retryTimer.None?;
    var u := Tick(s).(loop := Tick(s).loop.(flights := s.loop.flights - {id}));
    assert FlightsDistinct(u);
    hide Notify, Inv, FlightsDistinct, Wanted;
    BookkeepingStays(u, Answered(s, f, id, now));
  }

  /** The same probe begins, seen from before the answer. */
  lemma BeginsAfter(s: State, v: State, t: State, id: nat, attempt: int)
    requires Begins(v, t, attempt, false, None) && v.loop.flights == s.loop.flights - {id}
    requires v.loop.nextFlight == s.loop.nextFlight && v.generation == s.generation && id < s.loop.nextFlight
    requires s.loop.nextFlight !in s.loop.flights
    ensures Begins(s, t, attempt, false, None)
  {
    hide Wanted;
    assert t.loop.flights.Keys - s.loop.flights.Keys <= {s.loop.nextFlight};
  }

  /** A ready answer that counts: online, at the attempt that was reached; and then one more probe if one is due. */
  lemma ReadyBringsOnline(c: Config, s: State, e: Event)
    requires Reached(c, s) && Enabled(s, e) && e.ProbeAnswers? && !s.isStopped && e.id in Wanted(s) && e.probe == Ready
    ensures var t, conn := Apply(c, s, e), s.status.conn;
      var reason := if s.loop.flights[e.id].initial then Some(InitialConnect) else conn.reason;
      var online := EndpointStatus(
        Status(Online, reason, conn.attempt, None, Some(e.now), conn.lastDisconnectedAt, None), Some(Ready));
      && !t.pendingInvalidate
      && if s.pendingInvalidate then
           && t.status == EndpointStatus(ConnectingFrom(online.conn, conn.attempt, false), Some(Ready))
           && t.past.log == s.past.log + [online, t.status]
           && Begins(s, t, conn.attempt, false, None)
         else
           && t.status == online && t.past.log == s.past.log + [online]
           && t.loop.armed == map[] && Wanted(t) == {}
  {
    ReachedKeeps(c, s);
    assert s.loop.flights[e.id].attempt == s.status.conn.attempt by { AnswerLeavesNone(s, e.id); }
    if s.pendingInvalidate {
      ReadyProbesAgain(c, s, e, s.loop.flights[e.id]);
    } else {
      ReadyRests(c, s, e, s.loop.flights[e.id]);
    }
    hide Inv, Apply, Enabled, Wanted, Begins, Reached;
  }

  lemma ReadyRests(c: Config, s: State, e: Event, f: Flight)
    requires Inv(s) && e.ProbeAnswers? && !s.isStopped && e.id in Wanted(s) && e.probe == Ready
    requires f == s.loop.flights[e.id] && !s.pendingInvalidate
    ensures var t, conn := Apply(c, s, e), s.status.conn;
      && Publishes(s, t, EndpointStatus(
          Status(Online, if f.initial then Some(InitialConnect) else conn.reason, conn.attempt, None, Some(e.now),
                 conn.lastDisconnectedAt, None), Some(Ready)))
      && t.loop.armed == map[] && Wanted(t) == {} && !t.pendingInvalidate
  {
    var v := Answered(s, f, e.id, e.now);
    AnswerIsOnline(c, s, e);
    AnsweredMeans(s, f, e.id, e.now);
    hide Inv, Apply, Answered, TimersTracked, FlightsDistinct, Wanted;
    WantedFrame(v, Finish(v, f.start));
  }

  lemma ReadyProbesAgain(c: Config, s: State, e: Event, f: Flight)
    requires Inv(s) && e.ProbeAnswers? && !s.isStopped && e.id in Wanted(s) && e.probe == Ready
    requires f == s.loop.flights[e.id] && s.pendingInvalidate
    ensures var t, conn := Apply(c, s, e), s.status.conn;
      var online := EndpointStatus(
        Status(Online, if f.initial then Some(InitialConnect) else conn.reason, conn.attempt, None, Some(e.now),
               conn.lastDisconnectedAt, None), Some(Ready));
      && t.status == EndpointStatus(ConnectingFrom(online.conn, conn.attempt, false), Some(Ready))
      && t.past.log == s.past.log + [online, t.status]
      && Begins(s, t, conn.attempt, false, None) && !t.pendingInvalidate
  {
    var v := Answered(s, f, e.id, e.now);
    var w := v.(pendingInvalidate := false);
    var t := RunProbe(w, f.attempt, false, None);
    AnswerIsOnline(c, s, e);
    AnswerLeavesNone(s, e.id);
    AnsweredMeans(s, f, e.id, e.now);
    FlightsBelow(s);
    hide Inv, Apply, RunProbe, Answered, TimersTracked, FlightsDistinct, Wanted, Begins;
    BookkeepingStays(v, w);
    ProbeBegins(w, f.attempt, false, None);
    BeginsAfter(s, w, t, e.id, f.attempt);
    BeginsFrame(s, t, Finish(t, f.start), f.attempt);
  }

  lemma FlightsBelow(s: State)
    requires Inv(s)
    ensures s.loop.nextFlight !in s.loop.flights
  {
  }

  lemma BeginsFrame(s: State, t: State, u: State, attempt: int)
    requires Begins(s, t, attempt, false, None)
    requires u == t.(loop := t.loop.(settledStarts := u.loop.settledStarts))
    ensures Begins(s, u, attempt, false, None)
  {
  }

  lemma WantedFrame(s: State, t: State)
    requires t.loop.flights == s.loop.flights && t.generation == s.generation
    ensures Wanted(t) == Wanted(s)
  {
  }

  /** Any other answer or report changes nothing that is published, armed or wanted. */
  lemma OthersDoNotCount(c: Config, s: State, e: Event)
    requires Reached(c, s) && Enabled(s, e)
    requires
      || (e.ProbeAnswers? && (s.isStopped || e.id !in Wanted(s)))
      || (e.CallReportFailure? && (s.isStopped || s.status.conn.phase !in {Online, Connecting}))
      || (e.CallReportProbeResult? && (s.isStopped || s.status.conn.phase !in {Online, Connecting, Offline}))
    ensures var t := Apply(c, s, e);
      && t.status == s.status && t.past.log == s.past.log && t.loop.armed == s.loop.armed
      && t.retryTimer == s.retryTimer && t.generation == s.generation && t.pendingInvalidate == s.pendingInvalidate
      && Wanted(t) == (if e.ProbeAnswers? then Wanted(s) - {e.id} else Wanted(s)) && t.audience == s.audience
  {
    ReachedKeeps(c, s);
    hide Inv;
  }

  /**
   * An invalidation: remembered while a probe is out, and otherwise a new probe at once, at the attempt that was
   * reached.
   */
  lemma InvalidationsProbe(c: Config, s: State)
    requires Reached(c, s)
    ensures var t := Apply(c, s, CallInvalidate);
      if s.isStopped then t == Tick(s)
      else if s.status.conn.phase == Connecting then
        && t.pendingInvalidate && t.status == s.status && t.past.log == s.past.log
        && t.loop == s.loop.(steps := s.loop.steps + 1) && t.generation == s.generation && t.audience == s.audience
      else
        && Publishes(s, t, s.status.(conn := ConnectingFrom(s.status.conn, s.status.conn.attempt, false)))
        && Begins(s, t, s.status.conn.attempt, false, None) && !t.pendingInvalidate
  {
    ReachedKeeps(c, s);
    var u := Report(Tick(s)).(pendingInvalidate := false);
    assert TimersTracked(u) && FlightsDistinct(u);
    hide Inv, RunProbe, TimersTracked, FlightsDistinct;
    if !s.isStopped {
      ProbeBegins(u, s.status.conn.attempt, false, None);
    }
  }

  /** A retry: a new probe at the attempt that the last failure counted. */
  lemma RetriesProbe(c: Config, s: State, id: nat)
    requires Reached(c, s) && Enabled(s, TimerFires(id))
    ensures var t := Apply(c, s, TimerFires(id));
      && Publishes(s, t, s.status.(conn := ConnectingFrom(s.status.conn, s.status.conn.attempt, false)))
      && Begins(s, t, s.status.conn.attempt, false, None) && t.pendingInvalidate == s.pendingInvalidate
  {
    ReachedKeeps(c, s);
    assert TimersTracked(s) && FlightsDistinct(s) && !s.isStopped;
    assert s.loop.armed[id] == s.status.conn.attempt;
    var u := Tick(s).(loop := Tick(s).loop.(armed := s.loop.armed - {id}), retryTimer := None);
    assert TimersTracked(u) && FlightsDistinct(u);
    hide Inv, RunProbe, TimersTracked, FlightsDistinct;
    ProbeBegins(u, s.status.conn.attempt, false, None);
  }

  /**
   * A start: joined while another is in flight; with nothing to do when online or connecting; and otherwise a probe at
   * attempt zero, which counts as the initial one unless the supervisor was running.
   */
  lemma StartsProbe(c: Config, s: State)
    requires Reached(c, s)
    ensures var t, id := Apply(c, s, CallStart), s.loop.nextStart;
      var running := s.isStarted && !s.isStopped;
      if s.startInFlight.Some? && !s.isStopped then t == Tick(s)
      else
        && t.startInFlight == Some(id) && t.loop.nextStart == id + 1 && t.isStarted && !t.isStopped
        && if running && s.status.conn.phase in {Online, Connecting} then
             && t.status == s.status && t.past.log == s.past.log && t.loop.flights == s.loop.flights
             && t.loop.armed == s.loop.armed && t.loop.settledStarts == s.loop.settledStarts + {id}
             && t.generation == s.generation && t.pendingInvalidate == s.pendingInvalidate
           else
             && Publishes(s, t, s.status.(conn := ConnectingFrom(s.status.conn, 0, !running)))
             && Begins(s, t, 0, !running, Some(id)) && !t.pendingInvalidate
  {
    ReachedKeeps(c, s);
    if s.startInFlight.None? || s.isStopped {
      var running := s.isStarted && !s.isStopped;
      if running && s.status.conn.phase in {Online, Connecting} {
        StartReturns(c, s);
      } else {
        assert TimersTracked(s) && FlightsDistinct(s);
        hide *;
        StartLaunches(c, s, !running, s.loop.nextStart);
      }
    }
    hide *;
  }

  lemma StartReturns(c: Config, s: State)
    requires s.startInFlight.None? && s.isStarted && !s.isStopped && s.status.conn.phase in {Online, Connecting}
    ensures var id := s.loop.nextStart;
      Apply(c, s, CallStart) == Tick(s).(startInFlight := Some(id),
        loop := Tick(s).loop.(nextStart := id + 1, settledStarts := s.loop.settledStarts + {id}))
  {
    hide RunProbe;
  }

  lemma StartLaunches(c: Config, s: State, initial: bool, id: nat)
    requires TimersTracked(s) && FlightsDistinct(s) && (s.startInFlight.None? || s.isStopped)
    requires !(s.isStarted && !s.isStopped && s.status.conn.phase in {Online, Connecting})
    requires initial == !(s.isStarted && !s.isStopped) && id == s.loop.nextStart
    ensures var t := Apply(c, s, CallStart);
      && t.startInFlight == Some(id) && t.loop.nextStart == id + 1 && t.isStarted && !t.isStopped
      && Publishes(s, t, s.status.(conn := ConnectingFrom(s.status.conn, 0, initial)))
      && Begins(s, t, 0, initial, Some(id)) && !t.pendingInvalidate
  {
    var u := Tick(s).(isStarted := true, isStopped := false, pendingInvalidate := false,
                      loop := Tick(s).loop.(nextStart := id + 1), past := s.past.(mark := |s.past.log|));
    var t := RunProbe(u, 0, initial, Some(id));
    assert TimersTracked(u) && FlightsDistinct(u);
    StartIsProbe(c, s, u, initial, id);
    hide RunProbe, TimersTracked, FlightsDistinct, Begins, Publishes, Apply;
    ProbeBegins(u, 0, initial, Some(id));
    LaunchMeans(s, u, t, Apply(c, s, CallStart), initial, id);
  }

  lemma StartIsProbe(c: Config, s: State, u: State, initial: bool, id: nat)
    requires s.startInFlight.None? || s.isStopped
    requires !(s.isStarted && !s.isStopped && s.status.conn.phase in {Online, Connecting})
    requires initial == !(s.isStarted && !s.isStopped) && id == s.loop.nextStart
    requires u ==
      Tick(s).(isStarted := true, isStopped := false, pendingInvalidate := false,
               loop := Tick(s).loop.(nextStart := id + 1), past := s.past.(mark := |s.past.log|))
    ensures Apply(c, s, CallStart) == RunProbe(u, 0, initial, Some(id)).(startInFlight := Some(id))
  {
    hide RunProbe;
  }

  lemma LaunchMeans(s: State, u: State, t: State, v: State, initial: bool, id: nat)
    requires Begins(u, t, 0, initial, Some(id)) && t.loop.steps == u.loop.steps
    requires Publishes(u, t, u.status.(conn := ConnectingFrom(u.status.conn, 0, initial)))
    requires u.loop.flights == s.loop.flights && u.loop.nextFlight == s.loop.nextFlight && u.generation == s.generation
    requires u.status == s.status && u.past.log == s.past.log && v == t.(startInFlight := Some(id))
    ensures Begins(s, v, 0, initial, Some(id))
    ensures Publishes(s, v, s.status.(conn := ConnectingFrom(s.status.conn, 0, initial)))
  {
  }

  /** The promise of a start settles with its probe, or at once if there is nothing to do, and is then forgotten. */
  lemma StartsSettle(c: Config, s: State, e: Event)
    requires Enabled(s, e)
    ensures e.ProbeAnswers? ==>
      var start := s.loop.flights[e.id].start;
      Apply(c, s, e).loop.settledStarts == s.loop.settledStarts + (if start.Some? then {start.value} else {})
    ensures e.StartSettles? ==>
      var t := Apply(c, s, e);
      && t.loop.settledStarts == s.loop.settledStarts - {e.id}
      && t.startInFlight == if s.startInFlight == Some(e.id) then None else s.startInFlight
  {
    hide Notify, RequestedOr, FastOrBackoff;
  }

  /** A stop: shutting down, with no timer and no probe wanted, and no start in flight. */
  lemma StopsAll(c: Config, s: State)
    requires Reached(c, s)
    ensures var t, conn := Apply(c, s, CallStop), s.status.conn;
      if s.isStopped then t == Tick(s)
      else
        && t.isStopped && t.startInFlight == None && !t.pendingInvalidate && t.loop.armed == map[]
        && Publishes(s, t, s.status.(conn := conn.(phase := ShuttingDown, reason := Some(IntentionalShutdown),
                                                   nextRetryAt := None)))
  {
    ReachedKeeps(c, s);
    assert TimersTracked(s);
    hide Inv, Notify;
  }

  // ----- waiters and subscribers -----

  /** The first status in the news that is online or refused. */
  ghost predicate FirstIs(news: seq<EndpointStatus>, phase: Phase) {
    exists i :: 0 <= i < |news| && news[i].conn.phase == phase
      && forall j :: 0 <= j < i ==> news[j].conn.phase != Online && news[j].conn.phase != AuthFailed
  }

  lemma FirstExtends(news: seq<EndpointStatus>, phase: Phase)
    requires news != []
    ensures FirstIs(news[..|news| - 1], phase) ==> FirstIs(news, phase)
    ensures FirstIs(news, phase) && phase in {Online, AuthFailed} ==>
      FirstIs(news[..|news| - 1], phase) || news[|news| - 1].conn.phase == phase
  {
    var n := |news| - 1;
    if FirstIs(news[..n], phase) {
      var i :| 0 <= i < n && news[..n][i].conn.phase == phase
        && forall j :: 0 <= j < i ==> news[..n][j].conn.phase != Online && news[..n][j].conn.phase != AuthFailed;
      assert news[i].conn.phase == phase;
      assert forall j :: 0 <= j < i ==> news[j] == news[..n][j];
    }
    if FirstIs(news, phase) {
      var i :| 0 <= i < |news| && news[i].conn.phase == phase
        && forall j :: 0 <= j < i ==> news[j].conn.phase != Online && news[j].conn.phase != AuthFailed;
      if i < n {
        assert news[..n][i].conn.phase == phase;
      }
    }
  }

  /** It is one phase at most. */
  lemma FirstIsOne(news: seq<EndpointStatus>)
    ensures !(FirstIs(news, Online) && FirstIs(news, AuthFailed))
  {
  }

  lemma {:induction false} VerdictIsFirst(news: seq<EndpointStatus>)
    ensures Verdict(news) == Resolved <==> FirstIs(news, Online)
    ensures Verdict(news) == AuthRejection <==> FirstIs(news, AuthFailed)
    ensures Verdict(news) in {Pending, Resolved, AuthRejection}
  {
    if news != [] {
      var before := news[..|news| - 1];
      VerdictIsFirst(before);
      FirstExtends(news, Online);
      FirstExtends(news, AuthFailed);
      FirstIsOne(news);
      if Verdict(before) == Pending {
        NothingSettled(before);
        LastIsFirst(news, before);
      }
      hide FirstIs;
    }
  }

  lemma LastIsFirst(news: seq<EndpointStatus>, before: seq<EndpointStatus>)
    requires news != [] && before == news[..|news| - 1]
    requires forall i :: 0 <= i < |before| ==>
      before[i].conn.phase != Online && before[i].conn.phase != AuthFailed
    ensures FirstIs(news, news[|news| - 1].conn.phase)
    ensures !FirstIs(before, Online) && !FirstIs(before, AuthFailed)
  {
    var n := |news| - 1;
    assert forall j :: 0 <= j < n ==> news[j] == before[j];
    assert news[n].conn.phase == news[n].conn.phase;
  }

  lemma {:induction false} NothingSettled(news: seq<EndpointStatus>)
    requires Verdict(news) == Pending
    ensures forall i :: 0 <= i < |news| ==> news[i].conn.phase != Online && news[i].conn.phase != AuthFailed
  {
    if news != [] {
      NothingSettled(news[..|news| - 1]);
    }
  }

  lemma TimeoutIsSilent(c: Config, s: State, id: nat)
    requires Enabled(s, WaiterTimesOut(id))
    ensures News(s, Apply(c, s, WaiterTimesOut(id))) == []
  {
    assert s.past.log[|s.past.log|..] == [];
  }

  lemma NoNewsNoVerdict(phase: Phase)
    ensures !FirstIs([], phase)
  {
  }

  /**
   * What becomes of a waiter. Pending, it is resolved exactly if the first online or refused status that the step
   * publishes is online, rejected exactly if that status is a refusal, and timed out exactly by its own timeout;
   * otherwise it stays pending. Settled, it stays as it is.
   */
  lemma WaitersHearTheFirst(c: Config, s: State, e: Event, id: nat, news: seq<EndpointStatus>)
    requires Reached(c, s) && Enabled(s, e) && id in s.audience.waiters
    requires Apply(c, s, e).past.log == s.past.log + news
    ensures id in Apply(c, s, e).audience.waiters
    ensures var was, now := s.audience.waiters[id], Apply(c, s, e).audience.waiters[id];
      if was != Pending then now == was
      else
        && (now == Resolved <==> FirstIs(news, Online))
        && (now == AuthRejection <==> FirstIs(news, AuthFailed))
        && (now == TimedOut <==> e == WaiterTimesOut(id))
  {
    ReachedKeeps(c, s);
    hide Inv, Reached, Enabled, Apply, FirstIs, Verdict;
    LogGrows(c, s, e);
    WaiterSettlesOnce(c, s, e, id);
    VerdictIsFirst(news);
    if e == WaiterTimesOut(id) {
      TimeoutIsSilent(c, s, id);
      NoNewsNoVerdict(Online);
      NoNewsNoVerdict(AuthFailed);
    }
  }

  /** A step that publishes online or a refusal leaves no waiter pending, as the first such status settles it. */
  lemma EverybodyIsTold(news: seq<EndpointStatus>, i: nat)
    requires i < |news| && news[i].conn.phase in {Online, AuthFailed}
    ensures FirstIs(news, Online) || FirstIs(news, AuthFailed)
    decreases i
  {
    if exists j :: 0 <= j < i && news[j].conn.phase in {Online, AuthFailed} {
      var j: nat :| j < i && news[j].conn.phase in {Online, AuthFailed};
      EverybodyIsTold(news, j);
    } else {
      assert FirstIs(news, news[i].conn.phase);
    }
  }

  /** A call to wait: resolved at once when online, rejected at once when refused, and otherwise pending. */
  lemma WaitsBegin(c: Config, s: State, id: nat, timed: bool)
    requires Reached(c, s) && Enabled(s, CallWaitUntilOnline(id, timed))
    ensures var t, phase := Apply(c, s, CallWaitUntilOnline(id, timed)), s.status.conn.phase;
      && (forall other :: other in s.audience.waiters ==>
        other in t.audience.waiters && t.audience.waiters[other] == s.audience.waiters[other])
      && id in t.audience.waiters && t.audience.waiters[id] == (
          if phase == Online then Resolved else if phase == AuthFailed then AuthRejection else Pending)
      && (phase !in {Online, AuthFailed} ==> Waiter(id) in t.audience.listeners)
      && t.audience.waiterTimers == s.audience.waiterTimers
        + (if timed && phase !in {Online, AuthFailed} then {id} else {})
      && t.status == s.status && t.past.log == s.past.log
  {
  }

  /** A new subscriber hears the current status at once; one that has left hears nothing until it returns. */
  lemma SubscribersComeAndGo(c: Config, s: State, e: Event, id: nat)
    requires Reached(c, s) && Enabled(s, e)
    ensures var t := Apply(c, s, e);
      var heard := if id in s.audience.inbox then s.audience.inbox[id] else [];
      && (e == CallSubscribe(id) ==>
        && t.audience.subscribers == s.audience.subscribers + {id}
        && id in t.audience.inbox && t.audience.inbox[id] == heard + [s.status])
      && (e == CallUnsubscribe(id) ==>
        && t.audience.subscribers == s.audience.subscribers - {id} && t.audience.inbox == s.audience.inbox)
      && (e != CallSubscribe(id) && id !in s.audience.subscribers ==>
        && id !in t.audience.subscribers
        && (if id in t.audience.inbox then t.audience.inbox[id] else []) == heard)
  {
    ReachedKeeps(c, s);
    if !ListenerOperation(e) {
      hide Inv, Apply, NotifyAll;
      assert Subscriber(id) in s.audience.listeners <==> id in s.audience.subscribers by { SubscribersListen(s, id); }
      StepPublishes(c, s, e);
      if id !in s.audience.subscribers {
        StrangersHearNothing(s.audience, News(s, Apply(c, s, e)), id);
      }
    }
  }

  lemma SubscribersListen(s: State, id: nat)
    requires Inv(s)
    ensures Subscriber(id) in s.audience.listeners <==> id in s.audience.subscribers
  {
  }

  lemma {:induction false} StrangersHearNothing(a: Audience, news: seq<EndpointStatus>, id: nat)
    requires Subscriber(id) !in a.listeners
    ensures var b := NotifyAll(a, news);
      && Subscriber(id) !in b.listeners && b.subscribers == a.subscribers
      && (id in b.inbox <==> id in a.inbox) && (id in a.inbox ==> b.inbox[id] == a.inbox[id])
  {
    if news != [] {
      StrangersHearNothing(a, news[..|news| - 1], id);
    }
  }
}
