/** What every run of the endpoint supervisor keeps. */
module EndpointProofs {
  import opened Options
  import opened ConnectionTypes
  import opened EndpointModel

  /** The suspended probe whose answer will be heeded. */
  ghost predicate Live(flights: map<nat, Flight>, generation: nat, id: nat) {
    id in flights && flights[id].generation == generation
  }

  ghost predicate TimersTracked(s: State) {
    && s.loop.armed.Keys == (if s.retryTimer.Some? then {s.retryTimer.value} else {})
    && (forall id :: id in s.loop.armed ==> id < s.loop.nextTimer)
  }

  ghost predicate FlightsDistinct(s: State) {
    && (forall id :: id in s.loop.flights ==> id < s.loop.nextFlight && s.loop.flights[id].generation <= s.generation)
    && (forall id, other | id in s.loop.flights && other in s.loop.flights ::
          s.loop.flights[id].generation == s.loop.flights[other].generation ==> id == other)
  }

  /** Each phase has exactly the continuation that can leave it. */
  ghost predicate NeverStalls(s: State) {
    var phase := s.status.conn.phase;
    if s.isStopped then phase == ShuttingDown && s.retryTimer.None? && s.status.conn.nextRetryAt.None?
    else
      && (phase == Connecting <==> exists id :: Live(s.loop.flights, s.generation, id))
      && (forall id, other :: Live(s.loop.flights, s.generation, id) && Live(s.loop.flights, s.generation, other) ==>
        id == other)
      && (phase == Offline <==> s.retryTimer.Some?)
      && (phase == Offline <==> s.status.conn.nextRetryAt.Some?)
  }

  function Offlines(log: seq<EndpointStatus>): nat {
    if log == [] then 0
    else Offlines(log[..|log| - 1]) + (if log[|log| - 1].conn.phase == Offline then 1 else 0)
  }

  /** `attempt` counts the transitions into `offline` since the last launching start, wherever it is kept. */
  ghost predicate AttemptCounts(s: State) {
    && s.past.mark <= |s.past.log|
    && s.status.conn.attempt == Offlines(s.past.log[s.past.mark..])
    && (!s.isStopped ==> forall id :: Live(s.loop.flights, s.generation, id) ==>
      s.loop.flights[id].attempt == s.status.conn.attempt)
    && (forall id :: id in s.loop.armed ==> s.loop.armed[id] == s.status.conn.attempt)
  }

  /** `online` rests on a probe begun no earlier than the last report; while connecting, the debt is remembered. */
  ghost predicate Fresh(s: State) {
    && s.past.lastReport <= s.loop.steps
    && (forall id :: id in s.loop.flights ==> s.loop.flights[id].begun <= s.loop.steps)
    && (!s.isStopped ==> forall id :: Live(s.loop.flights, s.generation, id) ==>
      s.loop.flights[id].begun >= s.past.lastReport || s.pendingInvalidate)
    && (s.status.conn.phase == Online ==> s.past.provenAt >= s.past.lastReport && !s.pendingInvalidate)
  }

  /** Everything but the waiters. */
  ghost predicate Controlled(s: State) {
    TimersTracked(s) && FlightsDistinct(s) && NeverStalls(s) && AttemptCounts(s) && Fresh(s)
  }

  /** The listener set is the live subscribers and the unsettled waiters, and none is unsettled in a settling phase. */
  ghost predicate WaitersTracked(a: Audience, phase: Phase) {
    && (forall id :: Subscriber(id) in a.listeners <==> id in a.subscribers)
    && (forall id :: Waiter(id) in a.listeners <==> id in a.waiters && a.waiters[id] == Pending)
    && (forall id :: id in a.waiterTimers ==> Waiter(id) in a.listeners)
    && (Settles(phase) ==> forall id :: Waiter(id) !in a.listeners)
    && a.subscribers <= a.inbox.Keys
  }

  ghost predicate Inv(s: State) {
    Controlled(s) && WaitersTracked(s.audience, s.status.conn.phase)
  }

  lemma OfflinesGrow(log: seq<EndpointStatus>, mark: nat, next: EndpointStatus)
    requires mark <= |log|
    ensures Offlines((log + [next])[mark..]) == Offlines(log[mark..]) + (if next.conn.phase == Offline then 1 else 0)
  {
    var longer := (log + [next])[mark..];
    assert longer[..|longer| - 1] == log[mark..];
  }

  /** What RunProbe may assume: the bookkeeping, but not that the phase fits the continuations. */
  ghost predicate Restartable(s: State) {
    && TimersTracked(s) && FlightsDistinct(s)
    && s.past.lastReport <= s.loop.steps
    && (forall id :: id in s.loop.flights ==> s.loop.flights[id].begun <= s.loop.steps)
    && s.past.mark <= |s.past.log|
  }

  lemma RunProbeEstablishes(s: State, attempt: int, initial: bool, start: Option<nat>)
    requires Restartable(s) && !s.isStopped
    requires attempt == Offlines(s.past.log[s.past.mark..])
    ensures Controlled(RunProbe(s, attempt, initial, start))
  {
    hide Notify;
    RunProbeSteers(s, attempt, initial, start);
    OfflinesGrow(s.past.log, s.past.mark, RunProbe(s, attempt, initial, start).status);
  }

  lemma RunProbeSteers(s: State, attempt: int, initial: bool, start: Option<nat>)
    requires Restartable(s) && !s.isStopped
    ensures var t := RunProbe(s, attempt, initial, start);
      TimersTracked(t) && FlightsDistinct(t) && NeverStalls(t) && Fresh(t)
  {
    hide Notify;
    var t := RunProbe(s, attempt, initial, start);
    assert Live(t.loop.flights, t.generation, s.loop.nextFlight);
  }

  lemma ScheduleEstablishes(s: State, attempt: int, delay: real, probe: Probe, now: real)
    requires Restartable(s) && !s.isStopped
    requires attempt == Offlines(s.past.log[s.past.mark..]) + 1
    requires forall id :: !Live(s.loop.flights, s.generation, id)
    ensures Controlled(ScheduleProbe(s, attempt, delay, probe, now))
  {
    var t := ScheduleProbe(s, attempt, delay, probe, now);
    OfflinesGrow(s.past.log, s.past.mark, t.status);
  }

  lemma RejectEstablishes(s: State, attempt: int, probe: Probe)
    requires Restartable(s) && !s.isStopped && s.retryTimer.None?
    requires attempt == Offlines(s.past.log[s.past.mark..])
    requires forall id :: !Live(s.loop.flights, s.generation, id)
    ensures Controlled(RejectAuth(s, attempt, probe))
  {
    OfflinesGrow(s.past.log, s.past.mark, RejectAuth(s, attempt, probe).status);
  }

  lemma OnlineEstablishes(s: State, f: Flight, now: real)
    requires Restartable(s) && !s.isStopped && s.retryTimer.None?
    requires f.attempt == Offlines(s.past.log[s.past.mark..])
    requires f.begun >= s.past.lastReport || s.pendingInvalidate
    requires forall id :: !Live(s.loop.flights, s.generation, id)
    ensures Controlled(GoOnline(s, f, now))
  {
    var conn := s.status.conn;
    var online := Status(Online, if f.initial then Some(InitialConnect) else conn.reason, f.attempt, None, Some(now),
                         conn.lastDisconnectedAt, None);
    var s1 := Publish(s.(past := s.past.(provenAt := f.begun)), EndpointStatus(online, Some(Ready)));
    OfflinesGrow(s.past.log, s.past.mark, s1.status);
    if s.pendingInvalidate {
      RunProbeEstablishes(s1.(pendingInvalidate := false), s1.status.conn.attempt, false, None);
    }
  }

  lemma HeedEstablishes(c: Config, s: State, f: Flight, probe: Probe, now: real, random: real)
    requires Restartable(s) && !s.isStopped && s.retryTimer.None?
    requires f.attempt == Offlines(s.past.log[s.past.mark..])
    requires f.begun >= s.past.lastReport || s.pendingInvalidate
    requires forall id :: !Live(s.loop.flights, s.generation, id)
    ensures Controlled(HeedProbe(c, s, f, probe, now, random))
  {
    hide RejectAuth, GoOnline, ScheduleProbe, RequestedOr, FastOrBackoff, Controlled;
    match probe {
      case AuthRejected(_) => RejectEstablishes(s, f.attempt, probe);
      case Ready => OnlineEstablishes(s, f, now);
      case _ =>
        ScheduleEstablishes(s, f.attempt + 1, RequestedOr(probe, FastOrBackoff(c, f.attempt + 1, random)), probe, now);
    }
  }

  /** The control part does not look at the audience or the start promises. */
  lemma ControlFrame(s: State, t: State)
    requires Controlled(s)
    requires t.loop.steps >= s.loop.steps
    requires t == s.(audience := t.audience, startInFlight := t.startInFlight,
                     loop := s.loop.(steps := t.loop.steps, settledStarts := t.loop.settledStarts,
                                     nextStart := t.loop.nextStart))
    ensures Controlled(t)
  {
  }

  lemma FinishKeeps(s: State, start: Option<nat>)
    requires Controlled(s)
    ensures Controlled(Finish(s, start))
  {
    hide Controlled;
    ControlFrame(s, Finish(s, start));
  }

  lemma ResumeKeeps(c: Config, s: State, id: nat, probe: Probe, now: real, random: real)
    requires Controlled(s) && id in s.loop.flights
    ensures Controlled(ResumeProbe(c, s, id, probe, now, random))
  {
    hide HeedProbe, Finish;
    var f := s.loop.flights[id];
    var s1 := s.(loop := s.loop.(flights := s.loop.flights - {id}));
    if s.isStopped || f.generation != s.generation {
      forall other
        ensures !s.isStopped ==>
          (Live(s1.loop.flights, s.generation, other) <==> Live(s.loop.flights, s.generation, other))
      {}
    } else {
      assert Live(s.loop.flights, s.generation, id);
      forall other ensures !Live(s1.loop.flights, s.generation, other) {}
      HeedEstablishes(c, s1, f, probe, now, random);
    }
    FinishKeeps(if s.isStopped || f.generation != s.generation then s1 else HeedProbe(c, s1, f, probe, now, random),
      f.start);
  }

  lemma InvalidateKeeps(s: State)
    requires Controlled(s)
    ensures Controlled(Invalidate(s))
  {
    hide RunProbe;
    if !s.isStopped && s.status.conn.phase != Connecting {
      RunProbeEstablishes(Report(s).(pendingInvalidate := false), s.status.conn.attempt, false, None);
    }
  }

  lemma ReportFailureKeeps(c: Config, s: State, message: Option<string>, now: real, random: real)
    requires Controlled(s)
    ensures Controlled(ReportFailure(c, s, message, now, random))
  {
    hide ScheduleProbe, FastOrBackoff;
    var s1 := Report(s);
    if !s.isStopped && s.status.conn.phase in {Online, Connecting} {
      ScheduleEstablishes(s1.(generation := s1.generation + 1), NextAttempt(s1),
        FastOrBackoff(c, NextAttempt(s1), random),
                          ServerUnreachable(message), now);
    }
  }

  lemma ReportProbeResultKeeps(c: Config, s: State, probe: Failure, now: real, random: real)
    requires Controlled(s)
    ensures Controlled(ReportProbeResult(c, s, probe, now, random))
  {
    hide ScheduleProbe, RejectAuth, RequestedOr, FastOrBackoff;
    var s1 := Report(s);
    if !s.isStopped && s.status.conn.phase in {Online, Connecting, Offline} {
      var s2 := ClearRetryTimer(s1.(generation := s1.generation + 1)).(pendingInvalidate := false);
      if probe.AuthRejected? {
        RejectEstablishes(s2, s2.status.conn.attempt, probe);
      } else {
        ScheduleEstablishes(s2, NextAttempt(s2), RequestedOr(probe, FastOrBackoff(c, NextAttempt(s2), random)), probe,
          now);
      }
    }
  }

  lemma StartKeeps(s: State)
    requires Controlled(s)
    ensures Controlled(Start(s))
  {
    hide RunProbe;
    if s.startInFlight.None? || s.isStopped {
      var initial := !(s.isStarted && !s.isStopped);
      var s1 := s.(loop := s.loop.(nextStart := s.loop.nextStart + 1), pendingInvalidate := false,
                   past := s.past.(mark := |s.past.log|), isStarted := true, isStopped := false);
      if initial || s.status.conn.phase !in {Online, Connecting} {
        LaunchEstablishes(s1, initial, s.loop.nextStart);
        ControlFrame(RunProbe(s1, 0, initial, Some(s.loop.nextStart)), Start(s));
      } else {
        ControlFrame(s, Start(s));
      }
    }
  }

  lemma LaunchEstablishes(s: State, initial: bool, id: nat)
    requires Restartable(s) && !s.isStopped && s.past.mark == |s.past.log|
    ensures Controlled(RunProbe(s, 0, initial, Some(id)))
  {
    hide RunProbe, Controlled;
    assert s.past.log[s.past.mark..] == [];
    RunProbeEstablishes(s, 0, initial, Some(id));
  }

  lemma StopKeeps(s: State)
    requires Controlled(s)
    ensures Controlled(Stop(s))
  {
    if !s.isStopped {
      OfflinesGrow(s.past.log, s.past.mark, Stop(s).status);
    }
  }

  lemma FireKeeps(s: State, id: nat)
    requires Controlled(s) && id in s.loop.armed
    ensures Controlled(FireTimer(s, id))
  {
    hide RunProbe;
    RunProbeEstablishes(s.(loop := s.loop.(armed := s.loop.armed - {id}), retryTimer := None), s.loop.armed[id], false,
      None);
  }

  lemma StepKeepsControl(c: Config, s: State, e: Event)
    requires Controlled(s) && Enabled(s, e)
    ensures Controlled(Apply(c, s, e))
  {
    hide Start, Stop, Invalidate, ReportFailure, ReportProbeResult, ResumeProbe, FireTimer, Controlled;
    var t := Tick(s);
    ControlFrame(s, t);
    match e {
      case CallStart => StartKeeps(t);
      case CallStop => StopKeeps(t);
      case CallInvalidate => InvalidateKeeps(t);
      case CallReportFailure(message, now, random) => ReportFailureKeeps(c, t, message, now, random);
      case CallReportProbeResult(failure, now, random) => ReportProbeResultKeeps(c, t, failure, now, random);
      case TimerFires(id) => FireKeeps(t, id);
      case ProbeAnswers(id, probe, now, random) => ResumeKeeps(c, t, id, probe, now, random);
      case _ => ControlFrame(t, Apply(c, s, e));
    }
  }

  lemma NotifyTracks(a: Audience, phase: Phase, next: EndpointStatus)
    requires WaitersTracked(a, phase)
    ensures WaitersTracked(Notify(a, next), next.conn.phase)
  {
  }

  /** Publishing several statuses in a row. */
  ghost function NotifyAll(a: Audience, news: seq<EndpointStatus>): Audience {
    if news == [] then a else Notify(NotifyAll(a, news[..|news| - 1]), news[|news| - 1])
  }

  ghost function News(s: State, t: State): seq<EndpointStatus> {
    if |t.past.log| < |s.past.log| then [] else t.past.log[|s.past.log|..]
  }

  /** From `s` to `t`, only publications touched the audience, the log and the phase. */
  ghost predicate OnlyPublishes(s: State, t: State) {
    && t.past.log == s.past.log + News(s, t)
    && t.audience == NotifyAll(s.audience, News(s, t))
    && t.status.conn.phase ==
      (if News(s, t) == [] then s.status.conn.phase else News(s, t)[|News(s, t)| - 1].conn.phase)
  }

  lemma PublishOnce(s: State, t: State, next: EndpointStatus)
    requires OnlyPublishes(s, t)
    ensures OnlyPublishes(s, Publish(t, next))
  {
    hide Notify;
    var u := Publish(t, next);
    assert News(s, u) == News(s, t) + [next];
    assert News(s, u)[..|News(s, u)| - 1] == News(s, t);
  }

  lemma SilentPublishes(s: State, t: State)
    requires t.past.log == s.past.log && t.audience == s.audience && t.status.conn.phase == s.status.conn.phase
    ensures OnlyPublishes(s, t)
  {
    assert News(s, t) == [];
  }

  lemma RunProbePublishes(s: State, t: State, attempt: int, initial: bool, start: Option<nat>)
    requires OnlyPublishes(s, t)
    ensures OnlyPublishes(s, RunProbe(t, attempt, initial, start))
  {
    hide NotifyAll, Notify;
    PublishOnce(s, t, RunProbe(t, attempt, initial, start).status);
  }

  lemma SchedulePublishes(s: State, t: State, attempt: int, delay: real, probe: Probe, now: real)
    requires OnlyPublishes(s, t)
    ensures OnlyPublishes(s, ScheduleProbe(t, attempt, delay, probe, now))
    ensures OnlyPublishes(s, RejectAuth(t, attempt, probe))
  {
    hide NotifyAll, Notify;
    PublishOnce(s, t, ScheduleProbe(t, attempt, delay, probe, now).status);
    PublishOnce(s, t, RejectAuth(t, attempt, probe).status);
  }

  lemma OnlinePublishes(s: State, t: State, f: Flight, now: real)
    requires OnlyPublishes(s, t)
    ensures OnlyPublishes(s, GoOnline(t, f, now))
  {
    hide NotifyAll, Notify, RunProbe;
    var reason := if f.initial then Some(InitialConnect) else t.status.conn.reason;
    var online := Status(Online, reason, f.attempt, None, Some(now),
                         t.status.conn.lastDisconnectedAt, None);
    var u := Publish(t.(past := t.past.(provenAt := f.begun)), EndpointStatus(online, Some(Ready)));
    PublishOnce(s, t, u.status);
    RunProbePublishes(s, u.(pendingInvalidate := false), f.attempt, false, None);
  }

  lemma HeedPublishes(c: Config, s: State, t: State, f: Flight, probe: Probe, now: real, random: real)
    requires OnlyPublishes(s, t)
    ensures OnlyPublishes(s, HeedProbe(c, t, f, probe, now, random))
  {
    hide OnlyPublishes, ScheduleProbe, RejectAuth, GoOnline, RequestedOr, FastOrBackoff;
    OnlinePublishes(s, t, f, now);
    SchedulePublishes(s, t, f.attempt, 0.0, probe, now);
    SchedulePublishes(s, t, f.attempt + 1, RequestedOr(probe, FastOrBackoff(c, f.attempt + 1, random)), probe, now);
  }

  predicate ListenerOperation(e: Event) {
    e.CallSubscribe? || e.CallUnsubscribe? || e.CallWaitUntilOnline? || e.WaiterTimesOut?
  }

  lemma StartPublishes(s: State, t: State)
    requires OnlyPublishes(s, t)
    ensures OnlyPublishes(s, Start(t))
  {
    hide NotifyAll, RunProbe;
    var u := t.(loop := t.loop.(nextStart := t.loop.nextStart + 1), pendingInvalidate := false,
                past := t.past.(mark := |t.past.log|));
    if !(t.isStarted && !t.isStopped) {
      RunProbePublishes(s, u.(isStarted := true, isStopped := false), 0, true, Some(t.loop.nextStart));
    } else {
      RunProbePublishes(s, u, 0, false, Some(t.loop.nextStart));
    }
  }

  lemma ResumePublishes(c: Config, s: State, t: State, id: nat, probe: Probe, now: real, random: real)
    requires OnlyPublishes(s, t) && id in t.loop.flights
    ensures OnlyPublishes(s, ResumeProbe(c, t, id, probe, now, random))
  {
    hide NotifyAll, HeedProbe;
    HeedPublishes(c, s, t.(loop := t.loop.(flights := t.loop.flights - {id})), t.loop.flights[id], probe, now, random);
  }

  lemma PublishesFrame(s: State, t: State, u: State)
    requires OnlyPublishes(s, t)
    requires u.past.log == t.past.log && u.audience == t.audience && u.status == t.status
    ensures OnlyPublishes(s, u)
  {
    hide NotifyAll;
  }

  lemma ReportFailurePublishes(c: Config, s: State, t: State, message: Option<string>, now: real, random: real)
    requires OnlyPublishes(s, t)
    ensures OnlyPublishes(s, ReportFailure(c, t, message, now, random))
  {
    hide OnlyPublishes, ScheduleProbe, FastOrBackoff;
    var u := Report(t);
    var v := u.(generation := t.generation + 1);
    PublishesFrame(s, t, u);
    PublishesFrame(s, t, v);
    SchedulePublishes(s, v, NextAttempt(t), FastOrBackoff(c, NextAttempt(t), random), ServerUnreachable(message), now);
  }

  lemma ReportProbeResultPublishes(c: Config, s: State, t: State, probe: Failure, now: real, random: real)
    requires OnlyPublishes(s, t)
    ensures OnlyPublishes(s, ReportProbeResult(c, t, probe, now, random))
  {
    hide OnlyPublishes, ScheduleProbe, RejectAuth, RequestedOr, FastOrBackoff;
    var u := Report(t);
    var v := ClearRetryTimer(u.(generation := t.generation + 1)).(pendingInvalidate := false);
    PublishesFrame(s, t, u);
    PublishesFrame(s, t, v);
    SchedulePublishes(s, v, t.status.conn.attempt, 0.0, probe, now);
    SchedulePublishes(s, v, NextAttempt(t), RequestedOr(probe, FastOrBackoff(c, NextAttempt(t), random)), probe, now);
  }

  lemma StepPublishes(c: Config, s: State, e: Event)
    requires Enabled(s, e) && !ListenerOperation(e)
    ensures OnlyPublishes(s, Apply(c, s, e))
  {
    hide NotifyAll, Notify, RunProbe, Start, ResumeProbe, ReportFailure, ReportProbeResult;
    var t := Tick(s);
    SilentPublishes(s, t);
    match e {
      case CallStart => StartPublishes(s, t);
      case CallStop => PublishOnce(s, t, Stop(t).status);
      case CallInvalidate =>
        RunProbePublishes(s, Report(t).(pendingInvalidate := false), t.status.conn.attempt, false, None);
      case CallReportFailure(message, now, random) => ReportFailurePublishes(c, s, t, message, now, random);
      case CallReportProbeResult(failure, now, random) => ReportProbeResultPublishes(c, s, t, failure, now, random);
      case TimerFires(id) =>
        RunProbePublishes(s, t.(loop := t.loop.(armed := t.loop.armed - {id}), retryTimer := None), t.loop.armed[id],
          false, None);
      case ProbeAnswers(id, probe, now, random) => ResumePublishes(c, s, t, id, probe, now, random);
      case _ =>
    }
  }

  lemma {:induction false} NotifyAllTracks(a: Audience, phase: Phase, news: seq<EndpointStatus>)
    requires WaitersTracked(a, phase)
    ensures WaitersTracked(NotifyAll(a, news), if news == [] then phase else news[|news| - 1].conn.phase)
  {
    hide Notify;
    if news != [] {
      var before := news[..|news| - 1];
      NotifyAllTracks(a, phase, before);
      NotifyTracks(NotifyAll(a, before), if before == [] then phase else before[|before| - 1].conn.phase,
        news[|news| - 1]);
    }
  }

  lemma StepKeepsWaiters(c: Config, s: State, e: Event)
    requires WaitersTracked(s.audience, s.status.conn.phase) && Enabled(s, e)
    ensures var t := Apply(c, s, e); WaitersTracked(t.audience, t.status.conn.phase)
  {
    hide Start, Stop, Invalidate, ReportFailure, ReportProbeResult, ResumeProbe, FireTimer, NotifyAll;
    if !ListenerOperation(e) {
      StepPublishes(c, s, e);
      NotifyAllTracks(s.audience, s.status.conn.phase, News(s, Apply(c, s, e)));
    }
  }

  lemma StepKeeps(c: Config, s: State, e: Event)
    requires Inv(s) && Enabled(s, e)
    ensures Inv(Apply(c, s, e))
  {
    StepKeepsControl(c, s, e);
    StepKeepsWaiters(c, s, e);
  }

  lemma {:induction false} RunKeeps(c: Config, s: State, es: seq<Event>)
    requires Inv(s) && Legal(c, s, es)
    ensures Inv(Run(c, s, es))
    decreases |es|
  {
    if es != [] {
      StepKeeps(c, s, es[0]);
      RunKeeps(c, Apply(c, s, es[0]), es[1..]);
    }
  }

  /** Every state of every run. */
  lemma EveryRun(c: Config, es: seq<Event>)
    requires Legal(c, INITIAL, es)
    ensures Inv(Run(c, INITIAL, es))
  {
    RunKeeps(c, INITIAL, es);
  }

  /** The answer of a superseded probe changes nothing but the bookkeeping of its own promise. */
  lemma StaleAnswersIgnored(c: Config, s: State, id: nat, probe: Probe, now: real, random: real)
    requires id in s.loop.flights && (s.isStopped || !Live(s.loop.flights, s.generation, id))
    ensures var t := ResumeProbe(c, s, id, probe, now, random);
      t == s.(loop := s.loop.(flights := s.loop.flights - {id}, settledStarts := t.loop.settledStarts))
  {
  }

  /** The answer of this probe would be heeded. */
  ghost predicate Awaited(s: State, id: nat) {
    !s.isStopped && Live(s.loop.flights, s.generation, id)
  }

  /** From `s` on, the probe stays out all the time, whatever else happens. */
  ghost predicate StaysOut(c: Config, s: State, es: seq<Event>, id: nat)
    requires Legal(c, s, es)
    decreases |es|
  {
    Awaited(s, id) && (es == [] || StaysOut(c, Apply(c, s, es[0]), es[1..], id))
  }

  /** A new probe takes a new generation, so the old one is no longer awaited. */
  lemma RunProbeDisowns(s: State, attempt: int, initial: bool, start: Option<nat>, id: nat)
    requires FlightsDistinct(s) && id in s.loop.flights
    ensures !Awaited(RunProbe(s, attempt, initial, start), id)
  {
    hide Notify;
  }

  lemma ReportsDisown(c: Config, s: State, e: Event, id: nat)
    requires FlightsDistinct(s) && id in s.loop.flights && Enabled(s, e) && s.status.conn.phase == Connecting
    requires !s.isStopped
    requires e.CallReportFailure? || e.CallReportProbeResult?
    ensures !Awaited(Apply(c, s, e), id)
  {
    hide Notify, RequestedOr, FastOrBackoff;
  }

  /** Nothing about probes changes, but for a new mark. */
  ghost predicate OnlyMarks(s: State, t: State, mark: bool) {
    && t.loop.flights == s.loop.flights && t.loop.nextFlight == s.loop.nextFlight
    && t.pendingInvalidate == (s.pendingInvalidate || mark)
  }

  lemma StartWhileOut(s: State, id: nat)
    requires FlightsDistinct(s) && Awaited(s, id) && s.status.conn.phase == Connecting
    ensures Awaited(Start(s), id) ==> OnlyMarks(s, Start(s), false)
  {
    hide RunProbe;
    var s1 := s.(loop := s.loop.(nextStart := s.loop.nextStart + 1), isStarted := true, isStopped := false,
                 pendingInvalidate := false, past := s.past.(mark := |s.past.log|));
    RunProbeDisowns(s1, 0, true, Some(s.loop.nextStart), id);
  }

  lemma AnswerWhileOut(c: Config, s: State, e: Event, id: nat)
    requires FlightsDistinct(s) && Awaited(s, id) && Enabled(s, e) && e.ProbeAnswers?
    requires Awaited(Apply(c, s, e), id)
    ensures var t := Apply(c, s, e);
      t.loop.nextFlight == s.loop.nextFlight && t.pendingInvalidate == s.pendingInvalidate
  {
    if e.id == id {
      AnswerDisowns(c, s, e);
    }
    hide HeedProbe;
    assert e.id != id ==> s.loop.flights[e.id].generation != s.generation;
  }

  lemma AnswerDisowns(c: Config, s: State, e: Event)
    requires FlightsDistinct(s) && Enabled(s, e) && e.ProbeAnswers? && Awaited(s, e.id)
    ensures !Awaited(Apply(c, s, e), e.id)
  {
    hide Notify, RequestedOr, FastOrBackoff;
  }

  /** A step that leaves the probe out begins no other, and marks an invalidation. */
  lemma WhileOut(c: Config, s: State, e: Event, id: nat)
    requires Inv(s) && Enabled(s, e) && Awaited(s, id) && Awaited(Apply(c, s, e), id)
    ensures var t := Apply(c, s, e);
      && t.loop.nextFlight == s.loop.nextFlight
      && t.pendingInvalidate == (s.pendingInvalidate || e == CallInvalidate)
  {
    ConnectingWhileOut(s, id);
    assert FlightsDistinct(s) && s.loop.armed == map[];
    hide Inv, FlightsDistinct, RunProbe, Start, ReportFailure, ReportProbeResult, ResumeProbe;
    if e.CallReportFailure? || e.CallReportProbeResult? {
      ReportsDisown(c, s, e, id);
    } else if e.CallStart? {
      FlightsFrame(s, Tick(s));
      StartWhileOut(Tick(s), id);
    } else if e.ProbeAnswers? {
      AnswerWhileOut(c, s, e, id);
    }
  }

  lemma FlightsFrame(s: State, t: State)
    requires FlightsDistinct(s) && t.loop.flights == s.loop.flights && t.loop.nextFlight == s.loop.nextFlight
    requires t.generation == s.generation
    ensures FlightsDistinct(t)
  {}

  lemma {:induction false} RunWhileOut(c: Config, s: State, es: seq<Event>, id: nat)
    requires Inv(s) && Legal(c, s, es) && StaysOut(c, s, es, id)
    ensures var t := Run(c, s, es);
      && Inv(t) && Awaited(t, id)
      && t.loop.nextFlight == s.loop.nextFlight
      && t.pendingInvalidate == (s.pendingInvalidate || CallInvalidate in es)
      && t.status.conn.phase == Connecting
    decreases |es|
  {
    hide Apply, Enabled;
    if es == [] {
      ConnectingWhileOut(s, id);
    } else {
      StepKeeps(c, s, es[0]);
      WhileOut(c, s, es[0], id);
      hide Inv;
      RunWhileOut(c, Apply(c, s, es[0]), es[1..], id);
    }
  }

  lemma ConnectingWhileOut(s: State, id: nat)
    requires Inv(s) && Awaited(s, id)
    ensures s.status.conn.phase == Connecting
  {}

  /** The answer begins one more probe exactly if it is `ready` and an invalidation is marked. */
  lemma AnswerSettlesMark(c: Config, s: State, id: nat, probe: Probe, now: real, random: real)
    requires Awaited(s, id)
    ensures var t := Apply(c, s, ProbeAnswers(id, probe, now, random));
      && t.loop.nextFlight == s.loop.nextFlight + (if probe == Ready && s.pendingInvalidate then 1 else 0)
      && t.pendingInvalidate == (probe != Ready && s.pendingInvalidate)
      && t.status.conn.phase ==
        (match probe
         case Ready => if s.pendingInvalidate then Connecting else Online
         case AuthRejected(_) => AuthFailed
         case _ => Offline)
  {
    hide Notify, RequestedOr, FastOrBackoff;
  }

  /**
   * However many invalidations arrive while a probe is out, and whatever is interleaved with them, they cost at
   * most one probe more: exactly one if there was any and the answer is `ready`, and none for any other answer.
   */
  lemma InvalidationsCostOneProbe(c: Config, s: State, es: seq<Event>, id: nat, probe: Probe, now: real, random: real)
    requires Inv(s) && Legal(c, s, es) && StaysOut(c, s, es, id)
    ensures var answer := ProbeAnswers(id, probe, now, random);
      var marked := s.pendingInvalidate || CallInvalidate in es;
      && Enabled(Run(c, s, es), answer)
      && var t := Apply(c, Run(c, s, es), answer);
        && t.loop.nextFlight == s.loop.nextFlight + (if probe == Ready && marked then 1 else 0)
        && t.pendingInvalidate == (probe != Ready && marked)
        && (probe == Ready ==> t.status.conn.phase == if marked then Connecting else Online)
  {
    RunWhileOut(c, s, es, id);
    AnswerSettlesMark(c, Run(c, s, es), id, probe, now, random);
    hide Run, Apply, Inv;
  }

  /** What the first settling status in the news makes of a waiter. */
  ghost function Verdict(news: seq<EndpointStatus>): WaiterState {
    if news == [] then Pending
    else
      var last := news[|news| - 1].conn.phase;
      if Verdict(news[..|news| - 1]) != Pending then Verdict(news[..|news| - 1])
      else if Settles(last) then Settlement(last) else Pending
  }

  lemma {:induction false} NewsSettles(a: Audience, news: seq<EndpointStatus>, id: nat)
    requires id in a.waiters && (Waiter(id) in a.listeners <==> a.waiters[id] == Pending)
    ensures var b := NotifyAll(a, news);
      && id in b.waiters && b.waiters[id] == (if a.waiters[id] == Pending then Verdict(news) else a.waiters[id])
      && (Waiter(id) in b.listeners <==> b.waiters[id] == Pending)
  {
    if news != [] {
      NewsSettles(a, news[..|news| - 1], id);
    }
  }

  /**
   * A waiter settles at most once, by the first settling publication or its own timeout; a step that
   * publishes `online` or `auth_failed` leaves no registered waiter pending.
   */
  lemma WaiterSettlesOnce(c: Config, s: State, e: Event, id: nat)
    requires Inv(s) && Enabled(s, e) && id in s.audience.waiters
    ensures var t := Apply(c, s, e);
      && id in t.audience.waiters
      && t.audience.waiters[id] == (
        if s.audience.waiters[id] != Pending then s.audience.waiters[id]
        else if e == WaiterTimesOut(id) then TimedOut
        else Verdict(News(s, t)))
  {
    hide Start, Stop, Invalidate, ReportFailure, ReportProbeResult, ResumeProbe, FireTimer, NotifyAll;
    if !ListenerOperation(e) {
      StepPublishes(c, s, e);
      NewsSettles(s.audience, News(s, Apply(c, s, e)), id);
    }
  }

  lemma {:induction false} NewsReach(a: Audience, news: seq<EndpointStatus>, id: nat)
    requires Subscriber(id) in a.listeners && id in a.inbox
    ensures var b := NotifyAll(a, news);
      Subscriber(id) in b.listeners && id in b.inbox && b.inbox[id] == a.inbox[id] + news
  {
    if news != [] {
      NewsReach(a, news[..|news| - 1], id);
      assert news == news[..|news| - 1] + [news[|news| - 1]];
    }
  }

  /** A live subscriber hears every publication, once and in order. */
  lemma SubscribersHearEverything(c: Config, s: State, e: Event, id: nat)
    requires Inv(s) && Enabled(s, e) && id in s.audience.subscribers && !(e.CallSubscribe? && e.id == id)
    ensures var t := Apply(c, s, e); id in t.audience.inbox && t.audience.inbox[id] == s.audience.inbox[id] + News(s, t)
  {
    hide Start, Stop, Invalidate, ReportFailure, ReportProbeResult, ResumeProbe, FireTimer, NotifyAll;
    if !ListenerOperation(e) {
      StepPublishes(c, s, e);
      NewsReach(s.audience, News(s, Apply(c, s, e)), id);
    }
  }

  /** From `stop` to the next `start`, nothing is published and no timer is armed, whatever resumes. */
  lemma {:induction false} StopIsFinal(c: Config, s: State, es: seq<Event>)
    requires Inv(s) && s.isStopped && Legal(c, s, es) && CallStart !in es
    ensures var t := Run(c, s, es);
      t.past.log == s.past.log && t.status == s.status && t.isStopped && t.loop.armed == map[]
    decreases |es|
  {
    if es != [] {
      var u := Apply(c, s, es[0]);
      assert es[0] != CallStart;
      StepKeeps(c, s, es[0]);
      StopIsFinal(c, u, es[1..]);
    }
  }
}
