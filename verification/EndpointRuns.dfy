/** The guarantees of the endpoint supervisor, for every run from its creation (createManagedEndpointSupervisor.ts). */
module EndpointRuns {
  import opened Options
  import opened ConnectionTypes
  import opened EndpointModel
  import opened EndpointProofs

  /** The suspended probes whose answers would be heeded. */
  function Wanted(s: State): set<nat> {
    set id | id in s.loop.flights && s.loop.flights[id].generation == s.generation
  }

  /**
   * It neither stalls nor runs twice: in each phase there is exactly the continuation that leaves it. Connecting,
   * one wanted probe; offline, one armed timer and the time it fires at; otherwise neither; stopped, no timer.
   */
  lemma NeitherStallsNorRunsTwice(c: Config, es: seq<Event>)
    requires Legal(c, INITIAL, es)
    ensures var s := Run(c, INITIAL, es);
      var phase := s.status.conn.phase;
      if s.isStopped then phase == ShuttingDown && s.loop.armed == map[] && s.status.conn.nextRetryAt == None
      else
        && |Wanted(s)| == (if phase == Connecting then 1 else 0)
        && |s.loop.armed| == (if phase == Offline then 1 else 0)
        && (s.status.conn.nextRetryAt.Some? <==> phase == Offline)
        && s.loop.armed.Keys == if s.retryTimer.Some? then {s.retryTimer.value} else {}
  {
    EveryRun(c, es);
    hide Apply;
    if !Run(c, INITIAL, es).isStopped {
      ContinuationsCounted(Run(c, INITIAL, es));
    }
  }

  lemma ContinuationsCounted(s: State)
    requires TimersTracked(s) && NeverStalls(s) && !s.isStopped
    ensures |Wanted(s)| == (if s.status.conn.phase == Connecting then 1 else 0)
    ensures |s.loop.armed| == (if s.status.conn.phase == Offline then 1 else 0)
  {
    if s.status.conn.phase == Connecting {
      var id: nat :| Live(s.loop.flights, s.generation, id);
      forall other | other in Wanted(s) ensures other == id {
        assert Live(s.loop.flights, s.generation, other);
      }
      assert Wanted(s) == {id};
    } else {
      forall id | id in Wanted(s) ensures false {
        assert Live(s.loop.flights, s.generation, id);
      }
      assert Wanted(s) == {};
    }
    assert |s.loop.armed| == |s.loop.armed.Keys|;
  }

  /**
   * Online rests on a probe begun no earlier than the last call that cast doubt, and no such call is left
   * unanswered.
   */
  lemma OnlineIsFresh(c: Config, es: seq<Event>)
    requires Legal(c, INITIAL, es)
    ensures var s := Run(c, INITIAL, es);
      s.status.conn.phase == Online ==> s.past.provenAt >= s.past.lastReport && !s.pendingInvalidate
  {
    EveryRun(c, es);
  }

  predicate CastsDoubt(e: Event) {
    e.CallInvalidate? || e.CallReportFailure? || e.CallReportProbeResult?
  }

  predicate BringsOnline(s: State, e: Event) {
    e.ProbeAnswers? && e.probe == Ready && !s.isStopped && e.id in Wanted(s)
  }

  /** Probes in flight from `s` to `t`: the old ones as they were, new ones dated now. */
  ghost predicate Dated(s: State, t: State) {
    && t.loop.steps == s.loop.steps
    && (forall id :: id in t.loop.flights ==>
      if id in s.loop.flights then t.loop.flights[id] == s.loop.flights[id]
        else t.loop.flights[id].begun == s.loop.steps)
  }

  /** The history goes on unchanged, but for published statuses. */
  ghost predicate Continues(s: State, t: State) {
    Dated(s, t) && t.past == s.past.(log := t.past.log)
  }

  lemma RunProbeContinues(s: State, attempt: int, initial: bool, start: Option<nat>)
    requires FlightsDistinct(s)
    ensures Continues(s, RunProbe(s, attempt, initial, start))
  {
    hide Notify;
  }

  lemma ScheduleContinues(s: State, attempt: int, delay: real, probe: Probe, now: real)
    ensures Continues(s, ScheduleProbe(s, attempt, delay, probe, now)) && Continues(s, RejectAuth(s, attempt, probe))
  {
    hide Notify;
  }

  lemma HeedContinues(c: Config, s: State, f: Flight, probe: Probe, now: real, random: real)
    requires FlightsDistinct(s)
    ensures var t := HeedProbe(c, s, f, probe, now, random);
      && Dated(s, t)
      && t.past == s.past.(log := t.past.log, provenAt := if probe == Ready then f.begun else s.past.provenAt)
  {
    hide Notify, RunProbe, ScheduleProbe, RejectAuth, RequestedOr, FastOrBackoff;
    match probe {
      case AuthRejected(_) => ScheduleContinues(s, f.attempt, 0.0, probe, now);
      case Ready =>
        var conn := s.status.conn;
        var reason := if f.initial then Some(InitialConnect) else conn.reason;
        var online := Status(Online, reason, f.attempt, None, Some(now),
                             conn.lastDisconnectedAt, None);
        var s1 := Publish(s.(past := s.past.(provenAt := f.begun)), EndpointStatus(online, Some(Ready)));
        RunProbeContinues(s1.(pendingInvalidate := false), f.attempt, false, None);
      case _ =>
        ScheduleContinues(s, f.attempt + 1, RequestedOr(probe, FastOrBackoff(c, f.attempt + 1, random)), probe, now);
    }
  }

  lemma StartContinues(s: State)
    requires FlightsDistinct(s)
    ensures var t := Start(s); Dated(s, t) && t.past == s.past.(log := t.past.log, mark := t.past.mark)
  {
    hide RunProbe;
    var s1 := s.(loop := s.loop.(nextStart := s.loop.nextStart + 1), pendingInvalidate := false,
                 past := s.past.(mark := |s.past.log|));
    RunProbeContinues(s1, 0, false, Some(s.loop.nextStart));
    RunProbeContinues(s1.(isStarted := true, isStopped := false), 0, true, Some(s.loop.nextStart));
  }

  lemma DoubtContinues(c: Config, s: State, e: Event)
    requires FlightsDistinct(s) && CastsDoubt(e)
    ensures var t := Apply(c, s, e);
      Dated(Tick(s), t)
      && t.past == s.past.(log := t.past.log, lastReport := if s.isStopped then s.past.lastReport else s.loop.steps + 1)
  {
    hide Notify, RunProbe, ScheduleProbe, RejectAuth, RequestedOr, FastOrBackoff;
    var t := Report(Tick(s));
    match e {
      case CallInvalidate => RunProbeContinues(t.(pendingInvalidate := false), t.status.conn.attempt, false, None);
      case CallReportFailure(message, now, random) =>
        ScheduleContinues(t.(generation := t.generation + 1), NextAttempt(t), FastOrBackoff(c, NextAttempt(t), random),
                          ServerUnreachable(message), now);
      case CallReportProbeResult(probe, now, random) =>
        var u := ClearRetryTimer(t.(generation := t.generation + 1)).(pendingInvalidate := false);
        ScheduleContinues(u, u.status.conn.attempt, 0.0, probe, now);
        ScheduleContinues(u, NextAttempt(u), RequestedOr(probe, FastOrBackoff(c, NextAttempt(u), random)), probe, now);
    }
  }

  lemma AnswerContinues(c: Config, s: State, id: nat, probe: Probe, now: real, random: real)
    requires FlightsDistinct(s) && id in s.loop.flights
    ensures var t := ResumeProbe(c, s, id, probe, now, random);
      var heeded := probe == Ready && !s.isStopped && id in Wanted(s);
      && t.loop.steps == s.loop.steps
      && t.past == s.past.(log := t.past.log, provenAt := if heeded then s.loop.flights[id].begun else s.past.provenAt)
      && forall other :: other in t.loop.flights && other !in s.loop.flights ==>
        t.loop.flights[other].begun == s.loop.steps
  {
    hide HeedProbe;
    HeedContinues(c, s.(loop := s.loop.(flights := s.loop.flights - {id})), s.loop.flights[id], probe, now, random);
  }

  /**
   * The history that freshness speaks of is what happened. Every step, call and probe is dated; a doubting call
   * counts unless stopped; and online is ascribed to the very probe that answered.
   */
  lemma HistoryIsHonest(c: Config, s: State, e: Event)
    requires FlightsDistinct(s) && Enabled(s, e)
    ensures var t := Apply(c, s, e);
      && t.loop.steps == s.loop.steps + 1
      && t.past.lastReport == (if CastsDoubt(e) && !s.isStopped then t.loop.steps else s.past.lastReport)
      && t.past.provenAt == (if BringsOnline(s, e) then s.loop.flights[e.id].begun else s.past.provenAt)
      && forall id :: id in t.loop.flights && id !in s.loop.flights ==> t.loop.flights[id].begun == t.loop.steps
  {
    hide Notify, RunProbe, ResumeProbe, Invalidate, ReportFailure, ReportProbeResult, Start;
    var t := Tick(s);
    match e {
      case CallInvalidate => DoubtContinues(c, s, e);
      case CallReportFailure(_, _, _) => DoubtContinues(c, s, e);
      case CallReportProbeResult(_, _, _) => DoubtContinues(c, s, e);
      case CallStart => StartContinues(t);
      case TimerFires(id) =>
        RunProbeContinues(t.(loop := t.loop.(armed := t.loop.armed - {id}), retryTimer := None), t.loop.armed[id],
          false, None);
      case ProbeAnswers(id, probe, now, random) => AnswerContinues(c, t, id, probe, now, random);
      case _ =>
    }
  }

  lemma {:induction false} OfflinesAdd(a: seq<EndpointStatus>, b: seq<EndpointStatus>)
    ensures Offlines(a + b) == Offlines(a) + Offlines(b)
  {
    if b == [] {
      assert a + b == a;
    } else {
      assert (a + b)[..|a + b| - 1] == a + b[..|b| - 1];
      OfflinesAdd(a, b[..|b| - 1]);
    }
  }

  /** `attempt` counts the transitions into offline since the last start that launched a probe. */
  lemma AttemptsCountFailures(c: Config, es: seq<Event>)
    requires Legal(c, INITIAL, es)
    ensures var s := Run(c, INITIAL, es);
      s.past.mark <= |s.past.log| && s.status.conn.attempt == Offlines(s.past.log[s.past.mark..])
  {
    EveryRun(c, es);
  }

  /**
   * So between such starts it never falls, and grows by one with each scheduled retry, through everything else
   * alike.
   */
  lemma AttemptGrowsByRetries(c: Config, s: State, e: Event)
    requires Inv(s) && Enabled(s, e) && Apply(c, s, e).past.mark == s.past.mark
    ensures var t := Apply(c, s, e); t.status.conn.attempt == s.status.conn.attempt + Offlines(News(s, t))
  {
    StepKeeps(c, s, e);
    LogGrows(c, s, e);
    hide *;
    CountsOf(s);
    CountsOf(Apply(c, s, e));
    CountSplits(s.past.log, News(s, Apply(c, s, e)), s.past.mark);
  }

  lemma CountsOf(s: State)
    requires Inv(s)
    ensures s.past.mark <= |s.past.log| && s.status.conn.attempt == Offlines(s.past.log[s.past.mark..])
  {}

  lemma CountSplits(log: seq<EndpointStatus>, news: seq<EndpointStatus>, mark: nat)
    requires mark <= |log|
    ensures Offlines((log + news)[mark..]) == Offlines(log[mark..]) + Offlines(news)
  {
    assert (log + news)[mark..] == log[mark..] + news;
    OfflinesAdd(log[mark..], news);
  }

  lemma LogGrows(c: Config, s: State, e: Event)
    requires Enabled(s, e)
    ensures Apply(c, s, e).past.log == s.past.log + News(s, Apply(c, s, e))
  {
    if ListenerOperation(e) {
      assert s.past.log[|s.past.log|..] == [];
    } else {
      StepPublishes(c, s, e);
    }
  }

  /** Only a start that launches a probe begins a new count, at zero. */
  lemma OnlyStartsResetCount(c: Config, s: State, e: Event)
    requires FlightsDistinct(s) && Enabled(s, e) && Apply(c, s, e).past.mark != s.past.mark
    ensures e.CallStart? && Apply(c, s, e).loop.nextFlight == s.loop.nextFlight + 1
    ensures Apply(c, s, e).past.mark == |s.past.log| && Apply(c, s, e).status.conn.attempt == 0
  {
    hide Notify, HeedProbe, Invalidate, ReportFailure, ReportProbeResult;
    var t := Tick(s);
    if CastsDoubt(e) {
      DoubtContinues(c, s, e);
    } else if e.ProbeAnswers? {
      var id := e.id;
      HeedContinues(c, t.(loop := t.loop.(flights := t.loop.flights - {id})), t.loop.flights[id], e.probe, e.now,
        e.random);
    }
  }

  /** The live subscribers and the unsettled waiters. */
  function Listening(a: Audience): set<Listener> {
    (set id | id in a.subscribers :: Subscriber(id))
    + (set id | id in a.waiters && a.waiters[id] == Pending :: Waiter(id))
  }

  /**
   * The listeners are the live subscribers and the unsettled waiters, none of them unsettled once online or
   * refused.
   */
  lemma ListenersAccountedFor(c: Config, es: seq<Event>)
    requires Legal(c, INITIAL, es)
    ensures var s := Run(c, INITIAL, es);
      var a := s.audience;
      && a.listeners == Listening(a)
      && (forall id :: id in a.waiterTimers ==> id in a.waiters && a.waiters[id] == Pending)
      && (Settles(s.status.conn.phase) ==> forall id :: id in a.waiters ==> a.waiters[id] != Pending)
  {
    EveryRun(c, es);
    ListenersNamed(Run(c, INITIAL, es).audience, Run(c, INITIAL, es).status.conn.phase);
  }

  lemma ListenersNamed(a: Audience, phase: Phase)
    requires WaitersTracked(a, phase)
    ensures a.listeners == Listening(a)
  {
    forall l | l in a.listeners
      ensures l in Listening(a)
    {
      match l
      case Subscriber(id) => assert Subscriber(id) in a.listeners;
      case Waiter(id) => assert Waiter(id) in a.listeners;
    }
  }
}
