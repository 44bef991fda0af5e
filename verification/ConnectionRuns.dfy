/**
 * The unconditional guarantees of the connection supervisor, for every run from its creation
 * (createManagedConnectionSupervisor.ts).
 */
module ConnectionRuns {
  import opened Options
  import opened ConnectionTypes
  import opened ConnectionModel
  import opened ConnectionProofs

  /** The transports whose events would be heeded. */
  function Effective(s: State): set<nat> {
    set t | t in s.world.origins && !Superseded(s, t)
  }

  /** Of all transports ever created, at most one is effective. */
  lemma AtMostOneEffective(c: Config, es: seq<Event>)
    requires Legal(c, INITIAL, es)
    ensures |Effective(Run(c, INITIAL, es))| <= 1
  {
    EveryRun(c, es);
    var s := Run(c, INITIAL, es);
    hide Run;
    if t :| t in Effective(s) {
      forall u | u in Effective(s) ensures u == t {
        OneEffectiveTransport(s, t, u);
      }
      assert Effective(s) == {t};
    }
  }

  /**
   * Every timer that can still fire is the remembered one, and a stopped supervisor has neither timer nor
   * transport.
   */
  lemma TimersAreRemembered(c: Config, es: seq<Event>)
    requires Legal(c, INITIAL, es)
    ensures var s := Run(c, INITIAL, es);
      && s.loop.armed.Keys == (if s.retryTimer.Some? then {s.retryTimer.value} else {})
      && (s.isStopped ==> s.status.phase == ShuttingDown && s.loop.armed == map[] && s.currentTransport == None)
  {
    EveryRun(c, es);
  }

  /** No transport is cleaned up twice; one that was is not current, and none of its listeners is left. */
  lemma CleanedUpAtMostOnce(c: Config, es: seq<Event>)
    requires Legal(c, INITIAL, es)
    ensures var s := Run(c, INITIAL, es);
      && Distinct(s.past.handed)
      && (s.currentTransport.Some? ==> s.currentTransport.value !in s.past.handed)
      && forall h :: h in s.world.hooks ==> h.transport !in s.past.handed
  {
    EveryRun(c, es);
  }

  // ----- once superseded, always superseded -----

  /**
   * Transports stay what they were created as, generations only grow, and leaving the stopped state takes a new
   * one.
   */
  ghost predicate Advances(s: State, t: State) {
    && t.generation >= s.generation
    && (s.isStopped && !t.isStopped ==> t.generation > s.generation)
    && forall id :: id in s.world.origins ==> id in t.world.origins && t.world.origins[id] == s.world.origins[id]
  }

  ghost predicate Numbered(w: World) {
    forall t :: t in w.origins ==> t < w.nextTransport
  }

  lemma OpenAdvances(s: State, generation: nat, initial: bool, attempt: int, start: Option<nat>)
    requires Numbered(s.world)
    ensures Advances(s, OpenTransport(s, generation, initial, attempt, start))
  {}

  lemma CleanupAdvances(s: State, intentional: bool)
    ensures var t := CleanupTransport(s, intentional);
      t.generation == s.generation && t.isStopped == s.isStopped && t.world.origins == s.world.origins
  {}

  lemma ScheduleAdvances(s: State, attempt: int, delay: real, probe: Option<Probe>, now: real)
    ensures var t := ScheduleReconnect(s, attempt, delay, probe, now);
      t.generation == s.generation && t.isStopped == s.isStopped && t.world == s.world
  {}

  lemma AfterCleanupAdvances(c: Config, s: State, generation: nat, initial: bool, attempt: int, start: Option<nat>)
    requires Numbered(s.world)
    ensures Advances(s, AfterCleanup(c, s, generation, initial, attempt, start))
  {
    OpenAdvances(s, generation, initial, attempt, start);
    hide OpenTransport;
  }

  lemma ClearAdvances(s: State)
    ensures var t := ClearRetryTimer(s);
      t.generation == s.generation && t.isStopped == s.isStopped && t.world == s.world
  {}

  lemma SuspendAdvances(s: State, f: Frame)
    ensures var t := Suspend(s, f); t.generation == s.generation && t.isStopped == s.isStopped && t.world == s.world
  {}

  lemma EstablishAdvances(c: Config, s: State, initial: bool, attempt: int, start: Option<nat>)
    requires Numbered(s.world)
    ensures var t := EstablishConnection(c, s, initial, attempt, start); Advances(s, t) && t.generation > s.generation
  {
    var s0 := s.(generation := s.generation + 1);
    var s1 := ClearRetryTimer(s0);
    ClearAdvances(s0);
    hide AfterCleanup, CleanupTransport, ClearRetryTimer, Suspend;
    if s1.currentTransport.None? {
      AfterCleanupAdvances(c, s1, s1.generation, initial, attempt, start);
    } else {
      CleanupAdvances(s1, false);
      SuspendAdvances(CleanupTransport(s1, false),
        AwaitCleanup(s1.generation, initial, attempt, s1.currentTransport.value, start));
    }
  }

  lemma ReportAdvances(s: State, probe: Failure, start: Option<nat>)
    ensures Advances(s, ApplyReport(s, probe, start))
  {
    CleanupAdvances(ClearRetryTimer(s.(generation := s.generation + 1)), true);
    hide CleanupTransport;
  }

  lemma ContinueAdvances(c: Config, s: State, f: Frame, answer: Option<Probe>, now: real, random: real)
    requires Numbered(s.world) && Ripe(s, f, answer)
    ensures Advances(s, Continue(c, s, f, answer, now, random))
  {
    hide OpenTransport, AfterCleanup, EstablishConnection, ApplyReport, ScheduleReconnect, RequestedOr, FastOrBackoff,
      BackoffDelay;
    match f {
      case AwaitCleanup(generation, initial, attempt, _, start) =>
        AfterCleanupAdvances(c, s, generation, initial, attempt, start);
      case AwaitInitialProbe(generation, attempt, start) =>
        OpenAdvances(s, generation, true, attempt, start);
        var next := AtLeastOne(attempt + 1);
        if answer.Some? {
          ScheduleAdvances(s, next, RequestedOr(answer.value, BackoffDelay(c, next, random)), answer, now);
        }
      case AwaitConnect(_, start) =>
        if answer.Some? && !answer.value.Ready? {
          ReportAdvances(s, answer.value, start);
        }
      case AwaitReportCleanup(_, failure, _, _) =>
        var attempt := AtLeastOne(s.status.attempt + 1);
        ScheduleAdvances(s, attempt, RequestedOr(failure, FastOrBackoff(c, attempt, random)), Some(failure), now);
      case AwaitReconnectProbe(_, attempt) =>
        if answer.Some? {
          ScheduleAdvances(s, attempt + 1, RequestedOr(answer.value, BackoffDelay(c, attempt + 1, random)), answer,
            now);
        }
      case AwaitBeforeReconnect(_, attempt) => EstablishAdvances(c, s, false, attempt, None);
      case AwaitDisconnectNotice(_, attempt, _) =>
        ScheduleAdvances(s, attempt, FastOrBackoff(c, attempt, random), None, now);
      case AwaitAuthNotice(_, _) =>
    }
  }

  lemma StartAdvances(c: Config, s: State)
    requires Numbered(s.world)
    ensures Advances(s, Start(c, s))
  {
    hide EstablishConnection;
    var s1 := s.(loop := s.loop.(nextStart := s.loop.nextStart + 1), reconnectAttempt := 0);
    EstablishAdvances(c, s1, c.probeBeforeInitialConnect, 0, Some(s.loop.nextStart));
    EstablishAdvances(c, s1.(isStarted := true, isStopped := false), true, 0, Some(s.loop.nextStart));
  }

  lemma StopAdvances(s: State)
    ensures Advances(s, Stop(s))
  {
    var s1 := ClearRetryTimer(s.(isStopped := true, startInFlight := None));
    ClearAdvances(s.(isStopped := true, startInFlight := None));
    CleanupAdvances(
      Publish(s1, s1.status.(phase := ShuttingDown, reason := Some(IntentionalShutdown), nextRetryAt := None)), true);
    hide ClearRetryTimer, CleanupTransport;
  }

  lemma ErrorAdvances(c: Config, s: State, e: Event)
    requires e.Errored? && e.t in s.world.origins
    ensures Advances(s, HandleError(c, s, e.t, e.message, e.classified, e.connected, e.now, e.random))
  {
    hide ApplyReport, ScheduleReconnect, FastOrBackoff;
    var attempt := AtLeastOne(s.status.attempt + 1);
    ScheduleAdvances(s, attempt, FastOrBackoff(c, attempt, e.random), Some(ServerUnreachable(Some(e.message))), e.now);
    if e.classified.Some? {
      ReportAdvances(s, e.classified.value, None);
    }
  }

  lemma ConnectedAdvances(s: State, t: nat, now: real)
    requires t in s.world.origins
    ensures Advances(s, HandleConnected(s, t, now))
  {
    ClearAdvances(s);
    hide ClearRetryTimer;
  }

  lemma DisconnectedAdvances(s: State, t: nat, event: DisconnectEvent, now: real)
    requires t in s.world.origins
    ensures Advances(s, HandleDisconnected(s, t, event, now))
  {}

  lemma FireAdvances(s: State, id: nat)
    requires id in s.loop.armed
    ensures Advances(s, FireTimer(s, id))
  {}

  lemma StepAdvances(c: Config, s: State, e: Event)
    requires Inv(s) && Enabled(s, e)
    ensures Advances(s, Apply(c, s, e))
  {
    assert Numbered(s.world);
    hide Start, Stop, HandleError, HandleDisconnected, HandleConnected, FireTimer, Continue, ApplyReport, Inv;
    match e {
      case CallStart => StartAdvances(c, s);
      case CallStop => StopAdvances(s);
      case CallReport(failure) => ReportAdvances(s, failure, None);
      case Errored(_, _, _, _, _, _) => ErrorAdvances(c, s, e);
      case Connected(t, now) => ConnectedAdvances(s, t, now);
      case Disconnected(t, event, now) => DisconnectedAdvances(s, t, event, now);
      case TimerFires(id) => FireAdvances(s, id);
      case Resumes(id, answer, now, random) =>
        var s1 := s.(loop := s.loop.(frames := s.loop.frames - {id}));
        ContinueAdvances(c, s1, s.loop.frames[id], answer, now, random);
      case _ =>
    }
  }

  /** A superseded transport never becomes effective again, whatever happens. */
  lemma {:induction false} SupersededForever(c: Config, s: State, es: seq<Event>, t: nat)
    requires Inv(s) && Legal(c, s, es) && t in s.world.origins && Superseded(s, t)
    ensures var later := Run(c, s, es); t in later.world.origins && Superseded(later, t)
    decreases |es|
  {
    if es != [] {
      StepKeeps(c, s, es[0]);
      StepAdvances(c, s, es[0]);
      assert s.world.origins[t].generation <= s.generation;
      hide Apply, Inv;
      SupersededForever(c, Apply(c, s, es[0]), es[1..], t);
    }
  }

  /** So from then on none of its events changes anything at all, at any later point of the run. */
  lemma SupersededIsSilent(c: Config, es: seq<Event>, more: seq<Event>, t: nat, e: Event)
    requires Legal(c, INITIAL, es) && Legal(c, Run(c, INITIAL, es), more)
    requires t in Run(c, INITIAL, es).world.origins && Superseded(Run(c, INITIAL, es), t)
    requires (e.Connected? || e.Disconnected? || e.Errored?) && e.t == t
    requires Enabled(Run(c, Run(c, INITIAL, es), more), e)
    ensures var later := Run(c, Run(c, INITIAL, es), more); Apply(c, later, e) == later
  {
    EveryRun(c, es);
    SupersededForever(c, Run(c, INITIAL, es), more, t);
    SupersededIsIgnored(c, Run(c, Run(c, INITIAL, es), more), t, e);
    hide Run;
  }
}
