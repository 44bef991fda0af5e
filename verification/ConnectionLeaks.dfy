/**
 * When the connection supervisor loses track of a transport.
 *
 * A transport leaks when another one is adopted over it. That happens exactly when a suspended
 * establishConnection goes on to create a transport while one is current; it never happens in runs
 * where no `start` or reported probe result lands while one is suspended in its cleanup.
 */
module ConnectionLeaks {
  import opened Options
  import opened ConnectionTypes
  import opened ConnectionModel
  import opened ConnectionProofs

  /** Transports that are neither current nor handed to cleanup: nobody will ever disconnect them. */
  ghost function Leaked(s: State): set<nat> {
    set t | t in s.world.origins && t !in s.world.teardowns && s.currentTransport != Some(t)
  }

  /** The resumption of a suspended establishConnection that will create a transport. */
  ghost predicate CreatesNow(c: Config, s: State, e: Event)
    requires Enabled(s, e)
  {
    && e.Resumes? && !s.isStopped
    && var f := s.loop.frames[e.id];
      || (f.AwaitCleanup? && !(f.initial && c.probeBeforeInitialConnect))
      || (f.AwaitInitialProbe? && f.generation == s.generation && e.answer == Some(Ready))
  }

  /** The step that leaks: it creates a transport while one is current. */
  ghost predicate Overwrites(c: Config, s: State, e: Event)
    requires Enabled(s, e)
  {
    CreatesNow(c, s, e) && s.currentTransport.Some?
  }

  ghost function Overwritten(c: Config, s: State, e: Event): set<nat>
    requires Enabled(s, e)
  {
    if Overwrites(c, s, e) then {s.currentTransport.value} else {}
  }

  lemma CleanupLeaksNothing(s: State, intentional: bool)
    requires Inv(s)
    ensures Leaked(CleanupTransport(s, intentional)) == Leaked(s)
  {
  }

  lemma OpenLeaksCurrent(s: State, generation: nat, initial: bool, attempt: int, start: Option<nat>)
    requires Inv(s)
    ensures Leaked(OpenTransport(s, generation, initial, attempt, start)) ==
      Leaked(s) + (if s.currentTransport.Some? then {s.currentTransport.value} else {})
  {
    hide HooksOf;
  }

  lemma EstablishLeaksNothing(c: Config, s: State, initial: bool, attempt: int, start: Option<nat>)
    requires Inv(s)
    ensures Leaked(EstablishConnection(c, s, initial, attempt, start)) == Leaked(s)
  {
    hide OpenTransport, CleanupTransport, Inv;
    var s1 := ClearRetryTimer(s.(generation := s.generation + 1));
    BumpKeeps(s);
    ClearKeeps(s.(generation := s.generation + 1));
    OpenLeaksCurrent(s1, s1.generation, initial, attempt, start);
    CleanupLeaksNothing(s1, false);
  }

  lemma ContinueLeaks(c: Config, s: State, e: Event)
    requires Inv(s) && Enabled(s, e) && e.Resumes?
    ensures Leaked(Apply(c, s, e)) == Leaked(s) + Overwritten(c, s, e)
  {
    hide OpenTransport, EstablishConnection, ApplyReport, RecordWinner, Inv, AfterReportCleanup, AfterReconnectProbe,
      AfterDisconnectNotice, ScheduleReconnect, RejectAuth, RequestedOr, BackoffDelay;
    var s1 := s.(loop := s.loop.(frames := s.loop.frames - {e.id}));
    var f := s.loop.frames[e.id];
    DropKeeps(s, e.id);
    match f {
      case AwaitCleanup(generation, initial, attempt, _, start) =>
        OpenLeaksCurrent(s1, generation, initial, attempt, start);
      case AwaitInitialProbe(generation, attempt, start) =>
        OpenLeaksCurrent(s1, generation, true, attempt, start);
        var next := AtLeastOne(attempt + 1);
        var probe := e.answer.value;
        ScheduleLeaksNothing(s1, next, RequestedOr(probe, BackoffDelay(c, next, e.random)), Some(probe), e.now);
        RejectLeaksNothing(s1, next, probe);
      case AwaitConnect(_, start) => if e.answer.Some? { ReportLeaksNothing(s1, e.answer.value, start); }
      case AwaitBeforeReconnect(_, attempt) =>
        EstablishLeaksNothing(c, s1, false, attempt, None);
        SameWorld(EstablishConnection(c, s1, false, attempt, None), Apply(c, s, e));
      case _ => SchedulersLeakNothing(c, s1, f, e.answer, e.now, e.random);
    }
  }

  lemma SameWorld(s: State, t: State)
    ensures t.world == s.world && t.currentTransport == s.currentTransport ==> Leaked(t) == Leaked(s)
    ensures forall g :: RecordWinner(s, g).world == s.world && RecordWinner(s, g).currentTransport == s.currentTransport
  {
  }

  lemma SchedulersLeakNothing(c: Config, s: State, f: Frame, answer: Option<Probe>, now: real, random: real)
    ensures f.AwaitReportCleanup? ==> Leaked(AfterReportCleanup(c, s, f, now, random)) == Leaked(s)
    ensures f.AwaitReconnectProbe? && answer.Some? ==>
      Leaked(AfterReconnectProbe(c, s, f, answer.value, now, random)) == Leaked(s)
    ensures f.AwaitDisconnectNotice? ==> Leaked(AfterDisconnectNotice(c, s, f, now, random)) == Leaked(s)
  {
    hide RequestedOr, FastOrBackoff, BackoffDelay;
  }

  lemma ReportLeaksNothing(s: State, failure: Failure, start: Option<nat>)
    requires Inv(s)
    ensures Leaked(ApplyReport(s, failure, start)) == Leaked(s)
  {
    hide CleanupTransport, Inv;
    BumpKeeps(s);
    ClearKeeps(s.(generation := s.generation + 1));
    CleanupLeaksNothing(ClearRetryTimer(s.(generation := s.generation + 1)), true);
  }

  lemma StopLeaksNothing(s: State)
    requires Inv(s)
    ensures Leaked(Stop(s)) == Leaked(s)
  {
  }

  lemma StartLeaksNothing(c: Config, s: State)
    requires Inv(s)
    ensures Leaked(Start(c, s)) == Leaked(s)
  {
    hide EstablishConnection, Inv;
    if s.startInFlight.None? || s.isStopped {
      StoppedPhase(s);
      var id := s.loop.nextStart;
      var restarting := !(s.isStarted && !s.isStopped);
      var s1 := s.(loop := s.loop.(nextStart := id + 1), isStarted := true, isStopped := false, reconnectAttempt := 0);
      InvFrame(s, s1);
      EstablishLeaksNothing(c, s1, restarting || c.probeBeforeInitialConnect, 0, Some(id));
    }
  }

  /** Exactly the overwriting steps leak, and what has leaked stays leaked. */
  lemma StepLeaks(c: Config, s: State, e: Event)
    requires Inv(s) && Enabled(s, e)
    ensures Leaked(Apply(c, s, e)) == Leaked(s) + Overwritten(c, s, e)
    ensures Overwritten(c, s, e) !! Leaked(s)
  {
    hide Inv, Start, Stop, ApplyReport, Resume, ScheduleReconnect, FastOrBackoff;
    match e {
      case CallStart => StartLeaksNothing(c, s);
      case CallStop => StopLeaksNothing(s);
      case CallReport(failure) => ReportLeaksNothing(s, failure, None);
      case Resumes(_, _, _, _) => ContinueLeaks(c, s, e);
      case Errored(_, message, classified, _, now, random) =>
        if classified.Some? {
          ReportLeaksNothing(s, classified.value, None);
        }
        var attempt := AtLeastOne(s.status.attempt + 1);
        ScheduleLeaksNothing(s, attempt, FastOrBackoff(c, attempt, random), Some(ServerUnreachable(Some(message))),
          now);
      case _ =>
    }
  }

  lemma RejectLeaksNothing(s: State, attempt: int, probe: Probe)
    ensures Leaked(RejectAuth(s, attempt, probe)) == Leaked(s)
  {
  }

  lemma ScheduleLeaksNothing(s: State, attempt: int, delay: real, probe: Option<Probe>, now: real)
    ensures Leaked(ScheduleReconnect(s, attempt, delay, probe, now)) == Leaked(s)
  {
  }

  ghost function OverwrittenIn(c: Config, s: State, es: seq<Event>): set<nat>
    requires Legal(c, s, es)
    decreases |es|
  {
    if es == [] then {} else Overwritten(c, s, es[0]) + OverwrittenIn(c, Apply(c, s, es[0]), es[1..])
  }

  /** Over any run, the leaked transports are exactly those that were overwritten while current. */
  lemma {:induction false} RunLeaks(c: Config, s: State, es: seq<Event>)
    requires Inv(s) && Legal(c, s, es)
    ensures Leaked(Run(c, s, es)) == Leaked(s) + OverwrittenIn(c, s, es)
    decreases |es|
  {
    if es != [] {
      StepKeeps(c, s, es[0]);
      StepLeaks(c, s, es[0]);
      RunLeaks(c, Apply(c, s, es[0]), es[1..]);
    }
  }

  ghost predicate InCleanup(s: State) {
    exists id :: id in s.loop.frames && s.loop.frames[id].AwaitCleanup?
  }

  /** While an establishConnection is suspended in its cleanup, nothing else can act for its generation. */
  ghost predicate Alone(s: State, id: nat)
    requires id in s.loop.frames
  {
    && s.loop.frames[id].generation == s.generation
    && s.currentTransport.None? && s.retryTimer.None?
    && (forall other :: other in s.loop.frames && other != id ==> s.loop.frames[other].generation < s.generation)
    && (forall t :: t in s.world.origins ==> s.world.origins[t].generation < s.generation)
  }

  /** Nothing has leaked, nor is about to, and the current transport passes the generation guards. */
  ghost predicate Tidy(s: State) {
    && Leaked(s) == {}
    && (forall id :: id in s.loop.frames && s.loop.frames[id].AwaitCleanup? ==> Alone(s, id))
    && (forall id | id in s.loop.frames && s.loop.frames[id].AwaitInitialProbe? ::
          s.loop.frames[id].generation == s.generation ==> s.currentTransport.None?)
    && (match s.currentTransport
        case None => true
        case Some(t) => t in s.world.origins && s.world.origins[t].generation == s.generation)
  }

  /** Only the current transport passes the generation guards. */
  ghost predicate EffectiveIsCurrent(s: State) {
    !s.isStopped ==> forall t :: t in s.world.origins && s.world.origins[t].generation == s.generation ==>
      s.currentTransport == Some(t)
  }

  ghost predicate Calm(s: State) {
    Tidy(s) && EffectiveIsCurrent(s)
  }

  ghost predicate Settled(s: State) {
    Inv(s) && Calm(s) && !InCleanup(s)
  }

  /** What Calm does not look at; the timer matters only to a suspended cleanup. */
  lemma CalmFrame(s: State, t: State)
    requires Calm(s) && !InCleanup(s)
    requires t.world == s.world && t.generation == s.generation && t.currentTransport == s.currentTransport
    requires t.loop.frames == s.loop.frames && t.isStopped == s.isStopped
    ensures Calm(t) && !InCleanup(t)
  {
  }

  lemma SuspendCalm(s: State, f: Frame)
    requires Settled(s) && !f.AwaitCleanup?
    requires f.AwaitInitialProbe? && f.generation == s.generation ==> s.currentTransport.None?
    ensures Calm(Suspend(s, f)) && !InCleanup(Suspend(s, f))
  {
  }

  lemma OpenCalm(s: State, initial: bool, attempt: int, start: Option<nat>)
    requires Settled(s) && !s.isStopped && s.currentTransport.None? && Unclaimed(s, s.generation)
    ensures Calm(OpenTransport(s, s.generation, initial, attempt, start))
    ensures !InCleanup(OpenTransport(s, s.generation, initial, attempt, start))
  {
    hide HooksOf, TransportsTracked, WinnersOrdered, TimersTracked, StopRespected;
    NextTransportIsNew(s);
    OpenLeaksCurrent(s, s.generation, initial, attempt, start);
  }

  lemma FinishCalm(s: State, start: Option<nat>)
    requires Calm(s) && !InCleanup(s)
    ensures Calm(Finish(s, start)) && !InCleanup(Finish(s, start))
  {
    hide Calm, InCleanup;
    CalmFrame(s, Finish(s, start));
  }

  lemma AfterCleanupCalm(c: Config, s: State, initial: bool, attempt: int, start: Option<nat>)
    requires Settled(s) && s.currentTransport.None? && Unclaimed(s, s.generation)
    ensures var t := AfterCleanup(c, s, s.generation, initial, attempt, start); Calm(t) && !InCleanup(t)
  {
    hide Inv, Calm, InCleanup, Unclaimed, Finish, Suspend, OpenTransport;
    if s.isStopped {
      FinishCalm(s, start);
    } else if initial && c.probeBeforeInitialConnect {
      SuspendCalm(s, AwaitInitialProbe(s.generation, attempt, start));
    } else {
      OpenCalm(s, initial, attempt, start);
    }
  }

  /** A fresh generation with the old transport cleaned up. */
  ghost function Rebased(s: State, intentional: bool): State {
    CleanupTransport(ClearRetryTimer(s.(generation := s.generation + 1)), intentional)
  }

  lemma RebasedIsAhead(s: State, intentional: bool)
    requires Inv(s)
    ensures var t := Rebased(s, intentional);
      && t.currentTransport.None? && t.retryTimer.None? && t.isStopped == s.isStopped
      && t.loop.frames == s.loop.frames && t.world.origins == s.world.origins && t.generation == s.generation + 1
      && (forall id :: id in t.loop.frames ==> t.loop.frames[id].generation < t.generation)
      && (forall u :: u in t.world.origins ==> t.world.origins[u].generation < t.generation)
  {
    hide TransportsTracked, WinnersOrdered, StopRespected;
  }

  lemma RebasedCalm(s: State, intentional: bool)
    requires Inv(s) && Tidy(s) && !InCleanup(s)
    ensures Settled(Rebased(s, intentional)) && Unclaimed(Rebased(s, intentional), s.generation + 1)
  {
    RebasedKeeps(s, intentional);
    hide Inv, Leaked, Unclaimed, Rebased;
    RebasedIsAhead(s, intentional);
  }

  lemma RebasedKeeps(s: State, intentional: bool)
    requires Inv(s)
    ensures var t := Rebased(s, intentional); Inv(t) && Leaked(t) == Leaked(s) && Unclaimed(t, s.generation + 1)
  {
    hide Inv, CleanupTransport;
    var s1 := s.(generation := s.generation + 1);
    BumpKeeps(s);
    ClearKeeps(s1);
    CleanupKeeps(ClearRetryTimer(s1), intentional);
    UnclaimedAfterCleanup(ClearRetryTimer(s1), intentional, s1.generation);
    CleanupLeaksNothing(ClearRetryTimer(s1), intentional);
  }

  lemma CleanupOfNothing(s: State, intentional: bool)
    requires Inv(s) && s.currentTransport.None?
    ensures CleanupTransport(s, intentional) == s
  {
    assert s.world.hooks - (set h | h in s.detachCurrentListeners) == s.world.hooks;
  }

  lemma EstablishCalm(c: Config, s: State, initial: bool, attempt: int, start: Option<nat>)
    requires Inv(s) && Tidy(s) && !InCleanup(s)
    ensures Calm(EstablishConnection(c, s, initial, attempt, start))
  {
    hide Inv, Unclaimed, CleanupTransport, AfterCleanup;
    var s1 := ClearRetryTimer(s.(generation := s.generation + 1));
    RebasedCalm(s, false);
    RebasedIsAhead(s, false);
    if s.currentTransport.None? {
      BumpKeeps(s);
      ClearKeeps(s.(generation := s.generation + 1));
      CleanupOfNothing(s1, false);
      AfterCleanupCalm(c, s1, initial, attempt, start);
    }
  }

  lemma ReportCalm(s: State, failure: Failure, start: Option<nat>)
    requires Settled(s)
    ensures Calm(ApplyReport(s, failure, start)) && !InCleanup(ApplyReport(s, failure, start))
  {
    hide Inv, Tidy, EffectiveIsCurrent, InCleanup, CleanupTransport, Finish, Suspend;
    var s1 := ClearRetryTimer(s.(generation := s.generation + 1));
    FinishCalm(s, start);
    RebasedCalm(s, true);
    RebasedIsAhead(s, true);
    SuspendCalm(CleanupTransport(s1, true), AwaitReportCleanup(s1.generation, failure, s.currentTransport, start));
  }

  lemma ScheduleCalm(s: State, attempt: int, delay: real, probe: Option<Probe>, now: real)
    requires Calm(s) && !InCleanup(s)
    ensures Calm(ScheduleReconnect(s, attempt, delay, probe, now))
    ensures !InCleanup(ScheduleReconnect(s, attempt, delay, probe, now))
  {
    hide Calm, InCleanup;
    CalmFrame(s, ScheduleReconnect(s, attempt, delay, probe, now));
  }

  lemma RejectCalm(s: State, attempt: int, probe: Probe)
    requires Settled(s) && !s.isStopped
    ensures Settled(RejectAuth(s, attempt, probe))
  {
    hide Calm, InCleanup, Inv;
    RejectKeeps(s, attempt, probe);
    CalmFrame(s, RejectAuth(s, attempt, probe));
  }

  /** Once the frame that resumes is dropped, the state is settled or the frame is stale. */
  lemma DropCalm(s: State, id: nat)
    requires Inv(s) && Calm(s) && id in s.loop.frames
    ensures var s1 := s.(loop := s.loop.(frames := s.loop.frames - {id})); var f := s.loop.frames[id];
      && Inv(s1) && Calm(s1)
      && (f.generation == s.generation ==> !InCleanup(s1))
      && (f.AwaitCleanup? ==> f.generation == s.generation && s.currentTransport.None? && Unclaimed(s1, s1.generation))
      && (f.AwaitInitialProbe? && f.generation == s.generation ==>
        s.currentTransport.None? && Unclaimed(s1, s1.generation))
  {
    DropKeeps(s, id);
    hide Inv, Unclaimed;
  }

  lemma StaleCalm(s: State, start: Option<nat>)
    requires Calm(s)
    ensures Calm(Finish(s, start))
  {
  }

  lemma AfterInitialProbeCalm(c: Config, s: State, f: Frame, probe: Probe, now: real, random: real)
    requires Settled(s) && f.AwaitInitialProbe? && f.generation == s.generation
    requires s.currentTransport.None? && Unclaimed(s, s.generation)
    ensures Calm(AfterInitialProbe(c, s, f, probe, now, random))
  {
    hide Inv, Calm, InCleanup, Unclaimed, Finish, Suspend, OpenTransport, ScheduleReconnect, RejectAuth, RequestedOr,
      BackoffDelay;
    var attempt := AtLeastOne(f.attempt + 1);
    var delay := RequestedOr(probe, BackoffDelay(c, attempt, random));
    FinishCalm(s, f.start);
    ScheduleCalm(s, attempt, delay, Some(probe), now);
    FinishCalm(ScheduleReconnect(s, attempt, delay, Some(probe), now), f.start);
    if !s.isStopped {
      RejectCalm(s, attempt, probe);
      SuspendCalm(RejectAuth(s, attempt, probe), AwaitAuthNotice(f.generation, f.start));
      OpenCalm(s, true, f.attempt, f.start);
    }
  }

  lemma AfterReportCleanupCalm(c: Config, s: State, f: Frame, now: real, random: real)
    requires Settled(s) && f.AwaitReportCleanup?
    ensures Calm(AfterReportCleanup(c, s, f, now, random))
  {
    hide Inv, Calm, InCleanup, Finish, ScheduleReconnect, RejectAuth, RequestedOr, FastOrBackoff;
    var attempt := AtLeastOne(s.status.attempt + 1);
    var delay := RequestedOr(f.failure, FastOrBackoff(c, attempt, random));
    FinishCalm(s, f.start);
    ScheduleCalm(s, attempt, delay, Some(f.failure), now);
    FinishCalm(ScheduleReconnect(s, attempt, delay, Some(f.failure), now), f.start);
    if !s.isStopped {
      RejectCalm(s, s.status.attempt, f.failure);
      FinishCalm(RejectAuth(s, s.status.attempt, f.failure), f.start);
    }
  }

  lemma AfterReconnectProbeCalm(c: Config, s: State, f: Frame, probe: Probe, now: real, random: real)
    requires Settled(s) && f.AwaitReconnectProbe?
    ensures Calm(AfterReconnectProbe(c, s, f, probe, now, random))
  {
    hide Inv, Calm, InCleanup, Suspend, ScheduleReconnect, RejectAuth, RequestedOr, BackoffDelay;
    ScheduleCalm(s, f.attempt + 1, RequestedOr(probe, BackoffDelay(c, f.attempt + 1, random)), Some(probe), now);
    SuspendCalm(s, AwaitBeforeReconnect(f.generation, f.attempt));
    if !s.isStopped {
      RejectCalm(s, f.attempt, probe);
      SuspendCalm(RejectAuth(s, f.attempt, probe), AwaitAuthNotice(f.generation, None));
    }
  }

  lemma WinnerCalm(s: State, generation: nat)
    requires Calm(s)
    ensures Calm(RecordWinner(s, generation))
  {
  }

  /** A resumed frame of the current generation. */
  lemma ContinueCalm(c: Config, s: State, f: Frame, answer: Option<Probe>, now: real, random: real)
    requires Settled(s) && Ripe(s, f, answer) && f.generation == s.generation
    requires Creates(f) ==> s.currentTransport.None? && Unclaimed(s, s.generation)
    ensures Calm(Continue(c, s, f, answer, now, random))
  {
    hide Inv, Tidy, EffectiveIsCurrent, InCleanup, Unclaimed, AfterCleanup, Finish, AfterInitialProbe,
      AfterReportCleanup, AfterReconnectProbe, ScheduleReconnect, EstablishConnection, RecordWinner, ApplyReport,
      FastOrBackoff;
    match f {
      case AwaitCleanup(generation, initial, attempt, _, start) => AfterCleanupCalm(c, s, initial, attempt, start);
      case AwaitInitialProbe(_, _, _) => AfterInitialProbeCalm(c, s, f, answer.value, now, random);
      case AwaitConnect(_, start) =>
        FinishCalm(s, start);
        if answer.Some? {
          ReportCalm(s, answer.value, start);
        }
      case AwaitReportCleanup(_, _, _, _) => AfterReportCleanupCalm(c, s, f, now, random);
      case AwaitReconnectProbe(_, _) => AfterReconnectProbeCalm(c, s, f, answer.value, now, random);
      case AwaitBeforeReconnect(generation, attempt) =>
        EstablishCalm(c, s, false, attempt, None);
        WinnerCalm(EstablishConnection(c, s, false, attempt, None), generation);
      case AwaitDisconnectNotice(_, attempt, _) =>
        ScheduleCalm(s, attempt, FastOrBackoff(c, attempt, random), None, now);
      case AwaitAuthNotice(_, start) => FinishCalm(s, start);
    }
  }

  lemma ResumeCalm(c: Config, s: State, id: nat, answer: Option<Probe>, now: real, random: real)
    requires Inv(s) && Calm(s) && id in s.loop.frames && Ripe(s, s.loop.frames[id], answer)
    ensures Calm(Resume(c, s, id, answer, now, random))
  {
    hide Inv, Calm, InCleanup, Unclaimed, Continue;
    var s1 := s.(loop := s.loop.(frames := s.loop.frames - {id}));
    var f := s.loop.frames[id];
    DropCalm(s, id);
    if f.generation == s.generation {
      ContinueCalm(c, s1, f, answer, now, random);
    } else {
      StaleContinue(c, s1, f, answer, now, random);
      StaleCalm(s1, None);
      StaleCalm(s1, StartOf(f));
    }
  }

  function StartOf(f: Frame): Option<nat> {
    match f
    case AwaitCleanup(_, _, _, _, start) => start
    case AwaitInitialProbe(_, _, start) => start
    case AwaitConnect(_, start) => start
    case AwaitReportCleanup(_, _, _, start) => start
    case AwaitAuthNotice(_, start) => start
    case _ => None
  }

  lemma StaleContinue(c: Config, s: State, f: Frame, answer: Option<Probe>, now: real, random: real)
    requires Ripe(s, f, answer) && f.generation != s.generation && !f.AwaitCleanup?
    ensures Continue(c, s, f, answer, now, random) == Finish(s, StartOf(f))
  {
  }

  /** The current generation belongs to a listener only when no cleanup is awaited. */
  lemma EventsAreSettled(s: State, t: nat)
    requires Inv(s) && Calm(s) && t in s.world.origins && !Superseded(s, t)
    ensures !InCleanup(s)
  {
    hide Inv;
  }

  lemma TimersAreSettled(s: State, id: nat)
    requires Inv(s) && Calm(s) && id in s.loop.armed
    ensures !InCleanup(s)
  {
    hide GenerationsDistinct, TransportsTracked, WinnersOrdered;
  }

  /** No `start` and no reported result lands while an establishConnection is suspended in its cleanup. */
  ghost predicate Quiet(s: State, e: Event) {
    (e.CallStart? || e.CallReport?) ==> !InCleanup(s)
  }

  /** What restarting touches before it establishes a connection. */
  lemma TidyFrame(s: State, t: State)
    requires Tidy(s) && !InCleanup(s)
    requires t == s.(isStarted := t.isStarted, isStopped := t.isStopped, reconnectAttempt := t.reconnectAttempt,
                     loop := s.loop.(nextStart := t.loop.nextStart))
    ensures Tidy(t) && !InCleanup(t)
  {
  }

  lemma StartInFlightCalm(s: State, start: Option<nat>)
    requires Calm(s)
    ensures Calm(s.(startInFlight := start))
  {
  }

  lemma StartCalm(c: Config, s: State)
    requires Settled(s)
    ensures Calm(Start(c, s))
  {
    hide EstablishConnection, Inv, Tidy, InCleanup, EffectiveIsCurrent;
    if s.startInFlight.None? || s.isStopped {
      StoppedPhase(s);
      var id := s.loop.nextStart;
      var restarting := !(s.isStarted && !s.isStopped);
      var s1 := s.(loop := s.loop.(nextStart := id + 1), isStarted := true, isStopped := false, reconnectAttempt := 0);
      if !restarting && (s.status.phase == Online || s.status.phase == Connecting) {
        CalmFrame(s, Start(c, s));
      } else {
        InvFrame(s, s1);
        TidyFrame(s, s1);
        var initial := restarting || c.probeBeforeInitialConnect;
        EstablishCalm(c, s1, initial, 0, Some(id));
        StartInFlightCalm(EstablishConnection(c, s1, initial, 0, Some(id)), Some(id));
      }
    }
  }

  lemma StopCalm(s: State)
    requires Inv(s) && Calm(s)
    ensures Calm(Stop(s))
  {
    hide GenerationsDistinct, WinnersOrdered, TimersTracked;
    StopLeaksNothing(s);
  }

  lemma TeardownCalm(s: State, t: nat, stage: Teardown)
    requires Calm(s) && t in s.world.teardowns
    ensures Calm(AdvanceTeardown(s, t, stage))
  {
  }

  lemma SettleStartCalm(s: State, id: nat)
    requires Calm(s)
    ensures Calm(SettleStart(s, id))
  {
  }

  lemma HandlersCalm(c: Config, s: State, e: Event)
    requires Inv(s) && Calm(s) && Enabled(s, e) && (e.Connected? || e.Disconnected? || e.Errored?)
    ensures Calm(Apply(c, s, e))
  {
    hide Inv, Calm, InCleanup, ScheduleReconnect, ApplyReport, FastOrBackoff, Suspend;
    if !Superseded(s, e.t) {
      EventsAreSettled(s, e.t);
      match e {
        case Connected(t, now) => CalmFrame(s, HandleConnected(s, t, now));
        case Disconnected(t, event, now) =>
          var attempt := s.reconnectAttempt + 1;
          var offline := s.status.(phase := Offline, reason := Some(ReasonOf(None, Some(event))), attempt := attempt,
                                   nextRetryAt := None, lastDisconnectedAt := Some(now),
                                   lastErrorMessage := event.error);
          var u := Publish(s.(reconnectAttempt := attempt), offline);
          CalmFrame(s, u);
          InvFrame(s, u);
          SuspendCalm(u, AwaitDisconnectNotice(s.generation, attempt, event.intentional));
        case Errored(_, message, classified, _, now, random) =>
          var attempt := AtLeastOne(s.status.attempt + 1);
          if classified.Some? {
            ReportCalm(s, classified.value, None);
          }
          ScheduleCalm(s, attempt, FastOrBackoff(c, attempt, random), Some(ServerUnreachable(Some(message))), now);
          CalmFrame(s, Publish(s, s.status.(lastErrorMessage := Some(message))));
      }
    }
  }

  lemma FireCalm(s: State, id: nat)
    requires Inv(s) && Calm(s) && id in s.loop.armed
    ensures Calm(FireTimer(s, id))
  {
    hide Suspend, Calm, InCleanup, Inv;
    TimersAreSettled(s, id);
    FiredKeeps(s, id);
    var s1 := s.(loop := s.loop.(armed := s.loop.armed - {id}), retryTimer := None);
    CalmFrame(s, s1);
    SuspendCalm(s1, AwaitReconnectProbe(s1.generation, s.loop.armed[id]));
  }

  lemma StepCalm(c: Config, s: State, e: Event)
    requires Inv(s) && Calm(s) && Enabled(s, e) && Quiet(s, e)
    ensures Calm(Apply(c, s, e))
  {
    hide Inv, Calm, InCleanup, Start, Stop, ApplyReport, FireTimer, HandleConnected, HandleDisconnected, HandleError,
      AdvanceTeardown, Resume, SettleStart;
    match e {
      case CallStart => StartCalm(c, s);
      case CallStop => StopCalm(s);
      case CallReport(failure) => ReportCalm(s, failure, None);
      case TimerFires(id) => FireCalm(s, id);
      case DisconnectSettles(t) => TeardownCalm(s, t, Destroying);
      case DestroySettles(t) => TeardownCalm(s, t, Gone);
      case Resumes(id, answer, now, random) => ResumeCalm(c, s, id, answer, now, random);
      case StartSettles(id) => SettleStartCalm(s, id);
      case _ => HandlersCalm(c, s, e);
    }
  }

  ghost predicate QuietRun(c: Config, s: State, es: seq<Event>)
    requires Legal(c, s, es)
    decreases |es|
  {
    es == [] || (Quiet(s, es[0]) && QuietRun(c, Apply(c, s, es[0]), es[1..]))
  }

  lemma {:induction false} RunCalm(c: Config, s: State, es: seq<Event>)
    requires Inv(s) && Calm(s) && Legal(c, s, es) && QuietRun(c, s, es)
    ensures Inv(Run(c, s, es)) && Calm(Run(c, s, es))
    decreases |es|
  {
    hide Inv, Calm, Apply, Enabled;
    if es != [] {
      StepKeeps(c, s, es[0]);
      StepCalm(c, s, es[0]);
      RunCalm(c, Apply(c, s, es[0]), es[1..]);
    }
  }

  /**
   * In a quiet run each transport is current or was handed to cleanup exactly once, with its listeners
   * detached, and the current transport is the only one whose events count; once stopped, none is left.
   */
  lemma QuietRunsNeverLeak(c: Config, es: seq<Event>)
    requires Legal(c, INITIAL, es) && QuietRun(c, INITIAL, es)
    ensures var s := Run(c, INITIAL, es);
      && Distinct(s.past.handed)
      && (forall t :: t in s.world.origins ==> (t in s.past.handed <==> s.currentTransport != Some(t)))
      && (forall h :: h in s.world.hooks ==> s.currentTransport == Some(h.transport))
      && (forall t :: t in s.world.origins && !Superseded(s, t) ==> s.currentTransport == Some(t))
      && (s.isStopped ==> (forall t :: t in s.world.origins ==> t in s.past.handed) && s.world.hooks == {})
  {
    var s := Run(c, INITIAL, es);
    assert Inv(INITIAL) && Calm(INITIAL);
    RunCalm(c, INITIAL, es);
    forall t | t in s.world.origins ensures t in s.past.handed <==> s.currentTransport != Some(t) {
      assert t !in Leaked(s);
    }
  }

  lemma {:induction false} RunExtends(c: Config, s: State, es: seq<Event>, e: Event)
    requires Legal(c, s, es) && Enabled(Run(c, s, es), e)
    ensures Legal(c, s, es + [e]) && Run(c, s, es + [e]) == Apply(c, Run(c, s, es), e)
    decreases |es|
  {
    hide Apply, Enabled;
    if es == [] {
      assert es + [e] == [e] && [e][1..] == [];
    } else {
      RunExtends(c, Apply(c, s, es[0]), es[1..], e);
      assert (es + [e])[0] == es[0] && (es + [e])[1..] == es[1..] + [e];
    }
  }

  lemma Play(c: Config, es: seq<Event>, e: Event) returns (longer: seq<Event>)
    requires Legal(c, INITIAL, es) && Enabled(Run(c, INITIAL, es), e)
    ensures longer == es + [e] && Legal(c, INITIAL, longer)
    ensures Run(c, INITIAL, longer) == Apply(c, Run(c, INITIAL, es), e)
  {
    RunExtends(c, INITIAL, es, e);
    longer := es + [e];
  }

  /** The first transport drops before its connect has returned. */
  lemma FirstDrop(c: Config) returns (es: seq<Event>)
    ensures Legal(c, INITIAL, es)
    ensures !c.probeBeforeInitialConnect ==> var s := Run(c, INITIAL, es);
      && s.loop == Loop(map[], 0, map[0 := AwaitConnect(1, Some(0)), 1 := AwaitDisconnectNotice(1, 1, false)], 2, {}, 1)
      && s.world == World(map[0 := Origin(1, true, 0)], 1, set h | h in HooksOf(0), map[])
      && s.currentTransport == Some(0) && s.detachCurrentListeners == HooksOf(0)
      && s.status.phase == Offline && s.generation == 1 && s.isStarted && !s.isStopped
      && s.startInFlight == Some(0) && s.retryTimer == None
  {
    es := [];
    if !c.probeBeforeInitialConnect {
      HooksComplete(Hook(0, OnDisconnected));
      es := Play(c, es, CallStart);
      es := Play(c, es, Disconnected(0, DisconnectEvent(false, None), 0.0));
    }
  }

  /** The start returns although the transport is gone. */
  lemma ReturnedStart(c: Config) returns (es: seq<Event>)
    ensures Legal(c, INITIAL, es)
    ensures !c.probeBeforeInitialConnect ==> var s := Run(c, INITIAL, es);
      && s.loop == Loop(map[], 0, map[1 := AwaitDisconnectNotice(1, 1, false)], 2, {}, 1)
      && s.world == World(map[0 := Origin(1, true, 0)], 1, set h | h in HooksOf(0), map[])
      && s.currentTransport == Some(0) && s.detachCurrentListeners == HooksOf(0)
      && s.status.phase == Offline && s.generation == 1 && s.isStarted && !s.isStopped
      && s.startInFlight == None && s.retryTimer == None
  {
    es := FirstDrop(c);
    hide Run;
    if !c.probeBeforeInitialConnect {
      es := Play(c, es, Resumes(0, None, 0.0, 0.0));
      es := Play(c, es, StartSettles(0));
    }
  }

  /** The supervisor is started again, and that start awaits the cleanup of T0. */
  lemma SuspendedCleanup(c: Config) returns (es: seq<Event>)
    ensures Legal(c, INITIAL, es)
    ensures !c.probeBeforeInitialConnect ==> var s := Run(c, INITIAL, es);
      && 2 in s.loop.frames && s.loop.frames[2] == AwaitCleanup(2, false, 0, 0, Some(1)) && s.loop.nextFrame == 3
      && s.world.origins == map[0 := Origin(1, true, 0)] && s.world.nextTransport == 1
      && s.world.teardowns == map[0 := Disconnecting(false)]
      && s.loop.frames.Keys == {1, 2} && s.loop.frames[1] == AwaitDisconnectNotice(1, 1, false) && s.retryTimer == None
      && s.currentTransport == None && s.generation == 2 && s.isStarted && !s.isStopped && s.status.phase == Offline
  {
    es := ReturnedStart(c);
    hide Run;
    if !c.probeBeforeInitialConnect {
      es := Play(c, es, CallStart);
    }
  }

  lemma StoppedDuringCleanup(c: Config) returns (es: seq<Event>)
    ensures Legal(c, INITIAL, es)
    ensures !c.probeBeforeInitialConnect ==> var s := Run(c, INITIAL, es);
      && 2 in s.loop.frames && s.loop.frames[2] == AwaitCleanup(2, false, 0, 0, Some(1)) && s.loop.nextFrame == 3
      && s.world.origins == map[0 := Origin(1, true, 0)] && s.world.nextTransport == 1
      && s.world.teardowns == map[0 := Disconnecting(false)]
      && s.currentTransport == None && s.generation == 2 && s.isStarted && s.isStopped
  {
    es := SuspendedCleanup(c);
    es := Play(c, es, CallStop);
  }

  /** Starting again while the old cleanup is suspended creates T1. */
  lemma RestartedDuringCleanup(c: Config) returns (es: seq<Event>)
    ensures Legal(c, INITIAL, es)
    ensures !c.probeBeforeInitialConnect ==> var s := Run(c, INITIAL, es);
      && 2 in s.loop.frames && s.loop.frames[2] == AwaitCleanup(2, false, 0, 0, Some(1))
      && s.world.origins == map[0 := Origin(1, true, 0), 1 := Origin(3, true, 0)] && s.world.nextTransport == 2
      && s.world.teardowns == map[0 := Disconnecting(false)]
      && s.currentTransport == Some(1) && s.generation == 3 && !s.isStopped
  {
    es := StoppedDuringCleanup(c);
    es := Play(c, es, CallStart);
  }

  lemma TornDown(c: Config) returns (es: seq<Event>)
    ensures Legal(c, INITIAL, es)
    ensures !c.probeBeforeInitialConnect ==> var s := Run(c, INITIAL, es);
      && 2 in s.loop.frames && s.loop.frames[2] == AwaitCleanup(2, false, 0, 0, Some(1))
      && s.world.origins == map[0 := Origin(1, true, 0), 1 := Origin(3, true, 0)] && s.world.nextTransport == 2
      && s.world.teardowns == map[0 := Gone]
      && s.currentTransport == Some(1) && s.generation == 3 && !s.isStopped
  {
    es := RestartedDuringCleanup(c);
    if !c.probeBeforeInitialConnect {
      es := Play(c, es, DisconnectSettles(0));
      es := Play(c, es, DestroySettles(0));
    }
  }

  /**
   * Without the hypothesis the guarantee fails. After a restart during the cleanup, the old
   * establishConnection resumes and adopts T2 over T1. T1 is never cleaned up, yet its events are
   * heeded, while those of the current T2 are ignored.
   */
  lemma RestartDuringCleanupLeaks(c: Config) returns (es: seq<Event>)
    requires !c.probeBeforeInitialConnect
    ensures Legal(c, INITIAL, es)
    ensures var s := Run(c, INITIAL, es);
      && Leaked(s) == {1} && s.currentTransport == Some(2)
      && {1, 2} <= s.world.origins.Keys && !Superseded(s, 1) && Superseded(s, 2)
  {
    es := TornDown(c);
    es := Play(c, es, Resumes(2, None, 0.0, 0.0));
  }
}
