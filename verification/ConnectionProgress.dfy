/**
 * What can still move an unstopped connection supervisor, and where it comes to rest
 * (createManagedConnectionSupervisor.ts).
 */
module ConnectionProgress {
  import opened Options
  import opened ConnectionTypes
  import opened ConnectionModel
  import opened ConnectionProofs
  import opened ConnectionLeaks
  import opened ConnectionStatuses

  /** The suspended continuation is of the current generation and goes on when it resumes, whatever it is answered. */
  predicate ActsIn(phase: Phase, generation: nat, f: Frame) {
    && f.generation == generation
    && (f.AwaitCleanup? || f.AwaitInitialProbe? || f.AwaitReportCleanup? || f.AwaitReconnectProbe?
        || f.AwaitBeforeReconnect? || (f.AwaitDisconnectNotice? && !f.intentional && phase != AuthFailed))
  }

  predicate Acts(s: State, f: Frame) {
    ActsIn(s.status.phase, s.generation, f)
  }

  /** A timer is armed, or a continuation is suspended that would act in that phase. */
  ghost predicate MovingIn(phase: Phase, s: State) {
    s.retryTimer.Some? || exists id :: id in s.loop.frames && ActsIn(phase, s.generation, s.loop.frames[id])
  }

  ghost predicate Moving(s: State) {
    MovingIn(s.status.phase, s)
  }

  /** Some transport's events would be heeded. */
  ghost predicate Heeded(s: State) {
    exists t :: t in s.world.origins && !Superseded(s, t)
  }

  /** The current transport is attached and its events would be heeded. */
  predicate Held(s: State) {
    s.currentTransport.Some? && s.currentTransport.value in s.world.origins && !Superseded(s, s.currentTransport.value)
  }

  /** Something moves it, or it rests where it may. */
  ghost predicate Driven(s: State) {
    !s.isStopped && !Moving(s) ==>
      match s.status.phase
      case Idle => !s.isStarted
      case Connecting => Heeded(s)
      case Online => Heeded(s)
      case Offline => Heeded(s) && s.status.reason == Some(ManualDisconnect)
      case AuthFailed => true
      case ShuttingDown => false
  }

  /** Connecting, with no timer, no continuation of the current generation and no transport that could end it. */
  ghost predicate Stuck(s: State) {
    !s.isStopped && s.status.phase == Connecting && !Moving(s) && !Heeded(s)
  }

  /** What Driven does not look at. */
  lemma DrivenFrame(s: State, t: State)
    requires Driven(s)
    requires t.isStopped == s.isStopped && t.isStarted == s.isStarted && t.generation == s.generation
    requires t.retryTimer == s.retryTimer && t.world.origins == s.world.origins
    requires t.status.phase == s.status.phase && t.status.reason == s.status.reason
    requires forall id :: id in s.loop.frames && Acts(s, s.loop.frames[id]) ==>
      id in t.loop.frames && t.loop.frames[id] == s.loop.frames[id]
    ensures Driven(t)
  {
    if Moving(s) && s.retryTimer.None? {
      var id :| id in s.loop.frames && Acts(s, s.loop.frames[id]);
      assert Acts(t, t.loop.frames[id]);
    }
    HeededFrame(s, t);
  }

  lemma HeededFrame(s: State, t: State)
    requires t.isStopped == s.isStopped && t.generation == s.generation && t.world.origins == s.world.origins
    ensures Heeded(t) == Heeded(s)
  {
    if Heeded(s) {
      var u :| u in s.world.origins && !Superseded(s, u);
      assert !Superseded(t, u);
    }
    if Heeded(t) {
      var u :| u in t.world.origins && !Superseded(t, u);
      assert !Superseded(s, u);
    }
  }

  lemma SuspendMoves(s: State, f: Frame)
    requires Acts(s, f)
    ensures Moving(Suspend(s, f))
  {
    assert Suspend(s, f).loop.frames[s.loop.nextFrame] == f;
  }

  lemma FinishDriven(s: State, start: Option<nat>)
    requires Driven(s)
    ensures Driven(Finish(s, start))
  {
    hide Driven;
    DrivenFrame(s, Finish(s, start));
  }

  lemma ScheduleDriven(s: State, attempt: int, delay: real, probe: Option<Probe>, now: real)
    ensures Driven(ScheduleReconnect(s, attempt, delay, probe, now))
  {}

  lemma RejectDriven(s: State, attempt: int, probe: Probe)
    ensures Driven(RejectAuth(s, attempt, probe))
  {}

  lemma RefusedIsDriven(s: State, attempt: int, probe: Probe, notice: Frame)
    ensures Driven(Suspend(RejectAuth(s, attempt, probe), notice))
  {}

  lemma OpenDriven(s: State, initial: bool, attempt: int, start: Option<nat>)
    ensures Driven(OpenTransport(s, s.generation, initial, attempt, start))
  {
    hide HooksOf;
    var t := OpenTransport(s, s.generation, initial, attempt, start);
    assert t.world.origins[s.world.nextTransport].generation == t.generation;
    assert !t.isStopped ==> !Superseded(t, s.world.nextTransport);
  }

  lemma AfterCleanupDriven(c: Config, s: State, initial: bool, attempt: int, start: Option<nat>)
    requires !s.isStopped
    ensures Driven(AfterCleanup(c, s, s.generation, initial, attempt, start))
  {
    hide OpenTransport;
    OpenDriven(s, initial, attempt, start);
    SuspendMoves(s, AwaitInitialProbe(s.generation, attempt, start));
  }

  lemma EstablishDriven(c: Config, s: State, initial: bool, attempt: int, start: Option<nat>)
    requires !s.isStopped
    ensures Driven(EstablishConnection(c, s, initial, attempt, start))
  {
    hide AfterCleanup, CleanupTransport, Suspend, Acts;
    var s1 := ClearRetryTimer(s.(generation := s.generation + 1));
    AfterCleanupDriven(c, s1, initial, attempt, start);
    if s1.currentTransport.Some? {
      var f := AwaitCleanup(s1.generation, initial, attempt, s1.currentTransport.value, start);
      CleanupKeepsGeneration(s1, false);
      CleanupActs(CleanupTransport(s1, false), f);
      SuspendMoves(CleanupTransport(s1, false), f);
    }
  }

  lemma CleanupActs(s: State, f: Frame)
    requires f.AwaitCleanup? && f.generation == s.generation
    ensures Acts(s, f)
  {}

  lemma ReportDriven(s: State, probe: Failure, start: Option<nat>)
    requires Driven(s)
    ensures Driven(ApplyReport(s, probe, start))
  {
    hide CleanupTransport, Suspend, Moving;
    if s.isStopped || s.status.phase !in {Online, Connecting, Offline} {
      FinishDriven(s, start);
    } else {
      var s1 := ClearRetryTimer(s.(generation := s.generation + 1));
      CleanupKeepsGeneration(s1, true);
      SuspendMoves(CleanupTransport(s1, true), AwaitReportCleanup(s1.generation, probe, s.currentTransport, start));
    }
  }

  /** A continuation of the current generation that resumes leaves something else to go on with, or a resting state. */
  lemma ContinueDriven(c: Config, s: State, f: Frame, answer: Option<Probe>, now: real, random: real)
    requires !s.isStopped && Ripe(s, f, answer) && f.generation == s.generation
    requires Acts(s, f) || Driven(s)
    ensures Driven(Continue(c, s, f, answer, now, random))
  {
    hide AfterCleanup, OpenTransport, EstablishConnection, ApplyReport, ScheduleReconnect, RejectAuth, Driven,
      RequestedOr, FastOrBackoff, BackoffDelay;
    match f {
      case AwaitCleanup(_, initial, attempt, _, start) => AfterCleanupDriven(c, s, initial, attempt, start);
      case AwaitInitialProbe(_, attempt, start) => AfterInitialProbeDriven(c, s, f, answer.value, now, random);
      case AwaitConnect(_, start) =>
        FinishDriven(s, start);
        if answer.Some? {
          ReportDriven(s, answer.value, start);
        }
      case AwaitReportCleanup(_, failure, _, start) => AfterReportCleanupDriven(c, s, f, now, random);
      case AwaitReconnectProbe(_, attempt) => AfterReconnectProbeDriven(c, s, f, answer.value, now, random);
      case AwaitBeforeReconnect(generation, attempt) =>
        EstablishDriven(c, s, false, attempt, None);
        DrivenFrame(EstablishConnection(c, s, false, attempt, None), AfterBeforeReconnect(c, s, f));
      case AwaitDisconnectNotice(_, attempt, _) =>
        ScheduleDriven(s, attempt, FastOrBackoff(c, attempt, random), None, now);
      case AwaitAuthNotice(_, start) => FinishDriven(s, start);
    }
  }

  lemma AfterInitialProbeDriven(c: Config, s: State, f: Frame, probe: Probe, now: real, random: real)
    requires f.AwaitInitialProbe? && !s.isStopped && f.generation == s.generation
    ensures Driven(AfterInitialProbe(c, s, f, probe, now, random))
  {
    hide OpenTransport, ScheduleReconnect, RejectAuth, Driven, RequestedOr, BackoffDelay;
    var attempt := AtLeastOne(f.attempt + 1);
    match probe {
      case AuthRejected(_) =>
        RefusedIsDriven(s, attempt, probe, AwaitAuthNotice(f.generation, f.start));
      case Ready => OpenDriven(s, true, f.attempt, f.start);
      case _ =>
        var delay := RequestedOr(probe, BackoffDelay(c, attempt, random));
        ScheduleDriven(s, attempt, delay, Some(probe), now);
        FinishDriven(ScheduleReconnect(s, attempt, delay, Some(probe), now), f.start);
    }
  }

  lemma AfterReportCleanupDriven(c: Config, s: State, f: Frame, now: real, random: real)
    requires f.AwaitReportCleanup? && !s.isStopped && f.generation == s.generation
    ensures Driven(AfterReportCleanup(c, s, f, now, random))
  {
    hide ScheduleReconnect, RejectAuth, Driven, RequestedOr, FastOrBackoff;
    var attempt := AtLeastOne(s.status.attempt + 1);
    if f.failure.AuthRejected? {
      RejectDriven(s, s.status.attempt, f.failure);
      FinishDriven(RejectAuth(s, s.status.attempt, f.failure), f.start);
    } else {
      var delay := RequestedOr(f.failure, FastOrBackoff(c, attempt, random));
      ScheduleDriven(s, attempt, delay, Some(f.failure), now);
      FinishDriven(ScheduleReconnect(s, attempt, delay, Some(f.failure), now), f.start);
    }
  }

  lemma AfterReconnectProbeDriven(c: Config, s: State, f: Frame, probe: Probe, now: real, random: real)
    requires f.AwaitReconnectProbe? && !s.isStopped && f.generation == s.generation
    ensures Driven(AfterReconnectProbe(c, s, f, probe, now, random))
  {
    hide ScheduleReconnect, RejectAuth, Suspend, RequestedOr, BackoffDelay, Moving;
    match probe {
      case AuthRejected(_) =>
        RefusedIsDriven(s, f.attempt, probe, AwaitAuthNotice(f.generation, None));
      case Ready => SuspendMoves(s, AwaitBeforeReconnect(f.generation, f.attempt));
      case _ =>
        ScheduleDriven(s, f.attempt + 1, RequestedOr(probe, BackoffDelay(c, f.attempt + 1, random)), Some(probe), now);
    }
  }

  /** A continuation that will create a transport with a generation that is over. */
  predicate OpensStale(c: Config, s: State, f: Frame) {
    f.AwaitCleanup? && f.generation != s.generation && !(f.initial && c.probeBeforeInitialConnect)
  }

  /** It does so while nothing else is under way that would go on once the phase is connecting. */
  ghost predicate StrandedBy(c: Config, s: State, id: nat)
    requires id in s.loop.frames
  {
    OpensStale(c, s, s.loop.frames[id]) && !MovingIn(Connecting, s) && !Heeded(s)
  }

  /** The step that strands it, behind a cleanup (createManagedConnectionSupervisor.ts:82-84). */
  ghost predicate Strands(c: Config, s: State, e: Event)
    requires Enabled(s, e)
  {
    e.Resumes? && !s.isStopped && StrandedBy(c, s, e.id)
  }

  /** A transport of a generation that is over makes it connecting and helps nothing else. */
  lemma StaleOpens(s: State, generation: nat, initial: bool, attempt: int, start: Option<nat>)
    requires Inv(s) && generation != s.generation
    ensures var t := OpenTransport(s, generation, initial, attempt, start);
      && t.isStopped == s.isStopped && t.status.phase == Connecting
      && Heeded(t) == Heeded(s) && Moving(t) == MovingIn(Connecting, s)
  {
    hide HooksOf, TransportsTracked, WinnersOrdered, TimersTracked, StopRespected;
    var t := OpenTransport(s, generation, initial, attempt, start);
    assert t.world.origins == s.world.origins[s.world.nextTransport := Origin(generation, initial, attempt)];
    assert t.loop.frames == s.loop.frames[s.loop.nextFrame := AwaitConnect(generation, start)];
    NextTransportIsNew(s);
    if Heeded(s) {
      var u :| u in s.world.origins && !Superseded(s, u);
      assert u in t.world.origins && !Superseded(t, u);
    }
    if Heeded(t) {
      var u :| u in t.world.origins && !Superseded(t, u);
      assert u in s.world.origins && !Superseded(s, u);
    }
    assert !ActsIn(Connecting, s.generation, AwaitConnect(generation, start));
    assert s.loop.nextFrame !in s.loop.frames;
    forall id | id in s.loop.frames ensures t.loop.frames[id] == s.loop.frames[id] {}
  }

  lemma StaleCleanup(c: Config, s: State, id: nat)
    requires Inv(s) && Driven(s) && !s.isStopped && id in s.loop.frames
    requires s.loop.frames[id].AwaitCleanup? && s.loop.frames[id].generation != s.generation
    ensures var f := s.loop.frames[id]; var s1 := s.(loop := s.loop.(frames := s.loop.frames - {id}));
      var t := AfterCleanup(c, s1, f.generation, f.initial, f.attempt, f.start);
      && (Stuck(t) <==> StrandedBy(c, s, id))
      && (Driven(t) <==> !StrandedBy(c, s, id))
  {
    var f := s.loop.frames[id];
    var s1 := s.(loop := s.loop.(frames := s.loop.frames - {id}));
    DropKeeps(s, id);
    hide Inv, OpenTransport, MovingIn, Heeded;
    if f.initial && c.probeBeforeInitialConnect {
      DrivenFrame(s, s1);
      InertDriven(s1, AwaitInitialProbe(f.generation, f.attempt, f.start));
    } else {
      HeededFrame(s, s1);
      DroppedMoves(Connecting, s, id);
      StaleOpens(s1, f.generation, f.initial, f.attempt, f.start);
    }
  }

  lemma DroppedMoves(phase: Phase, s: State, id: nat)
    requires id in s.loop.frames && !ActsIn(phase, s.generation, s.loop.frames[id])
    ensures MovingIn(phase, s.(loop := s.loop.(frames := s.loop.frames - {id}))) == MovingIn(phase, s)
  {
    var s1 := s.(loop := s.loop.(frames := s.loop.frames - {id}));
    hide ActsIn;
    forall other | other in s.loop.frames && ActsIn(phase, s.generation, s.loop.frames[other])
      ensures other in s1.loop.frames
    {}
  }

  lemma InertDriven(s: State, f: Frame)
    requires Inv(s) && Driven(s) && !Acts(s, f)
    ensures Driven(Suspend(s, f))
  {
    hide TransportsTracked, WinnersOrdered, TimersTracked, StopRespected, Driven;
    DrivenFrame(s, Suspend(s, f));
  }

  lemma ResumeStrands(c: Config, s: State, id: nat, answer: Option<Probe>, now: real, random: real)
    requires Inv(s) && Driven(s) && id in s.loop.frames && Ripe(s, s.loop.frames[id], answer)
    ensures var t := Resume(c, s, id, answer, now, random);
      && (Stuck(t) <==> !s.isStopped && StrandedBy(c, s, id))
      && (Driven(t) <==> s.isStopped || !StrandedBy(c, s, id))
  {
    var f := s.loop.frames[id];
    var s1 := s.(loop := s.loop.(frames := s.loop.frames - {id}));
    var t := Resume(c, s, id, answer, now, random);
    if s.isStopped {
      StoppedStaysDriven(c, s, Resumes(id, answer, now, random));
      StoppedStep(c, s, Resumes(id, answer, now, random));
    } else if f.AwaitCleanup? && f.generation != s.generation {
      hide AfterCleanup, Stuck, Driven;
      StaleCleanup(c, s, id);
    } else {
      hide Inv, Continue, Ripe;
      assert Driven(t) by {
        if !Acts(s, f) {
          DrivenFrame(s, s1);
        }
        if f.generation == s.generation {
          ContinueDriven(c, s1, f, answer, now, random);
        } else {
          StaleContinue(c, s1, f, answer, now, random);
          FinishDriven(s1, StartOf(f));
        }
      }
      hide Resume;
      assert !Stuck(t);
    }
  }

  lemma StoppedStaysDriven(c: Config, s: State, e: Event)
    requires Inv(s) && s.isStopped && Enabled(s, e) && e != CallStart
    ensures Driven(Apply(c, s, e))
  {
    StoppedStep(c, s, e);
    hide Apply;
  }

  lemma EventDriven(c: Config, s: State, e: Event)
    requires Driven(s) && Enabled(s, e) && (e.Connected? || e.Disconnected? || e.Errored?)
    ensures Driven(Apply(c, s, e))
  {
    if Superseded(s, e.t) {
      SupersededIsIgnored(c, s, e.t, e);
      hide Apply, Driven;
    } else {
      assert Heeded(s);
      hide Driven, Moving, Heeded, HandleConnected, HandleDisconnected, HandleError;
      match e {
        case Connected(t, now) => ConnectedDriven(s, t, now);
        case Disconnected(t, event, now) => DisconnectedDriven(s, t, event, now);
        case Errored(_, _, _, _, _, _) => ErrorDriven(c, s, e);
      }
    }
  }

  lemma ConnectedDriven(s: State, t: nat, now: real)
    requires Driven(s) && t in s.world.origins && Heeded(s)
    ensures Driven(HandleConnected(s, t, now))
  {
    hide Moving, Heeded;
    HeededFrame(s, HandleConnected(s, t, now));
  }

  lemma ErrorDriven(c: Config, s: State, e: Event)
    requires Driven(s) && e.Errored? && e.t in s.world.origins && !Superseded(s, e.t)
    ensures Driven(HandleError(c, s, e.t, e.message, e.classified, e.connected, e.now, e.random))
  {
    hide ApplyReport, ScheduleReconnect, Driven, FastOrBackoff;
    var attempt := AtLeastOne(s.status.attempt + 1);
    if e.classified.Some? {
      ReportDriven(s, e.classified.value, None);
    }
    ScheduleDriven(s, attempt, FastOrBackoff(c, attempt, e.random), Some(ServerUnreachable(Some(e.message))), e.now);
    DrivenFrame(s, Publish(s, s.status.(lastErrorMessage := Some(e.message))));
  }

  lemma DisconnectedDriven(s: State, t: nat, event: DisconnectEvent, now: real)
    requires Driven(s) && t in s.world.origins && Heeded(s)
    ensures Driven(HandleDisconnected(s, t, event, now))
  {
    hide Heeded;
    var u := HandleDisconnected(s, t, event, now);
    HeededFrame(s, u);
    if !Superseded(s, t) && !event.intentional {
      assert u.loop.frames[s.loop.nextFrame] == AwaitDisconnectNotice(s.generation, s.reconnectAttempt + 1, false);
      assert Acts(u, u.loop.frames[s.loop.nextFrame]);
    }
  }

  lemma StartDriven(c: Config, s: State)
    requires Driven(s)
    ensures Driven(Start(c, s))
  {
    hide EstablishConnection, Driven;
    if s.startInFlight.None? || s.isStopped {
      var id := s.loop.nextStart;
      var s1 := s.(loop := s.loop.(nextStart := id + 1));
      var t := Start(c, s);
      if s.isStarted && !s.isStopped {
        if s.status.phase in {Online, Connecting} {
          DrivenFrame(s, t);
        } else {
          EstablishDriven(c, s1.(reconnectAttempt := 0), c.probeBeforeInitialConnect, 0, Some(id));
          DrivenFrame(EstablishConnection(c, s1.(reconnectAttempt := 0), c.probeBeforeInitialConnect, 0, Some(id)), t);
        }
      } else {
        var s2 := s1.(isStarted := true, isStopped := false, reconnectAttempt := 0);
        EstablishDriven(c, s2, true, 0, Some(id));
        DrivenFrame(EstablishConnection(c, s2, true, 0, Some(id)), t);
      }
    }
  }

  lemma FireDriven(s: State, id: nat)
    requires Driven(s) && id in s.loop.armed
    ensures Driven(FireTimer(s, id))
  {
    hide Suspend;
    var s1 := s.(loop := s.loop.(armed := s.loop.armed - {id}), retryTimer := None);
    SuspendMoves(s1, AwaitReconnectProbe(s1.generation, s.loop.armed[id]));
  }

  lemma StopDriven(s: State)
    requires Driven(s)
    ensures Driven(Stop(s))
  {
    hide Moving;
  }

  /** Exactly the stranding steps get it stuck; after every other step it is driven. */
  lemma StepStrands(c: Config, s: State, e: Event)
    requires Inv(s) && Driven(s) && Enabled(s, e)
    ensures Stuck(Apply(c, s, e)) <==> Strands(c, s, e)
    ensures Driven(Apply(c, s, e)) <==> !Strands(c, s, e)
  {
    if e.Resumes? {
      hide Inv, Driven, Stuck, Resume;
      ResumeStrands(c, s, e.id, e.answer, e.now, e.random);
    } else {
      OtherStepsDriven(c, s, e);
      hide Inv, Apply;
      assert !Stuck(Apply(c, s, e));
    }
  }

  lemma OtherStepsDriven(c: Config, s: State, e: Event)
    requires Driven(s) && Enabled(s, e) && !e.Resumes?
    ensures Driven(Apply(c, s, e))
  {
    hide Driven, Start, Stop, ApplyReport, FireTimer, HandleConnected, HandleDisconnected, HandleError;
    match e {
      case CallStart => StartDriven(c, s);
      case CallStop => StopDriven(s);
      case CallReport(failure) => ReportDriven(s, failure, None);
      case TimerFires(id) => FireDriven(s, id);
      case DisconnectSettles(_) => DrivenFrame(s, Apply(c, s, e));
      case DestroySettles(_) => DrivenFrame(s, Apply(c, s, e));
      case StartSettles(_) => DrivenFrame(s, Apply(c, s, e));
      case _ => EventDriven(c, s, e);
    }
  }

  // ----- stuck for good -----

  predicate Carried(s: State, generation: nat) {
    exists t :: t in s.world.origins && s.world.origins[t].generation == generation
  }

  /** A connect that is awaited has its transport, and nothing happens before the first start. */
  ghost predicate Known(s: State) {
    && (forall id :: id in s.loop.frames && s.loop.frames[id].AwaitConnect? ==>
      Carried(s, s.loop.frames[id].generation))
    && (!s.isStarted ==>
      && s.loop.frames == map[] && s.world.origins == map[] && s.loop.armed == map[]
      && s.status.phase in {Idle, ShuttingDown})
  }

  /** What Known does not look at, once it is started. */
  lemma KnownFrame(s: State, t: State)
    requires Known(s) && t.isStarted && t.world.origins == s.world.origins
    requires forall id | id in t.loop.frames ::
      !t.loop.frames[id].AwaitConnect? || (id in s.loop.frames && t.loop.frames[id] == s.loop.frames[id])
    ensures Known(t)
  {
    forall id | id in t.loop.frames && t.loop.frames[id].AwaitConnect?
      ensures Carried(t, t.loop.frames[id].generation)
    {
      CarriedStays(s, t, t.loop.frames[id].generation);
    }
  }

  lemma CarriedStays(s: State, t: State, generation: nat)
    requires Carried(s, generation)
    requires forall u :: u in s.world.origins ==> u in t.world.origins && t.world.origins[u] == s.world.origins[u]
    ensures Carried(t, generation)
  {
    var u :| u in s.world.origins && s.world.origins[u].generation == generation;
    assert u in t.world.origins && t.world.origins[u].generation == generation;
  }

  lemma OpenKnown(s: State, generation: nat, initial: bool, attempt: int, start: Option<nat>)
    requires Known(s) && s.isStarted && s.world.nextTransport !in s.world.origins
    ensures Known(OpenTransport(s, generation, initial, attempt, start))
  {
    hide HooksOf;
    var t := OpenTransport(s, generation, initial, attempt, start);
    assert t.loop.frames == s.loop.frames[s.loop.nextFrame := AwaitConnect(generation, start)];
    assert t.world.origins[s.world.nextTransport].generation == generation;
    assert Carried(t, generation);
    hide Carried;
    forall id | id in t.loop.frames && t.loop.frames[id].AwaitConnect?
      ensures Carried(t, t.loop.frames[id].generation)
    {
      if id != s.loop.nextFrame {
        CarriedStays(s, t, t.loop.frames[id].generation);
      }
    }
  }

  lemma AfterCleanupKnown(c: Config, s: State, generation: nat, initial: bool, attempt: int, start: Option<nat>)
    requires Known(s) && s.isStarted && s.world.nextTransport !in s.world.origins
    ensures Known(AfterCleanup(c, s, generation, initial, attempt, start))
  {
    hide Known, OpenTransport;
    var t := AfterCleanup(c, s, generation, initial, attempt, start);
    if s.isStopped || (initial && c.probeBeforeInitialConnect) {
      KnownFrame(s, t);
    } else {
      OpenKnown(s, generation, initial, attempt, start);
    }
  }

  lemma EstablishKnown(c: Config, s: State, initial: bool, attempt: int, start: Option<nat>)
    requires Known(s) && s.isStarted && s.world.nextTransport !in s.world.origins
    ensures Known(EstablishConnection(c, s, initial, attempt, start))
  {
    hide Known, AfterCleanup;
    var s1 := ClearRetryTimer(s.(generation := s.generation + 1));
    KnownFrame(s, s1);
    AfterCleanupKnown(c, s1, s1.generation, initial, attempt, start);
    if s1.currentTransport.Some? {
      KnownFrame(s1, EstablishConnection(c, s, initial, attempt, start));
    }
  }

  lemma ReportKnown(s: State, failure: Failure, start: Option<nat>)
    requires Known(s)
    ensures Known(ApplyReport(s, failure, start))
  {
    if s.isStarted {
      hide Known;
      KnownFrame(s, ApplyReport(s, failure, start));
    }
  }

  lemma ContinueKnown(c: Config, s: State, f: Frame, answer: Option<Probe>, now: real, random: real)
    requires Known(s) && s.isStarted && s.world.nextTransport !in s.world.origins && Ripe(s, f, answer)
    ensures Known(Continue(c, s, f, answer, now, random))
  {
    hide Known, AfterCleanup, AfterInitialProbe, AfterReportCleanup, AfterReconnectProbe, EstablishConnection,
      ApplyReport, AfterDisconnectNotice;
    match f {
      case AwaitCleanup(generation, initial, attempt, _, start) =>
        AfterCleanupKnown(c, s, generation, initial, attempt, start);
      case AwaitInitialProbe(_, _, _) => AfterInitialProbeKnown(c, s, f, answer.value, now, random);
      case AwaitConnect(_, start) =>
        if answer.Some? {
          ReportKnown(s, answer.value, start);
        }
        KnownFrame(s, Finish(s, start));
      case AwaitBeforeReconnect(_, attempt) =>
        EstablishKnown(c, s, false, attempt, None);
        if !s.isStopped && f.generation == s.generation {
          StaysStarted(c, s, attempt);
          KnownFrame(EstablishConnection(c, s, false, attempt, None), AfterBeforeReconnect(c, s, f));
        }
      case AwaitAuthNotice(_, start) => KnownFrame(s, Finish(s, start));
      case _ => SchedulersKnown(c, s, f, answer, now, random);
    }
  }

  lemma AfterInitialProbeKnown(c: Config, s: State, f: Frame, probe: Probe, now: real, random: real)
    requires Known(s) && s.isStarted && s.world.nextTransport !in s.world.origins && f.AwaitInitialProbe?
    ensures Known(AfterInitialProbe(c, s, f, probe, now, random))
  {
    hide Known, OpenTransport, RequestedOr, BackoffDelay, ReasonOf, ErrorMessage;
    if f.generation == s.generation && !s.isStopped && probe.Ready? {
      OpenKnown(s, f.generation, true, f.attempt, f.start);
    } else {
      KnownFrame(s, AfterInitialProbe(c, s, f, probe, now, random));
    }
  }

  lemma SchedulersKnown(c: Config, s: State, f: Frame, answer: Option<Probe>, now: real, random: real)
    requires Known(s) && s.isStarted
    ensures f.AwaitReportCleanup? ==> Known(AfterReportCleanup(c, s, f, now, random))
    ensures f.AwaitReconnectProbe? && answer.Some? ==> Known(AfterReconnectProbe(c, s, f, answer.value, now, random))
    ensures f.AwaitDisconnectNotice? ==> Known(AfterDisconnectNotice(c, s, f, now, random))
  {
    hide Known, RequestedOr, FastOrBackoff, BackoffDelay, ReasonOf, ErrorMessage;
    if f.AwaitReportCleanup? {
      KnownFrame(s, AfterReportCleanup(c, s, f, now, random));
    }
    if f.AwaitReconnectProbe? && answer.Some? {
      KnownFrame(s, AfterReconnectProbe(c, s, f, answer.value, now, random));
    }
    if f.AwaitDisconnectNotice? {
      KnownFrame(s, AfterDisconnectNotice(c, s, f, now, random));
    }
  }

  lemma StaysStarted(c: Config, s: State, attempt: int)
    ensures EstablishConnection(c, s, false, attempt, None).isStarted == s.isStarted
  {}

  lemma StartKnown(c: Config, s: State)
    requires Known(s) && s.world.nextTransport !in s.world.origins
    ensures Known(Start(c, s))
  {
    hide EstablishConnection, Known;
    if s.startInFlight.None? || s.isStopped {
      var id := s.loop.nextStart;
      var t := Start(c, s);
      var s1 := s.(loop := s.loop.(nextStart := id + 1), isStarted := true, isStopped := false, reconnectAttempt := 0);
      KnownFrame(s, s1);
      var launching := !(s.isStarted && !s.isStopped);
      if launching || !(s.status.phase == Online || s.status.phase == Connecting) {
        var initial := launching || c.probeBeforeInitialConnect;
        EstablishKnown(c, s1, initial, 0, Some(id));
        LaunchStaysStarted(c, s1, initial, id);
        KnownFrame(EstablishConnection(c, s1, initial, 0, Some(id)), t);
      } else {
        KnownFrame(s, t);
      }
    }
  }

  lemma LaunchStaysStarted(c: Config, s: State, initial: bool, id: nat)
    ensures EstablishConnection(c, s, initial, 0, Some(id)).isStarted == s.isStarted
  {}

  lemma StepKnown(c: Config, s: State, e: Event)
    requires Inv(s) && Known(s) && Enabled(s, e)
    ensures Known(Apply(c, s, e))
  {
    NextTransportIsNew(s);
    hide Inv;
    if e.CallStart? {
      hide Known, Start;
      StartKnown(c, s);
    } else if !s.isStarted {
      NothingBeforeStart(c, s, e);
    } else if e.Resumes? {
      hide Known, Continue, Ripe;
      var s1 := s.(loop := s.loop.(frames := s.loop.frames - {e.id}));
      KnownFrame(s, s1);
      ContinueKnown(c, s1, s.loop.frames[e.id], e.answer, e.now, e.random);
    } else {
      hide Known, Apply;
      QuietlyKnown(c, s, e);
    }
  }

  lemma NothingBeforeStart(c: Config, s: State, e: Event)
    requires Known(s) && !s.isStarted && Enabled(s, e) && e != CallStart
    ensures Known(Apply(c, s, e))
  {
    hide HooksOf, Ripe, Carried;
  }

  lemma QuietlyKnown(c: Config, s: State, e: Event)
    requires Known(s) && s.isStarted && Enabled(s, e) && !e.CallStart? && !e.Resumes?
    ensures Known(Apply(c, s, e))
  {
    hide Known, ApplyReport, HandleError, FireTimer, Stop, Superseded;
    var t := Apply(c, s, e);
    match e {
      case CallReport(failure) => ReportKnown(s, failure, None);
      case Errored(_, _, _, _, _, _) => ErrorKnown(c, s, e);
      case CallStop => StopKnown(s);
      case TimerFires(id) => FireKnown(s, id);
      case _ => KnownFrame(s, t);
    }
  }

  lemma ErrorKnown(c: Config, s: State, e: Event)
    requires Known(s) && s.isStarted && e.Errored? && e.t in s.world.origins
    ensures Known(HandleError(c, s, e.t, e.message, e.classified, e.connected, e.now, e.random))
  {
    hide Known, ApplyReport, FastOrBackoff, Superseded;
    if e.classified.Some? {
      ReportKnown(s, e.classified.value, None);
    }
    var attempt := AtLeastOne(s.status.attempt + 1);
    var t := ScheduleReconnect(s, attempt, FastOrBackoff(c, attempt, e.random),
      Some(ServerUnreachable(Some(e.message))), e.now);
    KnownFrame(s, t);
    KnownFrame(s, s);
    KnownFrame(s, Publish(s, s.status.(lastErrorMessage := Some(e.message))));
  }

  lemma StopKnown(s: State)
    requires Known(s) && s.isStarted
    ensures Known(Stop(s))
  {
    hide Known;
    KnownFrame(s, Stop(s));
  }

  lemma FireKnown(s: State, id: nat)
    requires Known(s) && s.isStarted && id in s.loop.armed
    ensures Known(FireTimer(s, id))
  {
    hide Known;
    KnownFrame(s, FireTimer(s, id));
  }

  lemma CarriedIsHeeded(s: State)
    ensures Carried(s, s.generation) && !s.isStopped ==> Heeded(s)
  {
    if Carried(s, s.generation) && !s.isStopped {
      var t :| t in s.world.origins && s.world.origins[t].generation == s.generation;
      assert !Superseded(s, t);
    }
  }

  /** While stuck, every continuation that is left is over or inert, and the connect that is awaited is superseded. */
  lemma StuckContinues(c: Config, s: State, id: nat, answer: Option<Probe>, now: real, random: real)
    requires Inv(s) && Known(s) && Stuck(s) && id in s.loop.frames && Ripe(s, s.loop.frames[id], answer)
    requires !s.loop.frames[id].AwaitCleanup?
    ensures var t := Resume(c, s, id, answer, now, random);
      t == s.(loop := s.loop.(frames := s.loop.frames - {id}, settledStarts := t.loop.settledStarts))
  {
    var f := s.loop.frames[id];
    hide Inv, EstablishConnection, OpenTransport, AfterCleanup, ApplyReport, ScheduleReconnect, RejectAuth;
    CarriedIsHeeded(s);
    if f.generation == s.generation {
      assert !Acts(s, f);
    } else {
      StaleFramesAreIgnored(c, s, id, answer, now, random);
    }
  }

  /** What Stuck does not look at; fewer continuations, or more that are over, change nothing. */
  lemma StuckFrame(s: State, t: State)
    requires Stuck(s) && t.isStopped == s.isStopped && t.generation == s.generation && t.retryTimer == s.retryTimer
    requires t.status.phase == s.status.phase && t.world.origins == s.world.origins
    requires forall id | id in t.loop.frames ::
      t.loop.frames[id].generation == s.generation ==> id in s.loop.frames && t.loop.frames[id] == s.loop.frames[id]
    ensures Stuck(t)
  {
    HeededFrame(s, t);
    hide Heeded;
    forall id | id in t.loop.frames ensures !Acts(t, t.loop.frames[id]) {
      if t.loop.frames[id].generation == s.generation {
        assert !Acts(s, s.loop.frames[id]);
      }
    }
  }

  /** Nothing was published, and no cleanup is awaited. */
  ghost predicate Same(s: State, t: State) {
    t.status == s.status && t.past.log == s.past.log && !InCleanup(t)
  }

  lemma StuckResumes(c: Config, s: State, id: nat, answer: Option<Probe>, now: real, random: real)
    requires Inv(s) && Known(s) && Stuck(s) && id in s.loop.frames && Ripe(s, s.loop.frames[id], answer)
    ensures var t := Resume(c, s, id, answer, now, random);
      && Stuck(t) && (t.past.log == s.past.log || t.past.log == s.past.log + [t.status])
      && (!InCleanup(s) ==> Same(s, t))
  {
    var f := s.loop.frames[id];
    var s1 := s.(loop := s.loop.(frames := s.loop.frames - {id}));
    var t := Resume(c, s, id, answer, now, random);
    if f.AwaitCleanup? {
      assert !Acts(s, f);
      StuckFrame(s, s1);
      DropKeeps(s, id);
      hide Inv;
      if f.initial && c.probeBeforeInitialConnect {
        StuckFrame(s1, t);
      } else {
        StaleOpens(s1, f.generation, f.initial, f.attempt, f.start);
        assert t.past.log == s.past.log + [t.status];
        hide OpenTransport, Resume, Heeded;
        forall other | other in s1.loop.frames ensures !ActsIn(Connecting, s1.generation, s1.loop.frames[other]) {
          assert !Acts(s1, s1.loop.frames[other]);
        }
      }
    } else {
      StuckContinues(c, s, id, answer, now, random);
      hide Resume, Stuck;
      StuckFrame(s, t);
    }
  }

  predicate Rescues(e: Event) {
    e.CallStop? || e.CallReport?
  }

  /**
   * It stays stuck: only `stop` or another reported result gets it out, while `start` returns at once. All that is
   * still published is one more connecting, behind another superseded cleanup.
   */
  lemma StuckStep(c: Config, s: State, e: Event)
    requires Inv(s) && Known(s) && Stuck(s) && Enabled(s, e)
    ensures var t := Apply(c, s, e);
      if Rescues(e) then Driven(t) && !Stuck(t)
      else
        && Stuck(t) && (t.past.log == s.past.log || t.past.log == s.past.log + [t.status])
        && (!InCleanup(s) ==> Same(s, t))
  {
    match e {
      case CallStop =>
      case CallReport(failure) => StuckIsReported(s, failure);
      case CallStart => StuckFrame(s, Start(c, s));
      case TimerFires(id) => assert false;
      case Resumes(id, answer, now, random) => StuckResumes(c, s, id, answer, now, random);
      case DisconnectSettles(_) => StuckFrame(s, Apply(c, s, e));
      case DestroySettles(_) => StuckFrame(s, Apply(c, s, e));
      case StartSettles(_) => StuckFrame(s, Apply(c, s, e));
      case _ => SupersededIsIgnored(c, s, e.t, e);
    }
  }

  lemma StuckIsReported(s: State, failure: Failure)
    requires Stuck(s)
    ensures Driven(ApplyReport(s, failure, None)) && !Stuck(ApplyReport(s, failure, None))
  {
    hide CleanupTransport, Suspend, Moving;
    var s1 := ClearRetryTimer(s.(generation := s.generation + 1));
    CleanupKeepsGeneration(s1, true);
    SuspendMoves(CleanupTransport(s1, true), AwaitReportCleanup(s1.generation, failure, s.currentTransport, None));
  }

  // ----- every run -----

  /** What holds in every state of every run. */
  ghost predicate Accounted(s: State) {
    Inv(s) && Known(s) && (Driven(s) || Stuck(s))
  }

  /** A step strands it, and neither `stop` nor a reported result comes after that. */
  ghost predicate LeftStranded(c: Config, s: State, es: seq<Event>)
    requires Legal(c, s, es)
    decreases |es|
  {
    es != [] && (
      || (Strands(c, s, es[0]) && NoRescue(es[1..]))
      || LeftStranded(c, Apply(c, s, es[0]), es[1..]))
  }

  predicate NoRescue(es: seq<Event>) {
    forall e :: e in es ==> !Rescues(e)
  }

  lemma DrivenIsNotStuck(s: State)
    ensures !(Driven(s) && Stuck(s))
  {}

  lemma StepAccounted(c: Config, s: State, e: Event)
    requires Accounted(s) && Enabled(s, e)
    ensures Accounted(Apply(c, s, e))
    ensures Stuck(Apply(c, s, e)) <==> Strands(c, s, e) || (Stuck(s) && !Rescues(e))
  {
    StepKeeps(c, s, e);
    StepKnown(c, s, e);
    hide Inv, Known, Driven, Stuck, Apply, Enabled, StrandedBy;
    DrivenIsNotStuck(s);
    if Stuck(s) {
      StuckStep(c, s, e);
    } else {
      StepStrands(c, s, e);
    }
  }

  lemma NoRescueSplits(es: seq<Event>)
    requires es != []
    ensures NoRescue(es) <==> !Rescues(es[0]) && NoRescue(es[1..])
  {
    assert es == [es[0]] + es[1..];
  }

  lemma {:induction false} RunAccounted(c: Config, s: State, es: seq<Event>)
    requires Accounted(s) && Legal(c, s, es)
    ensures Accounted(Run(c, s, es))
    ensures Stuck(Run(c, s, es)) <==> LeftStranded(c, s, es) || (Stuck(s) && NoRescue(es))
    decreases |es|
  {
    if es != [] {
      StepAccounted(c, s, es[0]);
      NoRescueSplits(es);
      hide Accounted, Stuck, Apply, Enabled, Strands, NoRescue, Rescues;
      RunAccounted(c, Apply(c, s, es[0]), es[1..]);
    }
  }

  lemma InitialAccounted()
    ensures Accounted(INITIAL) && Driven(INITIAL) && !Stuck(INITIAL)
  {}

  /**
   * After any run an unstopped supervisor has a timer armed or a continuation that acts, or rests where it may:
   * connecting or online with a transport that is heeded, offline after an intentional disconnect, refused, or never
   * started. The one exception is to be stuck, and that is so exactly if a step stranded it and neither `stop` nor a
   * reported result came after.
   */
  lemma StallsIffStranded(c: Config, es: seq<Event>)
    requires Legal(c, INITIAL, es)
    ensures var s := Run(c, INITIAL, es);
      && (Stuck(s) <==> LeftStranded(c, INITIAL, es))
      && (Driven(s) <==> !LeftStranded(c, INITIAL, es))
  {
    InitialAccounted();
    RunAccounted(c, INITIAL, es);
    hide Run, Stuck, Driven, LeftStranded;
    DrivenIsNotStuck(Run(c, INITIAL, es));
  }

  /** It only ever gets stuck while it is refused. */
  lemma StrandedWhileRefused(c: Config, s: State, e: Event)
    requires Known(s) && Driven(s) && Enabled(s, e) && Strands(c, s, e)
    ensures s.status.phase == AuthFailed
  {
    hide Heeded;
    ConnectingMovesMost(s);
  }

  lemma ConnectingMovesMost(s: State)
    ensures Moving(s) ==> MovingIn(Connecting, s)
  {
    if Moving(s) && s.retryTimer.None? {
      var id :| id in s.loop.frames && ActsIn(s.status.phase, s.generation, s.loop.frames[id]);
      assert ActsIn(Connecting, s.generation, s.loop.frames[id]);
    }
  }

  /** Every status that `t` has published since `s` is connecting. */
  predicate OnlyConnecting(s: State, t: State) {
    forall i :: |s.past.log| <= i < |t.past.log| ==> t.past.log[i].phase == Connecting
  }

  lemma OnlyConnectingExtends(s: State, t: State, u: State)
    requires t.past.log == s.past.log || t.past.log == s.past.log + [t.status]
    requires t.status.phase == Connecting && OnlyConnecting(t, u) && t.past.log <= u.past.log
    ensures OnlyConnecting(s, u)
  {
  }

  /**
   * Once stuck, it stays so over any run without `stop` and reported results, and publishes nothing but connecting;
   * unless another cleanup is awaited, it publishes nothing at all. A start changes nothing.
   */
  lemma {:induction false} StuckForGood(c: Config, s: State, es: seq<Event>)
    requires Accounted(s) && Stuck(s) && Legal(c, s, es) && NoRescue(es)
    ensures var t := Run(c, s, es);
      Stuck(t) && s.past.log <= t.past.log && OnlyConnecting(s, t) && (!InCleanup(s) ==> Same(s, t))
    decreases |es|
  {
    if es != [] {
      var next := Apply(c, s, es[0]);
      StuckStep(c, s, es[0]);
      StepAccounted(c, s, es[0]);
      assert forall e :: e in es[1..] ==> e in es;
      assert next.status.phase == Connecting;
      hide Apply, Accounted, Enabled, Stuck, OnlyConnecting, Strands, InCleanup;
      StuckForGood(c, next, es[1..]);
      OnlyConnectingExtends(s, next, Run(c, s, es));
    }
  }

  // ----- quiet runs -----

  lemma CalmNeverStrands(c: Config, s: State, e: Event)
    requires Calm(s) && Enabled(s, e)
    ensures !Strands(c, s, e)
  {}

  lemma {:induction false} QuietNeverStrands(c: Config, s: State, es: seq<Event>)
    requires Inv(s) && Calm(s) && Legal(c, s, es) && QuietRun(c, s, es)
    ensures !LeftStranded(c, s, es)
    decreases |es|
  {
    hide Inv, Calm, Apply, Enabled, Strands;
    if es != [] {
      StepKeeps(c, s, es[0]);
      StepCalm(c, s, es[0]);
      CalmNeverStrands(c, s, es[0]);
      QuietNeverStrands(c, Apply(c, s, es[0]), es[1..]);
    }
  }

  lemma HeededIsHeld(s: State)
    requires Calm(s) && Heeded(s)
    ensures Held(s)
  {}

  /** In a quiet run it never gets stuck, and the transport it rests with is the current one. */
  lemma QuietRunsDoNotStall(c: Config, es: seq<Event>)
    requires Legal(c, INITIAL, es) && QuietRun(c, INITIAL, es)
    ensures var s := Run(c, INITIAL, es);
      !s.isStopped ==>
      || Moving(s)
      || (Held(s) && s.status.phase in {Connecting, Online})
      || (Held(s) && s.status.phase == Offline && s.status.reason == Some(ManualDisconnect)
          && s.status.nextRetryAt == None)
      || s.status.phase == AuthFailed
      || (s.status.phase == Idle && !s.isStarted)
  {
    assert Inv(INITIAL) && Calm(INITIAL);
    QuietNeverStrands(c, INITIAL, es);
    StallsIffStranded(c, es);
    RunCalm(c, INITIAL, es);
    StatusesTellTheTruth(c, es);
    var s := Run(c, INITIAL, es);
    hide Run, Moving, Held, Calm;
    if Heeded(s) {
      HeededIsHeld(s);
    }
  }

  // ----- where it does come to rest -----

  lemma {:induction false} QuietExtends(c: Config, s: State, es: seq<Event>, e: Event)
    requires Legal(c, s, es) && QuietRun(c, s, es) && Enabled(Run(c, s, es), e) && Quiet(Run(c, s, es), e)
    ensures Legal(c, s, es + [e]) && QuietRun(c, s, es + [e])
    decreases |es|
  {
    hide Apply, Enabled, Quiet;
    if es == [] {
      assert es + [e] == [e] && [e][1..] == [];
    } else {
      QuietExtends(c, Apply(c, s, es[0]), es[1..], e);
      assert (es + [e])[0] == es[0] && (es + [e])[1..] == es[1..] + [e];
    }
  }

  lemma PlayQuietly(c: Config, es: seq<Event>, e: Event) returns (longer: seq<Event>)
    requires Legal(c, INITIAL, es) && QuietRun(c, INITIAL, es)
    requires Enabled(Run(c, INITIAL, es), e) && Quiet(Run(c, INITIAL, es), e)
    ensures longer == es + [e] && Legal(c, INITIAL, longer) && QuietRun(c, INITIAL, longer)
    ensures Run(c, INITIAL, longer) == Apply(c, Run(c, INITIAL, es), e)
  {
    longer := Play(c, es, e);
    QuietExtends(c, INITIAL, es, e);
  }

  lemma Started(c: Config) returns (es: seq<Event>)
    requires !c.probeBeforeInitialConnect
    ensures Legal(c, INITIAL, es) && QuietRun(c, INITIAL, es)
    ensures var s := Run(c, INITIAL, es);
      && s.loop.frames == map[0 := AwaitConnect(1, Some(0))] && s.loop.nextFrame == 1 && s.retryTimer == None
      && s.world == World(map[0 := Origin(1, true, 0)], 1, set h | h in HooksOf(0), map[])
      && s.currentTransport == Some(0) && s.generation == 1 && s.status.phase == Connecting && !s.isStopped
  {
    es := PlayQuietly(c, [], CallStart);
  }

  /** After an intentional disconnect it rests, in a quiet run. */
  lemma IntentionalDisconnectRests(c: Config) returns (es: seq<Event>)
    requires !c.probeBeforeInitialConnect
    ensures Legal(c, INITIAL, es) && QuietRun(c, INITIAL, es)
    ensures var s := Run(c, INITIAL, es);
      !s.isStopped && !Moving(s) && Held(s) && s.status.phase == Offline && s.status.reason == Some(ManualDisconnect)
  {
    es := Started(c);
    HooksComplete(Hook(0, OnDisconnected));
    hide Run;
    es := PlayQuietly(c, es, Disconnected(0, DisconnectEvent(true, None), 0.0));
  }

  lemma Reported(c: Config) returns (es: seq<Event>)
    requires !c.probeBeforeInitialConnect
    ensures Legal(c, INITIAL, es) && QuietRun(c, INITIAL, es)
    ensures var s := Run(c, INITIAL, es);
      && s.loop.frames == map[0 := AwaitConnect(1, Some(0)),
        1 := AwaitReportCleanup(2, AuthRejected(None), Some(0), None)]
      && s.world.teardowns == map[0 := Disconnecting(true)] && s.retryTimer == None
      && s.currentTransport == None && s.generation == 2 && !s.isStopped
  {
    es := Started(c);
    hide Run;
    es := PlayQuietly(c, es, CallReport(AuthRejected(None)));
  }

  /** After a refusal it rests, in a quiet run, with no transport left. */
  lemma RefusalRests(c: Config) returns (es: seq<Event>)
    requires !c.probeBeforeInitialConnect
    ensures Legal(c, INITIAL, es) && QuietRun(c, INITIAL, es)
    ensures var s := Run(c, INITIAL, es); !s.isStopped && !Moving(s) && !Held(s) && s.status.phase == AuthFailed
  {
    es := Reported(c);
    hide Run;
    es := PlayQuietly(c, es, DisconnectSettles(0));
    es := PlayQuietly(c, es, DestroySettles(0));
    es := PlayQuietly(c, es, Resumes(1, None, 0.0, 0.0));
  }

  // ----- where it gets stuck -----

  /** Refused for good, with only the old establishConnection still to resume. */
  ghost predicate RefusedInCleanup(s: State) {
    && s.loop.frames == map[1 := AwaitDisconnectNotice(1, 1, false), 2 := AwaitCleanup(2, false, 0, 0, Some(1))]
    && s.world.origins == map[0 := Origin(1, true, 0)] && s.world.nextTransport == 1
    && s.retryTimer == None && s.loop.nextFrame == 4 && s.generation == 3
    && s.isStarted && !s.isStopped && s.status.phase == AuthFailed
  }

  lemma RefusedDuringCleanup(c: Config) returns (es: seq<Event>)
    requires !c.probeBeforeInitialConnect
    ensures Legal(c, INITIAL, es)
    ensures var s := Run(c, INITIAL, es); RefusedInCleanup(s) && s.world.teardowns == map[0 := Disconnecting(false)]
  {
    es := ReportedDuringCleanup(c);
    hide Run;
    es := Play(c, es, Resumes(3, None, 0.0, 0.0));
  }

  lemma ReportedDuringCleanup(c: Config) returns (es: seq<Event>)
    requires !c.probeBeforeInitialConnect
    ensures Legal(c, INITIAL, es)
    ensures var s := Run(c, INITIAL, es);
      && s.loop.frames == map[1 := AwaitDisconnectNotice(1, 1, false), 2 := AwaitCleanup(2, false, 0, 0, Some(1)),
                              3 := AwaitReportCleanup(3, AuthRejected(None), None, None)]
      && s.world.origins == map[0 := Origin(1, true, 0)] && s.world.nextTransport == 1
      && s.world.teardowns == map[0 := Disconnecting(false)]
      && s.retryTimer == None && s.loop.nextFrame == 4 && s.generation == 3 && s.isStarted && !s.isStopped
  {
    es := SuspendedCleanup(c);
    hide Run;
    es := Play(c, es, CallReport(AuthRejected(None)));
  }

  lemma RefusedAndTornDown(c: Config) returns (es: seq<Event>)
    requires !c.probeBeforeInitialConnect
    ensures Legal(c, INITIAL, es)
    ensures var s := Run(c, INITIAL, es); RefusedInCleanup(s) && s.world.teardowns == map[0 := Gone]
  {
    es := RefusedDuringCleanup(c);
    hide Run;
    es := Play(c, es, DisconnectSettles(0));
    es := Play(c, es, DestroySettles(0));
  }

  lemma ResumedCleanupStrands(c: Config, s: State)
    requires RefusedInCleanup(s) && s.world.teardowns == map[0 := Gone]
    ensures Enabled(s, Resumes(2, None, 0.0, 0.0))
    ensures var t := Apply(c, s, Resumes(2, None, 0.0, 0.0)); Stuck(t) && !InCleanup(t)
  {
    hide HooksOf;
    var t := Apply(c, s, Resumes(2, None, 0.0, 0.0));
    assert t.loop.frames == map[1 := AwaitDisconnectNotice(1, 1, false), 4 := AwaitConnect(2, Some(1))];
    assert t.world.origins == map[0 := Origin(1, true, 0), 1 := Origin(2, false, 0)];
  }

  /**
   * Without the hypothesis it can get stuck. The server refuses it while the old transport is still torn down; then
   * the old establishConnection resumes, opens a transport that nobody heeds, and publishes connecting over
   * auth_failed.
   */
  lemma ReportDuringCleanupStrands(c: Config) returns (es: seq<Event>)
    requires !c.probeBeforeInitialConnect
    ensures Legal(c, INITIAL, es) && Stuck(Run(c, INITIAL, es)) && !InCleanup(Run(c, INITIAL, es))
  {
    hide *;
    es := RefusedAndTornDown(c);
    ResumedCleanupStrands(c, Run(c, INITIAL, es));
    es := Play(c, es, Resumes(2, None, 0.0, 0.0));
  }
}
