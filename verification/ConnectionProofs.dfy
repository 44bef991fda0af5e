/** What every run of the connection supervisor keeps, in every interleaving. */
module ConnectionProofs {
  import opened Options
  import opened ConnectionTypes
  import opened ConnectionModel

  /** Frames that may still create a transport with the generation they captured. */
  predicate Creates(f: Frame) {
    f.AwaitCleanup? || f.AwaitInitialProbe?
  }

  /** The only timer that can fire is the one `retryTimer` remembers. */
  ghost predicate TimersTracked(s: State) {
    && s.loop.armed.Keys == (if s.retryTimer.Some? then {s.retryTimer.value} else {})
    && (forall id :: id in s.loop.armed ==> id < s.loop.nextTimer)
  }

  /** A generation that no transport carries and no suspended frame may still hand to one. */
  ghost predicate Unclaimed(s: State, generation: nat) {
    && generation <= s.generation
    && (forall t :: t in s.world.origins ==> s.world.origins[t].generation != generation)
    && (forall id :: id in s.loop.frames && Creates(s.loop.frames[id]) ==> s.loop.frames[id].generation != generation)
  }

  /** Every generation is claimed at most once. */
  ghost predicate GenerationsDistinct(s: State) {
    var origins, frames := s.world.origins, s.loop.frames;
    && (forall id :: id in frames ==> id < s.loop.nextFrame && frames[id].generation <= s.generation)
    && (forall t :: t in origins ==> t < s.world.nextTransport && origins[t].generation <= s.generation)
    && (forall t, u :: t in origins && u in origins && origins[t].generation == origins[u].generation ==> t == u)
    && (forall id, other | id in frames && other in frames && Creates(frames[id]) && Creates(frames[other]) ::
          id != other ==> frames[id].generation != frames[other].generation)
    && (forall id, t :: id in frames && Creates(frames[id]) && t in origins ==>
      frames[id].generation != origins[t].generation)
  }

  ghost predicate Distinct(xs: seq<nat>) {
    forall i, j :: 0 <= i < j < |xs| ==> xs[i] != xs[j]
  }

  /** A transport is cleaned up at most once, and then is not current and has no listener left. */
  ghost predicate TransportsTracked(s: State) {
    var w := s.world;
    && Distinct(s.past.handed)
    && (forall t :: t in s.past.handed <==> t in w.teardowns)
    && w.teardowns.Keys <= w.origins.Keys
    && (forall h :: h in w.hooks ==> h.transport in w.origins && h.transport !in w.teardowns)
    && (match s.currentTransport
        case None => s.detachCurrentListeners == []
        case Some(t) =>
          && t in w.origins && t !in w.teardowns
          && s.detachCurrentListeners == HooksOf(t)
          && forall h :: h in HooksOf(t) ==> h in w.hooks)
  }

  ghost predicate StopRespected(s: State) {
    s.isStopped ==> s.status.phase == ShuttingDown && s.currentTransport.None? && s.retryTimer.None?
  }

  /** Reconnects of one generation: at most one gets through. */
  ghost predicate WinnersOrdered(s: State) {
    && (forall i :: 0 <= i < |s.past.winners| ==> s.past.winners[i] < s.generation)
    && (forall i, j :: 0 <= i < j < |s.past.winners| ==> s.past.winners[i] < s.past.winners[j])
  }

  ghost predicate Inv(s: State) {
    TimersTracked(s) && GenerationsDistinct(s) && TransportsTracked(s) && StopRespected(s) && WinnersOrdered(s)
  }

  lemma BumpKeeps(s: State)
    requires Inv(s)
    ensures Inv(s.(generation := s.generation + 1)) && Unclaimed(s.(generation := s.generation + 1), s.generation + 1)
  {
  }

  lemma ClearKeeps(s: State)
    requires Inv(s)
    ensures Inv(ClearRetryTimer(s))
  {
  }

  /** What the invariant does not look at. */
  lemma InvFrame(s: State, t: State)
    requires Inv(s)
    requires t ==
      s.(status := t.status, isStarted := t.isStarted, isStopped := t.isStopped, reconnectAttempt := t.reconnectAttempt,
                     startInFlight := t.startInFlight, past := s.past.(log := t.past.log),
                     loop := s.loop.(settledStarts := t.loop.settledStarts, nextStart := t.loop.nextStart))
    requires t.isStopped ==> s.isStopped && t.status.phase == ShuttingDown
    ensures Inv(t)
  {
  }

  lemma ScheduleKeeps(s: State, attempt: int, delay: real, probe: Option<Probe>, now: real)
    requires Inv(s)
    ensures Inv(ScheduleReconnect(s, attempt, delay, probe, now))
  {
  }

  lemma SuspendKeeps(s: State, f: Frame)
    requires Inv(s) && f.generation <= s.generation
    requires Creates(f) ==> Unclaimed(s, f.generation)
    ensures Inv(Suspend(s, f))
  {
  }

  lemma FinishKeeps(s: State, start: Option<nat>)
    requires Inv(s)
    ensures Inv(Finish(s, start))
  {
    hide Inv, StopRespected;
    assert s.isStopped ==> s.status.phase == ShuttingDown by { StoppedPhase(s); }
    InvFrame(s, Finish(s, start));
  }

  lemma StoppedPhase(s: State)
    requires Inv(s)
    ensures s.isStopped ==> s.status.phase == ShuttingDown
  {
  }

  lemma HooksComplete(h: Hook)
    ensures h in HooksOf(h.transport)
  {
    var hs := HooksOf(h.transport);
    assert h == match h.kind case OnConnected => hs[0] case OnDisconnected => hs[1] case OnError => hs[2];
  }

  lemma HandedStaysDistinct(handed: seq<nat>, t: Option<nat>)
    requires Distinct(handed) && (t.Some? ==> t.value !in handed)
    ensures t.Some? ==> Distinct(handed + [t.value])
  {
  }

  lemma CleanupTransports(s: State, intentional: bool)
    requires TransportsTracked(s)
    ensures TransportsTracked(CleanupTransport(s, intentional))
  {
    hide HooksOf, Distinct;
    var t := CleanupTransport(s, intentional);
    HandedStaysDistinct(s.past.handed, s.currentTransport);
    forall h | h in t.world.hooks ensures h.transport in t.world.origins && h.transport !in t.world.teardowns {
      HooksComplete(h);
    }
  }

  lemma CleanupKeeps(s: State, intentional: bool)
    requires Inv(s)
    ensures Inv(CleanupTransport(s, intentional))
  {
    hide TransportsTracked;
    CleanupTransports(s, intentional);
  }

  lemma OpenKeeps(s: State, generation: nat, initial: bool, attempt: int, start: Option<nat>)
    requires Inv(s) && !s.isStopped && Unclaimed(s, generation)
    ensures Inv(OpenTransport(s, generation, initial, attempt, start))
  {
    hide WinnersOrdered, TimersTracked, TransportsTracked, GenerationsDistinct, Unclaimed;
    NextTransportIsNew(s);
    OpenTransports(s, generation, initial, attempt, start);
    OpenBookkeeping(s, generation, initial, attempt, start);
    OpenGenerations(s, generation, initial, attempt, start);
  }

  lemma OpenTransports(s: State, generation: nat, initial: bool, attempt: int, start: Option<nat>)
    requires TransportsTracked(s) && s.world.nextTransport !in s.world.origins
    ensures TransportsTracked(OpenTransport(s, generation, initial, attempt, start))
  {
  }

  lemma NextTransportIsNew(s: State)
    requires GenerationsDistinct(s)
    ensures s.world.nextTransport !in s.world.origins
  {
  }

  lemma OpenGenerations(s: State, generation: nat, initial: bool, attempt: int, start: Option<nat>)
    requires Inv(s) && Unclaimed(s, generation)
    ensures GenerationsDistinct(OpenTransport(s, generation, initial, attempt, start))
  {
    hide HooksOf, TransportsTracked, WinnersOrdered, TimersTracked;
  }

  lemma OpenBookkeeping(s: State, generation: nat, initial: bool, attempt: int, start: Option<nat>)
    requires Inv(s)
    ensures var t := OpenTransport(s, generation, initial, attempt, start); TimersTracked(t) && WinnersOrdered(t)
  {
    hide HooksOf, TransportsTracked, GenerationsDistinct;
  }

  lemma UnclaimedAfterCleanup(s: State, intentional: bool, generation: nat)
    requires Unclaimed(s, generation)
    ensures Unclaimed(CleanupTransport(s, intentional), generation)
  {
  }

  lemma AfterCleanupKeeps(c: Config, s: State, generation: nat, initial: bool, attempt: int, start: Option<nat>)
    requires Inv(s) && Unclaimed(s, generation)
    ensures Inv(AfterCleanup(c, s, generation, initial, attempt, start))
  {
    hide Inv, Finish, Suspend, OpenTransport;
    if s.isStopped {
      FinishKeeps(s, start);
    } else if initial && c.probeBeforeInitialConnect {
      SuspendKeeps(s, AwaitInitialProbe(generation, attempt, start));
    } else {
      OpenKeeps(s, generation, initial, attempt, start);
    }
  }

  lemma EstablishKeeps(c: Config, s: State, initial: bool, attempt: int, start: Option<nat>)
    requires Inv(s)
    ensures Inv(EstablishConnection(c, s, initial, attempt, start))
  {
    hide Inv, AfterCleanup, CleanupTransport, Suspend;
    var s1 := s.(generation := s.generation + 1);
    var s2 := ClearRetryTimer(s1);
    BumpKeeps(s);
    ClearKeeps(s1);
    if s2.currentTransport.None? {
      AfterCleanupKeeps(c, s2, s2.generation, initial, attempt, start);
    } else {
      CleanupKeeps(s2, false);
      UnclaimedAfterCleanup(s2, false, s2.generation);
      SuspendKeeps(CleanupTransport(s2, false),
        AwaitCleanup(s2.generation, initial, attempt, s2.currentTransport.value, start));
    }
  }

  lemma RejectKeeps(s: State, attempt: int, probe: Probe)
    requires Inv(s) && !s.isStopped
    ensures Inv(RejectAuth(s, attempt, probe))
  {
    hide Inv, ReasonOf, ErrorMessage;
    InvFrame(s, RejectAuth(s, attempt, probe));
  }

  lemma ReportKeeps(s: State, probe: Failure, start: Option<nat>)
    requires Inv(s)
    ensures Inv(ApplyReport(s, probe, start))
  {
    hide Inv, CleanupTransport, Suspend, Finish;
    var s1 := s.(generation := s.generation + 1);
    var s2 := ClearRetryTimer(s1);
    FinishKeeps(s, start);
    BumpKeeps(s);
    ClearKeeps(s1);
    CleanupKeeps(s2, true);
    CleanupKeepsGeneration(s2, true);
    SuspendKeeps(CleanupTransport(s2, true), AwaitReportCleanup(s2.generation, probe, s.currentTransport, start));
  }

  lemma CleanupKeepsGeneration(s: State, intentional: bool)
    ensures CleanupTransport(s, intentional).generation == s.generation
    ensures CleanupTransport(s, intentional).isStopped == s.isStopped
  {
  }

  /** Dropping a resumed frame; if it was to create a transport, its generation is up for claiming. */
  lemma DropKeeps(s: State, id: nat)
    requires Inv(s) && id in s.loop.frames
    ensures var s1 := s.(loop := s.loop.(frames := s.loop.frames - {id})); var f := s.loop.frames[id];
      Inv(s1) && f.generation <= s1.generation && (Creates(f) ==> Unclaimed(s1, f.generation))
  {
  }

  lemma ContinueKeeps(c: Config, s: State, f: Frame, answer: Option<Probe>, now: real, random: real)
    requires Inv(s) && f.generation <= s.generation && (Creates(f) ==> Unclaimed(s, f.generation)) && Ripe(s, f, answer)
    ensures Inv(Continue(c, s, f, answer, now, random))
  {
    hide Inv, Unclaimed, AfterCleanup, Finish, AfterInitialProbe, AfterConnect, AfterReportCleanup, AfterReconnectProbe,
      AfterBeforeReconnect, AfterDisconnectNotice;
    match f {
      case AwaitCleanup(generation, initial, attempt, _, start) =>
        AfterCleanupKeeps(c, s, generation, initial, attempt, start);
      case AwaitInitialProbe(_, _, _) => AfterInitialProbeKeeps(c, s, f, answer.value, now, random);
      case AwaitConnect(_, _) => AfterConnectKeeps(s, f, if answer.Some? then Some(answer.value) else None);
      case AwaitReportCleanup(_, _, _, _) => AfterReportCleanupKeeps(c, s, f, now, random);
      case AwaitReconnectProbe(_, _) => AfterReconnectProbeKeeps(c, s, f, answer.value, now, random);
      case AwaitBeforeReconnect(_, _) => AfterBeforeReconnectKeeps(c, s, f);
      case AwaitDisconnectNotice(_, _, _) => AfterDisconnectNoticeKeeps(c, s, f, now, random);
      case AwaitAuthNotice(_, start) => FinishKeeps(s, start);
    }
  }

  lemma AfterInitialProbeKeeps(c: Config, s: State, f: Frame, probe: Probe, now: real, random: real)
    requires f.AwaitInitialProbe? && Inv(s) && Unclaimed(s, f.generation)
    ensures Inv(AfterInitialProbe(c, s, f, probe, now, random))
  {
    hide Inv, Unclaimed, Finish, Suspend, RejectAuth, ScheduleReconnect, OpenTransport, RequestedOr, BackoffDelay;
    var attempt := AtLeastOne(f.attempt + 1);
    FinishKeeps(s, f.start);
    if f.generation == s.generation && !s.isStopped {
      match probe {
        case AuthRejected(_) =>
          RejectKeeps(s, attempt, probe);
          RejectKeepsGeneration(s, attempt, probe);
          SuspendKeeps(RejectAuth(s, attempt, probe), AwaitAuthNotice(f.generation, f.start));
        case Ready => OpenKeeps(s, f.generation, true, f.attempt, f.start);
        case _ =>
          var delay := RequestedOr(probe, BackoffDelay(c, attempt, random));
          ScheduleKeeps(s, attempt, delay, Some(probe), now);
          FinishKeeps(ScheduleReconnect(s, attempt, delay, Some(probe), now), f.start);
      }
    }
  }

  lemma RejectKeepsGeneration(s: State, attempt: int, probe: Probe)
    ensures RejectAuth(s, attempt, probe).generation == s.generation
  {
  }

  lemma AfterConnectKeeps(s: State, f: Frame, rejection: Option<Failure>)
    requires f.AwaitConnect? && Inv(s)
    ensures Inv(AfterConnect(s, f, rejection))
  {
    hide Inv, ApplyReport, Finish;
    FinishKeeps(s, f.start);
    if rejection.Some? {
      ReportKeeps(s, rejection.value, f.start);
    }
  }

  lemma AfterReportCleanupKeeps(c: Config, s: State, f: Frame, now: real, random: real)
    requires f.AwaitReportCleanup? && Inv(s)
    ensures Inv(AfterReportCleanup(c, s, f, now, random))
  {
    hide Inv, Finish, RejectAuth, ScheduleReconnect, RequestedOr, FastOrBackoff;
    var attempt := AtLeastOne(s.status.attempt + 1);
    var delay := RequestedOr(f.failure, FastOrBackoff(c, attempt, random));
    FinishKeeps(s, f.start);
    if !s.isStopped {
      RejectKeeps(s, s.status.attempt, f.failure);
      FinishKeeps(RejectAuth(s, s.status.attempt, f.failure), f.start);
    }
    ScheduleKeeps(s, attempt, delay, Some(f.failure), now);
    FinishKeeps(ScheduleReconnect(s, attempt, delay, Some(f.failure), now), f.start);
  }

  lemma AfterReconnectProbeKeeps(c: Config, s: State, f: Frame, probe: Probe, now: real, random: real)
    requires f.AwaitReconnectProbe? && Inv(s)
    ensures Inv(AfterReconnectProbe(c, s, f, probe, now, random))
  {
    hide Inv, Suspend, RejectAuth, ScheduleReconnect, RequestedOr, BackoffDelay;
    if f.generation == s.generation && !s.isStopped {
      RejectKeeps(s, f.attempt, probe);
      RejectKeepsGeneration(s, f.attempt, probe);
      SuspendKeeps(RejectAuth(s, f.attempt, probe), AwaitAuthNotice(f.generation, None));
      SuspendKeeps(s, AwaitBeforeReconnect(f.generation, f.attempt));
      ScheduleKeeps(s, f.attempt + 1, RequestedOr(probe, BackoffDelay(c, f.attempt + 1, random)), Some(probe), now);
    }
  }

  lemma EstablishBumps(c: Config, s: State, initial: bool, attempt: int, start: Option<nat>)
    ensures var t := EstablishConnection(c, s, initial, attempt, start);
      t.generation == s.generation + 1 && t.past.winners == s.past.winners
  {
  }

  lemma WinnerKeeps(s: State, generation: nat)
    requires Inv(s) && generation + 1 == s.generation
    requires forall i :: 0 <= i < |s.past.winners| ==> s.past.winners[i] < generation
    ensures Inv(RecordWinner(s, generation))
  {
  }

  lemma AfterBeforeReconnectKeeps(c: Config, s: State, f: Frame)
    requires f.AwaitBeforeReconnect? && Inv(s)
    ensures Inv(AfterBeforeReconnect(c, s, f))
  {
    hide EstablishConnection, RecordWinner, GenerationsDistinct, TransportsTracked, TimersTracked;
    if !s.isStopped && f.generation == s.generation {
      EstablishKeeps(c, s, false, f.attempt, None);
      EstablishBumps(c, s, false, f.attempt, None);
      WinnerKeeps(EstablishConnection(c, s, false, f.attempt, None), f.generation);
    }
  }

  lemma AfterDisconnectNoticeKeeps(c: Config, s: State, f: Frame, now: real, random: real)
    requires f.AwaitDisconnectNotice? && Inv(s)
    ensures Inv(AfterDisconnectNotice(c, s, f, now, random))
  {
    hide Inv, ScheduleReconnect, FastOrBackoff;
    ScheduleKeeps(s, f.attempt, FastOrBackoff(c, f.attempt, random), None, now);
  }

  lemma ResumeKeeps(c: Config, s: State, id: nat, answer: Option<Probe>, now: real, random: real)
    requires Inv(s) && id in s.loop.frames && Ripe(s, s.loop.frames[id], answer)
    ensures Inv(Resume(c, s, id, answer, now, random))
  {
    hide Inv, Unclaimed, Continue;
    DropKeeps(s, id);
    ContinueKeeps(c, s.(loop := s.loop.(frames := s.loop.frames - {id})), s.loop.frames[id], answer, now, random);
  }

  lemma ConnectedKeeps(s: State, t: nat, now: real)
    requires Inv(s) && t in s.world.origins
    ensures Inv(HandleConnected(s, t, now))
  {
    hide Inv;
    ClearKeeps(s);
    if !Superseded(s, t) {
      InvFrame(ClearRetryTimer(s), HandleConnected(s, t, now));
    }
  }

  lemma DisconnectedKeeps(s: State, t: nat, event: DisconnectEvent, now: real)
    requires Inv(s) && t in s.world.origins
    ensures Inv(HandleDisconnected(s, t, event, now))
  {
    hide Inv, Suspend;
    if !Superseded(s, t) {
      var attempt := s.reconnectAttempt + 1;
      var offline := s.status.(phase := Offline, reason := Some(ReasonOf(None, Some(event))), attempt := attempt,
                               nextRetryAt := None, lastDisconnectedAt := Some(now), lastErrorMessage := event.error);
      var u := Publish(s.(reconnectAttempt := attempt), offline);
      InvFrame(s, u);
      SuspendKeeps(u, AwaitDisconnectNotice(s.generation, attempt, event.intentional));
    }
  }

  lemma ErroredKeeps(c: Config, s: State, t: nat, message: string, classified: Option<Failure>, connected: bool,
          now: real, random: real)
    requires Inv(s) && t in s.world.origins
    ensures Inv(HandleError(c, s, t, message, classified, connected, now, random))
  {
    hide Inv, ApplyReport, ScheduleReconnect, FastOrBackoff;
    if !Superseded(s, t) {
      var attempt := AtLeastOne(s.status.attempt + 1);
      if classified.Some? {
        ReportKeeps(s, classified.value, None);
      }
      ScheduleKeeps(s, attempt, FastOrBackoff(c, attempt, random), Some(ServerUnreachable(Some(message))), now);
      InvFrame(s, Publish(s, s.status.(lastErrorMessage := Some(message))));
    }
  }

  lemma FiredKeeps(s: State, id: nat)
    requires Inv(s) && id in s.loop.armed
    ensures Inv(s.(loop := s.loop.(armed := s.loop.armed - {id}), retryTimer := None))
  {
  }

  lemma FireKeeps(s: State, id: nat)
    requires Inv(s) && id in s.loop.armed
    ensures Inv(FireTimer(s, id))
  {
    hide Suspend, Inv;
    var s1 := s.(loop := s.loop.(armed := s.loop.armed - {id}), retryTimer := None);
    FiredKeeps(s, id);
    SuspendKeeps(s1, AwaitReconnectProbe(s1.generation, s.loop.armed[id]));
  }

  lemma StartKeeps(c: Config, s: State)
    requires Inv(s)
    ensures Inv(Start(c, s))
  {
    hide Inv, EstablishConnection;
    if s.startInFlight.None? || s.isStopped {
      StoppedPhase(s);
      var id := s.loop.nextStart;
      var restarting := !(s.isStarted && !s.isStopped);
      var s1 := s.(loop := s.loop.(nextStart := id + 1), isStarted := true, isStopped := false, reconnectAttempt := 0);
      if !restarting && (s.status.phase == Online || s.status.phase == Connecting) {
        InvFrame(s, Start(c, s));
      } else {
        InvFrame(s, s1);
        var initial := restarting || c.probeBeforeInitialConnect;
        EstablishKeeps(c, s1, initial, 0, Some(id));
        var t := EstablishConnection(c, s1, initial, 0, Some(id));
        StoppedPhase(t);
        InvFrame(t, t.(startInFlight := Some(id)));
      }
    }
  }

  lemma StopKeeps(s: State)
    requires Inv(s)
    ensures Inv(Stop(s))
  {
    hide GenerationsDistinct, WinnersOrdered;
    if !s.isStopped {
      var s1 := s.(startInFlight := None);
      var s2 := CleanupTransport(ClearRetryTimer(s1), true);
      InvFrame(s, s1);
      ClearKeeps(s1);
      CleanupKeeps(ClearRetryTimer(s1), true);
      StoppedFrame(s2, Stop(s));
    }
  }

  lemma StoppedFrame(s: State, t: State)
    requires Inv(s) && s.currentTransport.None? && s.retryTimer.None?
    requires t == s.(isStopped := true, status := t.status, past := s.past.(log := t.past.log))
    requires t.status.phase == ShuttingDown
    ensures Inv(t)
  {
  }

  lemma AdvanceKeeps(s: State, t: nat, stage: Teardown)
    requires Inv(s) && t in s.world.teardowns
    ensures Inv(AdvanceTeardown(s, t, stage))
  {
    hide HooksOf;
  }

  lemma StepKeeps(c: Config, s: State, e: Event)
    requires Inv(s) && Enabled(s, e)
    ensures Inv(Apply(c, s, e))
  {
    hide Inv, Start, Stop, ApplyReport, FireTimer, HandleConnected, HandleDisconnected, HandleError, AdvanceTeardown,
      Resume, Ripe;
    match e {
      case CallStart => StartKeeps(c, s);
      case CallStop => StopKeeps(s);
      case CallReport(failure) => ReportKeeps(s, failure, None);
      case TimerFires(id) => FireKeeps(s, id);
      case Connected(t, now) => ConnectedKeeps(s, t, now);
      case Disconnected(t, event, now) => DisconnectedKeeps(s, t, event, now);
      case Errored(t, message, classified, connected, now, random) =>
        ErroredKeeps(c, s, t, message, classified, connected, now, random);
      case DisconnectSettles(t) => AdvanceKeeps(s, t, Destroying);
      case DestroySettles(t) => AdvanceKeeps(s, t, Gone);
      case Resumes(id, answer, now, random) => ResumeKeeps(c, s, id, answer, now, random);
      case StartSettles(id) =>
        StoppedPhase(s);
        InvFrame(s, SettleStart(s, id));
    }
  }

  lemma {:induction false} RunKeeps(c: Config, s: State, es: seq<Event>)
    requires Inv(s) && Legal(c, s, es)
    ensures Inv(Run(c, s, es))
    decreases |es|
  {
    if es != [] {
      StepKeeps(c, s, es[0]);
      RunKeeps(c, Apply(c, s, es[0]), es[1..]);
    }
  }

  /** Every state of every run. */
  lemma EveryRun(c: Config, es: seq<Event>)
    requires Legal(c, INITIAL, es)
    ensures Inv(Run(c, INITIAL, es))
  {
    RunKeeps(c, INITIAL, es);
  }

  /** At most one transport ever created can pass the generation guards. */
  lemma OneEffectiveTransport(s: State, t: nat, u: nat)
    requires Inv(s) && t in s.world.origins && u in s.world.origins
    requires !Superseded(s, t) && !Superseded(s, u)
    ensures t == u
  {
  }

  /** No event of a superseded transport changes anything, and its rejected connect only settles a promise. */
  lemma SupersededIsIgnored(c: Config, s: State, t: nat, e: Event)
    requires Enabled(s, e) && t in s.world.origins && Superseded(s, t)
    requires (e.Connected? || e.Disconnected? || e.Errored?) && e.t == t
    ensures Apply(c, s, e) == s
  {
  }

  lemma StaleFramesAreIgnored(c: Config, s: State, id: nat, answer: Option<Probe>, now: real, random: real)
    requires id in s.loop.frames && Ripe(s, s.loop.frames[id], answer)
    requires s.isStopped || (s.loop.frames[id].generation != s.generation && !s.loop.frames[id].AwaitCleanup?)
    ensures var t := Resume(c, s, id, answer, now, random);
      t == s.(loop := s.loop.(frames := s.loop.frames - {id}, settledStarts := t.loop.settledStarts))
  {
  }

  /** Of all reconnects begun in one generation, at most one reaches establishConnection, over any run. */
  lemma OneWinnerPerGeneration(c: Config, es: seq<Event>, i: nat, j: nat)
    requires Legal(c, INITIAL, es)
    requires i < j < |Run(c, INITIAL, es).past.winners|
    ensures var winners := Run(c, INITIAL, es).past.winners; winners[i] < winners[j] < Run(c, INITIAL, es).generation
  {
    EveryRun(c, es);
  }

  /** From `stop` to the next `start`, nothing is published, adopted or armed, whatever resumes. */
  lemma {:induction false} StopIsFinal(c: Config, s: State, es: seq<Event>)
    requires Inv(s) && s.isStopped && Legal(c, s, es) && CallStart !in es
    ensures var t := Run(c, s, es);
      && t.isStopped && t.past.log == s.past.log && t.status == s.status && t.status.phase == ShuttingDown
      && t.currentTransport == None && t.loop.armed == map[]
    decreases |es|
  {
    if es != [] {
      assert es[0] != CallStart;
      StepKeeps(c, s, es[0]);
      StoppedStep(c, s, es[0]);
      StopIsFinal(c, Apply(c, s, es[0]), es[1..]);
    }
  }

  lemma StoppedStep(c: Config, s: State, e: Event)
    requires Inv(s) && s.isStopped && Enabled(s, e) && e != CallStart
    ensures var t := Apply(c, s, e); t.isStopped && t.past.log == s.past.log && t.status == s.status
  {
    hide EstablishConnection, OpenTransport, ScheduleReconnect, CleanupTransport, RejectAuth, RequestedOr,
      FastOrBackoff, BackoffDelay, GenerationsDistinct, TransportsTracked, WinnersOrdered, Ripe;
  }
}
