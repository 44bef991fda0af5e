/** What the connection supervisor publishes, in every run (createManagedConnectionSupervisor.ts). */
module ConnectionStatuses {
  import opened Options
  import opened ConnectionTypes
  import opened ConnectionModel

  /** What a status means: its reason and times belong to its phase. Any status may carry a later transport error. */
  predicate Truthful(status: Status) {
    match status.phase
    case Idle => status.nextRetryAt == None && status.lastConnectedAt == None && status.reason == None
    case Connecting => status.nextRetryAt == None
    case Online => status.nextRetryAt == None && status.lastConnectedAt.Some?
    case Offline =>
      if status.nextRetryAt.Some? then status.reason in {Some(ServerDown), Some(ProbeFailed), Some(TransportDisconnect)}
      else status.lastDisconnectedAt.Some? && status.reason in {Some(TransportDisconnect), Some(ManualDisconnect)}
    case AuthFailed => status.nextRetryAt == None && status.reason == Some(AuthInvalid)
    case ShuttingDown => status.nextRetryAt == None && status.reason == Some(IntentionalShutdown)
  }

  ghost predicate AllTruthful(s: State) {
    Truthful(s.status) && forall i :: 0 <= i < |s.past.log| ==> Truthful(s.past.log[i])
  }

  lemma PublishTruthful(s: State, next: Status)
    requires AllTruthful(s) && Truthful(next)
    ensures AllTruthful(Publish(s, next))
  {}

  lemma TruthfulFrame(s: State, t: State)
    requires AllTruthful(s) && t.status == s.status && t.past.log == s.past.log
    ensures AllTruthful(t)
  {}

  lemma CleanupIsSilent(s: State, intentional: bool)
    ensures var t := CleanupTransport(s, intentional); t.status == s.status && t.past.log == s.past.log
  {}

  lemma ScheduleTruthful(s: State, attempt: int, delay: real, probe: Option<Probe>, now: real)
    requires AllTruthful(s) && (probe.Some? ==> probe.value.ServerUnreachable? || probe.value.RetryLater?)
    ensures AllTruthful(ScheduleReconnect(s, attempt, delay, probe, now))
  {
    hide AllTruthful;
    var t := ScheduleReconnect(s, attempt, delay, probe, now);
    if !s.isStopped {
      PublishTruthful(s, t.status);
      TruthfulFrame(Publish(s, t.status), t);
    }
  }

  lemma RejectTruthful(s: State, attempt: int, probe: Probe)
    requires AllTruthful(s) && probe.AuthRejected?
    ensures AllTruthful(RejectAuth(s, attempt, probe))
  {
    hide AllTruthful;
    PublishTruthful(s, RejectAuth(s, attempt, probe).status);
  }

  lemma OpenTruthful(s: State, generation: nat, initial: bool, attempt: int, start: Option<nat>)
    requires AllTruthful(s)
    ensures AllTruthful(OpenTransport(s, generation, initial, attempt, start))
  {
    hide AllTruthful, HooksOf;
    var t := OpenTransport(s, generation, initial, attempt, start);
    PublishTruthful(s, t.status);
    TruthfulFrame(Publish(s, t.status), t);
  }

  lemma EstablishTruthful(c: Config, s: State, initial: bool, attempt: int, start: Option<nat>)
    requires AllTruthful(s)
    ensures AllTruthful(EstablishConnection(c, s, initial, attempt, start))
  {
    hide AllTruthful, AfterCleanup, CleanupTransport;
    var s1 := ClearRetryTimer(s.(generation := s.generation + 1));
    TruthfulFrame(s, s1);
    AfterCleanupTruthful(c, s1, s1.generation, initial, attempt, start);
    CleanupIsSilent(s1, false);
    if s1.currentTransport.Some? {
      TruthfulFrame(s, EstablishConnection(c, s, initial, attempt, start));
    }
  }

  lemma AfterCleanupTruthful(c: Config, s: State, generation: nat, initial: bool, attempt: int, start: Option<nat>)
    requires AllTruthful(s)
    ensures AllTruthful(AfterCleanup(c, s, generation, initial, attempt, start))
  {
    hide AllTruthful, OpenTransport;
    OpenTruthful(s, generation, initial, attempt, start);
    if s.isStopped || (initial && c.probeBeforeInitialConnect) {
      TruthfulFrame(s, AfterCleanup(c, s, generation, initial, attempt, start));
    }
  }

  lemma ReportTruthful(s: State, probe: Failure, start: Option<nat>)
    requires AllTruthful(s)
    ensures AllTruthful(ApplyReport(s, probe, start))
  {
    hide AllTruthful, CleanupTransport;
    CleanupIsSilent(ClearRetryTimer(s.(generation := s.generation + 1)), true);
    TruthfulFrame(s, ApplyReport(s, probe, start));
  }

  lemma ContinueTruthful(c: Config, s: State, f: Frame, answer: Option<Probe>, now: real, random: real)
    requires AllTruthful(s) && Ripe(s, f, answer)
    ensures AllTruthful(Continue(c, s, f, answer, now, random))
  {
    hide AllTruthful, AfterCleanup, AfterInitialProbe, AfterConnect, AfterReportCleanup, AfterReconnectProbe,
      AfterBeforeReconnect, AfterDisconnectNotice;
    match f {
      case AwaitCleanup(generation, initial, attempt, _, start) =>
        AfterCleanupTruthful(c, s, generation, initial, attempt, start);
      case AwaitInitialProbe(_, _, _) => AfterInitialProbeTruthful(c, s, f, answer.value, now, random);
      case AwaitConnect(_, _) => AfterConnectTruthful(s, f, if answer.Some? then Some(answer.value) else None);
      case AwaitReportCleanup(_, _, _, _) => AfterReportCleanupTruthful(c, s, f, now, random);
      case AwaitReconnectProbe(_, _) => AfterReconnectProbeTruthful(c, s, f, answer.value, now, random);
      case AwaitBeforeReconnect(_, _) => AfterBeforeReconnectTruthful(c, s, f);
      case AwaitDisconnectNotice(_, _, _) => AfterDisconnectNoticeTruthful(c, s, f, now, random);
      case AwaitAuthNotice(_, start) => TruthfulFrame(s, Finish(s, start));
    }
  }

  lemma AfterInitialProbeTruthful(c: Config, s: State, f: Frame, probe: Probe, now: real, random: real)
    requires f.AwaitInitialProbe? && AllTruthful(s)
    ensures AllTruthful(AfterInitialProbe(c, s, f, probe, now, random))
  {
    hide AllTruthful, OpenTransport, RejectAuth, ScheduleReconnect, RequestedOr, BackoffDelay;
    var attempt := AtLeastOne(f.attempt + 1);
    var t := AfterInitialProbe(c, s, f, probe, now, random);
    if f.generation != s.generation || s.isStopped {
      TruthfulFrame(s, t);
    } else if probe.AuthRejected? {
      RejectTruthful(s, attempt, probe);
      TruthfulFrame(RejectAuth(s, attempt, probe), t);
    } else if probe.Ready? {
      OpenTruthful(s, f.generation, true, f.attempt, f.start);
    } else {
      var delay := RequestedOr(probe, BackoffDelay(c, attempt, random));
      ScheduleTruthful(s, attempt, delay, Some(probe), now);
      TruthfulFrame(ScheduleReconnect(s, attempt, delay, Some(probe), now), t);
    }
  }

  lemma AfterConnectTruthful(s: State, f: Frame, rejection: Option<Failure>)
    requires f.AwaitConnect? && AllTruthful(s)
    ensures AllTruthful(AfterConnect(s, f, rejection))
  {
    hide AllTruthful, ApplyReport;
    TruthfulFrame(s, Finish(s, f.start));
    if rejection.Some? {
      ReportTruthful(s, rejection.value, f.start);
    }
  }

  lemma AfterReportCleanupTruthful(c: Config, s: State, f: Frame, now: real, random: real)
    requires f.AwaitReportCleanup? && AllTruthful(s)
    ensures AllTruthful(AfterReportCleanup(c, s, f, now, random))
  {
    hide AllTruthful, RejectAuth, ScheduleReconnect, RequestedOr, FastOrBackoff;
    var attempt := AtLeastOne(s.status.attempt + 1);
    var delay := RequestedOr(f.failure, FastOrBackoff(c, attempt, random));
    var t := AfterReportCleanup(c, s, f, now, random);
    if s.isStopped || f.generation != s.generation {
      TruthfulFrame(s, t);
    } else if f.failure.AuthRejected? {
      RejectTruthful(s, s.status.attempt, f.failure);
      TruthfulFrame(RejectAuth(s, s.status.attempt, f.failure), t);
    } else {
      ScheduleTruthful(s, attempt, delay, Some(f.failure), now);
      TruthfulFrame(ScheduleReconnect(s, attempt, delay, Some(f.failure), now), t);
    }
  }

  lemma AfterReconnectProbeTruthful(c: Config, s: State, f: Frame, probe: Probe, now: real, random: real)
    requires f.AwaitReconnectProbe? && AllTruthful(s)
    ensures AllTruthful(AfterReconnectProbe(c, s, f, probe, now, random))
  {
    hide AllTruthful, RejectAuth, ScheduleReconnect, RequestedOr, BackoffDelay;
    var t := AfterReconnectProbe(c, s, f, probe, now, random);
    if s.isStopped || f.generation != s.generation || probe.Ready? {
      TruthfulFrame(s, t);
    } else if probe.AuthRejected? {
      RejectTruthful(s, f.attempt, probe);
      TruthfulFrame(RejectAuth(s, f.attempt, probe), t);
    } else {
      ScheduleTruthful(s, f.attempt + 1, RequestedOr(probe, BackoffDelay(c, f.attempt + 1, random)), Some(probe), now);
    }
  }

  lemma AfterBeforeReconnectTruthful(c: Config, s: State, f: Frame)
    requires f.AwaitBeforeReconnect? && AllTruthful(s)
    ensures AllTruthful(AfterBeforeReconnect(c, s, f))
  {
    hide AllTruthful, EstablishConnection;
    EstablishTruthful(c, s, false, f.attempt, None);
    if !s.isStopped && f.generation == s.generation {
      TruthfulFrame(EstablishConnection(c, s, false, f.attempt, None), AfterBeforeReconnect(c, s, f));
    }
  }

  lemma AfterDisconnectNoticeTruthful(c: Config, s: State, f: Frame, now: real, random: real)
    requires f.AwaitDisconnectNotice? && AllTruthful(s)
    ensures AllTruthful(AfterDisconnectNotice(c, s, f, now, random))
  {
    hide AllTruthful, ScheduleReconnect, FastOrBackoff;
    ScheduleTruthful(s, f.attempt, FastOrBackoff(c, f.attempt, random), None, now);
  }

  lemma StatusTruthful(s: State)
    requires AllTruthful(s)
    ensures Truthful(s.status)
  {}

  lemma EventTruthful(c: Config, s: State, e: Event)
    requires AllTruthful(s) && Enabled(s, e) && (e.Connected? || e.Disconnected? || e.Errored?)
    ensures AllTruthful(Apply(c, s, e))
  {
    hide AllTruthful, ScheduleReconnect, ApplyReport, FastOrBackoff, Ripe;
    StatusTruthful(s);
    var t := Apply(c, s, e);
    match e {
      case Connected(id, now) =>
        var u := ClearRetryTimer(s).(reconnectAttempt := s.world.origins[id].attempt);
        TruthfulFrame(s, u);
        if !Superseded(s, id) {
          PublishTruthful(u, t.status);
        }
      case Disconnected(id, event, now) =>
        if !Superseded(s, id) {
          PublishTruthful(s, t.status);
          TruthfulFrame(Publish(s, t.status), t);
        }
      case Errored(id, message, classified, connected, now, random) =>
        var attempt := AtLeastOne(s.status.attempt + 1);
        ScheduleTruthful(s, attempt, FastOrBackoff(c, attempt, random), Some(ServerUnreachable(Some(message))), now);
        if classified.Some? {
          ReportTruthful(s, classified.value, None);
        }
        PublishTruthful(s, s.status.(lastErrorMessage := Some(message)));
    }
  }

  lemma StartTruthful(c: Config, s: State)
    requires AllTruthful(s)
    ensures AllTruthful(Start(c, s))
  {
    hide AllTruthful, EstablishConnection;
    if s.startInFlight.None? || s.isStopped {
      var id := s.loop.nextStart;
      var s1 := s.(loop := s.loop.(nextStart := id + 1));
      if s.isStarted && !s.isStopped {
        if s.status.phase in {Online, Connecting} {
          TruthfulFrame(s, Start(c, s));
        } else {
          TruthfulFrame(s, s1.(reconnectAttempt := 0));
          EstablishTruthful(c, s1.(reconnectAttempt := 0), c.probeBeforeInitialConnect, 0, Some(id));
          TruthfulFrame(EstablishConnection(c, s1.(reconnectAttempt := 0), c.probeBeforeInitialConnect, 0, Some(id)),
            Start(c, s));
        }
      } else {
        var s2 := s1.(isStarted := true, isStopped := false, reconnectAttempt := 0);
        TruthfulFrame(s, s2);
        EstablishTruthful(c, s2, true, 0, Some(id));
        TruthfulFrame(EstablishConnection(c, s2, true, 0, Some(id)), Start(c, s));
      }
    }
  }

  lemma StopTruthful(s: State)
    requires AllTruthful(s)
    ensures AllTruthful(Stop(s))
  {
    hide AllTruthful, CleanupTransport;
    if !s.isStopped {
      var s1 := ClearRetryTimer(s.(isStopped := true, startInFlight := None));
      var down := s1.status.(phase := ShuttingDown, reason := Some(IntentionalShutdown), nextRetryAt := None);
      TruthfulFrame(s, s1);
      PublishTruthful(s1, down);
      CleanupIsSilent(Publish(s1, down), true);
      TruthfulFrame(Publish(s1, down), Stop(s));
    }
  }

  lemma StepTruthful(c: Config, s: State, e: Event)
    requires AllTruthful(s) && Enabled(s, e)
    ensures AllTruthful(Apply(c, s, e))
  {
    hide AllTruthful, Start, Stop, Continue, ApplyReport, HandleConnected, HandleDisconnected, HandleError, Superseded;
    match e {
      case CallStart => StartTruthful(c, s);
      case CallStop => StopTruthful(s);
      case CallReport(failure) => ReportTruthful(s, failure, None);
      case Connected(_, _) => EventTruthful(c, s, e);
      case Disconnected(_, _, _) => EventTruthful(c, s, e);
      case Errored(_, _, _, _, _, _) => EventTruthful(c, s, e);
      case Resumes(id, answer, now, random) =>
        var s1 := s.(loop := s.loop.(frames := s.loop.frames - {id}));
        TruthfulFrame(s, s1);
        ContinueTruthful(c, s1, s.loop.frames[id], answer, now, random);
      case _ => TruthfulFrame(s, Apply(c, s, e));
    }
  }

  lemma {:induction false} RunTruthful(c: Config, s: State, es: seq<Event>)
    requires AllTruthful(s) && Legal(c, s, es)
    ensures AllTruthful(Run(c, s, es))
    decreases |es|
  {
    hide Apply, AllTruthful;
    if es != [] {
      StepTruthful(c, s, es[0]);
      RunTruthful(c, Apply(c, s, es[0]), es[1..]);
    }
  }

  /** In every run, every status ever published tells the truth; so a retry time is only ever shown while offline. */
  lemma StatusesTellTheTruth(c: Config, es: seq<Event>)
    requires Legal(c, INITIAL, es)
    ensures var s := Run(c, INITIAL, es);
      && Truthful(s.status) && (s.status.nextRetryAt.Some? ==> s.status.phase == Offline)
      && forall i :: 0 <= i < |s.past.log| ==> Truthful(s.past.log[i])
  {
    RunTruthful(c, INITIAL, es);
  }
}
