/** What the endpoint supervisor publishes, in every run (createManagedEndpointSupervisor.ts). */
module EndpointStatuses {
  import opened Options
  import opened ConnectionTypes
  import opened EndpointModel
  import opened EndpointRuns

  /**
   * What a status means: its reason, times and message belong to its phase, the probe it shows led there, and a
   * retry is never due before the failure.
   */
  predicate Truthful(status: EndpointStatus) {
    var conn := status.conn;
    match conn.phase
    case Idle => conn == INITIAL_STATUS && status.lastProbe == None
    case Connecting => conn.nextRetryAt == None && conn.lastErrorMessage == None
    case Online =>
      && conn.nextRetryAt == None && conn.lastErrorMessage == None && conn.lastConnectedAt.Some?
      && status.lastProbe == Some(Ready)
    case Offline =>
      && conn.nextRetryAt.Some? && conn.lastDisconnectedAt.Some?
      && conn.nextRetryAt.value >= conn.lastDisconnectedAt.value
      && status.lastProbe.Some? && !status.lastProbe.value.Ready? && !status.lastProbe.value.AuthRejected?
      && conn.reason == Some(if status.lastProbe.value.RetryLater? then ProbeFailed else ServerDown)
      && (status.lastProbe.value.message.Some? ==> conn.lastErrorMessage == status.lastProbe.value.message)
    case AuthFailed =>
      && conn.nextRetryAt == None && conn.reason == Some(AuthInvalid)
      && status.lastProbe.Some? && status.lastProbe.value.AuthRejected?
      && (status.lastProbe.value.message.Some? ==> conn.lastErrorMessage == status.lastProbe.value.message)
    case ShuttingDown => conn.nextRetryAt == None && conn.reason == Some(IntentionalShutdown)
  }

  ghost predicate AllTruthful(s: State) {
    Truthful(s.status) && forall i :: 0 <= i < |s.past.log| ==> Truthful(s.past.log[i])
  }

  lemma PublishTruthful(s: State, next: EndpointStatus)
    requires AllTruthful(s) && Truthful(next)
    ensures AllTruthful(Publish(s, next))
  {}

  /** What truthfulness does not look at. */
  lemma TruthfulFrame(s: State, t: State)
    requires AllTruthful(s) && t.status == s.status && t.past.log == s.past.log
    ensures AllTruthful(t)
  {}

  lemma RunProbeTruthful(s: State, attempt: int, initial: bool, start: Option<nat>)
    requires AllTruthful(s)
    ensures AllTruthful(RunProbe(s, attempt, initial, start))
  {
    hide Notify, AllTruthful;
    var t := RunProbe(s, attempt, initial, start);
    TruthfulFrame(s, t.(status := s.status, past := s.past));
    PublishTruthful(s, if s.isStopped then s.status else t.status) by {
      assert Truthful(s.status) by { StatusTruthful(s); }
    }
    TruthfulFrame(if s.isStopped then s else Publish(s, t.status), t);
  }

  lemma StatusTruthful(s: State)
    requires AllTruthful(s)
    ensures Truthful(s.status)
  {}

  lemma ScheduleTruthful(s: State, attempt: int, delay: real, probe: Probe, now: real)
    requires AllTruthful(s) && (probe.ServerUnreachable? || probe.RetryLater?) && delay >= 0.0
    ensures AllTruthful(ScheduleProbe(s, attempt, delay, probe, now))
  {
    hide Notify, AllTruthful;
    var t := ScheduleProbe(s, attempt, delay, probe, now);
    if !s.isStopped {
      PublishTruthful(s, t.status);
      TruthfulFrame(Publish(s, t.status), t);
    }
  }

  lemma RejectTruthful(s: State, attempt: int, probe: Probe)
    requires AllTruthful(s) && probe.AuthRejected?
    ensures AllTruthful(RejectAuth(s, attempt, probe))
  {
    hide Notify, AllTruthful;
    PublishTruthful(s, RejectAuth(s, attempt, probe).status);
  }

  lemma HeedTruthful(c: Config, s: State, f: Flight, probe: Probe, now: real, random: real)
    requires AllTruthful(s)
    ensures AllTruthful(HeedProbe(c, s, f, probe, now, random))
  {
    hide Notify, RunProbe, ScheduleProbe, RejectAuth, RequestedOr, FastOrBackoff, AllTruthful;
    match probe {
      case AuthRejected(_) => RejectTruthful(s, f.attempt, probe);
      case Ready =>
        var conn := s.status.conn;
        var reason := if f.initial then Some(InitialConnect) else conn.reason;
        var online := Status(Online, reason, f.attempt, None, Some(now),
                             conn.lastDisconnectedAt, None);
        var s0 := s.(past := s.past.(provenAt := f.begun));
        var s1 := Publish(s0, EndpointStatus(online, Some(Ready)));
        TruthfulFrame(s, s0);
        PublishTruthful(s0, EndpointStatus(online, Some(Ready)));
        TruthfulFrame(s1, s1.(pendingInvalidate := false));
        RunProbeTruthful(s1.(pendingInvalidate := false), f.attempt, false, None);
      case _ =>
        DelaysNeverSpin(c, probe, f.attempt + 1, random);
        ScheduleTruthful(s, f.attempt + 1, RequestedOr(probe, FastOrBackoff(c, f.attempt + 1, random)), probe, now);
    }
  }

  lemma StartTruthful(s: State)
    requires AllTruthful(s)
    ensures AllTruthful(Start(s))
  {
    hide RunProbe, AllTruthful;
    var s1 := s.(loop := s.loop.(nextStart := s.loop.nextStart + 1), pendingInvalidate := false,
                 past := s.past.(mark := |s.past.log|));
    var s2 := s1.(isStarted := true, isStopped := false);
    var relaunched, launched := RunProbe(s1, 0, false, Some(s.loop.nextStart)),
      RunProbe(s2, 0, true, Some(s.loop.nextStart));
    TruthfulFrame(s, s1);
    TruthfulFrame(s, s2);
    RunProbeTruthful(s1, 0, false, Some(s.loop.nextStart));
    RunProbeTruthful(s2, 0, true, Some(s.loop.nextStart));
    if s.isStopped || !s.isStarted {
      if s.startInFlight.None? || s.isStopped {
        TruthfulFrame(launched, Start(s));
      }
    } else if s.startInFlight.None? {
      TruthfulFrame(if s.status.conn.phase in {Online, Connecting} then s else relaunched, Start(s));
    }
  }

  lemma DoubtTruthful(c: Config, s: State, e: Event)
    requires AllTruthful(s) && CastsDoubt(e)
    ensures AllTruthful(Apply(c, s, e))
  {
    hide RunProbe, ScheduleProbe, RejectAuth, RequestedOr, FastOrBackoff, AllTruthful, Truthful;
    var t := Report(Tick(s));
    TruthfulFrame(s, Tick(s));
    TruthfulFrame(s, t);
    match e {
      case CallInvalidate =>
        TruthfulFrame(s, t.(pendingInvalidate := true));
        TruthfulFrame(s, t.(pendingInvalidate := false));
        RunProbeTruthful(t.(pendingInvalidate := false), t.status.conn.attempt, false, None);
      case CallReportFailure(message, now, random) =>
        var u := t.(generation := t.generation + 1);
        TruthfulFrame(s, u);
        DelaysNeverSpin(c, ServerUnreachable(message), NextAttempt(t), random);
        ScheduleTruthful(u, NextAttempt(t), FastOrBackoff(c, NextAttempt(t), random), ServerUnreachable(message), now);
      case CallReportProbeResult(probe, now, random) =>
        var u := ClearRetryTimer(t.(generation := t.generation + 1)).(pendingInvalidate := false);
        TruthfulFrame(s, u);
        if probe.AuthRejected? {
          RejectTruthful(u, u.status.conn.attempt, probe);
        } else {
          DelaysNeverSpin(c, probe, NextAttempt(u), random);
          ScheduleTruthful(u, NextAttempt(u), RequestedOr(probe, FastOrBackoff(c, NextAttempt(u), random)), probe, now);
        }
    }
  }

  lemma StopTruthful(s: State)
    requires AllTruthful(s)
    ensures AllTruthful(Stop(s))
  {
    hide Notify, AllTruthful;
    if !s.isStopped {
      TruthfulFrame(s, Stop(s).(status := s.status, past := s.past));
      PublishTruthful(s, Stop(s).status);
      TruthfulFrame(Publish(s, Stop(s).status), Stop(s));
    }
  }

  lemma StepTruthful(c: Config, s: State, e: Event)
    requires AllTruthful(s) && Enabled(s, e)
    ensures AllTruthful(Apply(c, s, e))
  {
    hide Notify, RunProbe, HeedProbe, Invalidate, ReportFailure, ReportProbeResult, Start, Stop, AllTruthful;
    var t := Tick(s);
    TruthfulFrame(s, t);
    match e {
      case CallInvalidate => DoubtTruthful(c, s, e);
      case CallReportFailure(_, _, _) => DoubtTruthful(c, s, e);
      case CallReportProbeResult(_, _, _) => DoubtTruthful(c, s, e);
      case CallStart => StartTruthful(t);
      case CallStop => StopTruthful(t);
      case TimerFires(id) =>
        var u := t.(loop := t.loop.(armed := t.loop.armed - {id}), retryTimer := None);
        TruthfulFrame(s, u);
        RunProbeTruthful(u, t.loop.armed[id], false, None);
      case ProbeAnswers(id, probe, now, random) =>
        var u := t.(loop := t.loop.(flights := t.loop.flights - {id}));
        TruthfulFrame(s, u);
        HeedTruthful(c, u, t.loop.flights[id], probe, now, random);
        var stale := t.isStopped || t.loop.flights[id].generation != t.generation;
        TruthfulFrame(if stale then u else HeedProbe(c, u, t.loop.flights[id], probe, now, random), Apply(c, s, e));
      case _ => TruthfulFrame(s, Apply(c, s, e));
    }
  }

  lemma {:induction false} RunTruthful(c: Config, s: State, es: seq<Event>)
    requires AllTruthful(s) && Legal(c, s, es)
    ensures AllTruthful(Run(c, s, es))
    decreases |es|
  {
    hide Apply, AllTruthful;
    if es != [] {
      StepTruthful(c, s, es[0]);
      RunTruthful(c, Apply(c, s, es[0]), es[1..]);
    }
  }

  /** In every run, every status ever published tells the truth. */
  lemma StatusesTellTheTruth(c: Config, es: seq<Event>)
    requires Legal(c, INITIAL, es)
    ensures var s := Run(c, INITIAL, es);
      Truthful(s.status) && forall i :: 0 <= i < |s.past.log| ==> Truthful(s.past.log[i])
  {
    RunTruthful(c, INITIAL, es);
  }
}
