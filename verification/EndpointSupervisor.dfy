/**
 * The endpoint supervisor as the object it is: a closure over mutable cells, with one method per
 * inner function and per continuation. Each method does exactly what EndpointModel says.
 */
module EndpointSupervisor {
  import opened Options
  import opened ConnectionTypes
  import M = EndpointModel
  import Proofs = EndpointProofs

  lemma NotifyNobody(a: M.Audience, next: M.EndpointStatus)
    ensures M.NotifySome(a, {}, next) == a
  {
    var b := M.NotifySome(a, {}, next);
    assert b.listeners == a.listeners && b.inbox == a.inbox;
    assert b.waiters == a.waiters && b.waiterTimers == a.waiterTimers;
  }

  lemma NotifyKeys(a: M.Audience, called: set<M.Listener>, next: M.EndpointStatus)
    ensures var b := M.NotifySome(a, called, next);
      b.listeners <= a.listeners && b.inbox.Keys == a.inbox.Keys && b.waiters.Keys == a.waiters.Keys
  {
  }

  /** Calling the listeners one by one, in any order, is calling them all. */
  lemma NotifyOneMore(a: M.Audience, called: set<M.Listener>, l: M.Listener, next: M.EndpointStatus)
    requires l !in called
    requires if l.Subscriber? then l.id in a.inbox else l.id in a.waiters
    ensures var b := M.NotifySome(a, called, next);
      && (if l.Subscriber? then l.id in b.inbox else l.id in b.waiters)
      && M.NotifySome(a, called + {l}, next) == M.NotifyOne(b, l, next)
  {
    var b := M.NotifySome(a, called, next);
    var d, e := M.NotifySome(a, called + {l}, next), M.NotifyOne(b, l, next);
    assert d.listeners == e.listeners;
    assert d.inbox == e.inbox;
    assert d.waiters == e.waiters;
    assert d.waiterTimers == e.waiterTimers;
  }

  class Supervisor {
    const config: Config

    var status: M.EndpointStatus
    var retryTimer: Option<nat>
    var isStarted: bool
    var isStopped: bool
    var generation: nat
    var pendingInvalidate: bool
    var startInFlight: Option<nat>

    /** The listener set, with what its members have come to. */
    var audience: M.Audience

    /** What the event loop holds on the supervisor's behalf. */
    var loop: M.Loop

    ghost var past: M.Past

    ghost function Snapshot(): M.State
      reads this
    {
      M.State(status, retryTimer, isStarted, isStopped, generation, pendingInvalidate, startInFlight, audience, loop,
        past)
    }

    ghost predicate Valid()
      reads this
    {
      Proofs.Inv(Snapshot())
    }

    /** Every listener belongs to a subscriber or a promise that exists. */
    ghost predicate Wired()
      reads this
    {
      forall l :: l in audience.listeners ==> if l.Subscriber? then l.id in audience.inbox else l.id in audience.waiters
    }

    lemma WiredWhenValid()
      requires Valid()
      ensures Wired()
    {
    }

    constructor (config: Config)
      ensures Wired() && Snapshot() == M.INITIAL && this.config == config
    {
      this.config := config;
      status := M.EndpointStatus(INITIAL_STATUS, None);
      retryTimer, startInFlight := None, None;
      isStarted, isStopped, pendingInvalidate, generation := false, false, false, 0;
      audience := M.Audience({}, {}, map[], map[], {});
      loop := M.Loop(map[], 0, map[], 0, {}, 0, 0);
      past := M.Past([], 0, 0, 0);
    }

    /** Delivers a status to one listener. */
    method Call(l: M.Listener, next: M.EndpointStatus)
      requires if l.Subscriber? then l.id in audience.inbox else l.id in audience.waiters
      modifies this`audience
      ensures audience == M.NotifyOne(old(audience), l, next)
    {
      var a := audience;
      match l {
        case Subscriber(id) =>
          audience := a.(inbox := a.inbox[id := a.inbox[id] + [next]]);
        case Waiter(id) =>
          if next.conn.phase == Online {
            audience := a.(listeners := a.listeners - {l}, waiterTimers := a.waiterTimers - {id},
                           waiters := a.waiters[id := M.Resolved]);
          } else if next.conn.phase == AuthFailed {
            audience := a.(listeners := a.listeners - {l}, waiterTimers := a.waiterTimers - {id},
                           waiters := a.waiters[id := M.AuthRejection]);
          }
      }
    }

    method Publish(next: M.EndpointStatus)
      requires Wired()
      modifies this
      ensures Wired() && Snapshot() == M.Publish(old(Snapshot()), next)
    {
      hide M.NotifySome, M.NotifyOne;
      status := next;
      past := past.(log := past.log + [next]);
      // A listener only ever removes itself, so the members present now are the ones that get called.
      ghost var a := audience;
      var waiting := audience.listeners;
      NotifyNobody(a, next);
      assert a.listeners - waiting == {};
      while waiting != {}
        invariant waiting <= a.listeners
        invariant audience == M.NotifySome(a, a.listeners - waiting, next)
        modifies this`audience
        decreases waiting
      {
        var l :| l in waiting;
        NotifyOneMore(a, a.listeners - waiting, l, next);
        assert a.listeners - waiting + {l} == a.listeners - (waiting - {l});
        waiting := waiting - {l};
        Call(l, next);
      }
      NotifyKeys(a, a.listeners, next);
      assert a.listeners - waiting == a.listeners;
    }

    method ClearRetryTimer()
      modifies this`retryTimer, this`loop
      ensures Snapshot() == M.ClearRetryTimer(old(Snapshot()))
    {
      if retryTimer.None? {
        return;
      }
      loop := loop.(armed := loop.armed - {retryTimer.value});
      retryTimer := None;
    }

    method ScheduleProbe(attempt: int, delay: real, probe: Probe, now: real)
      requires Wired()
      modifies this
      ensures Wired() && Snapshot() == M.ScheduleProbe(old(Snapshot()), attempt, delay, probe, now)
    {
      hide M.Notify, ReasonOf, ErrorMessage;
      if isStopped {
        return;
      }
      ClearRetryTimer();
      var conn := status.conn;
      Publish(M.EndpointStatus(
        Status(Offline, Some(ReasonOf(Some(probe), None)), attempt, Some(now + delay), conn.lastConnectedAt, Some(now),
               ErrorMessage(Some(probe), conn.lastErrorMessage)),
        Some(probe)));
      retryTimer := Some(loop.nextTimer);
      loop := loop.(armed := loop.armed[loop.nextTimer := attempt], nextTimer := loop.nextTimer + 1);
    }

    method Finish(start: Option<nat>)
      modifies this`loop
      ensures Snapshot() == M.Finish(old(Snapshot()), start)
    {
      if start.Some? {
        loop := loop.(settledStarts := loop.settledStarts + {start.value});
      }
    }

    /** Up to the await of the probe, which is left with the event loop. */
    method RunProbe(attempt: int, initial: bool, start: Option<nat>)
      requires Wired()
      modifies this
      ensures Wired() && Snapshot() == M.RunProbe(old(Snapshot()), attempt, initial, start)
    {
      hide M.Notify;
      generation := generation + 1;
      var localGeneration := generation;
      ClearRetryTimer();
      if isStopped {
        Finish(start);
        return;
      }
      var conn := status.conn;
      Publish(status.(conn := conn.(phase := Connecting,
                                    reason := if initial then Some(InitialConnect) else conn.reason,
                                    attempt := attempt, nextRetryAt := None, lastErrorMessage := None)));
      var flight := M.Flight(localGeneration, attempt, initial, start, loop.steps);
      loop := loop.(flights := loop.flights[loop.nextFlight := flight], nextFlight := loop.nextFlight + 1);
    }

    method RejectAuth(attempt: int, probe: Probe)
      requires Wired()
      modifies this
      ensures Wired() && Snapshot() == M.RejectAuth(old(Snapshot()), attempt, probe)
    {
      var conn := status.conn;
      Publish(M.EndpointStatus(
        conn.(phase := AuthFailed, reason := Some(ReasonOf(Some(probe), None)), attempt := attempt, nextRetryAt := None,
              lastErrorMessage := ErrorMessage(Some(probe), conn.lastErrorMessage)),
        Some(probe)));
    }

    method GoOnline(f: M.Flight, now: real)
      requires Wired()
      modifies this
      ensures Wired() && Snapshot() == M.GoOnline(old(Snapshot()), f, now)
    {
      hide M.Notify, M.RunProbe;
      past := past.(provenAt := f.begun);
      Publish(M.EndpointStatus(
        Status(Online, if f.initial then Some(InitialConnect) else status.conn.reason, f.attempt, None, Some(now),
               status.conn.lastDisconnectedAt, None),
        Some(Ready)));
      if pendingInvalidate {
        pendingInvalidate := false;
        RunProbe(status.conn.attempt, false, None);
      }
    }

    method HeedProbe(f: M.Flight, probe: Probe, now: real, random: real)
      requires Wired()
      modifies this
      ensures Wired() && Snapshot() == M.HeedProbe(config, old(Snapshot()), f, probe, now, random)
    {
      hide M.ScheduleProbe, M.RejectAuth, M.GoOnline, RequestedOr, FastOrBackoff;
      if probe.AuthRejected? {
        RejectAuth(f.attempt, probe);
      } else if !probe.Ready? {
        var nextAttempt := f.attempt + 1;
        ScheduleProbe(nextAttempt, RequestedOr(probe, FastOrBackoff(config, nextAttempt, random)), probe, now);
      } else {
        GoOnline(f, now);
      }
    }

    /** What follows the await of a probe; `probe` is its answer, or its error turned into one. */
    method ResumeProbe(id: nat, probe: Probe, now: real, random: real)
      requires Wired() && id in loop.flights
      modifies this
      ensures Wired() && Snapshot() == M.Apply(config, old(Snapshot()), M.ProbeAnswers(id, probe, now, random))
    {
      hide M.HeedProbe, M.Finish;
      loop := loop.(steps := loop.steps + 1);
      var f := loop.flights[id];
      loop := loop.(flights := loop.flights - {id});
      if !isStopped && f.generation == generation {
        HeedProbe(f, probe, now, random);
      }
      Finish(f.start);
    }

    /** The callback of the retry timer. */
    method FireTimer(id: nat)
      requires Wired() && id in loop.armed
      modifies this
      ensures Wired() && Snapshot() == M.Apply(config, old(Snapshot()), M.TimerFires(id))
    {
      hide M.RunProbe;
      loop := loop.(steps := loop.steps + 1);
      var attempt := loop.armed[id];
      loop := loop.(armed := loop.armed - {id});
      retryTimer := None;
      RunProbe(attempt, false, None);
    }

    method Invalidate()
      requires Wired()
      modifies this
      ensures Wired() && Snapshot() == M.Apply(config, old(Snapshot()), M.CallInvalidate)
    {
      hide M.RunProbe;
      loop := loop.(steps := loop.steps + 1);
      if isStopped {
        return;
      }
      past := past.(lastReport := loop.steps);
      if status.conn.phase == Connecting {
        pendingInvalidate := true;
        return;
      }
      pendingInvalidate := false;
      RunProbe(status.conn.attempt, false, None);
    }

    method ReportFailure(message: Option<string>, now: real, random: real)
      requires Wired()
      modifies this
      ensures Wired() && Snapshot() == M.Apply(config, old(Snapshot()), M.CallReportFailure(message, now, random))
    {
      hide M.ScheduleProbe, FastOrBackoff;
      loop := loop.(steps := loop.steps + 1);
      if isStopped {
        return;
      }
      past := past.(lastReport := loop.steps);
      if status.conn.phase != Online && status.conn.phase != Connecting {
        return;
      }
      generation := generation + 1;
      var nextAttempt := if status.conn.attempt + 1 >= 1 then status.conn.attempt + 1 else 1;
      ScheduleProbe(nextAttempt, FastOrBackoff(config, nextAttempt, random), ServerUnreachable(message), now);
    }

    method ReportProbeResult(probe: Failure, now: real, random: real)
      requires Wired()
      modifies this
      ensures Wired() && Snapshot() == M.Apply(config, old(Snapshot()), M.CallReportProbeResult(probe, now, random))
    {
      hide M.ApplyReport;
      loop := loop.(steps := loop.steps + 1);
      if isStopped {
        return;
      }
      past := past.(lastReport := loop.steps);
      if status.conn.phase != Online && status.conn.phase != Connecting && status.conn.phase != Offline {
        return;
      }
      generation := generation + 1;
      ClearRetryTimer();
      pendingInvalidate := false;
      ApplyReport(probe, now, random);
    }

    method ApplyReport(probe: Failure, now: real, random: real)
      requires Wired()
      modifies this
      ensures Wired() && Snapshot() == M.ApplyReport(config, old(Snapshot()), probe, now, random)
    {
      hide M.ScheduleProbe, M.RejectAuth, RequestedOr, FastOrBackoff;
      if probe.AuthRejected? {
        RejectAuth(status.conn.attempt, probe);
        return;
      }
      var nextAttempt := if status.conn.attempt + 1 >= 1 then status.conn.attempt + 1 else 1;
      ScheduleProbe(nextAttempt, RequestedOr(probe, FastOrBackoff(config, nextAttempt, random)), probe, now);
    }

    method Launch(initial: bool, promise: nat)
      requires Wired()
      modifies this
      ensures Wired() && Snapshot() == M.Launch(old(Snapshot()), initial, promise)
    {
      hide M.RunProbe;
      pendingInvalidate := false;
      past := past.(mark := |past.log|);
      RunProbe(0, initial, Some(promise));
    }

    method Start()
      requires Wired()
      modifies this
      ensures Wired() && Snapshot() == M.Apply(config, old(Snapshot()), M.CallStart)
    {
      hide M.Launch, M.Finish;
      loop := loop.(steps := loop.steps + 1);
      if startInFlight.Some? && !isStopped {
        return;
      }
      var promise := loop.nextStart;
      loop := loop.(nextStart := promise + 1);
      if isStarted && !isStopped {
        if status.conn.phase == Online || status.conn.phase == Connecting {
          Finish(Some(promise));
        } else {
          Launch(false, promise);
        }
      } else {
        isStarted := true;
        isStopped := false;
        Launch(true, promise);
      }
      startInFlight := Some(promise);
    }

    /** The `finally` of a start. */
    method SettleStart(id: nat)
      requires Wired() && id in loop.settledStarts
      modifies this
      ensures Wired() && Snapshot() == M.Apply(config, old(Snapshot()), M.StartSettles(id))
    {
      loop := loop.(steps := loop.steps + 1);
      loop := loop.(settledStarts := loop.settledStarts - {id});
      if startInFlight == Some(id) {
        startInFlight := None;
      }
    }

    method Stop()
      requires Wired()
      modifies this
      ensures Wired() && Snapshot() == M.Apply(config, old(Snapshot()), M.CallStop)
    {
      hide M.Notify;
      loop := loop.(steps := loop.steps + 1);
      if isStopped {
        return;
      }
      isStopped := true;
      startInFlight := None;
      pendingInvalidate := false;
      ClearRetryTimer();
      Publish(
        status.(conn := status.conn.(phase := ShuttingDown, reason := Some(IntentionalShutdown), nextRetryAt := None)));
    }

    method Subscribe(id: nat)
      requires Wired()
      modifies this
      ensures Wired() && Snapshot() == M.Apply(config, old(Snapshot()), M.CallSubscribe(id))
    {
      loop := loop.(steps := loop.steps + 1);
      var heard := if id in audience.inbox then audience.inbox[id] else [];
      audience := audience.(listeners := audience.listeners + {M.Subscriber(id)},
                            subscribers := audience.subscribers + {id},
                            inbox := audience.inbox[id := heard + [status]]);
    }

    method Unsubscribe(id: nat)
      requires Wired()
      modifies this
      ensures Wired() && Snapshot() == M.Apply(config, old(Snapshot()), M.CallUnsubscribe(id))
    {
      loop := loop.(steps := loop.steps + 1);
      audience := audience.(listeners := audience.listeners - {M.Subscriber(id)},
                            subscribers := audience.subscribers - {id});
    }

    method WaitUntilOnline(id: nat, timed: bool)
      requires Wired() && id !in audience.waiters
      modifies this
      ensures Wired() && Snapshot() == M.Apply(config, old(Snapshot()), M.CallWaitUntilOnline(id, timed))
    {
      loop := loop.(steps := loop.steps + 1);
      if status.conn.phase == Online {
        audience := audience.(waiters := audience.waiters[id := M.Resolved]);
        return;
      }
      if status.conn.phase == AuthFailed {
        audience := audience.(waiters := audience.waiters[id := M.AuthRejection]);
        return;
      }
      audience := audience.(waiters := audience.waiters[id := M.Pending]);
      if timed {
        audience := audience.(waiterTimers := audience.waiterTimers + {id});
      }
      audience := audience.(listeners := audience.listeners + {M.Waiter(id)});
    }

    method TimeOutWaiter(id: nat)
      requires Wired() && id in audience.waiterTimers
      modifies this
      ensures Wired() && Snapshot() == M.Apply(config, old(Snapshot()), M.WaiterTimesOut(id))
    {
      loop := loop.(steps := loop.steps + 1);
      audience := audience.(listeners := audience.listeners - {M.Waiter(id)},
                            waiterTimers := audience.waiterTimers - {id},
                            waiters := audience.waiters[id := M.TimedOut]);
    }

    /** Any enabled event, handled: the object follows the model and keeps its invariant. */
    method Handle(e: M.Event)
      requires Valid() && M.Enabled(Snapshot(), e)
      modifies this
      ensures Valid() && Snapshot() == M.Apply(config, old(Snapshot()), e)
    {
      hide M.Apply;
      WiredWhenValid();
      Proofs.StepKeeps(config, Snapshot(), e);
      hide Proofs.Inv;
      match e {
        case CallStart => Start();
        case CallStop => Stop();
        case CallInvalidate => Invalidate();
        case CallReportFailure(message, now, random) => ReportFailure(message, now, random);
        case CallReportProbeResult(failure, now, random) => ReportProbeResult(failure, now, random);
        case CallSubscribe(id) => Subscribe(id);
        case CallUnsubscribe(id) => Unsubscribe(id);
        case CallWaitUntilOnline(id, timed) => WaitUntilOnline(id, timed);
        case TimerFires(id) => FireTimer(id);
        case ProbeAnswers(id, probe, now, random) => ResumeProbe(id, probe, now, random);
        case StartSettles(id) => SettleStart(id);
        case WaiterTimesOut(id) => TimeOutWaiter(id);
      }
    }
  }
}
