/**
 * The connection supervisor as the object it is: one method per inner function and per
 * continuation, each doing exactly what ConnectionModel says.
 */
module ConnectionSupervisor {
  import opened Options
  import opened ConnectionTypes
  import M = ConnectionModel
  import Proofs = ConnectionProofs

  class Supervisor {
    const config: Config

    var status: Status
    var currentTransport: Option<nat>
    var retryTimer: Option<nat>
    var isStarted: bool
    var isStopped: bool
    var reconnectAttempt: int
    var generation: nat
    var detachCurrentListeners: seq<M.Hook>
    var startInFlight: Option<nat>

    /** The transports and their listeners. */
    var world: M.World

    /** What the event loop holds on the supervisor's behalf. */
    var loop: M.Loop

    ghost var past: M.Past

    ghost function Snapshot(): M.State
      reads this
    {
      M.State(status, currentTransport, retryTimer, isStarted, isStopped, reconnectAttempt, generation,
              detachCurrentListeners, startInFlight, world, loop, past)
    }

    ghost predicate Valid()
      reads this
    {
      Proofs.Inv(Snapshot())
    }

    constructor (config: Config)
      ensures Valid() && Snapshot() == M.INITIAL && this.config == config
    {
      this.config := config;
      status := INITIAL_STATUS;
      currentTransport, retryTimer, startInFlight := None, None, None;
      isStarted, isStopped, reconnectAttempt, generation, detachCurrentListeners := false, false, 0, 0, [];
      world := M.World(map[], 0, {}, map[]);
      loop := M.Loop(map[], 0, map[], 0, {}, 0);
      past := M.Past([], [], []);
    }

    method Publish(next: Status)
      modifies this`status, this`past
      ensures Snapshot() == M.Publish(old(Snapshot()), next)
    {
      status := next;
      past := past.(log := past.log + [next]);
    }

    method ClearRetryTimer()
      modifies this`retryTimer, this`loop
      ensures Snapshot() == M.ClearRetryTimer(old(Snapshot()))
    {
      if retryTimer.None? {
        return;
      }
      loop := loop.(armed := loop.armed - {retryTimer.value});
      retryTimer := None;
    }

    method Suspend(f: M.Frame)
      modifies this`loop
      ensures Snapshot() == M.Suspend(old(Snapshot()), f)
    {
      loop := loop.(frames := loop.frames[loop.nextFrame := f], nextFrame := loop.nextFrame + 1);
    }

    method Finish(start: Option<nat>)
      modifies this`loop
      ensures Snapshot() == M.Finish(old(Snapshot()), start)
    {
      if start.Some? {
        loop := loop.(settledStarts := loop.settledStarts + {start.value});
      }
    }

    /** Up to the await of the transport's disconnect. */
    method CleanupTransport(intentional: bool)
      modifies this
      ensures Snapshot() == M.CleanupTransport(old(Snapshot()), intentional)
    {
      var transport := currentTransport;
      currentTransport := None;
      var detachers := detachCurrentListeners;
      detachCurrentListeners := [];
      var i := 0;
      while i < |detachers|
        invariant i <= |detachers|
        invariant world == old(world).(hooks := old(world).hooks - (set h | h in detachers[..i]))
        modifies this`world
      {
        assert detachers[..i + 1] == detachers[..i] + [detachers[i]];
        world := world.(hooks := world.hooks - {detachers[i]});
        i := i + 1;
      }
      assert detachers[..i] == detachers;
      if transport.Some? {
        world := world.(teardowns := world.teardowns[transport.value := M.Disconnecting(intentional)]);
        past := past.(handed := past.handed + [transport.value]);
      }
    }

    method ScheduleReconnect(attempt: int, delay: real, probe: Option<Probe>, now: real)
      modifies this
      ensures Snapshot() == M.ScheduleReconnect(old(Snapshot()), attempt, delay, probe, now)
    {
      if isStopped {
        return;
      }
      ClearRetryTimer();
      Publish(Status(Offline, Some(ReasonOf(probe, None)), attempt, Some(now + delay), status.lastConnectedAt,
                     status.lastDisconnectedAt, ErrorMessage(probe, status.lastErrorMessage)));
      retryTimer := Some(loop.nextTimer);
      loop := loop.(armed := loop.armed[loop.nextTimer := attempt], nextTimer := loop.nextTimer + 1);
    }

    method RejectAuth(attempt: int, probe: Probe)
      modifies this`status, this`past
      ensures Snapshot() == M.RejectAuth(old(Snapshot()), attempt, probe)
    {
      Publish(status.(phase := AuthFailed, reason := Some(ReasonOf(Some(probe), None)), attempt := attempt,
                      nextRetryAt := None,
                      lastErrorMessage := ErrorMessage(Some(probe), status.lastErrorMessage)));
    }

    method OpenTransport(localGeneration: nat, initial: bool, attempt: int, start: Option<nat>)
      modifies this
      ensures Snapshot() == M.OpenTransport(old(Snapshot()), localGeneration, initial, attempt, start)
    {
      hide M.HooksOf;
      var transport := world.nextTransport;
      world := world.(origins := world.origins[transport := M.Origin(localGeneration, initial, attempt)],
                      nextTransport := transport + 1);
      currentTransport := Some(transport);
      detachCurrentListeners := M.HooksOf(transport);
      world := world.(hooks := world.hooks + set h | h in detachCurrentListeners);
      Publish(status.(phase := Connecting, reason := if initial then Some(InitialConnect) else status.reason,
                      attempt := attempt,
                      nextRetryAt := None, lastErrorMessage := None));
      Suspend(M.AwaitConnect(localGeneration, start));
    }

    /** What follows the cleanup in establishConnection. */
    method AfterCleanup(localGeneration: nat, initial: bool, attempt: int, start: Option<nat>)
      modifies this
      ensures Snapshot() == M.AfterCleanup(config, old(Snapshot()), localGeneration, initial, attempt, start)
    {
      hide M.OpenTransport, M.Suspend, M.Finish;
      if isStopped {
        Finish(start);
        return;
      }
      if initial && config.probeBeforeInitialConnect {
        Suspend(M.AwaitInitialProbe(localGeneration, attempt, start));
        return;
      }
      OpenTransport(localGeneration, initial, attempt, start);
    }

    method EstablishConnection(initial: bool, attempt: int, start: Option<nat>)
      modifies this
      ensures Snapshot() == M.EstablishConnection(config, old(Snapshot()), initial, attempt, start)
    {
      hide M.CleanupTransport, M.AfterCleanup;
      generation := generation + 1;
      var localGeneration := generation;
      ClearRetryTimer();
      if currentTransport.Some? {
        var transport := currentTransport.value;
        CleanupTransport(false);
        Suspend(M.AwaitCleanup(localGeneration, initial, attempt, transport, start));
        return;
      }
      AfterCleanup(localGeneration, initial, attempt, start);
    }

    method AfterInitialProbe(f: M.Frame, probe: Probe, now: real, random: real)
      requires f.AwaitInitialProbe?
      modifies this
      ensures Snapshot() == M.AfterInitialProbe(config, old(Snapshot()), f, probe, now, random)
    {
      hide M.Finish, M.Suspend, M.RejectAuth, M.ScheduleReconnect, M.OpenTransport, RequestedOr, BackoffDelay;
      if f.generation != generation || isStopped {
        Finish(f.start);
        return;
      }
      var attempt := M.AtLeastOne(f.attempt + 1);
      if probe.AuthRejected? {
        RejectAuth(attempt, probe);
        Suspend(M.AwaitAuthNotice(f.generation, f.start));
      } else if !probe.Ready? {
        ScheduleReconnect(attempt, RequestedOr(probe, BackoffDelay(config, attempt, random)), Some(probe), now);
        Finish(f.start);
      } else {
        OpenTransport(f.generation, true, f.attempt, f.start);
      }
    }

    /** Up to the cleanup in applyExternallyReportedProbeResult. */
    method ApplyReport(probe: Failure, start: Option<nat>)
      modifies this
      ensures Snapshot() == M.ApplyReport(old(Snapshot()), probe, start)
    {
      hide M.CleanupTransport, M.Finish;
      if isStopped || (status.phase != Online && status.phase != Connecting && status.phase != Offline) {
        Finish(start);
        return;
      }
      generation := generation + 1;
      var localGeneration, transport := generation, currentTransport;
      ClearRetryTimer();
      CleanupTransport(true);
      Suspend(M.AwaitReportCleanup(localGeneration, probe, transport, start));
    }

    method AfterReportCleanup(f: M.Frame, now: real, random: real)
      requires f.AwaitReportCleanup?
      modifies this
      ensures Snapshot() == M.AfterReportCleanup(config, old(Snapshot()), f, now, random)
    {
      hide M.Finish, M.RejectAuth, M.ScheduleReconnect, RequestedOr, FastOrBackoff;
      if !isStopped && f.generation == generation {
        if f.failure.AuthRejected? {
          RejectAuth(status.attempt, f.failure);
        } else {
          var nextAttempt := M.AtLeastOne(status.attempt + 1);
          ScheduleReconnect(nextAttempt, RequestedOr(f.failure, FastOrBackoff(config, nextAttempt, random)),
            Some(f.failure), now);
        }
      }
      Finish(f.start);
    }

    /** The catch clause around the connect of a transport. */
    method AfterConnect(f: M.Frame, rejection: Option<Failure>)
      requires f.AwaitConnect?
      modifies this
      ensures Snapshot() == M.AfterConnect(old(Snapshot()), f, rejection)
    {
      hide M.Finish, M.ApplyReport;
      if rejection.None? || f.generation != generation || isStopped {
        Finish(f.start);
        return;
      }
      ApplyReport(rejection.value, f.start);
    }

    method AfterReconnectProbe(f: M.Frame, probe: Probe, now: real, random: real)
      requires f.AwaitReconnectProbe?
      modifies this
      ensures Snapshot() == M.AfterReconnectProbe(config, old(Snapshot()), f, probe, now, random)
    {
      hide M.Suspend, M.RejectAuth, M.ScheduleReconnect, RequestedOr, BackoffDelay;
      if isStopped || f.generation != generation {
        return;
      }
      if probe.AuthRejected? {
        RejectAuth(f.attempt, probe);
        Suspend(M.AwaitAuthNotice(f.generation, None));
      } else if !probe.Ready? {
        var nextAttempt := f.attempt + 1;
        ScheduleReconnect(nextAttempt, RequestedOr(probe, BackoffDelay(config, nextAttempt, random)), Some(probe), now);
      } else {
        Suspend(M.AwaitBeforeReconnect(f.generation, f.attempt));
      }
    }

    method AfterBeforeReconnect(f: M.Frame)
      requires f.AwaitBeforeReconnect?
      modifies this
      ensures Snapshot() == M.AfterBeforeReconnect(config, old(Snapshot()), f)
    {
      hide M.EstablishConnection;
      if isStopped || f.generation != generation {
        return;
      }
      EstablishConnection(false, f.attempt, None);
      past := past.(winners := past.winners + [f.generation]);
    }

    method AfterDisconnectNotice(f: M.Frame, now: real, random: real)
      requires f.AwaitDisconnectNotice?
      modifies this
      ensures Snapshot() == M.AfterDisconnectNotice(config, old(Snapshot()), f, now, random)
    {
      hide M.ScheduleReconnect, FastOrBackoff;
      if f.intentional || isStopped || f.generation != generation || status.phase == AuthFailed {
        return;
      }
      ScheduleReconnect(f.attempt, FastOrBackoff(config, f.attempt, random), None, now);
    }

    /** The event loop resumes a suspended continuation. */
    method Resume(id: nat, answer: Option<Probe>, now: real, random: real)
      requires id in loop.frames && M.Ripe(Snapshot(), loop.frames[id], answer)
      modifies this
      ensures Snapshot() == M.Apply(config, old(Snapshot()), M.Resumes(id, answer, now, random))
    {
      hide M.AfterCleanup, M.Finish, M.AfterInitialProbe, M.AfterConnect, M.AfterReportCleanup, M.AfterReconnectProbe,
        M.AfterBeforeReconnect, M.AfterDisconnectNotice;
      var f := loop.frames[id];
      loop := loop.(frames := loop.frames - {id});
      match f {
        case AwaitCleanup(localGeneration, initial, attempt, _, start) =>
          AfterCleanup(localGeneration, initial, attempt, start);
        case AwaitInitialProbe(_, _, _) => AfterInitialProbe(f, answer.value, now, random);
        case AwaitConnect(_, _) => AfterConnect(f, if answer.Some? then Some(answer.value) else None);
        case AwaitReportCleanup(_, _, _, _) => AfterReportCleanup(f, now, random);
        case AwaitReconnectProbe(_, _) => AfterReconnectProbe(f, answer.value, now, random);
        case AwaitBeforeReconnect(_, _) => AfterBeforeReconnect(f);
        case AwaitDisconnectNotice(_, _, _) => AfterDisconnectNotice(f, now, random);
        case AwaitAuthNotice(_, start) => Finish(start);
      }
    }

    method HandleConnected(t: nat, now: real)
      requires t in world.origins
      modifies this
      ensures Snapshot() == M.HandleConnected(old(Snapshot()), t, now)
    {
      var o := world.origins[t];
      if o.generation != generation || isStopped {
        return;
      }
      ClearRetryTimer();
      reconnectAttempt := o.attempt;
      Publish(Status(Online, if o.initial then Some(InitialConnect) else status.reason, o.attempt, None, Some(now),
                     status.lastDisconnectedAt, None));
    }

    /** Up to the await of the caller's onDisconnected. */
    method HandleDisconnected(t: nat, event: DisconnectEvent, now: real)
      requires t in world.origins
      modifies this
      ensures Snapshot() == M.HandleDisconnected(old(Snapshot()), t, event, now)
    {
      if world.origins[t].generation != generation || isStopped {
        return;
      }
      var attempt := reconnectAttempt + 1;
      reconnectAttempt := attempt;
      var reason := ReasonOf(None, Some(event));
      Publish(Status(Offline, Some(reason), attempt, None, status.lastConnectedAt, Some(now), event.error));
      Suspend(M.AwaitDisconnectNotice(generation, attempt, event.intentional));
    }

    method HandleError(t: nat, message: string, classified: Option<Failure>, connected: bool, now: real, random: real)
      requires t in world.origins
      modifies this
      ensures Snapshot() == M.HandleError(config, old(Snapshot()), t, message, classified, connected, now, random)
    {
      hide M.ApplyReport, M.ScheduleReconnect, FastOrBackoff;
      if world.origins[t].generation != generation || isStopped {
        return;
      }
      if status.phase == Connecting && currentTransport == Some(t) && !connected {
        if classified.Some? {
          ApplyReport(classified.value, None);
          return;
        }
        var nextAttempt := M.AtLeastOne(status.attempt + 1);
        ScheduleReconnect(nextAttempt, FastOrBackoff(config, nextAttempt, random),
          Some(ServerUnreachable(Some(message))), now);
        return;
      }
      Publish(status.(lastErrorMessage := Some(message)));
    }

    /** The callback of the retry timer, up to the await of its probe. */
    method FireTimer(id: nat)
      requires id in loop.armed
      modifies this
      ensures Snapshot() == M.FireTimer(old(Snapshot()), id)
    {
      var attempt := loop.armed[id];
      loop := loop.(armed := loop.armed - {id});
      retryTimer := None;
      if isStopped {
        return;
      }
      Suspend(M.AwaitReconnectProbe(generation, attempt));
    }

    method Launch(initial: bool, promise: nat)
      modifies this
      ensures Snapshot() == M.Launch(config, old(Snapshot()), initial, promise)
    {
      hide M.EstablishConnection;
      reconnectAttempt := 0;
      EstablishConnection(initial, 0, Some(promise));
    }

    method Start()
      modifies this
      ensures Snapshot() == M.Start(config, old(Snapshot()))
    {
      hide M.Launch, M.Finish;
      if startInFlight.Some? && !isStopped {
        return;
      }
      var promise := loop.nextStart;
      loop := loop.(nextStart := promise + 1);
      if isStarted && !isStopped {
        if status.phase == Online || status.phase == Connecting {
          Finish(Some(promise));
        } else {
          Launch(config.probeBeforeInitialConnect, promise);
        }
      } else {
        isStarted := true;
        isStopped := false;
        Launch(true, promise);
      }
      startInFlight := Some(promise);
    }

    /** The `finally` of a start. */
    method SettleStart(id: nat)
      requires id in loop.settledStarts
      modifies this
      ensures Snapshot() == M.SettleStart(old(Snapshot()), id)
    {
      loop := loop.(settledStarts := loop.settledStarts - {id});
      if startInFlight == Some(id) {
        startInFlight := None;
      }
    }

    method Stop()
      modifies this
      ensures Snapshot() == M.Stop(old(Snapshot()))
    {
      hide M.CleanupTransport;
      if isStopped {
        return;
      }
      isStopped := true;
      startInFlight := None;
      ClearRetryTimer();
      Publish(status.(phase := ShuttingDown, reason := Some(IntentionalShutdown), nextRetryAt := None));
      CleanupTransport(true);
    }

    /** A teardown proceeds: its disconnect, then its destroy, has settled one way or the other. */
    method AdvanceTeardown(t: nat, stage: M.Teardown)
      requires t in world.teardowns
      modifies this`world
      ensures Snapshot() == M.AdvanceTeardown(old(Snapshot()), t, stage)
    {
      world := world.(teardowns := world.teardowns[t := stage]);
    }

    /** Any enabled event, handled: the object follows the model and keeps its invariant. */
    method Handle(e: M.Event)
      requires Valid() && M.Enabled(Snapshot(), e)
      modifies this
      ensures Valid() && Snapshot() == M.Apply(config, old(Snapshot()), e)
    {
      hide Proofs.Inv, M.Start, M.Stop, M.ApplyReport, M.FireTimer, M.HandleConnected, M.HandleDisconnected,
        M.HandleError, M.Resume, M.AdvanceTeardown, M.SettleStart, M.Ripe;
      Proofs.StepKeeps(config, Snapshot(), e);
      match e {
        case CallStart => Start();
        case CallStop => Stop();
        case CallReport(failure) => ApplyReport(failure, None);
        case TimerFires(id) => FireTimer(id);
        case Connected(t, now) => HandleConnected(t, now);
        case Disconnected(t, event, now) => HandleDisconnected(t, event, now);
        case Errored(t, message, classified, connected, now, random) =>
          HandleError(t, message, classified, connected, now, random);
        case DisconnectSettles(t) => AdvanceTeardown(t, M.Destroying);
        case DestroySettles(t) => AdvanceTeardown(t, M.Gone);
        case Resumes(id, answer, now, random) => Resume(id, answer, now, random);
        case StartSettles(id) => SettleStart(id);
      }
    }
  }
}
