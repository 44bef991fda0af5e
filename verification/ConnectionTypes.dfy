/** Shared vocabulary of the two supervisors (managedConnectionTypes.ts, managedConnectionEvents.ts). */
module ConnectionTypes {
  import opened Options
  import Backoff

  datatype Phase = Idle | Connecting | Online | Offline | AuthFailed | ShuttingDown

  datatype Reason =
    | InitialConnect
    | TransportDisconnect
    | ServerDown
    | AuthInvalid
    | IntentionalShutdown
    | ProbeFailed
    | ManualDisconnect

  /** What a `retry_later` answer says about the delay. */
  datatype RetryAfter = NotGiven | NotFinite | Finite(ms: real)

  datatype Probe =
    | Ready
    | ServerUnreachable(message: Option<string>)
    | AuthRejected(message: Option<string>)
    | RetryLater(after: RetryAfter, message: Option<string>)

  type Failure = p: Probe | !p.Ready? witness ServerUnreachable(None)

  datatype DisconnectEvent = DisconnectEvent(intentional: bool, error: Option<string>)

  /** The state a supervisor publishes. */
  datatype Status = Status(
    phase: Phase,
    reason: Option<Reason>,
    attempt: int,
    nextRetryAt: Option<real>,
    lastConnectedAt: Option<real>,
    lastDisconnectedAt: Option<real>,
    lastErrorMessage: Option<string>)

  const INITIAL_STATUS := Status(Idle, None, 0, None, None, None, None)

  datatype Config = Config(
    initialFastRetryDelayMs: real,
    maxFastRetries: real,
    backoff: Backoff.Policy,
    probeBeforeInitialConnect: bool)

  function ReasonOf(probe: Option<Probe>, event: Option<DisconnectEvent>): Reason {
    if event.Some? && event.value.intentional then ManualDisconnect
    else match probe
      case Some(AuthRejected(_)) => AuthInvalid
      case Some(ServerUnreachable(_)) => ServerDown
      case Some(RetryLater(_, _)) => ProbeFailed
      case _ => TransportDisconnect
  }

  function ErrorMessage(probe: Option<Probe>, fallback: Option<string>): Option<string> {
    match probe
    case None => fallback
    case Some(Ready) => fallback
    case Some(p) => p.message.Or(fallback)
  }

  function BackoffDelay(config: Config, attempt: int, random: real): real {
    Backoff.BackoffMs(attempt as real, config.backoff, random) as real
  }

  /**
   * The first retries are fast, later ones back off. Attempts are whole, so flooring `maxFastRetries` first
   * makes no difference.
   */
  function FastOrBackoff(config: Config, attempt: int, random: real): real {
    if attempt as real <= Backoff.Max(0.0, config.maxFastRetries) then Backoff.Max(0.0, config.initialFastRetryDelayMs)
    else BackoffDelay(config, attempt, random)
  }

  /** A server may ask for its own delay; anything that is not a finite number is ignored. */
  function RequestedOr(probe: Probe, otherwise: real): real {
    match probe
    case RetryLater(Finite(ms), _) => Backoff.Max(1.0, ms)
    case _ => otherwise
  }

  /** A delay is never negative, and is at least one millisecond unless the fast retry is configured faster. */
  lemma DelaysNeverSpin(config: Config, probe: Probe, attempt: int, random: real)
    ensures RequestedOr(probe, BackoffDelay(config, attempt, random)) >= 1.0
    ensures RequestedOr(probe, FastOrBackoff(config, attempt, random)) >= 0.0
    ensures FastOrBackoff(config, attempt, random) >= 0.0
    ensures RequestedOr(probe, FastOrBackoff(config, attempt, random)) < 1.0 ==>
      config.initialFastRetryDelayMs < 1.0 && attempt as real <= Backoff.Max(0.0, config.maxFastRetries)
    ensures probe.RetryLater? && probe.after.Finite? ==>
      RequestedOr(probe, FastOrBackoff(config, attempt, random)) >= probe.after.ms
  {
    Backoff.DrawBounds(attempt as real, config.backoff, random);
    Backoff.BaseRange(attempt as real, config.backoff);
  }
}
