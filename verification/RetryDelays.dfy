/** How long both supervisors wait before a retry, in one formula (packages/connection-supervisor/src). */
module RetryDelays {
  import opened Options
  import opened ConnectionTypes
  import Backoff

  /**
   * What the server asks for, but at least a millisecond; or else the fast delay for the first retries, if they are to
   * be fast; or else the backoff of the attempt that the wait is for.
   */
  function Wait(c: Config, probe: Option<Probe>, fast: bool, attempt: int, random: real): real {
    match probe
    case Some(RetryLater(Finite(ms), _)) => if ms < 1.0 then 1.0 else ms
    case _ =>
      if fast && (attempt <= 0 || attempt as real <= c.maxFastRetries) then
        if c.initialFastRetryDelayMs < 0.0 then 0.0 else c.initialFastRetryDelayMs
      else Backoff.BackoffMs(attempt as real, c.backoff, random) as real
  }

  lemma WaitsAre(c: Config, probe: Probe, attempt: int, random: real)
    ensures RequestedOr(probe, FastOrBackoff(c, attempt, random)) == Wait(c, Some(probe), true, attempt, random)
    ensures RequestedOr(probe, BackoffDelay(c, attempt, random)) == Wait(c, Some(probe), false, attempt, random)
    ensures FastOrBackoff(c, attempt, random) == Wait(c, None, true, attempt, random)
    ensures forall message ::
      Wait(c, Some(ServerUnreachable(message)), true, attempt, random) == Wait(c, None, true, attempt, random)
    ensures BackoffDelay(c, attempt, random) == Wait(c, None, false, attempt, random)
  {
  }

  /** A failed probe, or a report of one, as a reason to be offline. */
  function Because(probe: Probe): Reason {
    match probe
    case AuthRejected(_) => AuthInvalid
    case ServerUnreachable(_) => ServerDown
    case RetryLater(_, _) => ProbeFailed
    case Ready => TransportDisconnect
  }

  /** The message of a failed probe, or the last one. */
  function MessageOf(probe: Probe, last: Option<string>): Option<string> {
    if !probe.Ready? && probe.message.Some? then probe.message else last
  }
}
