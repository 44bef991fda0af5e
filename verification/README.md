# Models of Happier's connection, settings and build logic

This project models the parts of the Happier repository whose correctness depends on more than one function, and
proves what they keep. `dafny verify dfyconfig.toml` checks all of it.

**The two supervisors.** `packages/connection-supervisor` keeps an endpoint and a connection alive. Each supervisor
is a closure over mutable cells whose asynchronous continuations resume in any order. `EndpointModel` and
`ConnectionModel` describe each as a state machine: a step is one piece of synchronous code between two awaits, and
the state holds, next to the closure's own variables, what the event loop holds for it (armed timers, suspended
continuations with the generation they captured, settled promises, attached listeners, teardowns under way) and a
history. `EndpointSupervisor.Supervisor` and `ConnectionSupervisor.Supervisor` are the same code as classes with the
source's fields, one method per inner function or continuation; every method is proved to do exactly what the model
says, and `Handle` to keep the invariant. `EndpointProofs`, `EndpointRuns`, `EndpointStatuses`, `ConnectionProofs`,
`ConnectionRuns`, `ConnectionStatuses`, `ConnectionLeaks` and `ConnectionProgress` prove the guarantees over all runs,
whatever the order in which continuations resume. `EndpointLaws` and `ConnectionLaws` say for every event, in every
state that a run can reach, what is published, which attempt is counted, when the retry is due, what is begun and who is
told. `Backoff`, `ConnectionTypes` and `RetryDelays` hold the delays.

**Settings.** `SettingsLock` models `updateSettings` for any number of callers that interleave at every file
operation and may crash; `SettingsHome` is the same code as a class, and `SettingsLockLaws` follows single callers
through waiting, taking a lock away, work and errors. `SettingsMigration` is the staged migration of the settings file,
on JSON objects as they are in the file, `SettingsFields` says what becomes of each field, and `SettingsReaders` is the
second, independent reader, with the exact condition under which the two agree.

**Fingerprints.** `StableJson` canonicalizes JSON with JavaScript's own rules for the order of members, and
`StableJsonProofs` compares it with the meaning of a value as nested maps; `KeyOrder` states the order itself.
`EasProfiles` selects the build profiles that matter for an APP_ENV, `EasJson`, `EasJsonProofs` and `EasContent` apply
it to the JSON of eas.json, `EasSelection` says which profiles come out in terms of that JSON, `FingerprintHook` is the
buffering file hook, and `FingerprintSecrets` the redaction of the Expo configuration.
`JsonObjects`, `JsText` and `Options` are shared vocabulary.

**Smaller pieces.** `CommandQuoting` quotes arguments for cmd.exe shims; its partner is a reader that
splits off the command, makes one caret pass and then applies Microsoft's rules ("Parsing C command-line arguments").
`ModuleIds` is the Metro module id allocator, `FeatureClosure` the dependency closure of disabled features.

Where a promise does not hold of the code, the code is modelled as it is, and a lemma says exactly when the promise
holds:

- The connection supervisor resumes `establishConnection` after its cleanup without looking at the generation
  (createManagedConnectionSupervisor.ts:82-84). A `start` or a reported result during that cleanup can leave a
  connected transport that nobody will ever disconnect: `ConnectionLeaks.RunLeaks` says which, and
  `ConnectionLeaks.RestartDuringCleanupLeaks` gives such a run. A refusal reported during that cleanup can even be
  overwritten by a `connecting` that nothing will ever end but `stop` or another report
  (`ConnectionProgress.ReportDuringCleanupStrands`, `ConnectionProgress.StuckForGood`).
  `ConnectionProgress.StepStrands` says exactly which step does that: an unstopped supervisor with no timer, no other
  continuation of its generation that goes on and no transport that is heeded resumes a superseded cleanup that opens a
  transport. `ConnectionProgress.StallsIffStranded` lifts it to all runs, with or without calls during a cleanup.
- A lock file over ten seconds old, or one whose owner is not recognized, is taken away even from a live holder
  (persistence.ts:555-580). `SettingsLock.StepKeepsExclusive` shows that exactly this leaves somebody inside without
  the lock, and `SettingsLock.SecondCallerEnters` that exactly the next creation of the lock lets a second caller in;
  until then `SettingsLock.NoLostUpdate` holds.
- The comment on `migrateSettings` promises that all data is preserved (persistence.ts:201-204). Migrating a v5
  profile replaces a `localServerUrl` that is already set, and drops a canonical address that is not device-local;
  `SettingsReaders.ProfileAgrees` is exact for one profile, `SettingsReaders.TwoReadersAgree` for whole settings, and
  `SettingsReaders.LocalAddressIsReplaced` the common case.
- The backslash doubling in `escapeCmdArgument` reaches one backslash of a run, since a lookahead does not
  backtrack (runCommand.ts:23-24); `CommandQuotingProofs.ShimRoundTrip` characterizes the argument lists that
  survive; tabs, equals signs, slashes and a leading at sign in the command are not escaped either (runCommand.ts:3).
- Assigning a member called `__proto__` to a plain object adds no member, so canonical JSON loses it
  (fingerprint.config.js:59-60, 141-144); `StableJsonProofs.WholeContentKept` and `EasJsonProofs.CanonicalTwice`.
- In bundle mode a worklet number is issued unchecked (metro.config.js:137-142);
  `ModuleIds.AnswersTellApartIffFree` and `ModuleIds.DistinctNamesDistinctIds`.

## Model

| member | source | states |
|---|---|---|
| Backoff.DrawBounds | packages/connection-supervisor/src/reconnectBackoff.ts:8-18 | for every policy, attempt and random number the delay lies between the draws for 0 and 1, which are the truncated base times 1 - j (at least 1) and 1 + j |
| Backoff.UpperBound | packages/connection-supervisor/src/reconnectBackoff.ts:12-18 | the upper bound is the truncated product itself; the clamp at one millisecond never acts there |
| Backoff.BaseRange | packages/connection-supervisor/src/reconnectBackoff.ts:9-12 | the base delay is at least 1 and between the effective minimum and maximum, whatever the policy |
| Backoff.ZeroJitterShortcut | packages/connection-supervisor/src/reconnectBackoff.ts:13 | returning the base when the jitter is zero gives what the general formula gives |
| Backoff.BaseGrowsToCeiling | packages/connection-supervisor/src/reconnectBackoff.ts:8-12 | the base never shrinks with the attempt and is the maximum exactly once the doubling has reached it |
| Backoff.ExtremesDecide | packages/connection-supervisor/src/reconnectBackoff.ts:15-18 | all draws of one attempt come no later than all of another exactly if the largest of the one does not exceed the smallest of the other |
| Backoff.RetriesSpreadOut | packages/connection-supervisor/src/reconnectBackoff.ts:8-18 | with jitter at most one third, every draw of attempt n is at most every draw of n + 1 while the doubling stays under the maximum |
| Backoff.OneThirdIsTight | packages/connection-supervisor/src/reconnectBackoff.ts:8-18 | for every larger jitter there is a policy where a later attempt can come sooner |
| Backoff.DefaultPolicyOrdered | packages/connection-supervisor/src/defaultManagedConnectionPolicy.ts:3-9 | under the default policy the draws of attempts n and n + 1 are ordered exactly for n up to 6 |
| Backoff.DelayFormula | packages/connection-supervisor/src/reconnectBackoff.ts:8-18 | the delay in one formula, for every policy, attempt and random number, the draws between the extremes included |
| RetryDelays.WaitsAre | packages/connection-supervisor/src/createManagedEndpointSupervisor.ts:110-120 | the delay before a retry: what the server asks for but at least 1 ms, or the fast delay up to maxFastRetries where retries may be fast, or the backoff of the attempt it is for |
| ConnectionTypes.DelaysNeverSpin | packages/connection-supervisor/src/createManagedEndpointSupervisor.ts:110-120 | no computed delay is negative; below one millisecond only a fast retry configured so; a server's own delay is honoured |
| EndpointSupervisor.Supervisor.constructor | packages/connection-supervisor/src/createManagedEndpointSupervisor.ts:34-42 | the initial state |
| EndpointSupervisor.Supervisor.Publish | packages/connection-supervisor/src/createManagedEndpointSupervisor.ts:44-50 | the loop over the listeners, some of which remove themselves, delivers the new status to each exactly once, in whatever order |
| EndpointSupervisor.Supervisor.Invalidate | packages/connection-supervisor/src/createManagedEndpointSupervisor.ts:143-151 | the whole new state: a mark while connecting, a new probe otherwise, nothing when stopped |
| EndpointSupervisor.Supervisor.ReportFailure | packages/connection-supervisor/src/createManagedEndpointSupervisor.ts:153-173 | the whole new state: online or connecting turns offline and the probe in flight is disowned |
| EndpointSupervisor.Supervisor.ReportProbeResult | packages/connection-supervisor/src/createManagedEndpointSupervisor.ts:175-208 | the whole new state, pending mark and timer cleared, by the reported result |
| EndpointSupervisor.Supervisor.WaitUntilOnline | packages/connection-supervisor/src/createManagedEndpointSupervisor.ts:210-244 | an immediate verdict, or a registered waiter with its timer |
| EndpointSupervisor.Supervisor.Subscribe | packages/connection-supervisor/src/createManagedEndpointSupervisor.ts:246-250 | a new listener hears the current state at once and is registered |
| EndpointSupervisor.Supervisor.Start | packages/connection-supervisor/src/createManagedEndpointSupervisor.ts:253-281 | the whole new state: joining a start in flight, a relaunch, or a first launch |
| EndpointSupervisor.Supervisor.Stop | packages/connection-supervisor/src/createManagedEndpointSupervisor.ts:282-294 | the whole new state: shutting_down published, timer cleared, waiters left alone |
| EndpointSupervisor.Supervisor.Handle | packages/connection-supervisor/src/createManagedEndpointSupervisor.ts:34-304 | for every event that can happen, the object moves as the model says and keeps the invariant |
| EndpointProofs.StepKeeps | packages/connection-supervisor/src/createManagedEndpointSupervisor.ts:44-294 | every step keeps the invariant: timers, probes, phases, attempts, freshness, waiters |
| EndpointProofs.EveryRun | packages/connection-supervisor/src/createManagedEndpointSupervisor.ts:34-304 | the invariant holds in every state of every run |
| EndpointRuns.NeitherStallsNorRunsTwice | packages/connection-supervisor/src/createManagedEndpointSupervisor.ts:58-208 | in every run: connecting means exactly one wanted probe, offline exactly one armed timer and a retry time, otherwise neither; stopped means shutting_down without a timer |
| EndpointRuns.OnlineIsFresh | packages/connection-supervisor/src/createManagedEndpointSupervisor.ts:78-208 | in every run, online rests on a probe begun no earlier than the last invalidate or report, and no invalidation is pending |
| EndpointRuns.HistoryIsHonest | packages/connection-supervisor/src/createManagedEndpointSupervisor.ts:92-208 | the dates that freshness compares are those of the calls and of the probe that answered |
| EndpointRuns.AttemptsCountFailures | packages/connection-supervisor/src/createManagedEndpointSupervisor.ts:58-173 | in every run, attempt is the number of transitions into offline since the last start that launched a probe |
| EndpointRuns.AttemptGrowsByRetries | packages/connection-supervisor/src/createManagedEndpointSupervisor.ts:58-208 | between such starts each step raises it by the retries it schedules, going online, stale answers and invalidations included |
| EndpointRuns.OnlyStartsResetCount | packages/connection-supervisor/src/createManagedEndpointSupervisor.ts:259-270 | only a start that launches a probe begins a new count, at zero |
| EndpointStatuses.StatusesTellTheTruth | packages/connection-supervisor/src/createManagedEndpointSupervisor.ts:58-294 | in every run, each status ever published has the reason, times and message of its phase, shows the probe that led there, and never a retry due before the failure |
| EndpointRuns.ListenersAccountedFor | packages/connection-supervisor/src/createManagedEndpointSupervisor.ts:210-250 | in every run the listeners are exactly the subscribers and the unsettled waiters; timers belong to unsettled waiters; none is unsettled while online or auth_failed |
| EndpointProofs.WaiterSettlesOnce | packages/connection-supervisor/src/createManagedEndpointSupervisor.ts:217-243 | a settled waiter keeps its verdict; an unsettled one gets it from its timeout or from the first online or auth_failed published |
| EndpointProofs.SubscribersHearEverything | packages/connection-supervisor/src/createManagedEndpointSupervisor.ts:44-50 | a subscriber's inbox grows by exactly what was published, in order |
| EndpointProofs.RunWhileOut | packages/connection-supervisor/src/createManagedEndpointSupervisor.ts:92-151 | over any run during which a probe stays out, whatever is interleaved, no other probe begins, and the mark is set exactly if an invalidation came |
| EndpointProofs.InvalidationsCostOneProbe | packages/connection-supervisor/src/createManagedEndpointSupervisor.ts:92-151 | after any such run the answer begins one more probe exactly if it is ready and any number of invalidations came, and none otherwise |
| EndpointProofs.StaleAnswersIgnored | packages/connection-supervisor/src/createManagedEndpointSupervisor.ts:93 | the answer of a superseded probe changes nothing but its own promise |
| EndpointProofs.StopIsFinal | packages/connection-supervisor/src/createManagedEndpointSupervisor.ts:282-294 | from stop to the next start nothing is published and no timer is armed, whatever resumes |
| EndpointLaws.EveryFailureCounts | packages/connection-supervisor/src/createManagedEndpointSupervisor.ts:109-125 | in every run a failed answer that is wanted, or a failure reported in a phase that heeds it, publishes offline with one attempt more, due after the wait for that attempt, with the one timer holding it and no probe wanted |
| EndpointLaws.EveryRefusalRests | packages/connection-supervisor/src/createManagedEndpointSupervisor.ts:96-107 | a refusal publishes auth_failed at the attempt reached, with no timer and no probe wanted |
| EndpointLaws.ReadyBringsOnline | packages/connection-supervisor/src/createManagedEndpointSupervisor.ts:127-145 | a ready answer publishes online at the attempt reached, and, if an invalidation is marked, begins exactly one probe more |
| EndpointLaws.OthersDoNotCount | packages/connection-supervisor/src/createManagedEndpointSupervisor.ts:153-178 | any other answer or report publishes, arms and begins nothing |
| EndpointLaws.InvalidationsProbe | packages/connection-supervisor/src/createManagedEndpointSupervisor.ts:143-151 | an invalidation is marked while connecting, and otherwise begins one probe at the attempt reached |
| EndpointLaws.RetriesProbe | packages/connection-supervisor/src/createManagedEndpointSupervisor.ts:73-76 | the retry timer begins one probe at the attempt the last failure counted |
| EndpointLaws.StartsProbe | packages/connection-supervisor/src/createManagedEndpointSupervisor.ts:253-280 | a start is joined, or has nothing to do, or begins a probe at attempt zero, initial unless the supervisor was running |
| EndpointLaws.StartsSettle | packages/connection-supervisor/src/createManagedEndpointSupervisor.ts:269-279 | the promise of a start settles with its own probe and is then forgotten |
| EndpointLaws.StopsAll | packages/connection-supervisor/src/createManagedEndpointSupervisor.ts:282-294 | a stop publishes shutting_down and leaves no timer, mark or start in flight |
| EndpointLaws.WaitersHearTheFirst | packages/connection-supervisor/src/createManagedEndpointSupervisor.ts:227-236 | a pending waiter is resolved exactly if the first online or auth_failed status a step publishes is online, rejected exactly if it is auth_failed, timed out exactly by its own timeout; a settled one stays as it is |
| EndpointLaws.EverybodyIsTold | packages/connection-supervisor/src/createManagedEndpointSupervisor.ts:227-236 | a step that publishes online or auth_failed settles every pending waiter |
| EndpointLaws.WaitsBegin | packages/connection-supervisor/src/createManagedEndpointSupervisor.ts:210-226 | a call to wait is resolved at once when online, rejected at once when auth_failed, and otherwise pending, with its timer if timed |
| EndpointLaws.SubscribersComeAndGo | packages/connection-supervisor/src/createManagedEndpointSupervisor.ts:246-250 | a subscriber hears the current status at once, and one that has left hears nothing until it returns |
| ConnectionSupervisor.Supervisor.constructor | packages/connection-supervisor/src/createManagedConnectionSupervisor.ts:39-52 | the initial state |
| ConnectionSupervisor.Supervisor.CleanupTransport | packages/connection-supervisor/src/createManagedConnectionSupervisor.ts:65-76 | the loop detaches every listener of the current transport, which is forgotten and handed to teardown |
| ConnectionSupervisor.Supervisor.ApplyReport | packages/connection-supervisor/src/createManagedConnectionSupervisor.ts:197-204 | a heeded report takes a new generation, clears the timer and begins a cleanup |
| ConnectionSupervisor.Supervisor.Start | packages/connection-supervisor/src/createManagedConnectionSupervisor.ts:334-364 | the whole new state: joining a start in flight, a relaunch, or a first launch |
| ConnectionSupervisor.Supervisor.Stop | packages/connection-supervisor/src/createManagedConnectionSupervisor.ts:365-377 | the whole new state: shutting_down published, timer cleared, the transport handed to teardown |
| ConnectionSupervisor.Supervisor.Handle | packages/connection-supervisor/src/createManagedConnectionSupervisor.ts:39-383 | for every event that can happen, the object moves as the model says and keeps the invariant |
| ConnectionProofs.StepKeeps | packages/connection-supervisor/src/createManagedConnectionSupervisor.ts:54-377 | every step keeps the invariant: timers, generations, transports, stop, reconnect winners |
| ConnectionProofs.EveryRun | packages/connection-supervisor/src/createManagedConnectionSupervisor.ts:39-383 | the invariant holds in every state of every run, in all interleavings |
| ConnectionRuns.AtMostOneEffective | packages/connection-supervisor/src/createManagedConnectionSupervisor.ts:79-149 | in every run, of all transports ever created at most one passes the generation guards |
| ConnectionStatuses.StatusesTellTheTruth | packages/connection-supervisor/src/createManagedConnectionSupervisor.ts:94-377 | in every run, each status ever published has the reason and times of its phase; a retry time only ever shows while offline |
| ConnectionRuns.SupersededForever | packages/connection-supervisor/src/createManagedConnectionSupervisor.ts:127-149 | a superseded transport never passes the guards again, restarts included |
| ConnectionRuns.SupersededIsSilent | packages/connection-supervisor/src/createManagedConnectionSupervisor.ts:126-177 | at no later point of any run does an event of a superseded transport change anything |
| ConnectionRuns.TimersAreRemembered | packages/connection-supervisor/src/createManagedConnectionSupervisor.ts:59-63 | in every run the timers that can still fire are exactly the one in retryTimer; stopped, there is neither timer nor transport |
| ConnectionRuns.CleanedUpAtMostOnce | packages/connection-supervisor/src/createManagedConnectionSupervisor.ts:65-76 | in every run no transport is handed to teardown twice, and one that was is not current and has no listener left |
| ConnectionProofs.OneWinnerPerGeneration | packages/connection-supervisor/src/createManagedConnectionSupervisor.ts:241-281 | in every run, of the reconnects begun in one generation at most one reaches establishConnection |
| ConnectionProofs.StaleFramesAreIgnored | packages/connection-supervisor/src/createManagedConnectionSupervisor.ts:91-281 | a superseded continuation, other than one in the cleanup of establishConnection, changes nothing but its own promise |
| ConnectionProofs.StopIsFinal | packages/connection-supervisor/src/createManagedConnectionSupervisor.ts:365-377 | from stop to the next start nothing is published, adopted or armed, whatever resumes |
| ConnectionLaws.FailedReconnectCounts | packages/connection-supervisor/src/createManagedConnectionSupervisor.ts:264-274 | in every run a failed probe of the current reconnect with captured attempt a publishes offline at a + 1, due after the delay the server asks for or the backoff of a + 1, with the one timer holding a + 1 |
| ConnectionLaws.FailedInitialProbeCounts | packages/connection-supervisor/src/createManagedConnectionSupervisor.ts:90-119 | a failed probe before the first connect likewise, from one on, and its start returns |
| ConnectionLaws.ReportedFailureCounts | packages/connection-supervisor/src/createManagedConnectionSupervisor.ts:222-234 | a reported failure, once the transport is torn down: one attempt more than shown, and the first retries fast |
| ConnectionLaws.RefusalsRest | packages/connection-supervisor/src/createManagedConnectionSupervisor.ts:92-103 | a refusal, of either probe or reported, publishes auth_failed at its attempt and arms nothing |
| ConnectionLaws.ReadyInitialProbeOpens | packages/connection-supervisor/src/createManagedConnectionSupervisor.ts:121-169 | a ready probe before the first connect opens one wired transport, connecting at the attempt of the start |
| ConnectionLaws.ReadyReconnectProbeGoesOn | packages/connection-supervisor/src/createManagedConnectionSupervisor.ts:277-279 | a ready probe before a reconnect awaits the hook of the caller, for the same attempt |
| ConnectionLaws.ReconnectsEstablish | packages/connection-supervisor/src/createManagedConnectionSupervisor.ts:279-280 | after the hook a connection is established at the same attempt, in a new generation, with no timer, and an old transport handed over as not intended |
| ConnectionLaws.CleanupsGoOn | packages/connection-supervisor/src/createManagedConnectionSupervisor.ts:84-123 | after that cleanup the probe or the transport follows with the captured generation and attempt |
| ConnectionLaws.ConnectionsAreOnline | packages/connection-supervisor/src/createManagedConnectionSupervisor.ts:126-143 | a connection publishes online at the attempt of its transport, from which the next disconnect counts, and leaves no timer |
| ConnectionLaws.DisconnectsCount | packages/connection-supervisor/src/createManagedConnectionSupervisor.ts:302-317 | a disconnect publishes offline one attempt on, manual or not, with nothing due |
| ConnectionLaws.DisconnectsRetry | packages/connection-supervisor/src/createManagedConnectionSupervisor.ts:318-331 | and then retries at that attempt, unless it was intentional or refused since |
| ConnectionLaws.ErrorsCount | packages/connection-supervisor/src/createManagedConnectionSupervisor.ts:148-184 | an error of the connecting transport is a reported result if classified, and else a failure that counts; any other error is only shown |
| ConnectionLaws.ReportsAreHeeded | packages/connection-supervisor/src/createManagedConnectionSupervisor.ts:197-207 | a reported result is heeded exactly while online, connecting or offline |
| ConnectionLaws.FailedConnectsAreReports | packages/connection-supervisor/src/createManagedConnectionSupervisor.ts:189-194 | a failed connect is a reported result, and one that returns only lets its start return |
| ConnectionLaws.OthersLetReturn | packages/connection-supervisor/src/createManagedConnectionSupervisor.ts:84-87 | a continuation that is superseded, stopped or awaited a notice lets its start return and does nothing else |
| ConnectionLaws.RetriesProbe | packages/connection-supervisor/src/createManagedConnectionSupervisor.ts:297-300 | the retry timer begins a probe for the attempt it held, in the generation of that moment |
| ConnectionLaws.StartsEstablish | packages/connection-supervisor/src/createManagedConnectionSupervisor.ts:334-364 | a start is joined, or has nothing to do, or establishes a connection at attempt zero |
| ConnectionLaws.StopsAll | packages/connection-supervisor/src/createManagedConnectionSupervisor.ts:365-377 | a stop publishes shutting_down, leaves no timer and hands the transport over as intended |
| ConnectionLaws.TeardownsProceed | packages/connection-supervisor/src/createManagedConnectionSupervisor.ts:72-75 | a teardown disconnects, then destroys, then is done |
| ConnectionLaws.AttemptsCountFailures | packages/connection-supervisor/src/createManagedConnectionSupervisor.ts:241-300 | over any run of retries the attempt shown and held by the timer is the first one plus the number of failed probes |
| ConnectionLeaks.StepLeaks | packages/connection-supervisor/src/createManagedConnectionSupervisor.ts:65-123 | a step leaks exactly the transport that was current while another was created, and no step ever recovers one |
| ConnectionLeaks.RunLeaks | packages/connection-supervisor/src/createManagedConnectionSupervisor.ts:78-125 | over any run the transports neither current nor handed to teardown are exactly the overwritten ones |
| ConnectionLeaks.QuietRunsNeverLeak | packages/connection-supervisor/src/createManagedConnectionSupervisor.ts:65-377 | if no start and no reported result lands during the cleanup of an establishConnection, every transport is current or was handed to teardown exactly once with its listeners detached; stopped, none is left |
| ConnectionLeaks.RestartDuringCleanupLeaks | packages/connection-supervisor/src/createManagedConnectionSupervisor.ts:81-84 | a run with restarts during the cleanup that leaks a transport whose events are heeded while the current one is ignored |
| ConnectionProgress.StepStrands | packages/connection-supervisor/src/createManagedConnectionSupervisor.ts:78-125 | a step of a driven supervisor leaves it stuck (unstopped, connecting, with no timer, no continuation of the current generation that goes on and no transport that is heeded) exactly if it resumes a superseded cleanup that opens a transport while nothing else moves the supervisor and no transport is heeded; after every other step it is driven again |
| ConnectionProgress.StrandedWhileRefused | packages/connection-supervisor/src/createManagedConnectionSupervisor.ts:82-84 | a driven supervisor is only ever stranded in phase auth_failed |
| ConnectionProgress.StallsIffStranded | packages/connection-supervisor/src/createManagedConnectionSupervisor.ts:78-377 | after any run an unstopped supervisor has a timer armed or a continuation that goes on, or rests where it may (connecting or online with a heeded transport, offline after an intentional disconnect, refused, never started), or is stuck; it is stuck exactly if some step stranded it with no stop and no reported result after it |
| ConnectionProgress.QuietRunsDoNotStall | packages/connection-supervisor/src/createManagedConnectionSupervisor.ts:78-353 | in particular, if no start and no reported result lands during the cleanup of an establishConnection it is never stuck, and the transport it rests with is the current one |
| ConnectionProgress.IntentionalDisconnectRests | packages/connection-supervisor/src/createManagedConnectionSupervisor.ts:302-319 | a run that rests after an intentional disconnect |
| ConnectionProgress.RefusalRests | packages/connection-supervisor/src/createManagedConnectionSupervisor.ts:209-219 | a run that rests after a refusal, with no transport left |
| ConnectionProgress.ReportDuringCleanupStrands | packages/connection-supervisor/src/createManagedConnectionSupervisor.ts:81-84 | a run, outside that hypothesis, that ends stuck |
| ConnectionProgress.StuckForGood | packages/connection-supervisor/src/createManagedConnectionSupervisor.ts:334-344 | a stuck supervisor stays stuck over any run without a stop or a reported result, starts included; it publishes nothing but connecting, and nothing at all once no cleanup is awaited |
| SettingsHome.Home.constructor | apps/cli/src/persistence.ts:515-518 | no lock, no callers, the given files |
| SettingsHome.Home.Handle | apps/cli/src/persistence.ts:472-613 | every event moves the files and callers as the model says, and keeps the invariant exactly if it creates no missing lock while somebody is inside |
| SettingsLock.StepKeepsExclusive | apps/cli/src/persistence.ts:539-612 | a step keeps whoever is inside the owner of the lock, exactly if it is not the reclaim of a lock whose owner is at work |
| SettingsLock.SecondCallerEnters | apps/cli/src/persistence.ts:539-546 | a step ends plain mutual exclusion exactly if it creates the lock, which is missing, while somebody is inside |
| SettingsLock.ExclusiveIffUnintruded | apps/cli/src/persistence.ts:539-612 | mutual exclusion holds in every state of a run exactly if no step does that |
| SettingsLock.UndisturbedRunsAreUnintruded | apps/cli/src/persistence.ts:555-612 | in particular if no lock is reclaimed from an owner at work |
| SettingsLock.StepFolds | apps/cli/src/persistence.ts:592-612 | a step keeps whoever is inside up to date and the settings the fold of the committed updaters in lock order, with the latest ticket inside, exactly if no second caller comes in |
| SettingsLock.NoLostUpdate | apps/cli/src/persistence.ts:472-613 | no update is lost while mutual exclusion holds: over any run in which nobody creates the lock while somebody is inside, with any number of callers, reclaims and crashes, at most one is inside, the file is the fold of the committed updates in lock order, a caller is told of success exactly if its update is among them, nobody tries more than 50 times |
| SettingsLock.StaleLockLosesUpdate | apps/cli/src/persistence.ts:578-580 | a run with a ten-second-old lock in which two callers succeed and one update is lost |
| SettingsLockLaws.ReclaimsIff | apps/cli/src/persistence.ts:555-580 | a waiting caller goes on to take the lock away exactly if it names a dead or unknown owner, or names none and is over 1000 ms old, or is over 10000 ms old |
| SettingsLockLaws.DeadOwnerIsReplaced | apps/cli/src/persistence.ts:539-612 | once the owner of a named lock has crashed, a waiting caller that sees it dead and has a try left gets in at once, and commits if nothing fails |
| SettingsLockLaws.WorkCommits | apps/cli/src/persistence.ts:592-612 | undisturbed work leaves what the job makes of the settings, no lock, no temporary file, and success |
| SettingsLockLaws.ThrowingUpdaterReleases | apps/cli/src/persistence.ts:592-612 | an updater that throws changes no settings and releases the lock |
| SettingsLockLaws.FreeLockIsTaken | apps/cli/src/persistence.ts:541-543 | a caller that finds no lock file creates it and is in |
| SettingsLockLaws.TriesFiftyTimes | apps/cli/src/persistence.ts:539-590 | against a lock held by a live owner it tries fifty times and then gives up |
| SettingsLockLaws.GivesUpOnlyThen | apps/cli/src/persistence.ts:539-590 | no step makes a caller give up earlier, unless opening or naming the lock fails |
| SettingsLockLaws.MissingDirectoryCostsTry | apps/cli/src/persistence.ts:546-550 | a missing directory costs one try |
| SettingsLockLaws.RenamesThirtyTimes | apps/cli/src/persistence.ts:484-506 | a rename that fails for a transient reason is tried thirty times in all |
| SettingsLockLaws.OtherErrorsEndRenaming | apps/cli/src/persistence.ts:494-500 | one that fails for another reason is not tried again |
| SettingsLockLaws.ErrorsThrow | apps/cli/src/persistence.ts:583-611 | errors while opening, naming and writing, and crashes |
| SettingsLockLaws.LostFiles | apps/cli/src/persistence.ts:542-611 | what happens to a caller whose lock or temporary file is gone |
| SettingsMigration.MigrateSettings | apps/cli/src/persistence.ts:205-298 | the staged statements compute the composed stages |
| SettingsMigration.MoveToCloud | apps/cli/src/persistence.ts:224-265 | the statements of the fifth stage, fields read before they are removed |
| SettingsMigration.MigrateServers | apps/cli/src/persistence.ts:272-289 | the loop over the server records migrates each of them in place |
| SettingsMigration.MigrateServer | apps/cli/src/persistence.ts:275-287 | one record: a differing public address becomes canonical, a device-local canonical one local |
| SettingsMigration.EndsAtSix | apps/cli/src/persistence.ts:205-298 | settings of any version up to 6, or none, end at 6; newer ones and those without a numeric version are left alone |
| SettingsMigration.SixthStageFields | apps/cli/src/persistence.ts:267-292 | the last stage changes the version and the servers and no other field |
| SettingsMigration.FifthStageFields | apps/cli/src/persistence.ts:224-265 | what becomes of every field when single-server state moves under the cloud server |
| SettingsMigration.LastStageTwice | apps/cli/src/persistence.ts:267-292 | re-running the last stage on its own output changes nothing |
| SettingsMigration.MigratingAgain | apps/cli/src/persistence.ts:205-298 | migrated settings, read again, stay as they are |
| SettingsMigration.SingleServerStateComesBack | apps/cli/src/persistence.ts:243-262 | machine id, confirmation and cursor of a v4 file read back on the cloud server as they were, if well formed |
| SettingsMigration.DerivedNeverStored | apps/cli/src/persistence.ts:422-452 | what reading derives never reaches the disk: writing back what was read stores what was stored |
| SettingsFields.MigratedFieldByField | apps/cli/src/persistence.ts:205-298 | every field after migration from every older version: what is removed below 3 and below 4, what is set and moved below 5, the rewritten servers, and all other keys as they were |
| SettingsFields.VersionIsRead | apps/cli/src/persistence.ts:389 | a missing version counts as 1 |
| SettingsFields.NewerStays | apps/cli/src/persistence.ts:205-298 | settings of version 6 or later, or with a version that is no number, stay as they are |
| SettingsFields.ServersByEntry | apps/cli/src/persistence.ts:272-292 | the server records are migrated one by one, in place |
| SettingsReaders.MigratedFields | apps/cli/src/persistence.ts:275-289 | the fields of one migrated server record |
| SettingsFields.AddressNormalized | apps/cli/src/persistence.ts:269-270 | normalizing takes white space off both ends, then all slashes off the end, and nothing else |
| SettingsFields.DerivedFieldByField | apps/cli/src/persistence.ts:417-431 | what reading derives, field by field |
| SettingsFields.WrittenFieldByField | apps/cli/src/persistence.ts:440-451 | what is written: everything before version 5, and from then on all but the three derived fields |
| JsText.TrimTakesBlanks | apps/cli/src/persistence.ts:237 | trimming takes white space off both ends, all of it and nothing else |
| JsText.BlankCharacters | apps/cli/src/persistence.ts:237 | the characters that count as white space |
| SettingsReaders.ReadActiveServer | apps/cli/src/configuration.ts:1017-1059 | the loop yields the profiles with later entries winning, or nothing if the active one is missing |
| SettingsReaders.ProfileAgrees | apps/cli/src/configuration.ts:1029-1052 | a profile reads the same raw and migrated exactly if it has no differing public address, or is skipped either way, or no white space is left before stripped slashes and the former canonical address, if device-local, does not replace another local one |
| SettingsReaders.NormalizedAgain | apps/cli/src/configuration.ts:1028 | normalizing an address twice changes nothing exactly if no white space is left at its end |
| SettingsReaders.LocalAddressIsReplaced | apps/cli/src/persistence.ts:278-283 | a local address that is already set is read raw, but replaced by the migration |
| SettingsReaders.DistinctServersAgree | apps/cli/src/configuration.ts:1027-1053 | with distinct ids the whole record reads the same exactly if every profile does |
| SettingsReaders.WinnersDecide | apps/cli/src/configuration.ts:1027-1053 | with shared ids too, the whole record reads the same before and after exactly if the last readable entries of each id do |
| SettingsReaders.SteadyWinnersDecide | apps/cli/src/configuration.ts:1027-1053 | if the migration leaves alone which entries are readable, exactly if every entry that wins agrees |
| SettingsReaders.TwoReadersAgree | apps/cli/src/configuration.ts:1017-1059 | from version 5 on the selection is the same before and after migration exactly if there is nothing to migrate, or the winning entries read the same, or the active server is readable neither before nor after; every profile agreeing is enough |
| SettingsReaders.PlainSettingsAgree | apps/cli/src/persistence.ts:267-292 | the common case: no white space in addresses, a canonical one, no local one yet |
| SettingsReaders.ProfileByField | apps/cli/src/configuration.ts:1029-1052 | how one entry reads, field by field, and when it is skipped |
| SettingsReaders.SelectionHolds | apps/cli/src/configuration.ts:1017-1056 | which files yield a selection, and that it holds exactly what the last readable entry of each id reads |
| StableJson.BeforeOrder | apps/ui/fingerprint.config.js:57-60 | the order in which the rebuilt object enumerates its members is a strict total order on keys |
| StableJson.RebuildOrders | apps/ui/fingerprint.config.js:57-61 | assigning the sorted members to a new object puts them in that order and loses exactly `__proto__` |
| StableJsonProofs.ContentKept | apps/ui/fingerprint.config.js:50-62 | canonicalization keeps the content of a value at every depth, `__proto__` members excepted |
| StableJsonProofs.CanonicalIsUnique | apps/ui/fingerprint.config.js:50-62 | each content has one canonical form |
| StableJsonProofs.SameTreeIffSameContent | apps/ui/fingerprint.config.js:38-62 | two values get the same ordered tree exactly if they are equal up to key order at every depth, `__proto__` members aside |
| StableJsonProofs.NormalizeIsIdempotent | apps/ui/fingerprint.config.js:50-62 | canonicalizing twice changes nothing |
| StableJsonProofs.WholeContentKept | apps/ui/fingerprint.config.js:59-60 | the whole content is kept exactly for values without `__proto__` members |
| StableJsonProofs.ProtoIsLost | apps/ui/fingerprint.config.js:59-60 | an object with only a `__proto__` member passes for the empty one |
| KeyOrder.IndexIsNumeral | apps/ui/fingerprint.config.js:57-60 | the keys enumerated first are the decimal numerals of 0 to 4294967294 |
| KeyOrder.CanonicalOrder | apps/ui/fingerprint.config.js:57-60 | numerals come in the order of their numbers, before all other keys, which compare at their first difference |
| KeyOrder.CharactersByUnits | apps/ui/fingerprint.config.js:57 | characters compare by UTF-16 code units |
| EasProfiles.ResolveIsNearest | apps/ui/fingerprint.config.js:97-110 | the recursive lookup ends on every `extends` graph and finds exactly the nearest APP_ENV along it |
| EasProfiles.KeptIsClosed | apps/ui/fingerprint.config.js:112-138 | the kept set holds base, if there, and every matching profile, and is closed under `extends` |
| EasProfiles.KeptIsLeast | apps/ui/fingerprint.config.js:112-138 | and it is the least such set |
| EasProfiles.MatchingProfiles | apps/ui/fingerprint.config.js:113-123 | the first loop yields base and the profiles whose nearest APP_ENV is the active one |
| EasProfiles.AddParents | apps/ui/fingerprint.config.js:128-137 | one round of the second loop adds parents only, and reports a change exactly if it made one |
| EasProfiles.KeepProfiles | apps/ui/fingerprint.config.js:112-138 | both loops together compute the kept set, and end even on cyclic graphs |
| EasProfiles.EditKeepsSelection | apps/ui/fingerprint.config.js:97-138 | after an edit outside the kept set the same profiles are kept exactly if the edit adds neither base nor a parent of a kept profile nor an outside profile that resolves to the active APP_ENV |
| EasProfiles.SelectionIsStable | apps/ui/fingerprint.config.js:112-144 | selecting among the kept profiles keeps them all |
| EasProfiles.SelectionWithout | apps/ui/fingerprint.config.js:112-144 | without one lost profile, exactly if that profile was not needed in the first place |
| EasSelection.ProfileReads | apps/ui/fingerprint.config.js:102-105 | a profile has the APP_ENV of its env object and extends what it says, each whatever the other is |
| EasSelection.OutputHolds | apps/ui/fingerprint.config.js:112-146 | the output holds a profile, as it was, exactly if a chain of `extends` in the JSON leads to it from base or from a profile that resolves along `extends` to the active APP_ENV; everything but `build` stays |
| EasSelection.NothingToSelect | apps/ui/fingerprint.config.js:79-82 | without a build object the file stays as it is |
| EasJson.CanonicalizeEasJson | apps/ui/fingerprint.config.js:79-147 | the whole function, guards, loops and output object |
| EasJson.NextBuildHolds | apps/ui/fingerprint.config.js:140-146 | the output object holds the kept profiles unchanged, in enumeration order, except one called `__proto__` |
| EasJsonProofs.UnrelatedEditsChangeNothing | apps/ui/fingerprint.config.js:79-147 | editing profiles outside the kept set leaves the output equal if the edit is unrelated, and only then unless it brings in `__proto__` |
| EasJsonProofs.CanonicalTwice | apps/ui/fingerprint.config.js:79-147 | idempotent exactly if the selection does not hang on a profile called `__proto__` |
| EasJsonProofs.CanonicalTwiceUsually | apps/ui/fingerprint.config.js:79-147 | in particular if no profile of that name is kept |
| EasJsonProofs.CanonicalTwiceWithoutProto | apps/ui/fingerprint.config.js:79-147 | in particular if the build object has no profile of that name at all |
| EasJsonProofs.ProtoFileIsNotStable | apps/ui/fingerprint.config.js:141-144 | an eas.json whose canonical form, canonicalized again, loses one more profile |
| EasContent.FingerprintDependsOnContent | apps/ui/fingerprint.config.js:273-277 | two eas.json values with the same content, however ordered, give the same canonical tree |
| FingerprintHook.Hook.Transform | apps/ui/fingerprint.config.js:214-292 | answer and buffers after a call: passed through, buffered, or canonicalized at the end with a fallback to the bytes |
| FingerprintHook.Hook.Canonicalized | apps/ui/fingerprint.config.js:234-288 | the text of a whole file, by kind, and the file itself if it does not parse |
| FingerprintHook.ChunksDoNotMatter | apps/ui/fingerprint.config.js:223-289 | however a file is cut into chunks, nothing comes out before its end, then the result for all its bytes, and nothing stays behind |
| FingerprintHook.SameBytesSameOutput | apps/ui/fingerprint.config.js:223-289 | two ways of cutting the same bytes end in the same output and the same buffers |
| FingerprintHook.FilesDoNotMix | apps/ui/fingerprint.config.js:214-292 | in any sequence of calls each kind of file is answered as if its calls had come alone |
| FingerprintHook.CallByName | apps/ui/fingerprint.config.js:223-289 | one call for each of the three sources, by name: what is buffered and what comes out at the end |
| FingerprintHook.OthersPassThrough | apps/ui/fingerprint.config.js:221-292 | any other source, and any without APP_ENV, passes through untouched |
| FingerprintSecrets.OnlySecretsAreHidden | apps/ui/fingerprint.config.js:236-254 | two values of `extra.app` in the same configuration give the same tree exactly if they say the same outside the four redacted keys, `__proto__` members and the order of members aside |
| FingerprintSecrets.FourKeysLeftOut | apps/ui/fingerprint.config.js:236-254 | the redaction leaves out exactly the four named keys of `extra.app` |
| CommandQuotingProofs.CaretsUndone | apps/server/scripts/runCommand.ts:17-27 | the caret pass of cmd.exe undoes the carets on any text, and no operator in it takes effect |
| CommandQuotingProofs.CaretedByCharacter | apps/server/scripts/runCommand.ts:3 | exactly the listed characters get a caret, each for itself |
| CommandQuotingProofs.ShimReachesRuntime | apps/server/scripts/runCommand.ts:29-43 | what reaches the program is the command and the quoted arguments, each after one space |
| CommandQuotingProofs.EmittedIsEscaped | apps/server/scripts/runCommand.ts:21-25 | the two replacements, seen as what they do to each run of backslashes |
| CommandQuotingProofs.ReadBack | apps/server/scripts/runCommand.ts:21-37 | the runtime reads back the argument list exactly if it is faithful |
| CommandQuotingProofs.ShimRoundTrip | apps/server/scripts/runCommand.ts:17-43 | for every command and argument list: cmd.exe runs that command and the program reads that list exactly if the command has no tab, equals sign or slash and no at sign in front, is empty only without arguments, and the list is faithful |
| CommandQuotingProofs.CleanIsFaithful | apps/server/scripts/runCommand.ts:21-27 | lists in which no run of two or more backslashes precedes a quote or the end of an argument are faithful |
| CommandQuotingProofs.DoubledBackslashesFail | apps/server/scripts/runCommand.ts:23-24 | lists that come back wrong, and one that comes back right by an open quote |
| ModuleIds.FirstFree | apps/ui/metro.config.js:147-149 | the least free id from the first choice on |
| ModuleIds.ModuleIdFactory.constructor | apps/ui/metro.config.js:126-133 | the initial counters and empty maps |
| ModuleIds.ModuleIdFactory.ModuleId | apps/ui/metro.config.js:135-156 | the whole new state and the id; the probing loop ends at the least free id |
| ModuleIds.SameNameSameId | apps/ui/metro.config.js:136 | in every run all answers for a name are the id it has at the end |
| ModuleIds.OrdinaryIdIsNew | apps/ui/metro.config.js:143-155 | in every run a new ordinary id differs from all ids before it, and in bundle mode lies between the offset and nextOrdinaryModuleId |
| ModuleIds.PreferenceIsHonoured | apps/ui/metro.config.js:101-156 | in every run a new name gets its worklet number, or the least id not taken from its preference on, shifted by 1,000,000,000 in bundle mode |
| ModuleIds.InjectiveIffNumbersFree | apps/ui/metro.config.js:135-156 | distinct names have distinct ids exactly if every worklet number was free when it came up |
| ModuleIds.AnswersTellApartIffFree | apps/ui/metro.config.js:135-156 | in every run answers are equal exactly for equal names, exactly if every worklet number was free when it came up |
| ModuleIds.DistinctNamesDistinctIds | apps/ui/metro.config.js:135-156 | without bundle mode answers are equal exactly for equal names, for any preferences; in bundle mode, while the numbers among the requested names are below the offset, exactly if those numbers are distinct |
| ModuleIds.LargeNumbersClash | apps/ui/metro.config.js:137-142 | a worklet number at the offset clashes with an ordinary module |
| ModuleIds.NumbersInOrder | apps/ui/metro.config.js:143-155 | without bundle mode and existing factory, new names are numbered 0, 1, 2 and so on |
| FeatureClosure.ClosureIsLeast | scripts/testing/featureTestGating.ts:30-47 | the features from which a path leads to a disabled one are the least closed superset |
| FeatureClosure.ClosureIsMonotone | scripts/testing/featureTestGating.ts:30-47 | the closure is monotone and closing twice changes nothing |
| FeatureClosure.Pass | scripts/testing/featureTestGating.ts:35-43 | one round adds affected features only, and reports a change exactly if it made one |
| FeatureClosure.ApplyDependencyClosure | scripts/testing/featureTestGating.ts:30-47 | the loop ends and computes the closure, whatever the order of the feature ids |
| FeatureClosure.ResolveDisabled | scripts/testing/featureTestGating.ts:11-51 | a feature ends up disabled exactly if a dependency path leads from it to one that the policy denies |

## Left out

- Callbacks that throw or call back into a supervisor; the supervisors are modelled for callbacks that do neither.
- EasProfiles.ResolveIsNearest: the set of profiles seen is passed by value instead of being changed in place; nothing reads it after the lookup. FeatureClosure.ApplyDependencyClosure likewise returns the set it has grown.
- Real time and floating point: clocks are arbitrary numbers, delays exact reals, and policies finite; NaN and infinite policy values are excluded by the types.
- Callers that merely await a start in flight: when their promise settles is not modelled, only that the shared start settles.
- A synchronous throw of `probeReadiness`, `createTransport` or a listener registration.
- SettingsLock.NoLostUpdate: says nothing about runs in which a second caller comes in, because the guarantee is false there (see SettingsLock.StaleLockLosesUpdate).
- SettingsLock.StepFolds: an error while writing the process id counts as a thrown error that leaves the lock file behind; the settings file and lock are modelled as values, permissions and the chmod calls are not.
- The wait of 100 ms between attempts: a waiting caller may inspect the lock at any later time.
- `readSettings` inside `updateSettings`: it is part of the caller's job, an arbitrary function of the file.
- SettingsMigration.MigrateSettings: works on values, so that the shallow copy shares its server records with the raw object is not captured; a settings file that is not a JSON object, and version numbers that are infinite, are left out.
- SettingsReaders.ReadActiveServer: server ids that name members of `Object.prototype`, which a plain record already has, are left out.
- `sanitizeServerIdForFilesystem`, `isLocalishServerUrl`, `String`, `Number` and lower-casing are arbitrary functions; only what they do to plain strings and numbers is assumed, and only where a lemma says so.
- The environment overrides of the `Configuration` constructor and the merge with default settings.
- The text of `JSON.stringify` and the parsing of JSON: canonical trees are compared, not their text; lone surrogates in strings are left out.
- FingerprintHook.Hook.Transform: a chunk given as a string counts as its encoding, so a character split between two string chunks is left out; `resolveCanonicalVariantConfig` is an arbitrary function of APP_ENV.
- cmd.exe percent expansion, line breaks, and the second parse inside a `.cmd` shim: one caret pass, one split of the command from its arguments and one argument pass are modelled.
- ModuleIds.ModuleIdFactory.ModuleId: ids are unbounded integers, so that adding one stops working at 2^53 is left out, as are worklet names whose number is not an integer and, outside bundle mode, preferences that are no integers.
- `acquireDaemonLock`, the setup build coordinator and other lock files: their reclaim races have the same shape as the one modelled.
- `getState`, remote policies, error codes, release rings, log buffers and declarative schemas: they would only add easy members.
