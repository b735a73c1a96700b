# Relay gateway: verified model

A Dafny model of the protocols of the relay gateway that have to survive crashes, interleavings and
late results, with proofs about all their runs. `dafny verify dfyconfig.toml` checks everything.

Each protocol is specified by functions on values, with its failures as parameters: a fault names the
step that reports an error or at which the process dies, and other parties act between steps. The
methods of the classes follow the program step by step and are proved equal to those functions, and
the theorems are about arbitrary sequences of events over them.

| files | what they model |
|---|---|
| `Secrets`, `KeyringFile` | the secrets directory (visible and durable contents, power loss), keyring file and rotation phases |
| `MasterRotation`, `MasterRotationSafety`, `MasterRotationRecovery`, `MasterRotationServer` | Master Key rotation over keyring, database and persisted relay key, with startup recovery |
| `MutationAdmission` | the write fence around a rotation |
| `ObservationSequencer` | the block allocator of observation orders with background prefetch |
| `RouteHealth`, `RouteHealthRuns`, `RouteTable`, `RouteTracker`, `RecoveryGate` | route health, in-flight accounting, L2 schedule, half-open lock |
| `ReachabilityReduction`, `CapabilityReduction` | the two reducers folded over a history |
| `CommittedRows`, `CapabilityCache`, `ReachabilityCache` | the in-memory copies of committed rows |
| `Bootstrap`, `RelayCredentials`, `RelayCredentialService` | first start, and relay keys with a grace window |
| `GatewayRuns`, `FencedRuns` | first start, both kinds of rotation, deaths and recoveries in one run, and why rotations may be taken one after the other |
| `PoolKeys`, `TransportPools` | connection-pool keys and the pool manager |
| `Canary`, `CanaryCuts` | the canary check on Messages, Responses and Chat Completions streams |
| `Calibration`, `CalibrationWorker` | auth calibration and its worker |

Sealing, digests and password hashes are injective constructors; rotation ids, generations, tickets and
tokens are fresh; the clock, the random source, settings and the outcome of every I/O step are
parameters. A database transaction is atomic, and its result may be reported wrongly.

## Where the code does less than one would hope

These are statements that are false of the code as it stands. Each has a lemma with the exact condition
or a concrete run.

- A rotation without any fault does not complete for a deployment whose relay key comes only from the
  environment: the database commits, the reseal has no credentials file to rewrite, maintenance stays on and
  the next start finishes (`UndisturbedRotationCompletesIff`).
- A rotation writes the relay key held in memory, so an environment key replaces a different persisted one
  (`CompletedRotationPersistsMemory`).
- A sequencer caller can block with no prefetch in flight when the base context ends inside its pass
  (`ParkedAloneIffCutInPass`), and reservations that commit but report an error waste blocks without limit
  (`UnreportedReservationsWasteBlocks`).
- A verdict under changed settings takes a route out of dead (`StalePolicyForgetsDead`).
- A late row of another token lets a lower order win (`InterleavedTokenLosesHighest`), and a commit captured
  before its route had a row survives a reset (`UnboundCommitSurvivesReset`).
- A canceled execution committed under a new token carries config_error into the new configuration
  (`CanceledProbeCarriesErrorOver`).
- A relay-key rotation that fails only in the final directory sync answers with an error, but the next restart
  uses the new key (`FailedRotationAgreesIff`). A revocation that fails there leaves the process accepting the
  old key until its deadline, while a restart rejects it (`FailedRevocationAgreesIff`). Keys in the environment
  undo a rotation at restart (`EnvironmentHidesRotation`).
- An admin password reset rewrites the credentials file under no lock of its own: a relay-key rotation that passes
  between its read and its write is undone at the next restart (`ResetUndoesRotation`, exactly `ResetAgreesIff`).
- Bootstrap notes "displayed" although the output failed, or although an existing keyring could not be loaded
  (`DisplayedDeliversIff` is exact over every keyring; `UnreadableKeyringIsPassedOver` is a run).
- The comment on the reachability reducer promises reachable on a first success; with a threshold above one the
  code says unknown, and the model follows the code (`StateTellsHistory`).

## Model

| member | source | states |
|---|---|---|
| `Secrets.KeyringIsAtomicRegister` | internal/keyring/file.go:123-224 | from any register state, over any run of writes that fail or die at any step, of in-order power losses and of renames the system writes out in between, a read returns the newest value of the abstract register; keyring.previous, once there, parses as that value or its direct predecessor |
| `Secrets.WriteIsAllOrNothing` | internal/keyring/file.go:165-195 | one write stopped anywhere, also the first one over a missing file, with a power loss on top, leaves what was read before or the new document; a reported success is durable |
| `Secrets.LossKeepsRegisterExactly` | internal/keyring/file.go:189-224 | exactly the power losses that keep directory operations in order leave keyring.previous at current or its predecessor |
| `Secrets.WriteKeepsRegister` | internal/keyring/file.go:165-195 | each write appends its document to the value history exactly when it got as far as the rename |
| `Secrets.CorruptCurrentIsKept` | internal/keyring/file.go:200-211 | a current file that does not parse is never overwritten |
| `KeyringFile.PhasesStayConsistent` | internal/keyring/rotate.go:46-130 | whatever calls arrive in whatever order, phase, pending key and rotation id fit together, history only grows, and the active key changes only to a key some begin supplied |
| `KeyringFile.File.PreservePreviousLocked` | internal/keyring/file.go:200-224 | copies a parsed current file to keyring.previous and syncs; refuses a corrupt one |
| `KeyringFile.File.WriteLocked` | internal/keyring/file.go:165-195 | temporary file, previous copy, rename, directory sync, in this order, with any of them failing or dying |
| `KeyringFile.File.ReadLocked` | internal/keyring/file.go:123-146 | a parsed current file wins; previous answers for a missing or corrupt one |
| `KeyringFile.File.EnsureInitialized` | internal/keyring/file.go:56-82 | writes the first document only when no keyring file exists |
| `KeyringFile.File.LoadActiveKey` | internal/keyring/file.go:85-96 | key id and active key, or a refusal when either is empty or nothing is readable |
| `KeyringFile.File.BeginRotation` | internal/keyring/rotate.go:46-73 | from idle or cleaned only: pending key, new rotation id, prepared |
| `KeyringFile.File.Advance` | internal/keyring/rotate.go:231-250 | one phase forward for the same rotation id, else refused |
| `KeyringFile.File.MarkDBCommitted` | internal/keyring/rotate.go:76-78 | prepared to db_committed |
| `KeyringFile.File.ActivatePending` | internal/keyring/rotate.go:81-104 | db_committed to key_activated, pending becomes active under the id derived from the rotation id |
| `KeyringFile.File.MarkCleaned` | internal/keyring/rotate.go:107-109 | key_activated to cleaned |
| `KeyringFile.File.AbortPrepared` | internal/keyring/rotate.go:112-130 | prepared back to idle under the old key |
| `KeyringFile.File.WriteCredentialsFile` | internal/credential/bootstrap.go:331-355 | temporary file, rename, directory sync of the credentials file, with any of them failing or dying |
| `KeyringFile.File.WriteJournalFile` | internal/credential/bootstrap.go:323-355 | the same for the bootstrap journal |
| `MasterRotationSafety.EveryRunStaysDecryptable` | internal/api/credentials.go:297-430 | in every run of rotations, recoveries, deaths and power losses, with any fault at any durable write, a commit reported wrongly and any environment at any start: the database opens under the active or pending key, the persisted relay key opens under one of them to a key the deployment was given, and with maintenance off the phase is idle or cleaned and everything is under the active key |
| `MasterRotationSafety.RelayKeyNeverChanges` | internal/api/credentials.go:297-430 | with no other relay key in the environment, the plaintext of the persisted relay key is the same after every such run |
| `MasterRotationSafety.EnvironmentStartIsSafe` | cmd/relay-gate/main.go:119-157 | a deployment whose Master Key lives in the environment comes up only once the keyring durably holds that key, and then in the invariant |
| `MasterRotationSafety.CredentialsWriteSafe` | internal/credential/persisted.go:189-213 | writing a relay key sealed under the key of the database is safe at every step, whichever relay key it is |
| `MasterRotationSafety.RotateSafe` | internal/api/credentials.go:253-430 | one request keeps that invariant whatever fails inside it |
| `MasterRotationSafety.RecoverSafe` | internal/keyring/rotate.go:150-215 | one recovery attempt keeps it, and lifts maintenance only between rotations with all three places under the active key |
| `MasterRotationSafety.StartSafe` | cmd/relay-gate/main.go:119-152 | a process start keeps it, wherever recovery stops |
| `MasterRotationSafety.OutageSafe` | internal/keyring/file.go:253-265 | a power loss that takes back any unsynced renames keeps it |
| `MasterRotationSafety.FlushSafe` | internal/keyring/file.go:253-265 | so does the system writing out any of them by itself, which fixes what a later loss can take back |
| `MasterRotationSafety.UpdateSafe` | internal/keyring/rotate.go:46-130 | a keyring change keeps the directory safe at every step of its write when its document fits the database |
| `MasterRotationSafety.ReplaceRelaySafe` | internal/credential/persisted.go:217-228 | rewriting the sealed relay key keeps it safe under either key the moment allows |
| `MasterRotationSafety.ResealActiveSafe` | internal/credential/service.go:275-302 | resealing the live relay key under the new master keeps directory and memory consistent |
| `MasterRotationSafety.VerifySafe` | cmd/relay-gate/rotation_recover.go:33-47 | the verification callback, which may reseal, keeps it |
| `MasterRotationRecovery.RecoveryEndsWhereSQLiteDecided` | internal/keyring/rotate.go:150-215 | recovery re-run after any number of failures, deaths and power losses, then once undisturbed, ends idle under the old master exactly when SQLite had not committed this rotation id, and otherwise cleaned under the new one, with keyring, database and relay key agreeing |
| `MasterRotationRecovery.RotationIsAllOrNothing` | internal/api/credentials.go:253-430 | the same from the request itself, stopped anywhere |
| `MasterRotationRecovery.RecoverRotating` | internal/keyring/rotate.go:150-215 | no attempt ever moves the phase back: prepared, db_committed, key_activated, cleaned |
| `MasterRotationRecovery.CalmRecoverySucceeds` | cmd/relay-gate/rotation_recover.go:19-48 | undisturbed recovery succeeds in one pass from every safe directory |
| `MasterRotationRecovery.UndisturbedRotationCompletesIff` | internal/api/credentials.go:297-430 | a request without faults completes exactly when the new key is long enough, the Master Key is not overridden by the environment, and the relay key can move to the credentials file |
| `MasterRotationRecovery.CompletedRotationPersistsMemory` | internal/credential/service.go:284-300 | a completed request leaves the in-memory relay key, not the previously persisted one, in the file |
| `MasterRotationRecovery.RotateChangesDatabaseOnce` | internal/store/rewrap.go:26-75 | the database changes to the new key and this rotation id together, or not at all |
| `MasterRotationServer.Server.PostBeginMasterRotation` | internal/api/credentials.go:253-430 | for every fault the handler keeps the invariant for every set of relay keys it held for, and reaches exactly the world and answer of the specified protocol |
| `MasterRotationServer.Server.FinishCommitted` | internal/api/credentials.go:376-430 | the roll-forward after a committed rewrap |
| `MasterRotationServer.Server.HandleRewrapError` | internal/api/credentials.go:360-375 | after a rewrap error only a database that proves the rotation absent leads to an abort |
| `MasterRotationServer.Server.LeaveRotation` | internal/api/credentials.go:297-302 | maintenance is lifted on the way out exactly when the exit rule allowed it |
| `MasterRotationServer.Server.ResealActiveRelayUnder` | internal/credential/service.go:275-302 | file first, then memory |
| `MasterRotationServer.Server.RecoverMasterRotation` | cmd/relay-gate/rotation_recover.go:19-48 | startup recovery over the phases; a safe directory stays safe, and maintenance is lifted only between rotations |
| `MasterRotationServer.Server.VerifyMaster` | cmd/relay-gate/rotation_recover.go:33-47 | database, status, reseal, relay key, in this order |
| `MasterRotationServer.Server.ResealPersistedRelayUnderPending` | cmd/relay-gate/rotation_recover.go:74-120 | reseals legacy plaintext or an envelope under the active key, and leaves one under pending |
| `MasterRotationServer.Server.ReplacePersistedRelayKey` | internal/credential/persisted.go:217-228 | replaces only the relay key field of an existing file |
| `MasterRotationServer.Server.Boot` | cmd/relay-gate/main.go:119-157 | recovery, the Master Key of the environment or the keyring, which must be the database key, then a relay key; what comes up from a safe directory is in the invariant |
| `GatewayRuns.EveryGatewayRunStaysDecryptable` | internal/api/credentials.go:145-430 | the same over any mix of Master Key rotations and relay-key rotations, with any fault in any of them: the persisted relay key stays openable and is one the deployment started with, drew, or took from the environment |
| `GatewayRuns.RelayRotationSafe` | internal/credential/service.go:211-247 | a relay-key rotation with any fault keeps the invariant for the known keys and the new one |
| `GatewayRuns.FromEmptyDirectory` | cmd/relay-gate/main.go:108-152 | from an empty directory, however the first start went, the displayed secrets start such a run |
| `FencedRuns.FencedRunsAreSequential` | internal/api/rotation_admission.go:22-85 | requests interleaved step by step under the write fence and the credential lock, each rotation writing back what it computed from the state it found: no two rotations overlap, none works from a stale state, and the deployment ends where the same rotations lead one after the other |
| `FencedRuns.MasterWorksAlone` | internal/api/rotation_admission.go:42-64 | from the grant of a freeze to its release no mutation is inside the fence and no relay-key rotation is at work |
| `FencedRuns.FencedRunsStayDecryptable` | internal/api/credentials.go:145-430 | so every interleaved run stays decryptable too |
| `GatewayRuns.StaleResetIsSafe` | internal/api/credentials.go:204-232 | a password reset that writes back what it read before any relay-key rotations passed it under the fence keeps the directory safe |
| `GatewayRuns.PersistedKeyIsInForce` | internal/credential/service.go:211-247 | where no relay-key rotation stops between rename and directory sync, the persisted relay key is always the one of the last completed rotation |
| `MutationAdmission.ChannelsCloseOnce` | internal/api/rotation_admission.go:22-64 | in every interleaving each drain channel is closed at most once, and exactly once for a busy period that ended |
| `MutationAdmission.FreezeHoldsUntilRelease` | internal/api/rotation_admission.go:42-64 | from a successful freeze to its own release no mutation is inside and none is admitted, whatever older releases and timeouts run |
| `MutationAdmission.WaitingFreezeIsGranted` | internal/api/rotation_admission.go:42-64 | a waiting freeze can proceed exactly when nothing is inside |
| `MutationAdmission.MutationGate.TryEnter` | internal/api/rotation_admission.go:22-40 | admits and counts exactly when the gate is open |
| `MutationAdmission.MutationGate.LeaveOnce` | internal/api/rotation_admission.go:32-39 | the last one out closes the channel |
| `MutationAdmission.MutationGate.StartFreeze` | internal/api/rotation_admission.go:42-54 | closes the gate; on an idle gate with a channel of its own |
| `MutationAdmission.MutationGate.AwaitDrain` | internal/api/rotation_admission.go:57-63 | drained, or the gate reopens on timeout |
| `MutationAdmission.MutationGate.ReleaseOnce` | internal/api/rotation_admission.go:55-56 | only the holder reopens the gate |
| `ObservationSequencer.OrdersNeverRepeat` | internal/observationseq/sequencer.go:54-188 | over all interleavings, failures, cancellations, closes and restarts, issued orders strictly increase; with the base context live a blocked caller always has a prefetch in flight |
| `ObservationSequencer.ParkedAloneIffCutInPass` | internal/observationseq/sequencer.go:88-157 | the one way to block with nobody to wake the caller: the base context ends between the two looks of a single pass |
| `ObservationSequencer.BlockedCallersAreServed` | internal/observationseq/sequencer.go:88-157 | in every run without that race a blocked caller always has a prefetch in flight, also after the base context ended |
| `ObservationSequencer.CrashGapIsBounded` | internal/observationseq/sequencer.go:134-181 | when failed reservations consume nothing, numbers reserved but not issued never exceed the block size plus the low-water mark, in a running, closed, cancelled or dead process |
| `ObservationSequencer.GapIsUnissuedOrWasted` | internal/observationseq/sequencer.go:134-181 | whatever fails, that gap is what the process can still issue, itself within the bound, plus the wasted numbers |
| `ObservationSequencer.UnreportedReservationsWasteBlocks` | internal/observationseq/sequencer.go:159-181 | each reservation that takes its block and reports an error wastes a whole block, without limit |
| `ObservationSequencer.Sequencer.NextPass` | internal/observationseq/sequencer.go:88-132 | one pass of the wait loop: order, error, or park |
| `ObservationSequencer.Sequencer.TryTakeLocked` | internal/observationseq/sequencer.go:134-149 | takes from the block, then from the pending block |
| `ObservationSequencer.Sequencer.ArmIfIdleLocked` | internal/observationseq/sequencer.go:151-157 | starts a prefetch only when none runs and none is pending |
| `ObservationSequencer.Sequencer.ReportPrefetch` | internal/observationseq/sequencer.go:159-181 | stores a valid block or the error, and wakes everybody |
| `ObservationSequencer.Sequencer.CloseSequencer` | internal/observationseq/sequencer.go:76-81 | closes and wakes everybody |
| `ObservationSequencer.Sequencer.constructor` | internal/observationseq/sequencer.go:56-73 | opens on a valid first block only |
| `RouteTable.CountsAreExact` | internal/health/tracker.go:85-192 | in every interleaving of acquire, release, report, claim, complete, forget and retain, each live row counts exactly the unreleased acquisitions made on that very row |
| `RouteTable.AcquisitionRespectsLimit` | internal/health/tracker.go:164-192 | an acquisition succeeds exactly under the limit and leaves the row within it |
| `RouteTable.StaleEventsLeaveNoTrace` | internal/health/tracker.go:164-288 | the rest of a run has the same rows with and without a stale release or bound report |
| `RouteTable.ForgottenStaysStale` | internal/health/schedule.go:381-397 | after a forget everything bound to the old row stays without effect for good |
| `RouteTable.GenerationStaysGone` | internal/health/tracker.go:85-93 | a generation that no row has is never given again |
| `RouteHealthRuns.AliveAgainNeedsEvidence` | internal/health/tracker.go:215-339 | over any history under unchanged settings, a dead route is alive again only after a half-open success that was real, or was followed by one that is real or completes the threshold |
| `RouteHealthRuns.LeavingDeadAndRecovering` | internal/health/tracker.go:291-339 | the exact ways out of dead and of recovering |
| `RouteHealthRuns.LeavingDead` | internal/health/tracker.go:215-339 | the exact way out of dead for every row and event: an armed success, or under another settings fingerprint any bound verdict that does not kill the row again |
| `RouteHealthRuns.DeadSpellKeepsItsTier` | internal/health/schedule.go:77-95 | for a whole dead spell the start instant stays and the L2 interval never shortens |
| `RouteHealthRuns.StalePolicyForgetsDead` | internal/health/tracker.go:231-236 | under another settings fingerprint a bound verdict takes a row out of dead whatever it says, unless it kills again |
| `RouteHealthRuns.ClaimsAreSpaced` | internal/health/schedule.go:158-188 | on a route that stays alive successful L2 claims are at least nine tenths of the floored interval apart |
| `RouteHealthRuns.WindowHoldsFewClaims` | internal/health/schedule.go:158-188 | so a window W holds at most 1 + W / (0.9 I) of them |
| `RouteHealthRuns.JitterKeepsNineTenths` | internal/health/schedule.go:360-371 | jitter never shortens the interval below nine tenths |
| `RouteTracker.Tracker.Get` | internal/health/tracker.go:85-93 | finds the row object or creates one with the next generation |
| `RouteTracker.Tracker.TryAcquire` | internal/health/tracker.go:164-192 | takes a counted lease on the row object |
| `RouteTracker.Tracker.Release` | internal/health/tracker.go:183-191 | runs once, and gives back only to the row it was taken on |
| `RouteTracker.Tracker.ReportVerdict` | internal/health/tracker.go:215-288 | a bound report reaches only its own row, an unbound one creates a row |
| `RouteTracker.Tracker.ClaimL2` | internal/health/schedule.go:158-188 | due, not cooling down, not covered by a real success |
| `RouteTracker.Tracker.CompleteL2` | internal/health/schedule.go:347-357 | sets the next probe from the completion time |
| `RouteTracker.Tracker.Forget` | internal/health/schedule.go:381-385 | drops the row; leases on it stay |
| `RouteTracker.Tracker.RetainOnly` | internal/health/schedule.go:389-397 | drops every row not listed |
| `RouteTracker.RouteState.Apply` | internal/health/tracker.go:231-288 | a verdict on one row: rebase on another policy, apply, note when it died, stamp the policy |
| `RouteTracker.RouteState.ApplyOK` | internal/health/tracker.go:291-339 | a success by state, source and half-open flag |
| `RouteTracker.IntervalL2` | internal/health/schedule.go:33-95 | the interval by state and length of the dead spell |
| `RouteTracker.ClaimOn` | internal/health/schedule.go:158-188 | claim on one row |
| `RouteTracker.CompleteOn` | internal/health/schedule.go:347-357 | completion on one row |
| `RecoveryGate.AcquisitionHoldsAlone` | internal/health/recovery_gate.go:25-69 | until its own release, or a forget or reset, an acquisition stays the only one, whatever other releases run |
| `RecoveryGate.EndedClosureIsInert` | internal/health/recovery_gate.go:25-69 | once ended, its release never changes anything again |
| `RecoveryGate.TokenStaysGone` | internal/health/recovery_gate.go:25-49 | a released token is never held again |
| `RecoveryGate.RecoveryLock.TryAcquireSlot` | internal/health/recovery_gate.go:25-49 | takes a free route under a new token |
| `RecoveryGate.RecoveryLock.ReleaseSlot` | internal/health/recovery_gate.go:38-48 | frees the route only for the token that holds it |
| `RecoveryGate.RecoveryLock.ForgetRoute` | internal/health/recovery_gate.go:52-59 | frees the route |
| `RecoveryGate.RecoveryLock.ResetAll` | internal/health/recovery_gate.go:62-69 | frees every route |
| `ReachabilityReduction.StateTellsHistory` | internal/health/observation_reducer.go:37-86 | unreachable exactly when the trailing failure run reached its threshold; reachable exactly when some success run reached the other and no later failure run did |
| `ReachabilityReduction.CountersAreTrailingRuns` | internal/health/observation_reducer.go:56-75 | the counters are the lengths of the trailing runs of the history |
| `ReachabilityReduction.StageLatencies` | internal/health/observation_reducer.go:192-232 | all three latencies or none, never negative, diagnosed exactly for stages out of order |
| `ReachabilityReduction.ReduceReachability` | internal/health/observation_reducer.go:37-86 | the step-by-step reducer computes the specified row, or refuses a threshold that is not positive |
| `CapabilityReduction.ConfigErrorSticks` | internal/health/observation_reducer.go:93-140 | over any history, refused conclusions and rows adopted across timeout profiles included, the row says config_error exactly when some committed execution concluded it and no speaking one since was a manual test or came under another token |
| `CapabilityReduction.CanceledProbeCarriesErrorOver` | internal/health/observation_reducer.go:96-110 | a canceled probe under a new token carries the error into the new configuration |
| `CapabilityReduction.ReduceCapability` | internal/health/observation_reducer.go:93-170 | ignored and suppressed executions change nothing; others set state, expiry and the last real success |
| `CommittedRows.HighestOrderSurvives` | internal/probe/capability.go:88-97 | rows of one token with one highest order, in any permutation, with duplicates and empty-token placeholders, end with the highest-order row |
| `CommittedRows.ArrivalMattersOnlyForTies` | internal/probe/capability.go:88-97 | the order of arrival is irrelevant exactly when no two different rows share the highest order |
| `CommittedRows.FirstHighestSurvives` | internal/probe/capability.go:88-97 | with ties the first arrival of the highest order stays |
| `CommittedRows.LastIdentityDecides` | internal/probe/capability.go:92-97 | with identities mixed, the first highest row of the last unbroken block stays |
| `CommittedRows.InterleavedTokenLosesHighest` | internal/probe/capability.go:92-97 | so a late row of another token in between makes a lower order win |
| `CommittedRows.SequencedRowsAgree` | internal/observationseq/sequencer.go:134-149 | orders taken from the sequencer supply the distinctness |
| `CapabilityCache.CommitsSettleOnHighest` | internal/probe/capability.go:77-98 | the same in the whole registry while other keys, routes and guards change freely |
| `CapabilityCache.CellCollectsArrivals` | internal/probe/capability.go:77-98 | a key not invalidated holds exactly what its admitted commits leave |
| `CapabilityCache.ResetOutlastsLateCommits` | internal/probe/capability.go:73-98 | after a route is forgotten and its scope dropped, no commit captured under the old generation is left, wherever it fell |
| `CapabilityCache.UnboundCommitSurvivesReset` | internal/probe/capability.go:134-145 | except one captured under generation 0, which returns after the reset |
| `CapabilityCache.CapabilityRegistry.ApplyCommitted` | internal/probe/capability.go:77-98 | guards, placeholder rule and order rule, in this order |
| `CapabilityCache.CapabilityRegistry.Sweep` | internal/probe/capability.go:174-219 | the four sweeping invalidations keep exactly the rows they should |
| `CapabilityCache.CapabilityRegistry.InvalidateAfterCalibration` | internal/probe/capability.go:161-171 | drops the route row and the upstream row of the endpoint |
| `CapabilityCache.CapabilityRegistry.Effective` | internal/probe/capability.go:101-118 | a state other than unknown comes only from a row with the expected token, current fingerprint and time to live |
| `ReachabilityCache.CommitsSettleOnHighest` | internal/health/reachability.go:49-75 | rows that pass the published revision settle on the highest order in any arrival order |
| `ReachabilityCache.SignalIsEffectiveChange` | internal/health/reachability.go:68-74 | the recovery signal is exactly a change away from unreachable as a reader sees it |
| `ReachabilityCache.OneSignalPerOutage` | internal/health/reachability.go:49-75 | over any arrivals there is never more than one signal per unreachable verdict taken in |
| `ReachabilityCache.FoldAdmitsTaken` | internal/health/reachability.go:55-67 | the tracker is the guarded compare-and-set |
| `ReachabilityCache.ReachabilityTracker.ApplyCommitted` | internal/health/reachability.go:49-75 | one upstream changes, with its signal; the others do not |
| `ReachabilityCache.ReachabilityTracker.Effective` | internal/health/reachability.go:78-89 | unknown unless the row matches revision and settings |
| `ReachabilityCache.ReachabilityTracker.InvalidateStale` | internal/health/reachability.go:148-157 | drops exactly the rows a reader already sees as unknown |
| `RelayCredentials.AcceptedKeysAreExactly` | internal/credential/service.go:171-247 | over any run of rotations, revocations and requests, whatever fails: accepted are exactly the current key, extra keys never rotated out, and the immediately preceding key until its deadline or revocation |
| `RelayCredentials.RestartAcceptsTheSame` | internal/credential/service.go:323-358 | a restart from the file, after a power loss too, accepts the current key and the preceding one until its deadline, and no env-only extras, in every run that had no failure at the directory sync since its last successful rotation |
| `RelayCredentials.DeathIsBeforeOrAfter` | internal/credential/service.go:211-317 | death inside a rotation or revocation at the end of such a run restarts as the log says, the interrupted call counted exactly when its file was renamed and the rename survived |
| `RelayCredentials.CrashIsBeforeOrAfter` | internal/credential/service.go:231-245 | death between disk write and memory flip of a rotation gives the after-state, death before the rename the before-state |
| `RelayCredentials.RevocationCrashIsBeforeOrAfter` | internal/credential/service.go:306-317 | the same for a revocation |
| `RelayCredentials.FailedRevocationAgreesIff` | internal/credential/persisted.go:231-246 | a revocation that reports failure keeps disk and memory in agreement exactly when it did not fail in the directory sync over an unexpired window of another non-empty key |
| `RelayCredentials.FailedRotationAgreesIff` | internal/credential/persisted.go:189-213 | a rotation that reports failure keeps disk and memory in agreement exactly when it did not fail in the directory sync after the rename |
| `RelayCredentials.ResetTakesKeysBack` | internal/credential/persisted.go:154-171 | whatever rotations and revocations happen while a password reset holds what it read, a restart after its write accepts exactly the relay keys of the moment it was read |
| `RelayCredentials.ResetAgreesIff` | internal/credential/persisted.go:154-213 | with new keys, a reset leaves memory and restart in agreement exactly when no rotation passed it and no revocation of a window that still matters |
| `RelayCredentials.ResetUndoesRotation` | internal/credential/persisted.go:154-213 | a relay key rotated to in between is accepted until the restart and rejected after it |
| `RelayCredentials.EnvironmentHidesRotation` | internal/config/config.go:97-115 | keys in the environment win over the file after a restart, so a rotated key survives only if listed there too |
| `RelayCredentials.RunStaysInStep` | internal/credential/service.go:211-247 | memory and file are in step after every run without that fault since its last successful rotation |
| `RelayCredentialService.Service.SetActiveRelayKeys` | internal/credential/service.go:106-142 | first non-empty key active, the others extra, sealed copy or everything cleared |
| `RelayCredentialService.Service.ValidRelayKey` | internal/credential/service.go:171-184 | expires the grace window, then compares digests |
| `RelayCredentialService.Service.RotateRelayKey` | internal/credential/service.go:211-247 | file before memory; the rotated-out key leaves the extras; success brings memory and file in step, failure outside the directory sync changes nothing |
| `RelayCredentialService.Service.RevokeGrace` | internal/credential/service.go:306-317 | file before memory, with the same guarantees |
| `RelayCredentialService.Service.RestorePersistedGrace` | internal/credential/service.go:323-358 | only an unexpired window |
| `RelayCredentialService.Service.ReplaceRotation` | internal/credential/persisted.go:189-213 | replaces relay key and grace, keeps the rest, creates a missing file |
| `RelayCredentialService.Service.ClearPersistedGrace` | internal/credential/persisted.go:231-246 | removes the window, writes nothing when there is none |
| `RelayCredentialService.Service.ExpireGraceLocked` | internal/credential/service.go:392-397 | drops a window that has run out |
| `RelayCredentialService.Service.Boot` | internal/config/config.go:97-115 | environment keys or the opened file, then the grace window |
| `Bootstrap.FirstMasterIsKept` | internal/credential/bootstrap.go:143-177 | over any run of attempts stopped by any error or death, and power losses, the first durable Master Key is never replaced |
| `Bootstrap.DisplayedIsPersisted` | internal/credential/bootstrap.go:111-288 | whenever the journal says displayed, the last printed triple is exactly what is persisted, also after a power loss |
| `Bootstrap.DisplayedDeliversIff` | internal/credential/bootstrap.go:274-288 | per attempt and over any keyring, corrupt and empty ones included, that holds exactly when the output worked and either there was no current keyring file or an active key could be loaded from it or from its previous copy |
| `Bootstrap.NothingAfterDisplayed` | internal/credential/bootstrap.go:127-140 | once displayed is durable nothing is printed or changed again |
| `Bootstrap.SmoothAttemptDelivers` | internal/credential/bootstrap.go:111-288 | an undisturbed attempt completes from every readable state |
| `Bootstrap.UnreadableKeyringIsPassedOver` | internal/credential/bootstrap.go:169-177 | an existing unreadable keyring is passed over and a master that no file holds is shown |
| `Bootstrap.DisplayedSiteIsSafe` | internal/credential/bootstrap.go:111-288 | a displayed bootstrap of an empty directory starts in the invariant that all rotations and recoveries keep |
| `Bootstrap.Installer.RunBootstrap` | internal/credential/bootstrap.go:111-141 | dispatch on the journal phase; keeps the first durable master, and says displayed only for what is persisted when output and keyring reads work |
| `Bootstrap.Installer.Install` | internal/credential/bootstrap.go:143-217 | journal, keyring, credentials, journal, display |
| `Bootstrap.Installer.Resume` | internal/credential/bootstrap.go:219-272 | keeps the master, regenerates the other two |
| `Bootstrap.Installer.PersistAndDisplay` | internal/credential/bootstrap.go:191-216 | credentials before journal before display |
| `Bootstrap.Installer.DisplayTriple` | internal/credential/bootstrap.go:274-288 | prints, ignoring output errors, then notes it |
| `PoolKeys.PrefixTestIsIdentity` | internal/outbound/transport.go:96-113 | for NUL-free fields the prefix test on keys is exactly equality of network identity |
| `PoolKeys.KeyIsInjective` | internal/outbound/transport.go:96-113 | and a key names one configuration, connect budget included |
| `PoolKeys.NulMergesIdentities` | internal/outbound/transport.go:104-113 | with a NUL inside a field two identities share a key |
| `PoolKeys.DecimalIsInjective` | internal/outbound/transport.go:106-110 | decimal rendering separates numbers |
| `TransportPools.PoolsStayBounded` | internal/outbound/transport.go:348-464 | after any calls both maps describe the same keys, each upstream has one identity and at most four pools, every pool built is live or closed, and the granted pool is in the map under the configuration asked for |
| `TransportPools.RequestKeepsValid` | internal/outbound/transport.go:348-436 | one request keeps that, refuses only what cannot be built, and leaves other upstreams alone |
| `TransportPools.InvalidateKeepsValid` | internal/outbound/transport.go:446-464 | an invalidation removes exactly the pools of its upstream |
| `TransportPools.Manager.GetTransport` | internal/outbound/transport.go:348-386 | existing pool, refusal, or new pool and eviction, keeping the invariant of the two maps |
| `TransportPools.Manager.DetachStaleLocked` | internal/outbound/transport.go:399-436 | drops other identities and surplus siblings, never the requested key, whatever the map order |
| `TransportPools.Manager.DetachOtherIdentities` | internal/outbound/transport.go:408-418 | keeps exactly the keys of this identity |
| `TransportPools.Manager.DetachSurplus` | internal/outbound/transport.go:419-434 | keeps four, the requested one among them |
| `TransportPools.Manager.InvalidateUpstream` | internal/outbound/transport.go:446-464 | drops the upstream and closes its pools, keeping that invariant |
| `Canary.FragmentationIsInvisible` | internal/probe/canary_payload.go:55-300 | two streams on any of the three endpoints that tell the same texts and ids, restated along the way or not: same violation flag and verdict, and without violation the same name, arguments and result |
| `CanaryCuts.AnyCutEqualsTheWhole` | internal/probe/canary_payload.go:55-300 | one call whose name and arguments are cut in any way into the deltas of any endpoint, silent payloads mixed in, is judged like the call sent whole on any endpoint |
| `CanaryCuts.ChunksEqualTheMessage` | internal/probe/canary_payload.go:205-246 | in particular Chat Completions chunks built from any cut, against the message built from the joined texts |
| `CanaryCuts.StreamTells` | internal/probe/canary_payload.go:55-300 | such a stream tells exactly its id, the joined name and the joined arguments |
| `Canary.StreamIsJudgedAsWhole` | internal/probe/canary_payload.go:55-300 | any stream on any endpoint violates exactly for a breach of shape, a second start, arguments without a call, two ids or an overlong one, a name that is restated differently or is no beginning of the tool name, or arguments that are too long or contradict what was told |
| `Canary.SkippingIsInvisible` | internal/probe/canary_payload.go:55-73 | not looking at payloads after a violation changes neither the flag nor, without one, anything else |
| `Canary.RetellingIsInvisible` | internal/probe/canary_payload.go:248-300 | telling the id, the name or the arguments again in full tells the same call |
| `Canary.PassedMeansTheExpectedCall` | internal/probe/canary_payload.go:326-357 | passed means exactly one well-formed call with the full name and matching arguments in a complete successful execution |
| `Canary.CanaryCheck.ObservePayload` | internal/probe/canary_payload.go:55-73 | usage from every payload, whatever happened before; the call of each endpoint shape until a violation |
| `Canary.CanaryCheck.TakeUsage` | internal/probe/canary_payload.go:75-91 | a side is present exactly when one of its counters decodes to a non-negative 64-bit integer |
| `Canary.CanaryCheck.TakeMessages` | internal/probe/canary_payload.go:162-191 | content blocks and block events |
| `Canary.CanaryCheck.TakeBlock` | internal/probe/canary_payload.go:192-203 | one tool_use block |
| `Canary.CanaryCheck.TakeBlockDelta` | internal/probe/canary_payload.go:176-190 | argument pieces only after a call, and no other text |
| `Canary.CanaryCheck.TakeChat` | internal/probe/canary_payload.go:205-210 | at most one choice |
| `Canary.CanaryCheck.TakeChoice` | internal/probe/canary_payload.go:205-231 | index, forbidden fields, number of calls |
| `Canary.CanaryCheck.TakeCall` | internal/probe/canary_payload.go:232-244 | type and index, then id, name and arguments |
| `Canary.CanaryCheck.TakeResponses` | internal/probe/canary_payload.go:248-291 | prose, item and argument events, parts and output |
| `Canary.CanaryCheck.TakeItemEvent` | internal/probe/canary_payload.go:255-271 | item and argument events of output index zero |
| `Canary.CanaryCheck.TakeItem` | internal/probe/canary_payload.go:292-300 | one function_call item |
| `Canary.CanaryCheck.TakeOutput` | internal/probe/canary_payload.go:277-290 | exactly one output item, in the response or at the top |
| `Canary.CanaryCheck.BindID` | internal/probe/canary_payload.go:105-114 | one id, one start |
| `Canary.CanaryCheck.SetNameText` | internal/probe/canary_payload.go:115-138 | the name told stays a beginning of the tool name |
| `Canary.CanaryCheck.SetArgsText` | internal/probe/canary_payload.go:139-160 | the arguments told stay within the limit and are rewritten only from one matching answer to another |
| `Canary.CanaryCheck.CheckIndex` | internal/probe/canary_payload.go:93-103 | absent or zero |
| `Calibration.EachCandidateIsSentAtMostOnce` | internal/probe/calibration.go:339-592 | across any passes stopped by any error, death or misreported commit at any store call, with operators starting, cancelling and editing in between, every candidate reaches the executor at most once, in order, and only after its mark was stored |
| `Calibration.MarkedCandidateIsNotResent` | internal/probe/calibration.go:401-418 | a pass that finds the candidate marked never sends |
| `Calibration.RestartSettlesMarked` | internal/probe/calibration.go:401-418 | an undisturbed restart there sends nothing: without a stored execution it interrupts, a stored failure finishes the candidate, and a stored success ends the run as succeeded exactly when its request can be gathered and recipe and configuration are still those tested |
| `Calibration.TerminalRunsStay` | internal/probe/calibration.go:339-360 | canceled, interrupted and finished runs never change or send again |
| `Calibration.MarkMakesReady` | internal/store/calibration.go:391-458 | a successful mark is stored, on the current candidate, before anything is sent |
| `Calibration.ForeignMarkDoesNotStopSending` | internal/probe/calibration.go:394-461 | a mark stored by somebody else in between would not stop this worker: one worker is essential |
| `Calibration.ConclusionsRestOnWhatWasSent` | internal/store/calibration.go:519-821 | over the same runs at most one recipe version is published, that of a candidate that was sent and succeeded under the configuration still in force, and config_error is concluded only after every candidate was sent and refused |
| `Calibration.EveryRunSendsAtMostOnce` | internal/probe/calibration.go:312-360 | with any number of runs, the worker going through listed pages and an error ending a page: every candidate of every run is sent at most once |
| `Calibration.PassKeepsSound` | internal/probe/calibration.go:339-360 | each pass keeps the candidate order and the evidence of every conclusion, and sends at most the current candidate |
| `CalibrationWorker.Store.PrepareCandidate` | internal/store/calibration.go:264-389 | planned to prepared with its execution id, conditional on the revision |
| `CalibrationWorker.Store.Mark` | internal/store/calibration.go:391-458 | prepared to send_started, conditional on the revision |
| `CalibrationWorker.Store.InterruptCandidate` | internal/store/calibration.go:461-515 | send_started to indeterminate, run interrupted, conditional on the revision |
| `CalibrationWorker.Store.AdvanceAfterExecution` | internal/store/calibration.go:519-636 | finished, then the next planned candidate or failed, with config_error when every candidate was refused, conditional on the revision |
| `CalibrationWorker.Store.FindNextPlanned` | internal/store/calibration.go:592-603 | the first planned candidate after this one |
| `CalibrationWorker.Store.CountNotRejected` | internal/store/calibration.go:614-622 | zero exactly when every candidate finished refused for its authentication |
| `CalibrationWorker.Store.CommitCalibrationSuccess` | internal/store/calibration.go:638-821 | publishes the tested version under the configuration it was tested with, finished and succeeded, conditional on the revision |
| `CalibrationWorker.Store.FinishRun` | internal/store/calibration.go:823-853 | ends a planned or running run, conditional on the revision |
| `CalibrationWorker.Store.StartRun` | internal/store/calibration.go:233-259 | starts a planned or running run, conditional on the revision |
| `CalibrationWorker.Worker.StepOnce` | internal/probe/calibration.go:312-325 | list, then advance each listed run until the first error; keeps every run sound |
| `CalibrationWorker.Worker.AdvancePage` | internal/probe/calibration.go:320-324 | the listed rows in order, against stores that moved on since |
| `CalibrationWorker.Worker.AdvanceOne` | internal/probe/calibration.go:339-360 | dispatch on the candidate state |
| `CalibrationWorker.Worker.PrepareThenSend` | internal/probe/calibration.go:362-399 | prepare, read back, send |
| `CalibrationWorker.Worker.Recover` | internal/probe/calibration.go:401-418 | finish from the stored execution, or interrupt |
| `CalibrationWorker.Worker.SendOne` | internal/probe/calibration.go:427-461 | enabled, marked, read back |
| `CalibrationWorker.Worker.ContinueSending` | internal/probe/calibration.go:463-593 | not canceled, still enabled, everything gathered, then the executor |
| `CalibrationWorker.Worker.FinishExecution` | internal/probe/calibration.go:620-706 | commit a success, advance after a failure, nothing on a run that ended |
| `CalibrationWorker.Worker.RefuseRun` | internal/probe/calibration.go:445-448 | a disabled target fails the run |

## Left out

- GatewayRuns.PersistedKeyIsInForce: speaks of one key only where no relay-key rotation stops between its rename and the directory sync, because then two keys are candidates; `GatewayRuns.EveryGatewayRunStaysDecryptable` has no such condition.
- FencedRuns.FencedRunsAreSequential: is about rotations. A password reset shares the credentials file but not the lock, so it is not sequential (`RelayCredentials.ResetUndoesRotation`); revocations and other mutations only pass the fence. A death in the middle of a rotation is a fault of that rotation.
- Contents of temporary files, file modes and leftovers of a failed write: nothing reads them back.
- The format version of the keyring document and timestamps in all files; `LoadStableActive`.
- Rotation preconditions outside the protocol: password, missing wiring, audit rows.
- `MaybeBootstrap`'s look at the environment.
- The L1 schedule, L2 deferral, triggers, stagger after a pause, reset and demotion of route rows: they only set a due time or a state.
- RouteHealthRuns.ClaimsAreSpaced: assumes that no trigger, deferral, stagger or reset moves the due time, because those are meant to.
- Real mutexes, goroutines, timers and `select`: replaced by atomic steps, with the choice of a ready branch free.
- ObservationSequencer.OrdersNeverRepeat: numbers are mathematical integers, overflow near the 64-bit limit is not modelled.
- The jitter factor is a real number, not a float64.
- Store transactions beside calibration: only atomic commit, the committed rotation id, and reservations that never go back.
- CapabilityReduction.ConfigErrorSticks: which rows of another timeout profile the store adopts as the same configuration is given with each execution, because the proof of it lives in the store.
- Canary.FragmentationIsInvisible: the nonce comparison on complete arguments is a parameter, because tokenizing JSON text is the decoder's business; a cut inside a surrogate pair of a JSON escape is not considered.
- The hash of the canary evidence: an injective summary of fields that are given.
- Whitespace trimming of keys and environment values: texts are taken as trimmed.
- Proxy masking by digest: the masked proxy is a given text. Closing idle connections is recorded, not performed.
- PoolKeys.PrefixTestIsIdentity: needs NUL-free fields, and fails without (`PoolKeys.NulMergesIdentities`).
- Planning a calibration and the request it sends: single branches over other stores.
- CalibrationWorker.Store.CommitCalibrationSuccess: the configuration is one number that every edit and every publication raises, and whether endpoint, recipe and secret rows are those of the tested version is one flag, because comparing them column by column is a query; publishing records version and configuration, not the rows written.
- HTTP handlers, admin pages, the probe command line, certificates and the public edge.
