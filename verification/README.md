# MinePanel backend: concurrent protocols, modelled and proved

This project models the parts of the MinePanel backend in which concurrent calls share state, and proves what holds in
every interleaving of them: the server lifecycle with its memory admission, refresh sessions with forced password
recovery, the realtime gateway, and the smaller protocols beside them (backup codes, failure limiters, first-admin setup
and last-admin protection, access requests).

`dafny verify dfyconfig.toml` verifies everything.

## How it is modelled

A protocol is a state machine: a state, a datatype of steps, `Enabled` for when a step can be taken and `Next` for what
it does. One step is one committed statement or transaction, one answer from Docker, or one callback run to its next
`await`. A `Run` starts in the initial state and takes any enabled steps in any order, so a theorem about every `Run` is a
theorem about every schedule of any number of calls. Objects that change their own fields are classes whose methods are
proved to compute the same functions that the machines use.

| file | what it holds |
|---|---|
| `Wrappers` | `Option` |
| `Servers`, `Reconciliation`, `Lifecycle` | server rows, containers, boot reconciliation, and the steps of create, start, stop, restart, delete |
| `LifecycleSafety`, `LifecycleTheorems` | the invariant and its exact limit, ownership and truth of statuses |
| `LifecycleOutcomes`, `LifecycleCalls` | what Docker's answers, claims, refusals and boots leave in the rows; the advisory lock |
| `LifecycleMemory` | memory admission |
| `Restart` | a restart that nobody disturbs |
| `Sessions`, `SessionsSafety` | rotation, login, temporary credentials, resets, forced changes and bans, with their invariant |
| `SessionsTheorems`, `SessionsOutcomes`, `SessionsPaths` | what no run can do, what each step writes and whom it lets in, and the intended paths that are open |
| `BackupCodes` | backup codes of two-factor enrolments |
| `FailureWindows`, `LoginAbuse` | the two-factor limiter and the login limiter |
| `Reservations`, `Gateway` | the reservation service, and the gateway as an event machine |
| `GatewayOrder`, `GatewaySafety`, `GatewayHistory` | loops over sockets in any order, what the gateway's fields say, who can be authenticated and join |
| `GatewayChecks`, `GatewayOutcomes` | that recorded checks and collections were made, and what the handlers leave behind |
| `EventsGateway` | the gateway as an object whose handlers take the machine's steps and keep its invariant |
| `Admins` | setup and last-admin protection |
| `Access`, `AccessRuns` | access requests, and runs that reach the bounds on their retries |

Assumptions about the outside:

- Docker: a failure other than "unavailable" had no effect, an "unavailable" failure may or may not have had its effect,
  answers to inspect and lookup are true, and containers change only through these calls.
- PostgreSQL runs READ COMMITTED: a statement sees what is committed, row locks last until the transaction ends, and
  advisory transaction locks are exclusive. Writes of a transaction appear when it commits.
- Hashes are injective; ids, salts and token ids are never drawn twice; Engine.IO never reuses a connection id.
- Answers, clocks, measurements and random values are parameters of steps or methods.

## Where the code and its documentation differ

- `docs/servers.md:120` says that conditional updates keep conflicting operations apart. The update tests the status,
  not who claimed it, so restart's outer catch (`src/servers/servers.service.ts:512-517`) can take back a row that another
  call has claimed since. `RestartCanStealAClaim` and `RestartCanBreakExclusion` are such runs, and
  `HarmlessIsExact` says exactly when that step does no damage: when it misses, or when nobody holds the row and the
  container does not run.
- The design documents promise a lock after 5 two-factor failures in 10 minutes. The window starts with its first
  failure, so up to 8 can fall into 10 minutes (`EightCanMeet`), and never 9 (`TwoFactorBound`).
  `FiveFailuresLockExactly` says when the promise is kept: five failures within 10 minutes lock the account if and only if
  the first of them found no open window, that is, no entry, or one whose first failure is at least 10 minutes old.

## Model

| member | source | states |
|---|---|---|
| `Servers.Transition` | src/servers/servers.service.ts:674-706 | a compare-and-set touches one row and only its status: no row appears or goes, no memory limit or container changes |
| `Servers.AdmitsExactly` | src/servers/servers.service.ts:815-845 | the rounded and clamped check admits a request exactly when it and the memory in use are at most total × ratio |
| `Servers.MemoryMonotone` | src/servers/servers.service.ts:744-760 | dropping rows from the allocation sum never raises it |
| `Reconciliation.ServerTable.Reconcile` | src/servers/servers.service.ts:58-101 | the two loops over the boot snapshot leave the table that `Reconciled` defines |
| `Reconciliation.WriteAllAt` | src/servers/servers.service.ts:75-101 | each snapshot row is written as if it were alone, whatever the other rows' outcomes |
| `Reconciliation.AllOrNothing` | src/servers/servers.service.ts:58-145 | if Docker is out of reach for one row every row is kept; otherwise each row still as read gets the container Docker found and RUNNING exactly if that runs, or STOPPED without a container if none was found, unless its inspect failed, and every other row is kept exactly |
| `Reconciliation.UnavailableMeansOutOfReach` | src/servers/servers.service.ts:103-145 | the reconciliation gives up exactly if an inspect, or a lookup that was needed, did not reach Docker |
| `Reconciliation.SecondBootWritesNothing` | src/servers/servers.service.ts:58-145 | a second reconciliation with the same Docker answers writes nothing |
| `LifecycleSafety.Keeps` | src/servers/servers.service.ts:193-231 | every harmless step of every call keeps the invariant on rows, containers, claims and pending boot writes |
| `LifecycleTheorems.HarmlessIsExact` | src/servers/servers.service.ts:484-517 | a step keeps the invariant if and only if it is not an outer catch that hits a row held by another call or with a running container |
| `LifecycleTheorems.RestartFreeRunsAreHarmless` | src/servers/servers.service.ts:313-421 | without restart calls no run contains such a step, boots, crashes and database failures included |
| `LifecycleTheorems.OneOwnerPerRow` | src/servers/servers.service.ts:655-706 | a row has at most one call between its won claim and its settle, only that call starts, stops or removes the container, and its settle never misses |
| `LifecycleTheorems.StatusesAreTrue` | src/servers/servers.service.ts:103-145 | RUNNING has a running container, STOPPED has none running, and every running container is named by exactly one row |
| `LifecycleOutcomes.StartAnswerDecides` | src/servers/servers.service.ts:351-374 | whatever other calls do meanwhile, the answer to a start decides the row: RUNNING if done, ERROR if in doubt or while creating, STOPPED if refused |
| `LifecycleOutcomes.StopAnswerDecides` | src/servers/servers.service.ts:395-421 | likewise for a stop: STOPPED if done or missing, ERROR if in doubt, RUNNING if refused |
| `LifecycleOutcomes.DeleteErases` | src/servers/servers.service.ts:520-543 | a delete whose container was removed takes its row away whatever other calls do, and the container does not run |
| `LifecycleOutcomes.CreatedContainerIsStored` | src/servers/servers.service.ts:193-216 | the container a create made is new, stopped, labelled with the server, and ends up in its row |
| `LifecycleOutcomes.FailedCreateIsLookedUp` | src/servers/servers.service.ts:195-231 | a create that Docker did not confirm goes on to compensation, with its row untouched |
| `LifecycleOutcomes.LookupDecides` | src/servers/servers.service.ts:616-638 | compensation keeps the row as ERROR with the container that was found, and deletes it if there is none, whatever other calls do |
| `LifecycleOutcomes.UnreachableLookupKeepsTheRow` | src/servers/servers.service.ts:616-621 | if the lookup does not reach Docker the CREATING row stays for the next boot and the call ends |
| `LifecycleOutcomes.FailedRemoveIsInspected` | src/servers/servers.service.ts:533-540 | a remove that Docker did not confirm leads to an inspect, with the row untouched |
| `LifecycleOutcomes.InspectDecides` | src/servers/servers.service.ts:592-614 | after a failed remove the row goes exactly if the container is gone or does not run, and is ERROR otherwise |
| `LifecycleOutcomes.CaughtEraseIsError` | src/servers/servers.service.ts:601-613 | a database failure of the delete inside the `try` leaves the row ERROR with its container |
| `LifecycleOutcomes.WritesAreGuarded` | src/servers/servers.service.ts:592-706 | in every state, even a call that has lost its row changes or deletes a row only in the status, and for a settle with the container, that its statement names |
| `LifecycleOutcomes.MissedRunningIsError` | src/servers/servers.service.ts:366-371 | a start whose row is no longer STARTING when Docker is done goes on to settle ERROR and fails |
| `LifecycleCalls.CreateInserts` | src/servers/servers.service.ts:155-191 | a create inserts one new CREATING row with the limit it asked for, and only if that and all rows counted under the lock are at most total × ratio |
| `LifecycleCalls.RefusedCreateDidNotFit` | src/servers/servers.service.ts:815-845 | a create that is refused did not fit, and changes no row |
| `LifecycleCalls.StartClaims` | src/servers/servers.service.ts:313-353 | a start takes the row it read from STOPPED to STARTING unless the row has moved, and only if its limit fits beside the other rows that are not STOPPED |
| `LifecycleCalls.RefusedStartDidNotFit` | src/servers/servers.service.ts:333-349 | a start that is refused did not fit, and changes no row |
| `LifecycleCalls.StopClaims` | src/servers/servers.service.ts:376-395 | a stop or restart takes the row it read from RUNNING to STOPPING unless the row has moved |
| `LifecycleCalls.DeleteClaims` | src/servers/servers.service.ts:520-535 | a delete takes the row it read from STOPPED to STOPPING unless the row has moved, and goes on to its container if it has one |
| `LifecycleCalls.StoppedRestartMeasures` | src/servers/servers.service.ts:423-466 | a restart whose stop Docker did goes on to measure the host, with a container that does not run |
| `LifecycleCalls.RestartClaims` | src/servers/servers.service.ts:467-487 | a measured restart takes its own row to STARTING and goes on to start it, and only if its limit fits |
| `LifecycleCalls.UnmeasuredRestartStops` | src/servers/servers.service.ts:512-517 | a restart that cannot measure the host leaves its row STOPPED |
| `LifecycleCalls.RefusedRestartStops` | src/servers/servers.service.ts:512-517 | a restart that is refused, or fails in its locked section, leaves its row STOPPED |
| `LifecycleCalls.LockIsNeverLeaked` | src/servers/servers.service.ts:744-760 | the advisory lock is free or held by a call still in its locked section, in every state of every run |
| `LifecycleCalls.BootFollowsAnswers` | src/servers/servers.service.ts:58-145 | once a boot is done every row says what Docker answered, unless it was STOPPED or its inspect failed |
| `LifecycleCalls.UnreachedBootWritesNothing` | src/servers/servers.service.ts:66-71 | a boot that does not reach Docker for one of its rows plans no write at all |
| `LifecycleTheorems.RestartCanStealAClaim` | src/servers/servers.service.ts:492-517 | a run in which restart's second settle takes a row back from a delete that goes on to remove its container |
| `LifecycleTheorems.RestartCanBreakExclusion` | src/servers/servers.service.ts:492-517 | a run that goes on until two calls hold the same row |
| `LifecycleMemory.MemoryIsNeverOvercommitted` | src/servers/servers.service.ts:155-191 | with a fixed RAM total the limits of all rows together are at most total × ratio in every interleaving, and a start or restart of an existing row is never refused for memory |
| `LifecycleMemory.AStartFitsTheHostItMeasured` | src/servers/servers.service.ts:333-349 | whatever totals the calls measure, when a start's claim commits all rows in CREATING, STARTING or RUNNING together need at most ratio × the total that call measured |
| `Restart.Server.Restart` | src/servers/servers.service.ts:423-518 | for all answers the row ends in the status and the container in the state that `FinalStatus` and `FinalContainer` give, and the outer catch never changes what the inner catch settled |
| `Restart.FinalStatusIsTrue` | src/servers/servers.service.ts:423-518 | that status is RUNNING exactly if the stop was rejected, or memory sufficed and the start was done, and ERROR exactly if an answer was in doubt; STOPPED is true of the container, and RUNNING exactly unless the container had stopped by itself and Docker rejected the stop |
| `Restart.FinalContainerIsLastEffect` | src/servers/servers.service.ts:423-518 | the container runs at the end exactly after an effective start, or if it ran before and was not stopped |
| `SessionsSafety.RotatedDb` | src/auth/auth.service.ts:461-478 | replacing one row by its successor keeps one row per login, spent tokens without rows, and cleared sessions cleared |
| `SessionsSafety.CommitUpdateKeeps` | src/admin/admin.service.ts:54-81 | committing a ban, reset, forced change or status change keeps every other call's expectations, because they hold no lock on that user |
| `SessionsSafety.LastReset` | src/admin/admin.service.ts:206-213 | a pending or consumed credential comes from the last reset of its user, with no forced change since, and is pending exactly until its use |
| `SessionsSafety.PendingIsUnused` | src/auth/auth.service.ts:647-668 | a credential that is still pending has never been used nor logged in with |
| `SessionsSafety.InvHolds` | src/auth/auth.service.ts:397-481 | the invariant of sessions and recovery holds in every state of every run |
| `SessionsTheorems.ClearedSessionsStayCleared` | src/admin/admin.service.ts:69-77 | after a ban, a reset or a completed forced change commits, every live row of the user descends from a login inserted after that transaction's delete, however rotations raced |
| `SessionsTheorems.NoSessionUntilTheNextLogin` | src/users/users.service.ts:105-130 | without such a login the user has no refresh row at all |
| `SessionsTheorems.RotationNeedsAnAcceptedUser` | src/auth/auth.service.ts:429-441 | a rotation commits only while the user is active and the recovery state agrees with the token |
| `SessionsTheorems.HistoryOnlyGrows` | src/auth/auth.service.ts:606-645 | what has been committed stays on record and signed tokens never change |
| `SessionsTheorems.ExchangedOnce` | src/auth/auth.service.ts:461-471 | a refresh token id is exchanged at most once, and then has no row |
| `SessionsTheorems.OneRowPerLogin` | src/auth/auth.service.ts:606-645 | the tokens descended from one login have at most one live row |
| `SessionsTheorems.ThreeShapes` | src/admin/admin.service.ts:196-216 | the recovery columns are always in one of three shapes: normal, reset pending, reset consumed, and the history says which |
| `SessionsTheorems.UsedOnce` | src/auth/auth.service.ts:647-668 | the credential of a reset is used at most once |
| `SessionsTheorems.OneForcedLoginPerReset` | src/auth/auth.service.ts:343-378 | a reset gives at most one forced login, with or without two-factor, and only after its credential was used |
| `SessionsTheorems.ForcedChangeAnswersItsReset` | src/users/users.service.ts:89-137 | a forced change completes only for the reset whose credential was used, with no newer reset of that user in between |
| `SessionsOutcomes.UpdateIsWritten` | src/admin/admin.service.ts:54-81 | a committed status change, reset or forced change writes its own columns of its own user and nothing else of any user |
| `SessionsOutcomes.UpdateEndsSessions` | src/admin/admin.service.ts:69-77 | it ends exactly the sessions its delete has seen, and only a ban, a reset or a forced change has a delete |
| `SessionsOutcomes.DeleteSeesAllSessions` | src/admin/admin.service.ts:206-213 | that delete sees every committed session of the user and no other |
| `SessionsOutcomes.AdminsActOnUsers` | src/admin/admin.service.ts:54-66 | a status change is for an existing user with another status, and a reset draws a new credential for an existing user |
| `SessionsOutcomes.FailureRollsBack` | src/auth/auth.service.ts:418-480 | a transaction that fails leaves no call, no lock and nothing written |
| `SessionsOutcomes.OnlyTheEntitledLogIn` | src/auth/auth.service.ts:232-314 | whoever begins a login is active and presents the password of an account in its normal state or the unexpired temporary credential of one in recovery |
| `SessionsOutcomes.TwoFactorCompletesExactly` | src/auth/auth.service.ts:329-378 | a two-factor login completes if and only if its token still agrees with the account, down to the credential it was issued for |
| `SessionsOutcomes.TwoFactorWasAsked` | src/auth/auth.service.ts:265-305 | its token was issued before, to an active account in the same recovery state |
| `SessionsOutcomes.ConsumedExactly` | src/auth/auth.service.ts:647-668 | a credential is consumed if and only if its reset is pending and unexpired; otherwise nothing is written |
| `SessionsOutcomes.LoginInsertsItsSession` | src/auth/auth.service.ts:606-645 | a login inserts one row, for a token of its user with the origin of the credential presented |
| `SessionsOutcomes.ChangeIsPlannedExactly` | src/users/users.service.ts:89-103 | a forced change is taken up exactly if the account's credential has been consumed, and for that credential |
| `SessionsOutcomes.BannedUserStaysOut` | src/auth/auth.service.ts:676-684 | from a committed ban to the next committed status change no login of that user begins and no rotation of theirs is accepted |
| `SessionsOutcomes.RotationBeganLive` | src/auth/auth.service.ts:418-427 | a token being exchanged had a live, unexpired row when its rotation began |
| `SessionsOutcomes.RotationReplacesItsToken` | src/auth/auth.service.ts:461-478 | a committed rotation replaces one row by its successor and keeps every other session but expired ones of the same user |
| `SessionsPaths.RotationPath` | src/auth/auth.service.ts:418-480 | an undisturbed rotation of a live token of an accepted user replaces its row by a successor of the same login, user and origin, and touches nothing else |
| `SessionsPaths.ResetPath` | src/admin/admin.service.ts:196-216 | an undisturbed reset leaves its credential pending and the user without sessions |
| `SessionsPaths.ForcedLoginPath` | src/auth/auth.service.ts:265-293 | a usable temporary credential gives a forced session and is then consumed |
| `SessionsPaths.ForcedChangePath` | src/users/users.service.ts:89-137 | the forced change ends the recovery and leaves the user exactly one, ordinary, session |
| `SessionsPaths.LoginPath` | src/auth/auth.service.ts:296-310 | an undisturbed password login adds one ordinary session |
| `SessionsPaths.TwoFactorPath` | src/auth/auth.service.ts:316-378 | so does one with two-factor, in two requests |
| `SessionsPaths.ForcedTwoFactorPath` | src/auth/auth.service.ts:273-290 | with two-factor a usable temporary credential is consumed by the second request |
| `SessionsPaths.BanPath` | src/admin/admin.service.ts:54-81 | an undisturbed ban leaves the user BANNED and without sessions |
| `BackupCodes.FirstMatch` | src/auth/auth.service.ts:752-755 | the hash found accepts the token and is stored; none is found only if no stored hash accepts it |
| `BackupCodes.TwoFactorRow.VerifyAndConsume` | src/auth/auth.service.ts:736-768 | a code is accepted exactly when the list that was read holds it and is still the stored one, and then only that code is gone |
| `BackupCodes.Filtered` | src/auth/auth.service.ts:757-757 | the loop leaves the list without the taken hash, in order |
| `BackupCodes.NotTakenBefore` | src/auth/auth.service.ts:757-764 | a code that is still stored was never accepted, in this enrolment or an earlier one |
| `BackupCodes.AcceptedOnce` | src/auth/auth.service.ts:736-768 | a backup code is accepted at most once over the whole run |
| `BackupCodes.StoredIsEnrolledMinusAccepted` | src/auth/auth.service.ts:569-604 | until it is cleared the stored list is the enrolled list minus the accepted codes |
| `BackupCodes.AtMostEight` | src/auth/auth.service.ts:569-579 | one enrolment is good for at most eight acceptances |
| `BackupCodes.StoredAndAcceptedAddUp` | src/auth/auth.service.ts:569-579 | while an enrolment is current, codes stored and codes accepted add up to eight |
| `FailureWindows.NineSpanAWindow` | src/auth/auth.service.ts:699-734 | nine failures split into anchored windows of at most five always span a full window length |
| `FailureWindows.TwoFactorFailures.AssertNotLocked` | src/auth/auth.service.ts:699-714 | reports a running lock, forgets one that has run out, and touches no other account |
| `FailureWindows.TwoFactorFailures.RecordFailure` | src/auth/auth.service.ts:716-734 | the account's entry is the next failure of its open window or the first of a new one, and no other account changes |
| `FailureWindows.TwoFactorBound` | src/auth/auth.service.ts:699-734 | any half-open ten minutes hold at most eight failed checks of one account |
| `FailureWindows.FiveFillAWindow` | src/auth/auth.service.ts:716-734 | five failures within a window length fill a window if and only if the first of them opened it |
| `FailureWindows.FiveFailuresLockExactly` | src/auth/auth.service.ts:716-734 | in every run, five failures within ten minutes lock the account if and only if the first found no entry or one whose window had run its length |
| `FailureWindows.EightCanMeet` | src/auth/auth.service.ts:716-734 | a run in which eight failures fall within one millisecond of each other |
| `LoginAbuse.LoginAbuseService.AssertAllowed` | src/auth/login-abuse.service.ts:21-41 | refuses exactly when a fresh entry of that identifier and source has five failures; otherwise delays by the account's count |
| `LoginAbuse.LoginAbuseService.RecordFailure` | src/auth/login-abuse.service.ts:43-48 | both maps are pruned and bumped, stay maps within 20000 and 5000 entries, and hold the keys just recorded |
| `LoginAbuse.LoginAbuseService.RecordSuccess` | src/auth/login-abuse.service.ts:50-57 | removes the account's entry and every pair with its prefix, and nothing else |
| `LoginAbuse.PruneEntries` | src/auth/login-abuse.service.ts:88-95 | keeps exactly the entries whose last failure is younger than the window, in order |
| `LoginAbuse.BumpEntries` | src/auth/login-abuse.service.ts:64-86 | sets the key in place or at the end and evicts the oldest entries beyond the cap |
| `LoginAbuse.RecordedSurvives` | src/auth/login-abuse.service.ts:64-86 | the key just recorded is never the one evicted |
| `LoginAbuse.OthersSurvive` | src/auth/login-abuse.service.ts:64-86 | every other key that was not evicted is found with the entry it had |
| `LoginAbuse.FindPruned` | src/auth/login-abuse.service.ts:88-95 | after pruning a key is found exactly if it was there and not stale |
| `LoginAbuse.PairKeyIsInjective` | src/auth/login-abuse.service.ts:59-62 | two pairs share a key only if identifier and source are the same |
| `LoginAbuse.SuccessClears` | src/auth/login-abuse.service.ts:50-57 | a success clears a pair if and only if its identifier is the account or continues it after a NUL character |
| `LoginAbuse.SuccessClearsItsOwn` | src/auth/login-abuse.service.ts:50-57 | without NUL characters a success clears exactly its own pairs |
| `LoginAbuse.ContinuedIdentifierIsCleared` | src/auth/login-abuse.service.ts:43-57 | on the service alone, a failure recorded for an identifier that continues an account after a NUL character is gone after that account's success |
| `LoginAbuse.LoginBound` | src/auth/login-abuse.service.ts:21-48 | any half-open fifteen minutes hold at most eight failed logins of one identifier from one source, whatever other keys do, until a success or eviction of that key |
| `LoginAbuse.FiveFailuresLimitExactly` | src/auth/login-abuse.service.ts:21-86 | five failures of one key within fifteen minutes get it refused if and only if the first found no open window of the key |
| `Reservations.Reserved` | src/gateway/socket-reservation.service.ts:27-55 | a reservation adds one unclaimed entry exactly when it is accepted, keeps all others and never exceeds the cap |
| `Reservations.Claimed` | src/gateway/socket-reservation.service.ts:57-69 | a claim marks its own reservation and changes no other |
| `Reservations.Released` | src/gateway/socket-reservation.service.ts:71-90 | releasing takes away exactly the reservation that was there |
| `Reservations.AcceptedExactly` | src/gateway/socket-reservation.service.ts:27-45 | a connection is accepted if and only if it has an id, fewer than 100 wait and the id does not wait already |
| `Reservations.ClaimedOnce` | src/gateway/socket-reservation.service.ts:57-69 | once claimed a reservation cannot be claimed again, whatever other connections do |
| `Reservations.SocketReservationService.Reserve` | src/gateway/socket-reservation.service.ts:27-55 | accepts an unknown id below the cap and closes every other connection, keeping accepted = live + released |
| `Reservations.SocketReservationService.Claim` | src/gateway/socket-reservation.service.ts:57-69 | succeeds once per reservation |
| `Reservations.SocketReservationService.Release` | src/gateway/socket-reservation.service.ts:71-90 | succeeds exactly for a live reservation and closes the raw connection only if asked |
| `Reservations.SocketReservationService.OnModuleDestroy` | src/gateway/socket-reservation.service.ts:92-96 | releases every reservation once |
| `GatewayOrder.DisconnectAnyFirst` | src/gateway/events.gateway.ts:481-490 | disconnecting the sockets of a token has one result in whatever order the loop takes them |
| `GatewayOrder.CleanupAnyFirst` | src/gateway/events.gateway.ts:181-183 | so does cleaning up the gateway's sockets |
| `EventsGatewayService.EventsGateway.HandleConnection` | src/gateway/events.gateway.ts:96-154 | keeps the invariant and takes the machine's connection step |
| `EventsGatewayService.EventsGateway.HandleAuth` | src/gateway/events.gateway.ts:133-153 | keeps the invariant and takes the machine's step of the `auth` listener |
| `EventsGatewayService.EventsGateway.OnVerification` | src/gateway/events.gateway.ts:126-129 | keeps the invariant whatever the verification says, and takes the machine's step |
| `EventsGatewayService.EventsGateway.OnAuthSuccess` | src/gateway/events.gateway.ts:188-232 | keeps the invariant, the start of polling included, and puts the socket into the room exactly if the principal is an admin with an ordinary session and no password change ahead, the token unexpired, the socket connected and its reservation live |
| `EventsGatewayService.EventsGateway.HandleDisconnect` | src/gateway/events.gateway.ts:156-174 | keeps the invariant and takes the machine's disconnect step |
| `EventsGatewayService.EventsGateway.OnModuleDestroy` | src/gateway/events.gateway.ts:176-186 | keeps the invariant, so that no admin, interval or pending tick is left, and takes the machine's last step |
| `EventsGatewayService.EventsGateway.CleanupSocket` | src/gateway/events.gateway.ts:507-544 | clears timers, listener, principal, room and reservation, with one admin less and the polling stopped for the last |
| `EventsGatewayService.EventsGateway.StartPollingIfNeeded` | src/gateway/events.gateway.ts:365-378 | re-establishes the tie between admin count and interval that a join has broken |
| `EventsGatewayService.EventsGateway.Tick` | src/gateway/events.gateway.ts:391-402 | keeps at most one collection in flight and takes the machine's step to the first `await` |
| `EventsGatewayService.EventsGateway.OnGroupVerified` | src/gateway/events.gateway.ts:476-499 | keeps every room member checked or still listed, and keeps the sockets of the token in the room exactly if it stands for such an admin |
| `EventsGatewayService.EventsGateway.ResumeTick` | src/gateway/events.gateway.ts:398-439 | keeps the invariant, and when it sends stats every room member has been verified as such an admin since they were collected |
| `EventsGatewayService.EventsGateway.GroupRoom` | src/gateway/events.gateway.ts:452-470 | the loop over the room puts every member with a token under that token, and singles out exactly the others |
| `GatewaySafety.FieldsAgree` | src/gateway/events.gateway.ts:365-440 | at every event boundary the admin count is the number of sockets with a principal (the clamp at zero is never needed), the interval exists exactly when it is positive, at most one collection is in flight, and a pending immediate tick implies both |
| `GatewaySafety.BroadcastOnlyToCheckedAdmins` | src/gateway/events.gateway.ts:391-500 | at a broadcast every room member's own token was verified since the snapshot was collected, and stood for an admin with an ordinary session and no password change ahead |
| `GatewaySafety.ReservationsAddUp` | src/gateway/socket-reservation.service.ts:27-96 | there are never more than 100 reservations, and accepted ones equal live ones plus releases |
| `GatewayHistory.OneSocketPerConnection` | src/gateway/events.gateway.ts:188-212 | over a whole run at most one socket of an Engine.IO connection is authenticated |
| `GatewayHistory.TooLateIsNever` | src/gateway/events.gateway.ts:502-544 | a socket that was cleaned up, or disconnected or timed out before authenticating, never gets a principal later |
| `GatewayHistory.AdmittedExactly` | src/gateway/events.gateway.ts:188-236 | a verified principal joins the admin room if and only if it is such an admin, its token unexpired, its socket connected and its reservation live |
| `GatewayHistory.RevalidatedExactly` | src/gateway/events.gateway.ts:476-492 | revalidating a token keeps all of its sockets in the room if it stands for such an admin, and none otherwise |
| `GatewayChecks.CheckWasMade` | src/gateway/events.gateway.ts:476-485 | a check on record was made: its time is the step that verified that socket's token with that principal |
| `GatewayChecks.SnapshotWasCollected` | src/gateway/events.gateway.ts:404-409 | the time of a snapshot is the step at which its collection succeeded |
| `GatewayChecks.EveryRecipientWasVerified` | src/gateway/events.gateway.ts:391-500 | between the step that collected the stats and the step that sends them, the token of every recipient was verified and stood for an admin with an ordinary session and no password change ahead |
| `GatewayOutcomes.ConnectionDecides` | src/gateway/events.gateway.ts:96-154 | a socket of a reserved, unclaimed connection waits under its deadline for its cookie's verification or for an `auth` event; any other is given up and its connection, and no other, closed |
| `GatewayOutcomes.AuthEventDecides` | src/gateway/events.gateway.ts:133-150 | the first well-formed `auth` event starts a verification; any other gives the socket up |
| `GatewayOutcomes.TimeoutCloses` | src/gateway/events.gateway.ts:502-544 | a deadline or an expiry gives its socket up, releases its reservation and closes that connection, and no other |
| `GatewayOutcomes.RawCloseCloses` | src/gateway/socket-reservation.service.ts:53-54 | a raw connection that closes loses its reservation and its sockets, and no other connection does |
| `GatewayOutcomes.ReservationsRunOut` | src/gateway/socket-reservation.service.ts:48-96 | a reservation that runs out is released, and no other; at shutdown all of them are, each counted once |
| `GatewayOutcomes.DisconnectedCloses` | src/gateway/events.gateway.ts:156-174 | a socket that disconnects unauthenticated takes its raw connection down; an authenticated one touches no other socket |
| `GatewayOutcomes.CollectionIsRecorded` | src/gateway/events.gateway.ts:404-409 | the collection's result is recorded with its time |
| `GatewayOutcomes.ResumeDecides` | src/gateway/events.gateway.ts:398-439 | a tick collects after a first passed revalidation, revalidates again if the snapshot is there and current, sends after a second passed one, and ends in every other case |
| `GatewayOutcomes.GroupsAreTheRoom` | src/gateway/events.gateway.ts:452-470 | a revalidation lists every room member under its own token, and nobody else |
| `Admins.RefusalIsExact` | src/admin/admin.service.ts:237-254 | a change is refused for the last admin's sake if and only if it would leave no active admin |
| `Admins.SetupCreatesOneAdmin` | src/setup/setup.service.ts:98-129 | setup creates no admin before its flag is set and exactly one in the whole run after |
| `Admins.AnActiveAdminRemains` | src/admin/admin.service.ts:54-108 | once setup is complete there is always an active admin, whatever role and status changes race |
| `Admins.GrantsBelongToMods` | src/admin/admin.service.ts:123-194 | a permission row always belongs to a user whose role is MOD |
| `Admins.CommitWrites` | src/admin/admin.service.ts:54-108 | a committed change writes the asked status or role of its target, clears its grants on a role change, adds exactly the asked grant, and touches nobody else |
| `Admins.TargetDecides` | src/admin/admin.service.ts:58-66 | a change ends at its target exactly if there is nothing to change or a grant is not for a MOD, and must count admins exactly if the target is an active admin |
| `Admins.CountDecides` | src/admin/admin.service.ts:237-246 | counting ends the change if and only if it would leave no active admin |
| `Admins.SetupWrites` | src/setup/setup.service.ts:98-129 | setup adds one active admin and sets its flag together, and only if it was not set |
| `Admins.RevokeAndRegisterWrite` | src/admin/admin.service.ts:178-194 | revoking takes away exactly the grants it names; registering adds one ordinary user |
| `Admins.SetupPath` | src/setup/setup.service.ts:98-129 | undisturbed, setup creates its admin if none was created |
| `Admins.ChangePath` | src/admin/admin.service.ts:54-108 | undisturbed, a change that applies and is not on an admin commits |
| `Access.RowsFitTheirServer` | src/servers/server-access.service.ts:100-264 | open servers have no access rows, private ones only approved rows, and an approved row on a request server was first that user's pending row |
| `Access.ApprovedOnce` | src/servers/server-access.service.ts:247-264 | each pending row is approved by at most one call, and a requested row is APPROVED exactly when that call is on record |
| `Access.RequestThenApproval` | src/servers/server-access.service.ts:137-264 | undisturbed, a request inserts a pending row where there is none and an approval approves that very row |
| `Access.FindDecidesApproval` | src/servers/server-access.service.ts:180-200 | an approval's find ends it at an approved row, tries a pending one again once, and where there is no row inserts on a private server and ends on a request server |
| `Access.RowsGoExactly` | src/servers/server-access.service.ts:124-135 | a revocation takes away exactly that user's row, and deleting a server exactly its rows |
| `Access.NewServerIsHidden` | src/servers/server-access.service.ts:279-291 | a server that is being created is not there for requests, approvals or revocations, and has no access rows |
| `Access.RetriesEnd` | src/servers/server-access.service.ts:137-219 | both retry recursions stay within two rounds, a request within six statements and an approval within seven, whatever other calls do |
| `AccessRuns.ARequestCanMakeSix` | src/servers/server-access.service.ts:137-172 | a run in which a request makes five statements and is about to make its reporting read |
| `AccessRuns.AnApprovalCanMakeSeven` | src/servers/server-access.service.ts:174-219 | a run in which an approval makes six statements and is about to make its reporting read |

## Left out

- Controllers, guards, DTOs, cookies, Swagger and logging: framework wiring with one-branch behaviour.
- bcrypt, SHA-256, AES-GCM, JWT signing and TOTP: taken as injective or opaque functions.
- Docker transport, RCON streams and the player warning before a stop: only the outcomes the lifecycle branches on are modelled; an effect that arrives after an "unavailable" answer was returned is not.
- Floating point: total × ratio is computed over the reals, without rounding.
- Missing configuration, host or disk information in create and start ends the call before its first step.
- Google OAuth, identity linking and OAuth challenges: external verification and unique constraints.
- `logoutAll` and the ordinary password change as guarantees: they delete rows without the user's row lock, so a racing rotation's new row can survive; they are extra delete steps here.
- Create, start, stop, delete, rotation, login, resets, setup, grants and access calls as methods: they are interleaved, so each is a sequence of steps of a machine on values rather than a method body.
- The cache that a new admin may be sent on joining, and the disconnect of a room member without a token, which the invariant rules out.
- `LoginAbuse.ContinuedIdentifierIsCleared`: the login path looks an identifier up in PostgreSQL before it records a failure (`src/auth/auth.service.ts:240`), and PostgreSQL text cannot hold a NUL character, so the case exists only for the service by itself.
- `parseAccessCookie` and `parseAuthPayload`: a cookie or payload is already classified.
- Concurrent two-factor attempts that pass the lock check together: the bound is for attempts made one after another.
- Trimming and lowercasing of login identifiers: identifiers are already normalised.
- Response bodies, HTTP status codes and messages of refused calls.
- List endpoints, SQL ordering and pagination, database migrations and the lint rules under `tools/`.
