# Verification of the Supersonic backend

Supersonic is a simulated vehicle cockpit with an operations platform around it: accounts, sessions,
a login throttle, live WebSocket connections, an audit trail with a fallback file, and backups. This
project models the parts of it that keep state and proves what they promise over whole runs.

`dafny verify dfyconfig.toml` checks everything.

## What is modelled

**Platform transactions** (`PlatformTables`, `PlatformUnits`, `PlatformSessions`, `PlatformInvariants`,
`PlatformRuns`, `PlatformEffects`, `PlatformConduct`). The database is a value of three tables. `PlatformTables` says what each unit of work
does to it; `PlatformUnits` and `PlatformSessions` are the services, call by call on a working copy, with
a database that can go away before any call and a cleanup that can fail. `PlatformRuns` interleaves the
units of any number of requests; `PlatformEffects` and `PlatformConduct` say, without those units, which
rows change and how, which facts are stored, and who gets anything done. One result deserves attention: a logout, or an internal revoke, whose
unit commits and then fails to clean up never makes its callback, unlike the management revokes
(`LogOutUnheard`, `RevokeUnheard`).

**Login throttle** (`ThrottleSpec`, `Throttle`, `ThrottleRuns`, `ThrottleHistory`). A table in least-recently-touched order
with pruned queues, the class that keeps it in place, and its agreement with a history that forgets
nothing, and with the list of calls alone.

**WebSocket registry** (`Registry`, `RegistryRuns`, `RegistryEffects`). The registry's tables and the pieces of its
coroutines between awaits, under an arbitrary scheduler.

**Cockpit authority** (`CockpitModel`, `Transitions`, `CommandEffects`, `CockpitService`, `CockpitClient`). The
command handler with its derived fields, what each command does to the last field, the locked service methods, one-slot queues that drop the older
snapshot, and the client's rule. Two conditions are exact. A second disconnect of one queue spoils the
counts unless the count is already zero. Across resets the client ends on the newest snapshot exactly
when the last block of deliveries from one session holds it; `LateOldSessionWins` is a run in which it
does not.

**Audit history** (`Paging`, `Base64Url`, `Timestamps`, `JsonText`, `Cursors`, `FormatLaws`). Keyset paging over a growing table,
and the cursor between pages with base64url, timestamp and JSON spelled out.

**Audit store** (`Digits`, `Uuids`, `AuditEvents`, `AuditStore`, `AuditIdentity`, `AuditEffects`). Sanitizing by closed vocabularies,
the canonical form of an event, its row, and appending at most once per identifier.

**Audit import** (`Reconciliation`, `ReconciliationFile`). The batch check, the import in one transaction and the
archiving of the file, each step able to fail or to be the last one before a crash.

**Command gateway** (`GatewaySteps`, `GatewayFacts`, `Gateway`, `GatewayRuns`). Recording an event and asking the authority as
functions of one world; the gateway that takes these steps while other calls act between any two of
them; and runs of any number of calls, in which each step (`IsStep`) is all that a waiting call has to
reckon with (`Elsewhere`).

**Fallback file** (`Json`, `FallbackWords`, `FallbackCodec`, `FallbackFormats`, `FallbackFile`, `FallbackLaws`, `UuidSpellings`). Lines of JSON in a
bounded file. That no line holds a line separator rests on every word of the vocabularies being checked, and
on identifiers spelled in hexadecimal: Python accepts others, and `SeparatorIsAccepted` is one that
breaks its line.

**Backup publication** (`BackupFiles`, `Backup`). Paths, inodes and bytes shared with other processes that act before
every operation. `meddled` says that others touch an entry or the bytes of a file this run created;
files of theirs appearing anywhere, the output paths included, are not meddling. That, and which calls
raise, is written down beforehand, for removals, for readings of an identity and for all others. One result
deserves attention: when the identity of a new file cannot be read (for the lock after one attempt, for
a temporary file after two), the code leaves that file behind although no unlink failed.
`UnreadLockStays` is such a run, and `LosesIdentity` the exact condition on those readings.

`Wrappers` and `Seqs` are small shared helpers.

## Model

| member | source | states |
|---|---|---|
| `PlatformRuns.EveryRunIsRestorable` | scripts/platform_restore.py:317-328 | From any database that passes the three restore checks, whatever else it holds and whatever requests are in flight, every interleaving of the units of work of any number of management, login, logout and revoke requests, with stale actors and preflights and units that fail, leaves one that passes them |
| `PlatformRuns.EveryLiveSessionHasCurrentRole` | apps/backend/app/platform/sessions.py:303-330 | If the login fact of each live session names the session's user and the role that user has now, it does so after every run |
| `PlatformRuns.EveryAttemptIsSettled` | apps/backend/app/platform/admin.py:505-597 | From any database, with fresh ids: each attempt of the run has at most one outcome; a request that returns has exactly one, SUCCEEDED, and has called back exactly the sessions it revoked, all of which are revoked; one that raises and says it recorded the failure has exactly that fact |
| `PlatformRuns.EveryFactIsLinked` | apps/backend/app/platform/admin.py:505-597 | If every correlated fact belongs to a stored attempt and no attempt has two outcomes, that is so after every run |
| `PlatformRuns.ChangesAreAudited` | apps/backend/app/platform/admin.py:228-276 | Users and sessions change only in a unit that also stores a SUCCEEDED fact; for a management mutation that fact carries the id of an ATTEMPTED fact stored before |
| `PlatformRuns.RunGrows` | apps/backend/app/adapters/postgres/repositories.py:418-445 | Over any run audit facts stay as they are and revoked sessions stay revoked, with the time and reason they got first |
| `PlatformRuns.RunKeeps` | apps/backend/app/platform/admin.py:162-481 | The invariant of requests, their attempts and outcomes holds after every possible series of steps |
| `PlatformEffects.ChangeRoleEffect` | apps/backend/app/platform/admin.py:199-276 | After a committed role change the target has the role asked for, name, password hash and disabled state are as before, exactly the target's live sessions are revoked, and the stored fact names old and new role and how many; each refusal has its exact cause |
| `PlatformEffects.SetDisabledEffect` | apps/backend/app/platform/admin.py:322-392 | After a committed disable or enable the target is so, its role, name and hash are as before, and a disable revokes exactly its live sessions |
| `PlatformEffects.RevokeSessionEffect` | apps/backend/app/platform/admin.py:435-481 | A management revoke revokes that session with its reason, if it was live, and nothing else |
| `PlatformEffects.PreflightEffect` | apps/backend/app/platform/admin.py:212-218 | The first read finds a missing target, nothing left to do, or exactly what the attempted fact will say |
| `PlatformEffects.AttemptFacts` | apps/backend/app/platform/admin.py:505-597 | Attempted and failed facts name actor, kind, target and correlation; a failure is recorded as rejected exactly for the errors that are refusals |
| `PlatformEffects.LoginEffect` | apps/backend/app/platform/sessions.py:263-366 | A login that succeeds adds one session, under its digest and good for the user with the role read, from now until its time is over and not after; it changes no other session and of its user at most the password hash; each failure says what it leaves |
| `PlatformEffects.LogoutEffect` | apps/backend/app/platform/sessions.py:148-163 | A logout revokes exactly its session, in the name of whom the session was good for, or changes nothing |
| `PlatformEffects.RevokeEffect` | apps/backend/app/platform/sessions.py:165-187 | The same for the internal revoke |
| `PlatformEffects.EndedForGood` | apps/backend/app/platform/sessions.py:201-215 | A session that was ended is good for nobody at any time |
| `PlatformEffects.CurrentUserExactly` | apps/backend/app/platform/sessions.py:201-215 | A session stands for a principal exactly while it is stored, not revoked, not over, and its user is enabled with that role |
| `PlatformConduct.OnlyAdminsAttempt` | apps/backend/app/platform/admin.py:162-179 | In every run only administrators get as far as an attempt, never with a request against their own role or access, and every fact about a management attempt is in an administrator's name |
| `PlatformConduct.ArrivalEffect` | apps/backend/app/platform/admin.py:199-206 | Who is turned away before anything is read, and with which error |
| `PlatformConduct.ReadEffect` | apps/backend/app/platform/admin.py:208-218 | A request ends at its first read exactly when its target is missing, nothing is to be done, or the database is gone |
| `PlatformConduct.MutateEffect` | apps/backend/app/platform/admin.py:228-276 | In a run the unit of a mutation either has done as asked, with exactly the revoked sessions left to notify, or has changed nothing |
| `PlatformConduct.TargetIsAsAsked` | apps/backend/app/platform/admin.py:228-276 | After that step the target is as the request asked, and otherwise as before |
| `PlatformConduct.FailureEffect` | apps/backend/app/platform/admin.py:566-597 | A recorded failure is stored with its error, as a refusal or as an error, and changes no user and no session |
| `PlatformConduct.NotifyEffect` | apps/backend/app/platform/admin.py:626-638 | One callback is counted once, and as failed exactly if it raised; nothing is undone |
| `PlatformConduct.ReturnEffect` | apps/backend/app/platform/admin.py:191-197 | The answer comes after every callback, with those that failed |
| `PlatformInvariants.MutationKeepsRestorable` | apps/backend/app/platform/admin.py:199-276 | A committed role change, disable, enable or revoke keeps an enabled administrator, no live session of a disabled user and no revoke reason without its time |
| `PlatformInvariants.LoginKeepsRestorable` | apps/backend/app/platform/sessions.py:263-366 | A login, accepted or rejected, keeps them |
| `PlatformInvariants.EndSessionKeepsRestorable` | apps/backend/app/platform/sessions.py:148-187 | Logout and internal revoke keep them |
| `PlatformInvariants.MutationKeepsRoles` | apps/backend/app/platform/admin.py:228-269 | A committed mutation leaves no live session issued under a role its user no longer has |
| `PlatformInvariants.LoginKeepsRoles` | apps/backend/app/platform/sessions.py:303-330 | A new session is issued under the role read in the same unit |
| `PlatformInvariants.EndSessionKeepsRoles` | apps/backend/app/platform/sessions.py:165-187 | Ending a session keeps the correspondence of live sessions and roles |
| `PlatformInvariants.RevokedExactly` | apps/backend/app/adapters/postgres/repositories.py:371-395 | The ids a mutation reports as revoked are exactly the sessions it took from live to revoked, and no other session moves |
| `PlatformInvariants.OnlyTargetMoves` | apps/backend/app/platform/admin.py:199-392 | A mutation moves no user but its target, and reports no change only when users and sessions are as before |
| `PlatformInvariants.LastAdminRefusedExactly` | apps/backend/app/platform/admin.py:483-493 | On a restorable database a mutation is refused as protecting the last administrator if and only if it would take the role or the access of the only enabled one |
| `PlatformUnits.MutationUnit` | apps/backend/app/platform/admin.py:162-197 | The unit of work commits exactly the tables of its specification or none; a cleanup that fails after the commit never hides the committed result |
| `PlatformUnits.ChangeRoleUnit` | apps/backend/app/platform/admin.py:199-276 | Step by step the role change ends as specified, whichever repository call finds the database gone |
| `PlatformUnits.SetDisabledUnit` | apps/backend/app/platform/admin.py:322-392 | The same for disable and enable |
| `PlatformUnits.RevokeSessionUnit` | apps/backend/app/platform/admin.py:435-481 | The same for the management revoke |
| `PlatformUnits.ProtectEnabledAdmin` | apps/backend/app/platform/admin.py:483-493 | Refuses exactly when the target is the only enabled administrator and would not stay one |
| `PlatformUnits.CommitAttempted` | apps/backend/app/platform/admin.py:505-540 | Success means the attempted fact is committed; with a database that answers it is stored whatever the cleanup does, and a failure that is not the cleanup's means nothing was stored |
| `PlatformUnits.Conclude` | apps/backend/app/platform/admin.py:542-564 | The outcome is appended and everything committed, or nothing is, and the error has its exact cause |
| `PlatformUnits.RecordFailedOutcome` | apps/backend/app/platform/admin.py:566-597 | Whether the failure was recorded is exact, and only then the mutation's own error is raised |
| `PlatformUnits.PropagateRevokes` | apps/backend/app/platform/admin.py:626-638 | Every id is called back once, in order, and the failed ids are exactly those whose callback raised |
| `PlatformUnits.UnitOfWork.SetRole` | apps/backend/app/adapters/postgres/repositories.py:236-257 | Compare and set: the row changes only while it holds the expected role, and the answer says whether it did |
| `PlatformUnits.UnitOfWork.SetDisabled` | apps/backend/app/adapters/postgres/repositories.py:259-286 | Compare and set on being disabled |
| `PlatformUnits.UnitOfWork.RevokeAllForUser` | apps/backend/app/adapters/postgres/repositories.py:371-395 | Revokes every live session of the user and returns those ids, each once |
| `PlatformUnits.UnitOfWork.Revoke` | apps/backend/app/adapters/postgres/repositories.py:418-445 | Revokes a live session only, and says whether it did |
| `PlatformUnits.UnitOfWork.Commit` | apps/backend/app/adapters/postgres/unit_of_work.py:73-79 | The working copy replaces the tables, or they stay as they are |
| `PlatformSessions.SessionService.LogIn` | apps/backend/app/platform/sessions.py:263-343 | Throttle and tables after a login, whatever fails: a denied key touches no table, a refused credential is counted even if its audit fails, a key is cleared only after a committed and cleaned-up login |
| `PlatformSessions.SessionService.LogInAndOut` | apps/backend/app/platform/sessions.py:148-163 | The session a successful login issues is ended by its own secret at any time before it is over, and is then good for nobody |
| `PlatformSessions.SessionService.Reject` | apps/backend/app/platform/sessions.py:345-366 | The failure is counted before anything can fail, then the rejected fact is committed |
| `PlatformSessions.SessionService.LogOut` | apps/backend/app/platform/sessions.py:148-163 | With a database that answers, a logout is committed whatever the cleanup does; a failed cleanup raises, and the callback follows a committed logout exactly when the unit also cleaned up |
| `PlatformSessions.SessionService.LogOutUnheard` | apps/backend/app/platform/sessions.py:148-163 | For any live session there is a logout that revokes it for good and calls nobody back |
| `PlatformSessions.SessionService.Revoke` | apps/backend/app/platform/sessions.py:165-187 | A missing or already revoked session gives false without a callback; a committed revoke calls back exactly when the unit also cleaned up, and a failed cleanup raises |
| `PlatformSessions.SessionService.RevokeUnheard` | apps/backend/app/platform/sessions.py:165-187 | For any live session there is such a revoke that is committed and calls nobody back |
| `ThrottleRuns.AgreesWithHistory` | apps/backend/app/platform/throttle.py:46-88 | For a key that is never evicted the throttle's answer after any calls on any keys is that of a model of this key alone that keeps every failure and prunes nothing |
| `ThrottleHistory.DeniedExactly` | apps/backend/app/platform/throttle.py:46-88 | For a key that is never evicted, read off the calls alone: a check is denied exactly while a lock stands and is not over, a lock being a failure at which enough uncleared failures lie within the window, and the denial says how long the lock still lasts, rounded up |
| `ThrottleHistory.DenialTells` | apps/backend/app/platform/throttle.py:46-59 | In any table a denial tells the time the key's own lock has left, rounded up to whole seconds; there is none without such a lock |
| `ThrottleHistory.WaitingPays` | apps/backend/app/platform/throttle.py:46-59 | With no calls in between, a check after the time told is allowed, and one a second or more too early is denied |
| `ThrottleRuns.ReachableOk` | apps/backend/app/platform/throttle.py:61-92 | In every reachable table failure queues are sorted, within the window and shorter than the limit, locks are live, and the table is within its size |
| `ThrottleRuns.OrderedByTouch` | apps/backend/app/platform/throttle.py:46-72 | The table is always ordered from least to most recently touched |
| `ThrottleRuns.EvictedOnlyBehindOthers` | apps/backend/app/platform/throttle.py:90-92 | A key is evicted only when as many others as the table holds remain, all touched after it; the key just recorded never is |
| `ThrottleRuns.FewKeysCannotEvict` | apps/backend/app/platform/throttle.py:90-92 | Calls on fewer other keys than the table holds cannot evict a key touched just before them |
| `ThrottleRuns.LockNeverFalls` | apps/backend/app/platform/throttle.py:61-72 | Without a success a lock is only ever replaced by a later one |
| `ThrottleRuns.LockoutSurvives` | apps/backend/app/platform/throttle.py:46-72 | A key that is locked when it is touched is denied by every check until the lock ends, while there is no success for it and the calls are about fewer other keys than the table holds; what happened to the key before, evictions included, plays no part |
| `ThrottleRuns.LockHeld` | apps/backend/app/platform/throttle.py:61-92 | Under the same conditions the lock stays in the table and never gets shorter |
| `ThrottleRuns.FailureLocks` | apps/backend/app/platform/throttle.py:61-72 | A failure that reaches the limit locks its key for the whole lockout, whatever was there before |
| `ThrottleSpec.RetryAfterBounds` | apps/backend/app/platform/throttle.py:53-54 | A denial's retry time is between 1 and the rounded-up lockout |
| `ThrottleSpec.TrimOk` | apps/backend/app/platform/throttle.py:77-88 | Trimming leaves queues within the window and no expired lock |
| `ThrottleSpec.FailOk` | apps/backend/app/platform/throttle.py:61-72 | A recorded failure keeps the table well formed and its own key in it |
| `ThrottleSpec.TrimKeyFirst` | apps/backend/app/platform/throttle.py:77-83 | Trimming one key first does not change what trimming everything gives |
| `Throttle.LoginThrottle.Check` | apps/backend/app/platform/throttle.py:46-59 | The check in place gives the specified table and answer, and a denial tells the time the lock has left, rounded up; the branch for an expired lock is never taken |
| `Throttle.LoginThrottle.RecordFailure` | apps/backend/app/platform/throttle.py:61-72 | The failure in place gives the specified table |
| `Throttle.LoginThrottle.RecordSuccess` | apps/backend/app/platform/throttle.py:74-75 | A success forgets the key |
| `Throttle.LoginThrottle.TrimAll` | apps/backend/app/platform/throttle.py:77-83 | The sweep over the ordered dictionary is the specified trim |
| `Throttle.LoginThrottle.DiscardExpiredFailures` | apps/backend/app/platform/throttle.py:85-88 | Popping from the old end of a sorted queue is filtering it by the cutoff |
| `Throttle.LoginThrottle.EvictLru` | apps/backend/app/platform/throttle.py:90-92 | The oldest keys go until the table fits |
| `Throttle.LoginThrottle.EntryCount` | apps/backend/app/platform/throttle.py:41-44 | The count is that of the trimmed table and never above the limit |
| `Throttle.LoginThrottle.Create` | apps/backend/app/platform/throttle.py:23-39 | A throttle exists exactly for limits that are all positive |
| `RegistryRuns.BlockedForGood` | apps/backend/app/platform/websocket_registry.py:46-92 | Once a session is blocked, under every schedule no connection of it is registered, no task for it is made and no send of it begins to run |
| `RegistryRuns.HooksRunAlone` | apps/backend/app/platform/websocket_registry.py:52-65 | Whenever a close hook runs, no send of its session is in flight and no other hook of that session runs |
| `RegistryRuns.ClosedAtMostOnce` | apps/backend/app/platform/websocket_registry.py:52-65 | A hook that succeeds closes a connection no hook closed before and takes it out of the registry |
| `RegistryRuns.NormalReturnMeansEmpty` | apps/backend/app/platform/websocket_registry.py:52-65 | A close of all connections that returned normally has left none, then and ever after |
| `RegistryRuns.FailedCloseIsRetriable` | apps/backend/app/platform/websocket_registry.py:52-65 | After a close that failed, the connections are as they were, and the call that is next in line for the lock, one that waits or a new one when none does, reaches the hook of the first of them |
| `RegistryRuns.StepKeeps` | apps/backend/app/platform/websocket_registry.py:46-121 | Every step from await to await keeps the invariant of tasks, closers and tables |
| `RegistryEffects.EveryConnectionIsClosed` | apps/backend/app/platform/websocket_registry.py:52-65 | When a close of all returns normally, every connection that was registered at any time before has been closed by a hook or has left by itself |
| `RegistryEffects.LeavesOnlyClosed` | apps/backend/app/platform/websocket_registry.py:52-65 | In every run a connection leaves the registry only by its own disconnect or closed by a hook that succeeded |
| `RegistryEffects.CloseEffect` | apps/backend/app/platform/websocket_registry.py:52-56 | A close blocks its session at once and, with the lock, cancels exactly the listed sends |
| `RegistryEffects.SendsDoneEffect` | apps/backend/app/platform/websocket_registry.py:57-63 | With the sends done, the first hook is for a connection still there, or the close ends |
| `RegistryEffects.HookReturnsEffect` | apps/backend/app/platform/websocket_registry.py:60-65 | A hook that succeeds closes its connection alone; then comes the next one still there, or the close has ended and its lock is free |
| `RegistryEffects.AbortEffect` | apps/backend/app/platform/websocket_registry.py:55-65 | A close that fails leaves every connection and frees the lock |
| `RegistryEffects.RegisterEffect` | apps/backend/app/platform/websocket_registry.py:46-50 | A registration adds one connection to its session unless that is blocked, and touches no other |
| `RegistryEffects.DisconnectEffect` | apps/backend/app/platform/websocket_registry.py:94-100 | A disconnect takes out one connection and no other, and keeps no session without connections |
| `RegistryEffects.SendEffects` | apps/backend/app/platform/websocket_registry.py:67-92 | Listing a send and taking it off the list touch no other send |
| `RegistryEffects.MaySendExactly` | apps/backend/app/platform/websocket_registry.py:102-108 | Who may be sent to: a registered connection of a session that is not blocked |
| `Registry.WebSocketSessionRegistry.Register` | apps/backend/app/platform/websocket_registry.py:46-50 | Registers exactly when the session is not blocked |
| `Registry.WebSocketSessionRegistry.BeginSend` | apps/backend/app/platform/websocket_registry.py:67-92 | A send starts exactly when its connection is live and its session not blocked, and is listed from then on |
| `Registry.WebSocketSessionRegistry.EndSend` | apps/backend/app/platform/websocket_registry.py:67-92 | The send leaves the list however it ended; it counts as made exactly when it completed and its sender was not cancelled, and as refused exactly when only it was cancelled and the session is blocked |
| `Registry.WebSocketSessionRegistry.BeginClose` | apps/backend/app/platform/websocket_registry.py:52-65 | The session is blocked at once; with the lock free the listed sends are the ones to cancel |
| `Registry.WebSocketSessionRegistry.NextToClose` | apps/backend/app/platform/websocket_registry.py:60-65 | The next hook is for the first connection still registered, and there is none exactly when none is left |
| `Registry.WebSocketSessionRegistry.Disconnect` | apps/backend/app/platform/websocket_registry.py:94-100 | The connection goes, and an empty session with it |
| `Registry.WebSocketSessionRegistry.MaySend` | apps/backend/app/platform/websocket_registry.py:102-108 | Live and not blocked |
| `Transitions.TransitionCoherent` | apps/backend/app/cockpit/transitions.py:55-289 | Every command keeps: an unresolved critical risk, takeover mode, takeover flow, suppressed media and fresh vision come together or not at all; only the last risk can be unresolved; navigation health is the freshness function of the navigation state with its time |
| `Transitions.LifecyclesOnlyAdvance` | apps/backend/app/cockpit/transitions.py:134-160 | Within a session no risk is dropped, reordered or moved back; at most one takes the next stage, and a new one is added only when none is unresolved |
| `Transitions.TakeoverHolds` | apps/backend/app/cockpit/transitions.py:253-289 | While a critical risk is unresolved, no command but resolving it or a reset leaves takeover or restores media |
| `Transitions.TransitionFrame` | apps/backend/app/cockpit/transitions.py:55-77 | Commands leave session, revision, time and connectivity to the service; a reset keeps the revision |
| `CommandEffects.ThemeEffect` | apps/backend/app/cockpit/transitions.py:65-74 | A theme is set exactly by its name, and nothing else changes; the theme there is makes no change; anything else is refused |
| `CommandEffects.ModeEffect` | apps/backend/app/cockpit/transitions.py:76-93 | A mode other than takeover is just set; takeover adds one simulated risk and shows it everywhere; in takeover every other mode is refused |
| `CommandEffects.NoModeEffect` | apps/backend/app/cockpit/transitions.py:76-82 | A parameter that is no mode is refused |
| `CommandEffects.DestinationEffect` | apps/backend/app/cockpit/transitions.py:95-121 | A destination becomes a preview of the fixed route by the local provider, and the flow its own unless a takeover goes on |
| `CommandEffects.ConfirmEffect` | apps/backend/app/cockpit/transitions.py:123-132 | A preview, and only a preview, becomes the active route |
| `CommandEffects.AcknowledgeEffect` | apps/backend/app/cockpit/transitions.py:134-163 | The first risk with the identifier is acknowledged if it is active, and nothing else changes |
| `CommandEffects.ResolveEffect` | apps/backend/app/cockpit/transitions.py:134-163 | The first risk with the identifier is resolved if it is acknowledged; the cockpit then recovers, paused and back in its flow |
| `CommandEffects.NoRiskEffect` | apps/backend/app/cockpit/transitions.py:134-146 | A risk that is not there is reported as not found |
| `CommandEffects.MediaEffect` | apps/backend/app/cockpit/transitions.py:165-181 | Playing and paused are set as asked, and refused in a takeover |
| `CommandEffects.NoMediaEffect` | apps/backend/app/cockpit/transitions.py:165-172 | Any other media state is refused |
| `CommandEffects.SuggestionEffect` | apps/backend/app/cockpit/transitions.py:183-193 | The newest suggestion comes first and the seven newest before it stay |
| `CommandEffects.CabinEffect` | apps/backend/app/cockpit/transitions.py:195-200 | Privacy is set exactly by a truth value, and nothing else changes |
| `CommandEffects.NoTextEffect` | apps/backend/app/cockpit/policies.py:83-97 | A command about a text is refused when there is none between the blanks or it is too long |
| `CommandEffects.ResetEffect` | apps/backend/app/cockpit/transitions.py:202-207 | A reset leaves the default cockpit, field by field, under the next session and the same revision |
| `CommandEffects.HealthShows` | apps/backend/app/cockpit/state_factory.py:29-42 | In every coherent snapshot the navigation health is stale, fresh or offline by provider, service and status, case by case |
| `CommandEffects.StripTrims` | apps/backend/app/cockpit/policies.py:83-97 | A text parameter is what stands between the blanks |
| `Transitions.Apply` | apps/backend/app/cockpit/transitions.py:55-225 | The handler that edits a copy step by step gives the specified outcome for every command, parameter and error |
| `Transitions.SynchronizeRiskDependentState` | apps/backend/app/cockpit/transitions.py:269-289 | Assigns the derived fields as specified |
| `Transitions.AdvanceRisk` | apps/backend/app/cockpit/transitions.py:134-160 | Acknowledging or resolving moves the first risk with the id, or is refused, as specified |
| `Transitions.FindRisk` | apps/backend/app/cockpit/transitions.py:136-146 | Finds the first risk with the id, if there is one |
| `CockpitModel.DefaultCoherent` | apps/backend/app/cockpit/state_factory.py:52-97 | The default aggregate is coherent |
| `CockpitService.CockpitService.ApplyCommand` | apps/backend/app/cockpit/service.py:59-74 | A rejected or idle command shows the snapshot as it is, any other moves the revision by one; every reader then has the current snapshot queued or taken, connectivity matches the live queues across resets, and what was ever shown has one snapshot a revision |
| `CockpitService.CockpitService.ConnectEndpoint` | apps/backend/app/cockpit/service.py:76-86 | The new queue holds the current snapshot, and the endpoint is marked with its first queue |
| `CockpitService.CockpitService.DisconnectEndpoint` | apps/backend/app/cockpit/service.py:88-98 | Readers and connectivity stay right after every disconnect; the counts stay those of the live queues exactly when the queue is a live one of that endpoint, or has left and the count is zero |
| `CockpitService.CockpitService.RebuildConnectivity` | apps/backend/app/cockpit/service.py:104-111 | After a reset every endpoint's status comes from its count |
| `CockpitService.CockpitService.TakeFrom` | apps/backend/app/cockpit/broker.py:35-42 | What a reader takes is the current snapshot |
| `CockpitService.SnapshotBroker.Publish` | apps/backend/app/cockpit/broker.py:38-42 | Afterwards every queue holds the new envelope, whatever it held before |
| `CockpitService.SnapshotBroker.Subscribe` | apps/backend/app/cockpit/broker.py:15-22 | Counts stay those of the live queues; first means the count was zero |
| `CockpitService.SnapshotBroker.Unsubscribe` | apps/backend/app/cockpit/broker.py:24-33 | Counts stay right exactly for a live queue of the endpoint, or for one that already left at a count of zero; under another endpoint's name the queue's own endpoint keeps one too many |
| `CockpitClient.EndsOnNewest` | apps/frontend/src/stores/cockpit.ts:6-13 | Any order, with repeats, of one session's snapshots leaves the client on the newest |
| `CockpitClient.OrderDoesNotMatter` | apps/frontend/src/stores/cockpit.ts:31-36 | Any two orders of the same shown snapshots of one session end the same |
| `CockpitClient.OnlyLastBlockCounts` | apps/frontend/src/stores/cockpit.ts:6-13 | A change of session is always accepted, so only the last block of one session counts |
| `CockpitClient.NewestAcrossSessions` | apps/frontend/src/stores/cockpit.ts:6-13 | Across resets the client ends on the newest snapshot if and only if the last block holds it |
| `CockpitClient.LateOldSessionWins` | apps/frontend/src/stores/cockpit.ts:6-13 | A late snapshot from before a reset takes the client back |
| `CockpitClient.CockpitStore.Receive` | apps/frontend/src/stores/cockpit.ts:31-36 | The store keeps or replaces its snapshot by the rule, and clears its error exactly when it accepts |
| `Paging.ScanDescends` | apps/backend/app/adapters/postgres/repositories.py:483-504 | Pages read one after the other, with any limits and any inserts in between, are together strictly descending in time and id, without repeats, in scope and in the table at the end |
| `Paging.ScanMissesNothing` | apps/backend/app/adapters/postgres/repositories.py:483-534 | A scan read to its end holds every event in scope that was there when it began |
| `Paging.ReadWhenPresent` | apps/backend/app/adapters/postgres/repositories.py:525-534 | An event is read exactly when it is in the table as the page it falls into is read |
| `Paging.ScanOfFixedTable` | apps/backend/app/adapters/postgres/repositories.py:483-534 | Over a table that does not change the pages together are the whole sorted selection |
| `Paging.ScanEnds` | apps/backend/app/adapters/postgres/repositories.py:495-504 | With a fixed table and limit all pages but the last are full |
| `Paging.ScanStops` | apps/backend/app/adapters/postgres/repositories.py:495-504 | So a scan of a fixed table has no more pages than its size allows, and comes to an end |
| `Paging.PageOk` | apps/backend/app/adapters/postgres/repositories.py:483-504 | A page holds in order exactly the selected events down to its next cursor; with a next cursor it is full and more follows |
| `Paging.CursorIsLastEvent` | apps/backend/app/adapters/postgres/repositories.py:497-503 | The next cursor is that of the last event of the page |
| `Paging.OrderIsUnique` | apps/backend/app/adapters/postgres/repositories.py:483-488 | There is one descending order of a set of events |
| `Paging.ScanIsNewestFirst` | apps/backend/app/adapters/postgres/repositories.py:483-488 | A scan is in descending order of time, then of identifier, in plain numbers |
| `Paging.OperationalExactly` | apps/backend/app/adapters/postgres/repositories.py:507-523 | The operational scope, by the words an action begins with |
| `Paging.OperationalActions` | apps/backend/app/adapters/postgres/repositories.py:507-523 | Of the actions that are ever stored it shows three, none about users or sessions |
| `Uuids.ParsePrint` | apps/backend/app/platform/audit_identity.py:64-68 | The canonical spelling stands for its identifier |
| `Uuids.PrintParse` | apps/backend/app/platform/sanitization.py:272-280 | A text that has the pattern in lower case has its lower case as canonical spelling |
| `Uuids.CanonicalTwice` | apps/backend/app/platform/audit_identity.py:64-68 | The canonical spelling of a canonical spelling is itself and stands for the same identifier |
| `AuditEvents.SanitizeKeys` | apps/backend/app/platform/sanitization.py:227-244 | The loop over the fixed key order keeps exactly the listed and defined keys, each with its safe value or redacted |
| `AuditEvents.SanitizeParameters` | apps/backend/app/platform/sanitization.py:227-244 | Anything but a dictionary becomes the empty one |
| `AuditEvents.SanitizeTwice` | apps/backend/app/platform/sanitization.py:210-310 | Sanitizing what is sanitized changes nothing, field by field and parameter by parameter |
| `AuditEvents.SanitizedExactly` | apps/backend/app/platform/sanitization.py:210-310 | Sanitizing leaves facts alone if and only if they say nothing but what each field's own vocabulary, identifier form or bound allows, and what it gives always is such |
| `AuditEvents.CanonicalizeTwice` | apps/backend/app/platform/audit_identity.py:20-44 | A canonical event stands for itself |
| `AuditEffects.SanitizeEffect` | apps/backend/app/platform/sanitization.py:210-310 | Field by field and parameter by parameter, what the sanitizer keeps, what it lowers to canonical case, what it redacts and what it drops |
| `AuditEffects.CanonicalEffect` | apps/backend/app/platform/audit_identity.py:20-44 | The canonical form is the event in UTC, with canonical identifiers and sanitized facts and otherwise as it was; what cannot be kept has its reason |
| `AuditStore.RowRoundTrip` | apps/backend/app/adapters/postgres/repositories.py:155-211 | An event can be written exactly when it can be made canonical, what is read back is its canonical form, and the canonical form writes the same row |
| `AuditStore.EquivalenceLaws` | apps/backend/app/platform/audit_identity.py:47-52 | Equivalence of events that can be kept is reflexive, symmetric and transitive, with numbers equal across integers and floats |
| `AuditStore.StoredOk` | apps/backend/app/adapters/postgres/repositories.py:452-471 | Appending keeps every row as it was, and every row reads back in canonical form under its own identifier |
| `AuditEffects.AppendEffect` | apps/backend/app/adapters/postgres/repositories.py:452-471 | An append inserts exactly the canonical form under a free identifier, accepts the same fact again, and refuses another one |
| `AuditEffects.SameFactExactly` | apps/backend/app/platform/audit_identity.py:47-52 | Two events are the same fact exactly when all fields agree, numbers among the parameters as numbers |
| `AuditStore.AuditUnit.AppendOrMatch` | apps/backend/app/platform/audit_identity.py:55-61 | Inserts, accepts or refuses exactly as the table and the event call for, unless the database goes away before the calls this takes; nothing changes unless it inserts |
| `AuditStore.AuditSink.Append` | apps/backend/app/adapters/postgres/audit_sink.py:26-34 | The answer and the table are exactly those of the store, its readiness and the calls the database still answers; an append that raises has stored nothing |
| `AuditIdentity.RepeatedAppend` | apps/backend/app/platform/audit_identity.py:55-61 | Once an event is stored, its identifier is accepted again if and only if the canonical forms are the same fact; otherwise it is a conflict |
| `AuditIdentity.AppendAlike` | apps/backend/app/platform/audit_identity.py:47-61 | Equivalent events get the same answer from tables that hold the same facts and leave such tables |
| `AuditIdentity.RunsAlike` | apps/backend/app/adapters/postgres/audit_sink.py:26-34 | No later append ever tells two equivalent series of events apart |
| `AuditIdentity.RunKeepsFacts` | apps/backend/app/adapters/postgres/audit_sink.py:26-34 | After any appends no row has changed, and every event that was accepted is there as its canonical fact |
| `Reconciliation.PreparedIsCanonical` | apps/backend/app/platform/audit_reconciliation.py:107-147 | An event can be prepared exactly when it can be made canonical, is a fallback event and names its action and source; what is prepared is the canonical form |
| `Reconciliation.ValidateBatch` | apps/backend/app/platform/audit_reconciliation.py:96-104 | The loop with its dictionary accepts exactly the batches with one fact per identifier |
| `Reconciliation.ConflictIsOld` | apps/backend/app/platform/audit_reconciliation.py:57-66 | In a batch that passed the check, an event meets a conflict during the import exactly when a row stored before the batch conflicts with it |
| `Reconciliation.ImportableExactly` | apps/backend/app/platform/audit_reconciliation.py:57-66 | Whether a checked batch can be imported does not depend on its order: no row stored before may contradict an event of it |
| `Reconciliation.ImportedRows` | apps/backend/app/platform/audit_reconciliation.py:57-66 | The table after an import has the old rows as they were and, for each identifier that was missing, the row of the first event with it, and nothing else |
| `Reconciliation.ImportTwice` | apps/backend/app/platform/audit_reconciliation.py:57-66 | Importing a batch again changes nothing and finds only duplicates |
| `Reconciliation.Reconciler.ImportAll` | apps/backend/app/platform/audit_reconciliation.py:52-68 | The import loop gives that table, with imported the number of new rows and duplicates the rest; it fails only for a conflict with an old row or a database that goes away before two calls for each event |
| `Reconciliation.Reconciler.Reconcile` | apps/backend/app/platform/audit_reconciliation.py:40-76 | All or nothing: any failure and every dry run leave the table alone, a success is the whole import, and each error has its exact cause, so with a database that answers every batch without conflicts is imported |
| `ReconciliationFile.FileReconciler.ReconcileFile` | apps/backend/app/platform/audit_reconciliation.py:78-93 | Whatever fails or crashes, an attempt leaves everything as it was or has imported the file, which is then still there or archived; how it ends follows from the steps that raise or end the process, and only a file that cannot be imported is refused |
| `ReconciliationFile.FileReconciler.ReconcileUndisturbed` | apps/backend/app/platform/audit_reconciliation.py:78-93 | Without a fault a file that can be imported is imported and archived |
| `ReconciliationFile.FileReconciler.ArchiveAfterSuccess` | apps/backend/app/platform/audit_reconciliation.py:150-161 | The file, the archives and the answer are exactly those of the link, the removal and the one that takes the link back, each of which may raise or be the last |
| `ReconciliationFile.ArchiveLaw` | apps/backend/app/platform/audit_reconciliation.py:150-161 | A file that could not be removed is no archive, unless the link to it could not be taken back either |
| `ReconciliationFile.PutAwayLaw` | apps/backend/app/platform/audit_reconciliation.py:88-92 | A file that has changed meanwhile is not archived |
| `ReconciliationFile.ImportedOnce` | apps/backend/app/platform/audit_reconciliation.py:78-93 | After any number of attempts that fail or crash at any step, the table is untouched or holds exactly the old rows and the missing ones, and the file is gone only if archived and imported |
| `ReconciliationFile.SuccessImportsOnce` | apps/backend/app/platform/audit_reconciliation.py:78-93 | One success after such attempts leaves the old table plus exactly the missing events of the batch, with imported and duplicates adding up to validated, and the file archived |
| `GatewayRuns.EveryChangeWasAttempted` | apps/backend/app/platform/command_gateway.py:102-116 | In every run from a fresh start, with any number of calls and connections interleaved: each theme, mode or reset change was made by a call of the run that may make it, for its own command, and that call's own ATTEMPTED event was in the primary store before the change and still is; no other change has it |
| `GatewayRuns.AnswersAreTrue` | apps/backend/app/platform/command_gateway.py:80-146 | In every such run the answer of a finished call is true and stays so: its outcome is in the primary store, the fallback or neither exactly as the delivery says, a call that was forbidden or whose attempt failed has changed nothing, and any other was told what the authority made of its command at one moment of the run, with exactly that change, if any, in its name |
| `GatewayRuns.AuditSaysSo` | apps/backend/app/platform/command_gateway.py:80-146 | In every such run, read back from where the delivery points: a succeeded fact without a code exactly for an answer with a snapshot, a rejected one with the refusal's own code, an error with internal_error; the denial of who may not ask; and the attempted fact of a management command |
| `GatewayRuns.StepKeeps` | apps/backend/app/platform/command_gateway.py:80-146 | Every step of every call keeps what these results rest on, and is one that waiting calls can live with |
| `GatewayRuns.WaitingAllows` | apps/backend/app/platform/command_gateway.py:80-146 | While a call waits, any steps of other calls and connections stay within what the method of the gateway relies on |
| `Gateway.CommandGateway.ApplyCommand` | apps/backend/app/platform/command_gateway.py:80-146 | With other calls acting between its steps: a call that is forbidden or whose attempt fails changes nothing; any other changes exactly what the authority makes of its command at one moment between start and end, and is told just that, a management command only with its own attempt in the table; the delivery says exactly where the outcome is, if its identifier was free |
| `GatewayFacts.OutcomeSays` | apps/backend/app/platform/command_gateway.py:116-146 | The fact of an outcome names the command, where it came from, who sent it in which session and role, when, and how it ended |
| `GatewayFacts.TableDecides` | apps/backend/app/platform/command_gateway.py:177-179 | A table that answers takes the event or raises a conflict; the fallback is not asked |
| `GatewayFacts.FallbackDecides` | apps/backend/app/platform/command_gateway.py:180-198 | Without the table the event goes to the fallback if that is allowed and takes it, is lost if it is allowed but does not, and raises otherwise |
| `GatewayFacts.AuthorityDecides` | apps/backend/app/cockpit/service.py:59-74 | The authority changes its snapshot exactly as the command does, with the next revision and the time, and tells what it has done unless it breaks |
| `Gateway.CommandGateway.Record` | apps/backend/app/platform/command_gateway.py:148-189 | World and answer are exactly those specified for the event and the state of the two stores |
| `Gateway.CommandGateway.AppendFallback` | apps/backend/app/platform/command_gateway.py:191-198 | A fallback that is missing, refuses or fails is a loss and changes nothing |
| `Gateway.CommandGateway.ApplyAuthority` | apps/backend/app/cockpit/service.py:59-74 | The snapshot moves exactly as the command says, and what is told is what happened |
| `Gateway.CommandGateway.ApplyAndRecord` | apps/backend/app/platform/command_gateway.py:112-146 | The outcome recorded is the one the authority gave: succeeded, rejected with its code, or an internal error |
| `GatewaySteps.RecordReports` | apps/backend/app/platform/command_gateway.py:177-189 | A primary delivery means the table holds the event's fact; with a free identifier the delivery is exact; only a conflict, or an outage where no fallback is allowed, is raised |
| `GatewaySteps.ReadyStoreTakes` | apps/backend/app/platform/command_gateway.py:177-179 | A primary store that answers takes every event that can be written under a free identifier |
| `GatewaySteps.AskIsStep` | apps/backend/app/cockpit/service.py:59-74 | Asking the authority changes nothing that other calls rely on |
| `Base64Url.DecodeEncoded` | apps/backend/app/api/platform_admin_router.py:356-364 | Unpadded base64url gives back the bytes, and never has a length that is one more than a multiple of four |
| `Base64Url.EncodeDecoded` | apps/backend/app/api/platform_admin_router.py:375-377 | Of the spellings of some bytes the encoding is the one whose left-over bits are zero |
| `FormatLaws.GroupIsNumber` | apps/backend/app/api/platform_admin_router.py:356-364 | Three bytes are the same number of 24 bits as their four groups |
| `FormatLaws.RestIsNumber` | apps/backend/app/api/platform_admin_router.py:356-364 | One or two bytes at the end are filled up with zero bits to whole groups |
| `FormatLaws.AlphabetIs` | apps/backend/app/api/platform_admin_router.py:356-364 | The letters of the groups are those of the URL-safe alphabet |
| `FormatLaws.EncodingIs` | apps/backend/app/api/platform_admin_router.py:356-364 | Each group is written as its letter |
| `Timestamps.ParsePrinted` | apps/backend/app/api/platform_admin_router.py:399-402 | A printed moment is read back, with its microseconds when it has some |
| `FormatLaws.MomentIs` | apps/backend/app/api/platform_admin_router.py:399-402 | A printed moment, digit by digit |
| `FormatLaws.MomentsAre` | apps/backend/app/api/platform_admin_router.py:380-388 | Which moments there are |
| `FormatLaws.YearIsItsMonths` | apps/backend/app/api/platform_admin_router.py:380-388 | The months of a year make up the days from it to the next, leap years by the rule of hundreds |
| `FormatLaws.FractionsAre` | apps/backend/app/api/platform_admin_router.py:380-388 | A fraction of a second has at least one digit and is filled up or cut off at six |
| `FormatLaws.IdentifierIs` | apps/backend/app/platform/audit_identity.py:64-68 | A canonical identifier, digit by digit, with dashes after 8, 12, 16 and 20 of them |
| `Cursors.DecodeEncoded` | apps/backend/app/api/platform_admin_router.py:356-396 | Decoding an encoded cursor gives its canonical form, and every encoding fits the limit of 512 characters |
| `FormatLaws.CursorIs` | apps/backend/app/api/platform_admin_router.py:356-364 | A cursor is base64url of the JSON object of its moment and its identifier, to the letter |
| `FormatLaws.BytesAre` | apps/backend/app/api/platform_admin_router.py:356-364 | The bytes are those of the characters |
| `Cursors.DecodeExactly` | apps/backend/app/api/platform_admin_router.py:367-396 | A text is accepted if and only if it is the encoding of the canonical cursor it gives |
| `Cursors.OneSpelling` | apps/backend/app/api/platform_admin_router.py:392-393 | No two texts are accepted for one position |
| `Cursors.SwappedIsRefused` | apps/backend/app/api/platform_admin_router.py:392-393 | With its two members swapped a payload still reads as the same cursor, and only the final comparison refuses it |
| `Cursors.ObjectParsed` | apps/backend/app/api/platform_admin_router.py:378-380 | Two members in either order are read as the object they spell |
| `Json.ValueRead` | apps/backend/app/platform/audit_fallback.py:263-271 | A printed value is read back whatever follows it |
| `Json.PrintIsVisible` | apps/backend/app/platform/audit_fallback.py:263-271 | Printed values of tame strings consist of visible one-byte characters, so they stay on one line |
| `FallbackCodec.SanitizedIsWritable` | apps/backend/app/platform/sanitization.py:210-310 | Whatever sanitizing leaves needs no escape and fits the length limits |
| `FallbackCodec.ValuesBack` | apps/backend/app/platform/audit_fallback.py:288-291 | The values printed under different names are read back under their names |
| `FallbackCodec.DecodeEncoded` | apps/backend/app/platform/audit_fallback.py:242-350 | The line of a filed event is read back as its canonical form, is not empty and is one line of one-byte characters |
| `FallbackLaws.LineIs` | apps/backend/app/platform/audit_fallback.py:242-276 | A line is the JSON object of eighteen named members in their order, each with the value of its field |
| `FallbackLaws.JsonIs` | apps/backend/app/platform/audit_fallback.py:263-271 | The JSON text itself: no blanks, members with commas between them |
| `FallbackLaws.ParametersAre` | apps/backend/app/platform/audit_fallback.py:242-276 | The parameters are written in the fixed order of their keys, each as the JSON value it is |
| `FallbackLaws.ReadingIsStrict` | apps/backend/app/platform/audit_fallback.py:279-350 | A line is read only if it is an object of exactly the known members, of version 1 and about a fallback event, and what is read is what it says, sanitized |
| `FallbackLaws.PersistableExactly` | apps/backend/app/platform/audit_fallback.py:353-406 | What the file takes, with the limit of each text |
| `FallbackLaws.NumbersAre` | apps/backend/app/platform/audit_fallback.py:279-285 | Which texts are numbers |
| `FallbackFormats.ConcreteIsLawful` | apps/backend/app/platform/audit_fallback.py:242-271 | The law assumed of time and float texts can be met: ISO text of every moment of the calendar with an offset of whole minutes, and floats with one decimal, are tame and read back |
| `FallbackFile.SplitJoined` | apps/backend/app/platform/audit_fallback.py:111-119 | Lines of visible characters joined with line feeds are split into the same lines, by every separator Python knows |
| `FormatLaws.LinesAre` | apps/backend/app/platform/audit_fallback.py:111-119 | Which characters end a line, and that a carriage return with a line feed is one end |
| `FormatLaws.SizeIs` | apps/backend/app/platform/audit_fallback.py:85 | The size of a line is its length in UTF-8 |
| `UuidSpellings.ParseIsPlainAccepted` | apps/backend/app/platform/audit_identity.py:64-68 | What counts as an identifier in this model is what Python reads, prefixes, braces, signs, blanks and digits of other scripts included, restricted to texts of dashes and hexadecimal digits |
| `UuidSpellings.IdentifierLine` | apps/backend/app/platform/audit_fallback.py:111-119 | The line of an accepted identifier is read back as one line if and only if the text has none of three characters; one of dashes and hexadecimal digits never has |
| `UuidSpellings.SeparatorIsAccepted` | apps/backend/app/platform/audit_fallback.py:358-361 | A line separator and 31 zeros are accepted as an identifier, and the line they are put into is read as more than one |
| `FallbackFile.JsonlAuditFallback.Append` | apps/backend/app/platform/audit_fallback.py:82-91 | The answer has its exact cause, and is success whenever the event can be persisted, the file is free and has room and the write goes through; the file then holds the sanitized event as well, within its limit, and is otherwise as it was |
| `FallbackFile.JsonlAuditFallback.LoadEvents` | apps/backend/app/platform/audit_fallback.py:102-121 | Unless the file is busy, loading gives as many events as were appended, in their order, each the canonical form of what append returned |
| `FallbackFile.LoadedIsPrepared` | apps/backend/app/platform/audit_reconciliation.py:107-147 | A loaded event can be imported as it is |
| `Backup.BackupOperation.CreateBackup` | scripts/platform_backup.py:376-458 | With any call raising and other processes acting at any point, no entry is ever taken from a file this run did not create. If they leave its files alone: success leaves exactly the two final names, with the dump that was made and the manifest with its hash, but for a lock whose removal raised; failure leaves exactly entries whose removal raised or whose identity was lost, hence nothing when no removal raises and no identity is lost. If nobody else acts, the names are free and nothing else raises, it fails exactly when an identity cannot be read at once, and then leaves nothing if and only if no identity is lost |
| `Backup.BackupOperation.UnreadLockStays` | scripts/platform_backup.py:311-334 | When the first reading of an identity raises, the lock stays behind although no removal raised |
| `BackupFiles.FileSystem.CleanUp` | scripts/platform_backup.py:238-244 | The entry is removed, or stays exactly when the look at it or the unlink raised |
| `Backup.BackupOperation.Confirm` | scripts/platform_backup.py:110-139 | A file is given up unremoved exactly when its identity could not be read, after a second try where there is one |
| `Backup.BackupOperation.Publish` | scripts/platform_backup.py:259-295 | The file moves to a name nobody has, or is left where a later cleanup finds it, with the new name taken back unless its removal raised; undisturbed it does move |
| `Backup.BackupOperation.PublishDump` | scripts/platform_backup.py:435-437 | After the dump is published and verified the two files held are known; after a failure cleaning them up restores the start, and nothing is stuck but what a removal raised for |
| `Backup.BackupOperation.PublishManifest` | scripts/platform_backup.py:438-441 | On success the two names hold a dump and the manifest that describes it; after a failure cleaning up restores the start, and nothing is stuck but what a removal raised for |
| `Backup.BackupOperation.CreateOwned` | scripts/platform_backup.py:103-139 | A new file is returned under a name nobody had, or is cleaned up; it stays behind only if a removal raised or its identity was lost, and undisturbed it is returned exactly when the identity is read at once |
| `Backup.BackupOperation.Fill` | scripts/platform_backup.py:405-431 | A successful draft has a dump whose hash is in the manifest that was written |
| `Backup.BackupOperation.CleanUpAll` | scripts/platform_backup.py:446-456 | Removes every entry still held; only removals that raise leave one |
| `BackupFiles.FileSystem.WriteOwned` | scripts/platform_backup.py:203-224 | However little each write takes, success means the whole data is the content of the owned file |
| `BackupFiles.FileSystem.ReadOwned` | scripts/platform_backup.py:159-178 | A successful read undisturbed by others is the whole content |
| `BackupFiles.FileSystem.RemoveIfOwned` | scripts/platform_backup.py:227-235 | Removes the entry only of the owned file; any other answer changes nothing |
| `BackupFiles.FileSystem.Link` | scripts/platform_backup.py:259-267 | Adds a second entry under a free name, or changes nothing |

## Left out

- PlatformRuns.RunKeeps: interleaves whole units of work, each taken as serializable; a commit that succeeds but reports failure is not modelled, except for a cleanup that fails after it.
- PlatformUnits.MutationUnit: integrity errors of the database count as the database being unavailable; inside one unit no other unit acts, so its compare-and-set calls cannot miss.
- Throttle.LoginThrottle.RecordFailure: entries are values in a map, so that two names for one entry object is not captured; the clock is a non-negative real that never goes back; the normalisation of user names and the identity of keys across it are the caller's.
- PlatformSessions.SessionService.LogIn: password verification, token digests and fresh identifiers are parameters; the read-only resolve of a session, the delay after a rejection and the readiness check are not modelled.
- PlatformRuns.EveryAttemptIsSettled: validation of the revoke reason and the listing of users and sessions come before any of these steps and are not modelled.
- RegistryRuns.StepKeeps: tasks are created, running or done; the inside of a transport's send and close is not modelled, and an await is the only place where others run.
- CockpitService.CockpitService.ApplyCommand: the permission of an endpoint is a Boolean parameter, clocks and identifier supplies answer but never raise, and the parts of a snapshot no command changes (vehicle figures, capabilities, message identifiers) are left out.
- Paging.ScanDescends: the order of timestamps and identifiers is that of integers, and SQL text is not modelled; converting a cursor's calendar date to the time the table is sorted by is not either.
- AuditEvents.CanonicalizeTwice: objects of the wrong Python type in typed fields, which validation refuses first, have no counterpart; conversions to UTC at the ends of the calendar do not overflow.
- Uuids.ParsePrint: an identifier is 32 hexadecimal digits with dashes anywhere; Python also takes a `urn:` prefix, braces, and in the digits signs, underscores, blanks and digits of other scripts. `UuidSpellings` has all of those, shows that they include texts with a line separator, which the append keeps as they are and the load splits, and says exactly which; the other modules know the hexadecimal ones only.
- AuditStore.AuditSink.Append: an append or commit that raises stored nothing; a not-a-number or infinite parameter is one value, equal to nothing.
- ReconciliationFile.FileReconciler.ReconcileFile: the file is not changed by writers that ignore its lock; a fingerprint that no longer matches is one of the ways to fail before archiving. Hashing is not modelled.
- Gateway.CommandGateway.ApplyCommand: the clock of the gateway is aware of its zone and read once a call (in `GatewayRuns` once a step); the connectivity after a reset, which comes from the live queues, is a parameter here. The authority's queues and lock are those of the cockpit modules and are not modelled again.
- Cursors.DecodeEncoded: the JSON reader knows strings without escapes and ASCII only, the timestamp reader only dates and times in full; other spellings Python reads are refused by the final comparison anyway.
- FallbackCodec.DecodeEncoded: how the platform writes times and floats is a parameter with a law (tame text, read back), for which `FallbackFormats` has one instance; the shortest text of an arbitrary float is not computed. Strings that need escapes, which sanitizing never leaves, are not printed or read.
- FallbackFile.JsonlAuditFallback.Append: whether a float that is no number is noticed among the first eight parameters is left open, as parameters have no order here; an append that raises has written nothing, and file locks exclude each other.
- Backup.BackupOperation.CreateBackup: hash and manifest text are functions of their input; inode numbers are not used again, comparing an identity and removing the entry is one step, and after a link the entry can be looked at or is gone. Directory permissions, anchors and the parsing of the database address are not modelled, and the run is that of a POSIX system.
- The recursive `sanitize_parameters`, which nothing in the backend calls, is not part of this model.
- HTTP and WebSocket routers, cookies, configuration, database adapters beyond their table operations, the restore tool, the seed command and all user interface code are not part of this model.
