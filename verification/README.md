# A verified model of the BeeBase authentication service

The service registers accounts, gates every session behind a time-based one-time code,
keeps one live session for each user, recovers passwords in three stages, and deletes
accounts through a durable queue of cleanup calls to seven other services. This project
models those parts in Dafny and proves what they guarantee over whole runs.

`dafny verify dfyconfig.toml` checks everything.

## How the model is built

**Two machines.** The first is the account machine: users, refresh tokens, TOTP credentials,
login challenges, reset flows, session markers and deletion requests. The second is the
deletion protocol: job and step rows, user rows, and any number of workers that each hold a
snapshot of a claimed job.

**Port calls are micro-steps.** Every repository, session-store or library call of the account
machine takes the next answer of a plan: done, an error although the write took effect, or an
error without effect; and it takes some time. A use case is a function from the world before
it to the reply and the world after it (`AuthSpec`); when a port call fails, the world it
returns is the micro-state reached so far. Proving something for all plans therefore proves
it after every micro-step.

**Writes are a log.** The tables keep the list of all writes. `Protocol.Enabled` says what
holds just before each kind of write; `Conformance` proves that every use case, under every
plan, only performs enabled writes. Every prefix of such a log is legal, so a property of
legal logs is a property of every micro-state of every run. `Begin`, `Schedule` and `Deliver`
are log entries without a table: a call entered, a session's device data was scheduled for
cleanup, a session was handed to its client.

**Imperative layer.** `AuthService.Service` is the service with its loops, early returns and
objects changed in place, over `Backends.Backend`, whose fields are the tables. Each method is
proved equal to its function in `AuthSpec`, reply and whole state. `DeletionWorkers` does the
same for the deletion worker's loop against the interleaved protocol of `Deletion`.

| files | content |
|---|---|
| Basics, Totp, Credentials, ResetFlows, DeletionJobs | values, the code window, the mutable domain objects, queue rows |
| Store, Repositories, AuthSpec | tables and writes, repository operations, use cases and runs |
| Protocol, Structure, Conformance | when each write happens, structural invariants, every use case conforms |
| Outcomes, Admissions, Accounts, Recovery | each use case answered exactly while no port fails, and what several do together |
| Sessions, Provenance, Lifecycle, Guessing, Lockout, Evaluations, AntiReplay, ResetHistory | properties of every run |
| Erasure, ResetPrivacy, Retry, Cleanup | properties that compare runs or need ports that answer |
| LogoutRace, IssueRace | logouts and one issue, or two issues, interleaved call by call |
| Independence | writes for different accounts commute |
| Deletion, DeletionProgress, DeletionRows | the deletion protocol: safety under all schedules, progress of one worker, what the rows count |
| DeletionLink | both machines together |
| Backends, AuthService, DeletionWorkers | the imperative layer |

## Conventions

- Times are natural numbers of nanoseconds; the clock of a run never goes back. HOTP, e-mail
  normalisation and all settings are parameters, so results hold for every choice of them.
- A random token and the id of its row are drawn together and never repeat; one number stands
  for both, and a token stands for its own hash, a secret for its own ciphertext, a password
  for its own hash.
- A nullable timestamp that is only tested for presence is a flag. A setup or reset token and
  its expiry, always set together, are one optional value.
- The marker is live up to and including its expiry.
- Calls on the account machine are serialised. The deletion worker enters it as the removal of
  a row whose deletion is pending; `DeletionLink` weaves the two machines together and proves
  that the protocol performs no other removal.
- In the interleaved protocol a claim may take any claimable job: rows locked by other claims
  are skipped, so no order among claimable jobs can be relied on. `DeletionWorkers` gives the
  order for a given set of locked rows.

## Where the code and its documentation differ

- Logout of an unknown or revoked token reports success because, says its comment, neither
  token can be used any more (internal/application/auth/service.go:227-229). A token can be
  revoked while the marker still names its session: by the reuse of an older token, without any
  failure, or by a logout that failed to clear the marker. Logout then succeeds and the marker
  stays. `LogoutRace.LogoutLeavesMarker` gives the exact condition, `LogoutRace.ReuseThenLogout`
  the input.
- The comment on the OTP gate names three callers
  (internal/application/auth/service_totp.go:24-25); account deletion is a fourth, and the
  guessing bound counts all four.
- The fixed demo code records counter 0, so anti-replay holds only between demo acceptances:
  `AntiReplay.DemoForgetsCounters`.
- A step's back-off does not delay the next claim of its job:
  `DeletionProgress.LeaseAndRelease`.
- A step marked completed can become pending again once workers overlap:
  `DeletionProgress.RegressesExactly` says by which events, `DeletionProgress.LateRetryHappens`
  that it occurs. So can a completed job: `DeletionProgress.ReopensExactly` and
  `DeletionWorkers.CompletedJobReopens`. The safety results rest on answers given, not on status.
- A completed deletion request ends the marked session without scheduling its device cleanup:
  `Cleanup.DeleteAccountBalances`.

## Model

| member | source | states |
|---|---|---|
| Deletion.RemovedOnlyWhenClean | internal/application/auth/deletion_worker.go:28-52 | Under every schedule of any number of workers, with crashes, lapsed leases, stale snapshots and failing store calls: an event that takes a user row away does so only when deletion of that user is pending, a job exists, and each of the seven services has earlier answered a cleanup call for that user with success. The earlier call is returned as a witness. |
| Deletion.CompletedMeansGone | internal/repository/postgres/deletion_store.go:66-69 | At every moment of every schedule a job marked completed means the user row is gone; a row that is gone although it had a job means all seven services have answered; a job has exactly the seven steps. |
| Deletion.AlwaysSafe | internal/repository/postgres/deletion_store.go:19-69 | The inductive invariant behind both, over all interleavings: completed steps were answered, every step a worker has passed was answered, a worker past the last step has all seven answers. |
| Deletion.PendingMeansJob | internal/repository/postgres/deletion_store.go:86-128 | At every moment an existing account is pending exactly when it has a job: no request is forgotten and no job is made up. |
| Deletion.RequestsAreIdempotent | internal/repository/postgres/deletion_store.go:97-111 | Once a user has a job, a further request changes nothing at all, whatever the workers have done meanwhile. |
| Deletion.AnsweredBy | internal/application/auth/deletion_worker.go:40-42 | Every answer in the recorded history was given by a successful cleanup call of the schedule for that user and service. |
| DeletionJobs.ClaimReturnsAll | internal/repository/postgres/deletion_store.go:33-47 | When no step row is missing a claim returns every step of the job, once, in the order asked for, with its status and attempt count. |
| DeletionProgress.StepsOnlyGrow | internal/application/auth/deletion_worker.go:33-48 | With one worker, whatever fails or crashes, a completed step stays completed. |
| DeletionProgress.ClaimsBounded | internal/application/auth/deletion_worker.go:28-60 | With one worker a job is claimed at most once more often than a port call, a missing client or a crash fails it, and once more only while a run without failure is under way or the job is completed. |
| DeletionProgress.CompletesWithin | internal/application/auth/deletion_worker.go:28-60 | With one worker and at most f failures of a job, once it has been claimed f + 1 times and the worker is idle again the job is completed and the user row gone. |
| DeletionProgress.EachServiceOnce | internal/application/auth/deletion_worker.go:33-48 | With one worker and no store failures, however often the services themselves fail: when the job is completed each of the seven services has answered success for that user exactly once. |
| DeletionProgress.EveryStepAdvances | internal/application/auth/deletion_worker.go:28-60 | Each step of a claimed run, however its port answers, strictly lowers the worker's distance to idle, so every run ends. |
| DeletionProgress.LeaseAndRelease | internal/repository/postgres/deletion_store.go:26 | A job can be claimed from its request on. A claim keeps a job from other claims for exactly two minutes; a recorded failure makes it claimable at once, whatever back-off its step was given, because claims read the job's own next attempt. |
| DeletionProgress.RegressesExactly | internal/repository/postgres/deletion_store.go:58-65 | In every safe state, with any number of workers, an event takes a completed step back if and only if it is a worker's recording of a failed call of that very step that the store does not refuse; and the service has answered all the same. |
| DeletionProgress.RegressionHasRetry | internal/repository/postgres/deletion_store.go:58-65 | Over any schedule: a step completed at one moment and pending at the end was taken back by such an event in between, returned as a witness. |
| DeletionProgress.ReopensExactly | internal/repository/postgres/deletion_store.go:62 | In every safe state, with any number of workers, an event takes a completed job back if and only if it is a worker's second statement of a retry for that user that the store does not refuse; the account is gone all the same, and the job can be claimed again as soon as its next attempt is due. |
| DeletionWorkers.CompletedJobReopens | internal/repository/postgres/deletion_store.go:58-65 | A concrete schedule of two workers in which this happens: the second worker completes the job between the two statements of the first. |
| DeletionWorkers.CleanRunCompletes | internal/application/auth/deletion_worker.go:28-52 | A run in which nothing fails, left alone, completes its job, whatever other workers hold. |
| DeletionProgress.LateRetryHappens | internal/repository/postgres/deletion_store.go:26-62 | A concrete schedule of two workers and one lapsed lease in which a completed step is taken back. |
| DeletionWorkers.DeletionWorker.RunOnce | internal/application/auth/deletion_worker.go:28-52 | The loop over the claimed steps, in place: state, left-over port answers and error of a run are those of the worker's own steps of the interleaved protocol driven until it is idle, for every plan of port answers and every set of locked rows; the job claimed is the one first in line. |
| DeletionWorkers.DeletionWorker.Retry | internal/application/auth/deletion_worker.go:54-60 | The failure path: records the retry with attempt count + 1 and ends the run as the protocol's two recording steps do. |
| DeletionWorkers.DriveIsSchedule | internal/application/auth/deletion_worker.go:28-52 | Every such run is a schedule of the interleaved protocol made of that worker's steps only, so what holds of all schedules holds of runs. |
| DeletionWorkers.DeletionPorts.ClaimDeletion | internal/repository/postgres/deletion_store.go:19-52 | Claims the job first in line: processing, one more attempt, lease of two minutes, steps returned in alphabetical order; none only if no unlocked job is claimable; a lost commit claims without telling the worker. |
| DeletionWorkers.DeletionPorts.FirstInLine | internal/repository/postgres/deletion_store.go:26 | Of the jobs that are not completed, due, not leased and not locked by another claim, one whose next attempt is due first; none only if there is no such job. |
| DeletionWorkers.DeletionPorts.CompleteDeletionStep | internal/repository/postgres/deletion_store.go:54-57 | Marks exactly the named step completed unless the statement is refused. |
| DeletionWorkers.DeletionPorts.RetryDeletionStep | internal/repository/postgres/deletion_store.go:58-65 | Two statements: the step goes back to pending with its attempt and back-off; only if that succeeds the job goes back to the queue without a lease. Says what is left when either one fails. |
| DeletionWorkers.DeletionPorts.CompleteDeletionJob | internal/repository/postgres/deletion_store.go:66-69 | Marks the job completed and drops its lease unless the statement is refused. |
| DeletionWorkers.DeletionPorts.DeleteUser | internal/repository/postgres/user_repository.go:106-118 | Removes the row; a missing row is reported as not found. |
| DeletionLink.RemovalsAreLegal | internal/application/auth/deletion_worker.go:49-51 | However the account machine's writes and the protocol's steps alternate, the log with the protocol's removals in it is legal, and every removed row belongs to a user for whom all seven services have answered success. |
| DeletionLink.RunsAreWoven | internal/application/auth/deletion_worker.go:28-52 | Conversely every run of calls is such a weave: there is a schedule of the protocol whose steps, woven between the run's writes, give the run's log, with seven answers for every user whose row the run removes. |
| DeletionLink.LegalLogsAreWoven | internal/application/auth/deletion_worker.go:28-52 | The same for every legal log, so the woven logs are exactly the legal ones. |
| DeletionLink.RemovalEnabled | internal/repository/postgres/user_repository.go:106-118 | A row the protocol removes is one whose deletion is pending in the account machine, and the two agree on the rows afterwards. |
| DeletionLink.SeenAgrees | internal/repository/postgres/deletion_store.go:86-128 | Every other write of the account machine keeps the two in agreement: registrations and deletion requests are the protocol's own. |
| Sessions.OneLiveSessionInEveryRun | internal/application/auth/service.go:417-463 | At every micro-step k of every run of calls, with any port call failing with or without effect: two unrevoked tokens of one user are the same token, the user's marker names it, and while the token is unexpired the marker is live. |
| Sessions.OneLiveSession | internal/application/auth/service.go:417-463 | The same for every legal log of writes. |
| Sessions.AlwaysMarked | internal/application/auth/ports.go:34-44 | Every unrevoked token is the session its user's marker names, and the marker outlasts it. |
| Sessions.ReuseLeavesMarker | internal/application/auth/service.go:198-203 | The agreement is one-directional: presenting a revoked token, while no port fails, revokes every token of its user but leaves all markers as they are. |
| Conformance.RunsAreLegal | internal/application/auth/service.go:124-463 | Every run of any calls, at any times, with any plan of port answers, is a legal log: each write happens only when the protocol enables it. |
| Conformance.PerformOk | internal/application/auth/service.go:124-463 | Every use case keeps the world legal, from any legal world and under any plan of port answers. |
| Conformance.IssueSessionOk | internal/application/auth/service.go:417-463 | Issuing keeps the world legal; on success the user has a live token and the log ends with the issue that started from the accepted opening. |
| Conformance.RotateOk | internal/application/auth/service.go:218-222 | Rotation revokes the presented live token first and then issues its successor, at every failing prefix legally. |
| Conformance.EnrolOk | internal/application/auth/service_totp.go:130-138 | The first session is issued before the credential is enabled, and the credential is enabled only right after an issue. |
| Conformance.AdmitOk | internal/application/auth/service_totp.go:197-204 | The session is issued before the challenge is consumed, and the challenge is consumed only right after an issue for its user. |
| Conformance.SpendOk | internal/application/auth/service_password_reset.go:183-190 | The password is replaced before the flow is consumed, and a flow is consumed only right after its own password change. |
| Protocol.PrefixLegal | internal/application/auth/service.go:417-463 | Every prefix of a legal log is legal, so what holds of legal logs holds after every micro-step. |
| Structure.Structural | internal/repository/postgres/user_repository.go:29-45 | In every reachable state identifiers in use are bounded, dependent rows belong to existing accounts, and no two accounts share an email. |
| LogoutRace.OthersKeepTokens | internal/application/auth/service.go:238-262 | Any number of logouts interleaved call by call with each other and with one issue never change a stored token that none of them presents; only the issue revokes it, and only if it belongs to the issue's user. |
| LogoutRace.OthersKeepMarkers | internal/application/auth/ports.go:44 | Nor do they clear a marker that names a session nobody presents; only the issue replaces it. |
| LogoutRace.NewSessionSurvives | internal/application/auth/service.go:417-438 | Whatever older tokens are presented during its issue, the new session, once stored, is unrevoked and named by its user's marker at every later moment. |
| LogoutRace.LogoutEndsItsOwn | internal/application/auth/service.go:251-257 | A logout that found its token live and went through has ended that session for good: later its token is always revoked and its user's marker never names it. |
| LogoutRace.LogoutLeavesMarker | internal/application/auth/service.go:225-249 | Exact condition of the promise that a presented session is unusable after logout: while no port fails, the marker names it afterwards if and only if it did before and the token was not live when presented. |
| LogoutRace.ReuseThenLogout | internal/application/auth/service.go:198-249 | The failing input, from every legal world with a live token and an older revoked one of the same user, and without any failure: presenting the older one and then logging out with the live one succeeds, and the marker goes on naming the session. |
| LogoutRace.RotationLeavesPair | internal/application/auth/service.go:218-222 | Every successful refresh leaves such a pair: the presented token revoked and a live successor of the same user. |
| IssueRace.TwoLiveExactly | internal/application/auth/service.go:417-429 | Exactly when one live session fails if two issues for one account interleave, over every order of their calls and every answer: both new tokens are live if and only if both have been stored and neither issue began, by a revocation that was not refused, after the other's token was stored. |
| IssueRace.TwoIssuesTwoTokens | internal/application/auth/service.go:417-429 | Such an interleaving without any failure: two issues that revoke, activate and store in turns leave two live tokens of one user. |
| LogoutRace.LogoutAlone | internal/application/auth/service.go:238-262 | An uninterrupted logout writes what its interleaved moves write, whatever its ports answer. |
| LogoutRace.IssueAlone | internal/application/auth/service.go:417-441 | An uninterrupted issue whose token is drawn writes what its interleaved moves write, whatever its ports answer. |
| Independence.WritesCommute | internal/repository/postgres/refresh_token_repository.go:59-77 | Two writes that concern rows of different accounts leave the same rows in either order. |
| Independence.CallsWritesCommute | internal/repository/postgres/refresh_token_repository.go:59-77 | So do the writes of two calls for different accounts, whichever call's come first. |
| Outcomes.IssueExactly | internal/application/auth/service.go:417-463 | Issuing while no port fails stores a token never drawn before, which expires one refresh lifetime after it is drawn, and a marker, which expires one after it is activated; it revokes the user's other tokens and changes nothing else. |
| Outcomes.RefreshExactly | internal/application/auth/service.go:189-223 | While no port fails a refresh succeeds if and only if the token is stored, not revoked, not expired when it is looked up, and its account is active; the successor is the one stored token of that answer, with a new lifetime. A revoked token, or one of an account being deleted, revokes its account's tokens; an unknown or expired one changes nothing. |
| Outcomes.LogoutExactly | internal/application/auth/service.go:238-262 | While no port fails a logout always succeeds; a live token is revoked, the marker is cleared if and only if it names that token, the cleanup is scheduled, and nothing else changes. |
| Provenance.RootExists | internal/application/auth/service.go:189-223 | Every token ever created goes back, through finitely many rotations, to an OTP of the same user accepted earlier for setup or login. |
| Provenance.ChainsAreLinear | internal/application/auth/service.go:218-222 | Two tokens with the same root and the same number of rotations are one token: distinct chains use distinct accepted OTPs and no token is rotated twice. |
| Provenance.DeliveredHasRoot | internal/application/auth/service.go:417-463 | Every session handed to a client was created for that user and has such a root. |
| Provenance.DeliversAtMostOnce | internal/application/auth/service_totp.go:104-207 | A login challenge, and likewise a setup token, delivers at most one session in a whole run. |
| Provenance.RevokedOnce | internal/repository/postgres/refresh_token_repository.go:59-67 | Revocation is permanent: a token is revoked on its own at most once. |
| Provenance.CreatedOnce | internal/repository/postgres/refresh_token_repository.go:25-37 | No token is created twice. |
| Provenance.ConsumedOnce | internal/repository/postgres/login_challenge_repository.go:60-68 | A challenge is consumed at most once. |
| Provenance.EnrolledOnce | internal/application/auth/service_totp.go:135-138 | A setup token enables a credential at most once. |
| Guessing.GuessingBound | internal/application/auth/service_totp.go:30-64 | Enabled credential, cap M >= 1, lockout L > 0: over any stretch of a run that spans time W and accepts s codes at the gate, at most M * (W / L + 1) + (M - 1) * s failures are recorded across all callers of the gate. |
| Evaluations.EvaluationsBounded | internal/application/auth/service_totp.go:30-64 | The guessing bound for every wrong code that is evaluated, whatever becomes of it: over any run that begins with the credential enabled, at most M * (W / L + 1) + (M - 1) * s across all four callers, and one more for each failure write that the store refuses. |
| Evaluations.WrongCodeRecorded | internal/application/auth/service_totp.go:47-56 | Whichever of the four callers evaluates a wrong code: it is recorded, as exactly one failure, if and only if the store does not refuse the write; a refused write changes no table, and unless the write answers normally the reply is an infrastructure error. |
| Evaluations.UnrecordedGuesses | internal/application/auth/service_totp.go:47-51 | The last term cannot be dropped: for every n there is a run of n calls in no time that evaluates n wrong codes of an unlocked account and records none. |
| Evaluations.GateDecides | internal/application/auth/service_totp.go:30-64 | A call of one of the four reaches the gate with the rows as they were, and ends with the gate's error when the gate rejects it. |
| Evaluations.NoGateNoWrite | internal/application/auth/service_totp.go:104-258 | One that does not reach the gate ends in an error and changes no table. |
| Guessing.AlwaysBelowCap | internal/domain/totp/credential.go:121-128 | With a cap of at least 1 the stored failure counter is always below it. |
| Guessing.LockoutStands | internal/application/auth/service_totp.go:30-64 | From any moment of a run at which an enabled credential is locked until some time, no failure and no accepted code is recorded by any caller of the gate before that time, and the lockout is neither extended nor lifted while the credential exists. |
| Guessing.GateAnswers | internal/application/auth/service_totp.go:30-64 | A call of any of the four callers that presents a user's code and is answered with an OTP error either found the account locked and wrote nothing, or wrote exactly one failure. |
| Guessing.WrongRepliesBounded | internal/application/auth/service_totp.go:30-64 | The same bound on replies: over any run that begins with the credential enabled, and for the time since its first call began, OTP-error replies to evaluated codes number at most M * (W / L + 1) + (M - 1) * s across all four callers. |
| Lockout.AlwaysCounted | internal/domain/totp/credential.go:121-137 | At every micro-step of every run the stored failure counter is the number of failures in the history since the user's last accepted code, new setup or lockout. |
| Lockout.LocksExactly | internal/domain/totp/credential.go:121-128 | A recorded failure locks the account if and only if it is the M-th since the last accepted code, new setup or lockout, counted in the history; the lock then holds at exactly the times before failure time + L, and any other failure leaves the lock as it was. |
| Lockout.LockedExactly | internal/domain/totp/credential.go:115-137 | At every micro-step the lock that stands, and when it ends, is the one the history alone tells. |
| Lockout.RightCodeStillOpens | internal/application/auth/service_totp.go:30-64 | After fewer than M failures since an accepted code or a new setup, in any reachable world, a right code is still accepted. |
| Outcomes.GateExactly | internal/application/auth/service_totp.go:30-64 | The gate while no port fails, against an independent reading of the rules: it opens if and only if the account is not locked when the gate looks and the code matches the step in which it is checked, or the next, and is newer than the last one used, or is the demo account's; what it then writes, what a wrong code writes, lock time included, and which error answers it. |
| AntiReplay.CountersIncrease | internal/domain/totp/credential.go:142-154 | Of two acceptances of an account's codes, at setup, login, password change, deletion or reset, with no demo acceptance from the first on, the later has the greater counter, across every new secret. |
| AntiReplay.RateBound | internal/platform/totp/totp.go:76-94 | An account that never used the demo code has at most Step(t1) - Step(t0) + 2 codes accepted in any window t0..t1. |
| AntiReplay.DemoForgetsCounters | internal/application/auth/service_totp.go:58-73 | Where anti-replay fails: after the fixed demo code is accepted, and while no port fails, the demo account's next ordinary code is accepted if and only if it matches a positive counter when it is checked, whatever was accepted before. |
| AntiReplay.OrdinaryRemembersCounters | internal/application/auth/service_totp.go:39-45 | While no port fails, an ordinary code is accepted if and only if it matches, when it is checked, a counter later than the last one recorded. |
| Totp.ValidateAt | internal/platform/totp/totp.go:76-94 | The loop returns the first matching counter of the current step and the next one, skipping malformed answers, and 0 when none matches. |
| Totp.StepIsThirtySeconds | internal/platform/totp/totp.go:17-77 | Steps are thirty seconds long and start at the epoch. |
| Totp.MatchedExactly | internal/platform/totp/totp.go:76-94 | A code is accepted for the step in which it is checked or, failing that, for the next one, and for no other. |
| Totp.FirstMatch | internal/platform/totp/totp.go:79-91 | The least matching counter in the range, or none when no counter matches. |
| Cleanup.EverySessionCleanedOnce | internal/application/auth/service.go:431-441 | In runs without port failures, lapsed markers or a completed deletion request of the user: the sessions ever activated are the disjoint union of the marked one and those scheduled for cleanup, each scheduled once. |
| Cleanup.RunsBalance | internal/application/auth/service.go:431-441 | Every such run keeps that balance from any balanced world. |
| Cleanup.ReplaceBalances | internal/application/auth/service.go:424-441 | Exact condition for one replacement: without port failures the balance is kept if and only if no marker had lapsed when the new one was written. |
| Cleanup.LogoutBalances | internal/application/auth/service.go:251-259 | A logout schedules exactly the session whose marker it clears. |
| Cleanup.EndSessionBalances | internal/application/auth/service_totp.go:268-274 | A password change or reset schedules exactly the session whose marker it clears. |
| Cleanup.DeleteAccountBalances | internal/application/auth/service.go:373-384 | A deletion request keeps a user's balance if and only if it concerns another user, fails, or finds no marker: one that goes through ends the marked session without scheduling it. |
| Lifecycle.DeletionIsFinal | internal/repository/postgres/deletion_store.go:86-128 | After a deletion request, at every later micro-step: the account is never active again and has no live token, its one job is the one first requested, and no later write requests deletion again or creates, activates or delivers a session for it. |
| Lifecycle.SevenSteps | internal/repository/postgres/deletion_store.go:77 | A new job has exactly the seven services' steps, all pending. |
| Lifecycle.DeadFamiliesStayDead | internal/application/auth/service.go:198-222 | From a world in which a user has no live token, no run of any calls creates, revives or delivers one before an OTP of that user is accepted for setup or login. |
| Lifecycle.NoRefreshSucceeds | internal/application/auth/service.go:189-223 | In that time no refresh, with whatever token, answers with a session for that user. |
| Lifecycle.ReuseKills | internal/application/auth/service.go:198-203 | A replayed revoked token that is answered as invalid leaves its user without a live token. |
| Lifecycle.ChangeKills | internal/application/auth/service_totp.go:260-266 | A successful password change leaves the user without a live token. |
| Lifecycle.ResetKills | internal/application/auth/service_password_reset.go:183-194 | A successful reset leaves its flow's user without a live token. |
| Lifecycle.SessionsAreDelivered | internal/application/auth/service.go:417-463 | A session in a reply is the one the log's last entry delivers, through the refresh, setup or login that was called; no other use case answers with a session. |
| Lifecycle.EnrolmentIsStable | internal/domain/totp/credential.go:79-99 | Once enabled, a credential stays enabled with the same secret until its account is deleted; and it is enabled exactly when it has no pending setup token. |
| Lifecycle.AlwaysEitherOr | internal/domain/totp/credential.go:60-99 | In every reachable state a credential is either enabled or has a pending setup token, never both or neither. |
| ResetHistory.ResetFollowsOneVerification | internal/application/auth/service_password_reset.go:64-190 | Every password reset through a flow follows exactly one verification of that flow, made just after a code of the flow's own account was accepted and recorded as used, or for the demo account; the password is that account's. |
| ResetHistory.SpentOnce | internal/domain/passwordreset/password_reset_flow.go:113-118 | A flow is consumed at most once. |
| ResetHistory.ConfirmationSpends | internal/application/auth/service_password_reset.go:183-190 | A successful confirmation first sets the new password for the flow's account and then consumes the flow. |
| ResetHistory.ConfirmedOnce | internal/application/auth/service_password_reset.go:165-205 | At most one confirmation of a flow succeeds: after one has, and whatever calls follow, every later call that confirms the same flow is answered with an error. |
| ResetHistory.IneligibleNeverVerified | internal/application/auth/service_password_reset.go:22-124 | A flow opened for no account is verified at no moment of any run. |
| ResetHistory.VerifiedOnce | internal/domain/passwordreset/password_reset_flow.go:93-105 | A flow is verified at most once. |
| ResetHistory.EvaluationsCapped | internal/domain/passwordreset/password_reset_flow.go:80-91 | With a cap of at least 1 a flow evaluates at most that many codes, the successful one included. |
| Erasure.GuessesAreInvisible | internal/application/auth/service_password_reset.go:64-124 | Erasing from any run every reset verification answered OTP-invalid, OTP-locked or flow-invalid, while every other call begins when it did, leaves users, credentials, tokens, markers, challenges and jobs as they were, and every reply to the remaining calls unchanged. |
| Erasure.SimPerform | internal/application/auth/service.go:124-463 | A call answered from two worlds that differ only in recorded reset failures answers the same and keeps them alike. |
| ResetPrivacy.SameAnswers | internal/application/auth/service_password_reset.go:55-124 | For any times and any codes the account never accepts, guesses that no port fails, and any other calls in between, different on both sides, that leave the two flows alone and do not remove the account: a flow for nobody and a flow for an eligible account give the same answers throughout, the lock included. |
| ResetPrivacy.OthersKeepAlike | internal/application/auth/service_password_reset.go:16-53 | Such other calls, failing or not, keep the two flows look-alike. |
| ResetPrivacy.SameAnswer | internal/application/auth/service_password_reset.go:73-124 | One step, exactly: two look-alike flows answer the same if and only if the code is not one the account accepts on a flow that still takes codes; and then they stay look-alike. |
| Recovery.RequestExactly | internal/application/auth/service_password_reset.go:21-53 | While no port fails every reset request is answered with a stored flow that lives one flow lifetime; the flow belongs to an account if and only if the account has that normalised email and an enabled credential, and else to nobody. |
| Recovery.VerifyResetExactly | internal/application/auth/service_password_reset.go:64-146 | While no port fails: a flow that is missing, expired, consumed, verified or at its cap is refused and changes nothing; a code of its account is answered with the reset token stored, which expires one token lifetime after it is drawn, and counts as used; any other code adds one attempt to the flow and nothing else. A lock on the account does not matter. |
| Recovery.ConfirmExactly | internal/application/auth/service_password_reset.go:165-205 | While no port fails a confirmation succeeds if and only if neither the flow that holds the token nor the token has expired and the flow is not consumed; it stores the new password of the flow's account, consumes the flow, revokes the account's tokens and clears its marker, and else changes nothing. |
| Recovery.UnknownResetRefused | internal/application/auth/service_password_reset.go:166-172 | Under every plan a reset token that no flow holds is refused and changes no table. |
| Recovery.ResetsAlwaysSound | internal/domain/passwordreset/password_reset_flow.go:93-105 | In every reachable state no two flows share a reset token, and a flow that has one was verified and belongs to an account. |
| Recovery.FlowOpens | internal/application/auth/service_password_reset.go:64-146 | A flow just opened for an enrolled account waits for its code through any run of calls, fewer wrong codes than the cap included. |
| Recovery.TokenConfirms | internal/application/auth/service_password_reset.go:165-205 | A reset token waits for its confirmation through any run of calls that do not confirm it. |
| Recovery.RecoveryDelivers | internal/application/auth/service_password_reset.go:21-205 | From request to new password, in three calls that no port fails: from any legal world, an enrolled account that asks for a reset, sends a code it accepts and confirms with the token it is answered, before the stored expiries, is answered with success and has the new password, whatever other calls come in between that leave the flow open and the account in place. |
| Recovery.ConfirmThenLogin | internal/application/auth/service_password_reset.go:183-187 | After a confirmation that succeeded the account's next login passes with the new password and is refused with any other. |
| Retry.FailedLoginKeepsChallenge | internal/application/auth/service_totp.go:148-162 | A login that fails before its challenge is consumed leaves every challenge, setup token and enrolment as it was. |
| Retry.FailedSetupKeepsToken | internal/application/auth/service_totp.go:92-103 | A setup that fails before the credential is enabled leaves every challenge, setup token and enrolment as it was. |
| Retry.FailedLoginIsRetryable | internal/application/auth/service_totp.go:148-207 | After such a failure, and after any further run of calls that do not consume the challenge, a retry that no port fails, however long its calls take, delivers a stored, marked, live session, if the challenge has not expired at its lookup, the account is active, and the code is one the gate accepts when it gets there. |
| Retry.FailedSetupIsRetryable | internal/application/auth/service_totp.go:92-141 | The same for a setup token, after any further run of calls that start or complete no setup of the user. |
| Retry.ChallengeDelivers | internal/application/auth/service_totp.go:163-207 | The same for any challenge that is not consumed, at any later moment of a run. |
| Retry.SetupTokenDelivers | internal/application/auth/service_totp.go:104-141 | The same for any pending setup token. |
| Retry.LoginDelivers | internal/application/auth/service_totp.go:163-207 | One call, while no port fails: a challenge that is live at its lookup and a code the gate accepts when it gets there deliver such a session to an active account. |
| Retry.SetupDelivers | internal/application/auth/service_totp.go:104-141 | The same for a setup token that is unexpired at its lookup. |
| Retry.RegistrationDelivers | internal/application/auth/service.go:124-136 | From any legal world, while no port fails: registering an unused email succeeds; in the next call every code of the step at which it is checked is accepted; and whatever calls follow, the setup token and an accepted code deliver a live session before the token expires. |
| Retry.FreshCodeAccepted | internal/platform/totp/totp.go:76-94 | After a code checked at time t was accepted, an unlocked account accepts the current step's code whenever it is checked at t + 60 seconds or later, until another code is accepted, however long the calls take. |
| Admissions.RegisterExactly | internal/application/auth/service.go:124-136 | While no port fails a registration succeeds if and only if the normalised email is not in use; it stores the account with its password, and the setup that the answer hands out, secret, token and expiry included. |
| Admissions.LoginRefuses | internal/application/auth/service.go:146-167 | Under every plan of port answers a login with an email nobody has, with a password other than the stored one, or for an account being deleted is answered with an error and changes no table. |
| Admissions.LoginExactly | internal/application/auth/service.go:146-183 | While no port fails: the stored password of an active, enrolled account, and no other, is answered with a challenge, which is stored for that user, not consumed, with the answered expiry; of one not enrolled, with a new setup that is stored as answered, keeping only the last used counter. |
| Admissions.SetupExactly | internal/application/auth/service.go:530-570 | A new setup, on the first and on the restart branch: secret, token and expiry are stored as answered, nothing is counted or locked, and the last used counter survives. |
| Admissions.ChallengeExactly | internal/application/auth/service.go:506-522 | The challenge that is answered is stored for the user, not consumed, and expires one challenge lifetime after it is drawn. |
| Admissions.LoginVerifyExactly | internal/application/auth/service_totp.go:163-207 | While no port fails a login is completed if and only if the challenge is stored, not consumed and not expired when it is looked up, the gate accepts the code, and the account is active; it consumes the challenge and hands out the session it stores. Otherwise no challenge, token, marker or user row changes. |
| Admissions.SetupVerifyExactly | internal/application/auth/service_totp.go:104-141 | While no port fails a setup is completed if and only if the token a credential holds has not expired when it is looked up, the gate accepts the code, and the account is active; it enables the credential, takes the token away and hands out the session it stores. Otherwise the setup stays pending. |
| Admissions.UnknownSetupRefused | internal/application/auth/service_totp.go:105-111 | Under every plan a setup token that no credential holds is refused and changes no table. |
| Admissions.PasswordAndCodeDeliver | internal/application/auth/service_totp.go:163-207 | In two calls that no port fails: the stored password and then, after any run of calls that do not consume the challenge, an accepted code deliver a stored, marked, live session to an enrolled, active account. |
| Accounts.ChangeStores | internal/application/auth/service_totp.go:228-277 | Under every plan of port answers: a password change answered with success was given the current password and has stored the new one; no other user row differs. |
| Accounts.ChangeExactly | internal/application/auth/service_totp.go:228-277 | While no port fails a password change succeeds if and only if the current password is right and the gate accepts the code; it stores the new password, revokes the user's tokens and clears the marker, and else changes no user, token or marker row. |
| Accounts.ChangeThenLogin | internal/application/auth/service_totp.go:255-262 | After a password change that succeeded, whatever its ports answered, the account's next login passes with the new password and is refused with any other. |
| Accounts.DeleteExactly | internal/application/auth/service.go:350-384 | While no port fails a deletion request succeeds if and only if the gate accepts the code; the account is then pending and has a job dated by the write, its tokens are revoked and its marker is cleared; else no user, token, marker or job row changes. |
| DeletionRows.AttemptsAreClaims | internal/repository/postgres/deletion_store.go:26 | In every schedule of any number of workers the attempt count of a job is the number of claims of it, those included whose worker never learnt of it. |
| DeletionRows.AttemptsAreRetries | internal/application/auth/deletion_worker.go:54-60 | With one worker, whatever fails or crashes, the attempt count of a step is the number of retries recorded for it. |
| DeletionRows.BackOffDoubles | internal/repository/postgres/deletion_store.go:58-60 | A recorded retry puts the step off by one minute doubled once for each failure, at most eight times. |
| AuthService.Service.ValidateOTP | internal/application/auth/service_totp.go:69-83 | The one validation point, with the demo exception: verdict and state are those of AuthSpec.ValidateOTP. |
| AuthService.Service.VerifyOTP | internal/application/auth/service_totp.go:30-64 | The imperative gate: the loaded credential is changed in place and written back; reply, credential and whole state are those of AuthSpec.VerifyOTP for every plan of port answers. |
| AuthService.Service.IssueSession | internal/application/auth/service.go:417-463 | The imperative use case: reply and whole state, after success and after every failing port call, are those of AuthSpec.IssueSession, about which the results above are proved. |
| AuthService.Service.Refresh | internal/application/auth/service.go:189-223 | The imperative use case: reply and whole state, after success and after every failing port call, are those of AuthSpec.Refresh, about which the results above are proved. |
| AuthService.Service.Logout | internal/application/auth/service.go:238-262 | The imperative use case: reply and whole state, after success and after every failing port call, are those of AuthSpec.Logout, about which the results above are proved. |
| AuthService.Service.BeginTOTPSetup | internal/application/auth/service.go:530-570 | The imperative use case: reply and whole state, after success and after every failing port call, are those of AuthSpec.BeginTOTPSetup, about which the results above are proved. |
| AuthService.Service.IssueLoginChallenge | internal/application/auth/service.go:506-522 | The imperative use case: reply and whole state, after success and after every failing port call, are those of AuthSpec.IssueLoginChallenge, about which the results above are proved. |
| AuthService.Service.Register | internal/application/auth/service.go:124-136 | The imperative use case: reply and whole state, after success and after every failing port call, are those of AuthSpec.Register, about which the results above are proved. |
| AuthService.Service.Login | internal/application/auth/service.go:146-183 | The imperative use case: reply and whole state, after success and after every failing port call, are those of AuthSpec.Login, about which the results above are proved. |
| AuthService.Service.SetupVerifyOTP | internal/application/auth/service_totp.go:104-141 | The imperative use case: reply and whole state, after success and after every failing port call, are those of AuthSpec.SetupVerifyOTP, about which the results above are proved. |
| AuthService.Service.LoginVerifyOTP | internal/application/auth/service_totp.go:163-207 | The imperative use case: reply and whole state, after success and after every failing port call, are those of AuthSpec.LoginVerifyOTP, about which the results above are proved. |
| AuthService.Service.ChangePassword | internal/application/auth/service_totp.go:228-277 | The imperative use case: reply and whole state, after success and after every failing port call, are those of AuthSpec.ChangePassword, about which the results above are proved. |
| AuthService.Service.DeleteAccount | internal/application/auth/service.go:350-384 | The imperative use case: reply and whole state, after success and after every failing port call, are those of AuthSpec.DeleteAccount, about which the results above are proved. |
| AuthService.Service.RequestPasswordReset | internal/application/auth/service_password_reset.go:21-53 | The imperative use case: reply and whole state, after success and after every failing port call, are those of AuthSpec.RequestPasswordReset, about which the results above are proved. |
| AuthService.Service.CheckResetCode | internal/application/auth/service_password_reset.go:81-113 | The imperative use case: reply and whole state, after success and after every failing port call, are those of AuthSpec.CheckResetCode, about which the results above are proved. |
| AuthService.Service.VerifyPasswordResetOTP | internal/application/auth/service_password_reset.go:64-138 | The imperative use case: reply and whole state, after success and after every failing port call, are those of AuthSpec.VerifyPasswordResetOTP, about which the results above are proved. |
| AuthService.Service.ConfirmPasswordReset | internal/application/auth/service_password_reset.go:165-205 | The imperative use case: reply and whole state, after success and after every failing port call, are those of AuthSpec.ConfirmPasswordReset, about which the results above are proved. |
| Backends.Backend.RequestDeletion | internal/repository/postgres/deletion_store.go:86-128 | Pending, tokens revoked and job created in one transaction; a repeated request changes nothing; a missing account is an error. |
| Backends.Backend.InsertSteps | internal/repository/postgres/deletion_store.go:119-123 | The loop over the services creates exactly the seven pending steps. |
| Backends.Backend.DeleteUser | internal/repository/postgres/user_repository.go:106-118 | The row goes and with it the user's tokens, credential, challenges and flows; a missing row is an error that changes nothing. |
| Backends.Backend.CreateUser | internal/repository/postgres/user_repository.go:29-45 | Inserts the row unless the email is in use. |
| Backends.Backend.Revoke | internal/repository/postgres/refresh_token_repository.go:59-67 | Revokes an unrevoked token; any other call changes no row. |
| Backends.Backend.RevokeAllForUser | internal/repository/postgres/refresh_token_repository.go:69-77 | Revokes every token of the user and no other. |
| Backends.Backend.ConsumeChallenge | internal/repository/postgres/login_challenge_repository.go:60-68 | Consumes an unconsumed challenge; any other call changes no row. |
| Backends.Backend.UpdateCredential | internal/repository/postgres/two_factor_credential_repository.go:73-96 | Replaces the stored row by the object's state; a missing row is an error. |
| Backends.Backend.GetBySetupToken | internal/repository/postgres/two_factor_credential_repository.go:61-71 | Finds the credential that holds the setup token and loads a copy. |
| Backends.Backend.GetByResetToken | internal/repository/postgres/password_reset_flow_repository.go:55-63 | Finds the flow that holds the reset token and loads a copy. |
| Backends.Backend.ActivateAndReturnPrevious | internal/application/auth/ports.go:39 | Swaps the marker and reports the live session it replaced. |
| Backends.Backend.DeactivateIfCurrent | internal/application/auth/ports.go:44 | Clears the marker only if it names the given session. |
| Backends.Backend.DeactivateAndReturnPrevious | internal/application/auth/ports.go:45-54 | Clears the marker and reports the live session it removed. |
| Credentials.Credential.RecordFailure | internal/domain/totp/credential.go:121-128 | Counts a failure; at the cap starts the lockout and restarts the count. All fields stated. |
| Credentials.Credential.RecordSuccess | internal/domain/totp/credential.go:133-137 | Clears failures and lockout and remembers the counter. All fields stated. |
| Credentials.Credential.BeginSetup | internal/domain/totp/credential.go:79-89 | A new secret and setup token, not enabled, unlocked; the last used counter survives. |
| Credentials.Credential.Enable | internal/domain/totp/credential.go:93-99 | Enabled, and the setup token is gone. |
| Credentials.Credential.MarkCodeUsed | internal/domain/totp/credential.go:151-154 | Only the last used counter changes. |
| ResetFlows.PasswordResetFlow.RecordOTPFailure | internal/domain/passwordreset/password_reset_flow.go:88-91 | One more attempt; says whether the flow is now locked. |
| ResetFlows.PasswordResetFlow.IssueResetToken | internal/domain/passwordreset/password_reset_flow.go:101-105 | A reset token and its expiry; nothing else changes. |

## Left out

- Guessing.GuessingBound: counts recorded failures; Evaluations.EvaluationsBounded counts every evaluated wrong code, and Evaluations.UnrecordedGuesses shows that its term for refused writes is needed.
- Guessing.WrongRepliesBounded: counts OTP-error replies; a wrong code whose failure write does not answer normally is answered with an infrastructure error and is counted by Evaluations.EvaluationsBounded only.
- Outcomes.GateExactly: like the other exact answers it is stated while no port fails. What a call leaves behind when one does is the subject of Conformance; under every plan only the results that say so are stated.
- Cleanup.EverySessionCleanedOnce: says that cleanup is scheduled; the detached call to the notification service and its outcome are not part of this model.
- LogoutRace.NewSessionSurvives: one issue races the logouts; two racing issues for one account are the subject of IssueRace.
- Concurrent calls other than those races. Calls are serialised across all accounts, not only for each account.
- Independence.CallsWritesCommute: is about the writes of two calls. That a call also reads, and so decides, the same whatever calls of other accounts come between is not proved.
- HOTP, bcrypt, AES-GCM, SHA-256, JWT signing and random generation, beyond the conventions above.
- Redis and PostgreSQL: each statement or transaction is one atomic update; the claim's update and its read of the steps are one step.
- The direct-cascade branch of DeleteAccount used when no deletion requester is configured, and MarkDeletionPending, which nothing calls.
- UpdateProfile, CurrentUser, avatars and media.
- HTTP handlers, request validation, configuration, logging, the process entry points and the HTTP clients.
- Timestamps and error texts that no decision reads: created_at, updated_at, last_error.
- The worker's ticker loop, fairness between jobs and mutual exclusion of workers, which the claim does not provide.
- Session generation numbers, which belong to a library that is not part of this model.
- Integer overflow of counters and durations.
