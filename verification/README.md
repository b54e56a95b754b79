# Session protocol, generators and image list of the Prism stack

A Dafny model of the parts of the repository whose correctness depends on more than one function: the auth API that
keeps sessions in four tables without transactions, the Expo client that refreshes its tokens through one shared
promise, the generators of tokens and codes, and the image list of the upload hook with its URL printer and parser.

Verify with `dafny verify dfyconfig.toml`.

## How the model is built

**Server.** `Schema.dfy` holds the tables with their unique, foreign-key, cascade and default-now rules, and the
sixteen SQL statements the handlers send. `Handlers.dfy` turns each handler into a program of single statements: a
request stands at a point, its statement is in flight or answered, and the synchronous block between two statements
is one function of the answer, the clock and freshly generated values. `Server.dfy` lets any number of requests
interleave over one database and one monotone clock in milliseconds; any statement may fail. All theorems about runs
quantify over every action sequence of that machine. `Worker.dfy` holds the handlers in the imperative form of the
source, as methods of a class that owns the database, each proved to be a run of its own process of the machine, and to
give the right answer when nothing disturbs it. The right answers are stated in `Endpoints.dfy`, over the tables before
and after, with literal codes and durations and without reference to the handlers; `Solo.dfy` proves them.

**Theorems about the server.** `Accounts.dfy` (signup as a saga), `Sessions.dfy` and `Revocation.dfy` (rotation, logout,
revocation), `Provenance.dfy` (whose tokens a reply carries), `SessionRaces.dfy` (a run in which both races are lost),
`OtpLock.dfy` (a reference lock that knows no tables), `OneTimeCodes.dfy` (the handlers refine it when serialised),
`OtpRaces.dfy` and `LostUpdates.dfy` (what lost updates do to the attempt budget, and that nothing else does),
`Verification.dfy` (no tokens without a checked code, and which error each row leads to).

**Client.** `Client.dfy` is the job-queue machine: two interceptors, the module variable `refreshPromise`, promises with
their waiters, timers that log out, sign-ins. Over all its runs, `ClientRuns.dfy` proves the bookkeeping (each call in
one place, each refresh call with its own promise), `Flight.dfy` single flight with its exact guard, `SingleFlight.dfy`
what calm and proactive runs have beyond it, and `FailedRefresh.dfy` (over `Attended.dfy`) when no refresh is ever made
again; `Logouts.dfy` follows scheduled logouts; `LateJoin.dfy` holds the concrete runs. `ApiClient.dfy` is the client in
the source's own form: a class whose fields the methods overwrite, which remembers its events, so that the run theorems
are part of its contracts.

**End to end.** `Lifeline.dfy` follows one session with a client reduced to its phases, and has the timing;
`EndToEnd.dfy` puts the job-queue client and the interleaving server into one world and shows that the client lives like
the reduced one; `FullLife.dfy` is a life in which a refresh happens.

**Generators.** `Numerals.dfy` is positional arithmetic in any base; `Generators.dfy` has the two loops and counts
the inputs behind every output. **Images.** `Images.dfy` and `ImageUrl.dfy`.

## Assumptions

- A failed SQL statement has no effect; the DELETE handed to `waitUntil` is executed sooner or later and does not fail.
- Generated ids and refresh tokens differ from all generated before (the exact distribution behind the refresh
  tokens is `Generators.EveryTokenHasFifteenOrSixteenPreimages`).
- The clock is read once per synchronous block, as on a Worker, where it stands still between I/O; `lastUsedAt` and
  `createdAt` of an inserted session come from the database's clock when the INSERT is executed.
- A private request carries an access token that the server has signed; JWT verification itself is not modelled.
- Where a statement speaks of what the client can still do, its persisted store held both tokens or none, which is how
  the app writes it.
- On the client, only private endpoints answer EXPIRED_TOKEN. For the refresh and logout endpoints this is proved of
  the server (`Revocation.EndpointCodes`).
- `Lifeline` and `EndToEnd`: the client's own statements do not fail and its replies arrive, nobody else presents its
  refresh tokens, it does not log out, it restarts only while no refresh is outstanding, and it is never idle for 30 days. Its clock is at most `skew` ms ahead of the
  server's when it looks at it, its session is inserted within `delay` ms of the signing, the waiters of a refresh have
  resumed within `lag` ms of the second in which the new token was signed; skew + delay is at most 1319001 ms and
  skew + lag less than 27 minutes. Private requests are not answered EXPIRED_TOKEN or INVALID_TOKEN.

## Where the code and its promises differ

- **Attempt limit.** The documentation promises at most three attempts per code (apps/api/docs/auth.md:359). In every
  interleaving one code is answered OTP_INVALID at most twice as long as every count is written over the count it was
  computed from (`LostUpdates.NoLostUpdateMeansTwoMisses`); the first write that is not above the count on the row, made
  before the code expires, lets the run be continued to three (`LostUpdates.LostUpdateMakesThreeMisses`). Serialised
  requests lose no update (`OneTimeCodes.SerialBudget`); concurrent ones can exceed any bound
  (`OtpRaces.ConcurrentMissesShareOneCount`).
- **The pre-check against the maximum** never fires in a serialised run, except after the DELETE that follows a third
  miss has failed (`OneTimeCodes.PrecheckOnlyAfterFailedCleanup`).
- **Logout** revokes its session if and only if the presented token is still the row's token when the UPDATE is
  executed; a rotation in between leaves the session live behind a success answer
  (`Revocation.LogoutRevokesExactlyTheCurrentToken`, `Revocation.LogoutCanMissItsSession`; a run from the empty
  database is `SessionRaces.BothRacesAreLost`).
- **The answer of a refresh** carries a live refresh token if and only if an unrevoked row holds the presented token
  when the UPDATE is executed; a refresh that lost the race gets the same answer with a token that was never stored
  (`Revocation.RefreshAnswerIsLiveExactly`).
- **Single flight** (packages/auth/expo/docs/api.md:97) holds in every run in which no waiter resumes from a fulfilled
  promise while `refreshPromise` holds a pending one, failed refreshes, logouts and sign-ins included
  (`Flight.GuardedMeansSingleFlight`). A run about to break this guard for the first time can be continued to two
  outstanding refreshes (`Flight.BrokenGuardBreaksSingleFlight`); a request that joins a fulfilled promise does it
  (`LateJoin.LateJoinBreaksSingleFlight`).
- **A failed refresh** can be the last one for good, sign-ins of no help. In every reachable state no refresh call is
  ever made again if and only if `refreshPromise` holds an unfulfilled promise, no waiter of a fulfilled one is queued,
  and every outstanding refresh call has its error answer in the queue already (`FailedRefresh.NeverAgainExactly`). For
  a refresh that fails on the wire this condition is read off the moment it fails (`FailureIsFinalExactly`); for one that
  fails for want of a token the promise part is automatic (`TokenlessIsFinalExactly`). Under the guard of single flight a
  failure on the wire is always final, and a tokenless one exactly if no waiter of a fulfilled promise is queued
  (`GuardedFailureIsTheLastRefresh`). Without the guard a failed refresh need not be final
  (`LateJoin.FailedRefreshNeedNotStick`).
- **The two image replacements** agree if and only if the previews are duplicate-free and no new id is empty
  (`Images.ReplacementsAgreeExactlyWithoutDuplicates`; an id is empty when `Math.random()` returns 0).
- **Extracting the id of a printed URL** gives the id only if the base path has no slash after its last underscore
  (`ImageUrl.PrintThenExtract`).

## Model

| member | source | states |
|---|---|---|
| `Schema.ConstraintsKept` | apps/api/src/db/schema.ts:25-97 | every statement the tables accept keeps unique identities, e-mails and tokens and all foreign keys, cascades included |
| `Solo.ServedAloneAnswersRightly` | apps/api/src/modules/auth/handlers.ts:93-632 | from any reachable state, a request served alone with no statement failing gets the right answer and leaves the right database, as stated per endpoint over the tables it found |
| `Solo.FailedStatementAnswers` | apps/api/src/modules/auth/handlers.ts:141-155 | what a failed statement leads to: database error for the upsert, deletion of the account for the profile, invalid token for a private request, else a throw |
| `Server.ShapedKept` | apps/api/src/modules/auth/handlers.ts:93-632 | in every step every request stands at a point of its own handler and waits for an answer of the right kind |
| `Worker.AuthWorker.RequestOtp` | apps/api/src/modules/auth/handlers.ts:94-159 | a run of its process in the machine; served quietly, answer and database are the ones stated over the tables before: throttled, unknown at login, known at signup, or a new code |
| `Worker.AuthWorker.UserExists` | apps/api/src/modules/auth/handlers.ts:109-124 | whether some account of the phone has a profile, and what follows for login and signup: an answer, or a code to be stored |
| `Worker.AuthWorker.VerifyOtpCode` | apps/api/src/modules/auth/handlers.ts:162-240 | each verdict leaves the request at its own error code, and only success goes on to the account lookup |
| `Worker.AuthWorker.IssueTokens` | apps/api/src/modules/auth/handlers.ts:243-263 | signs, stores and answers exactly as the machine's process |
| `Worker.AuthWorker.CreateUser` | apps/api/src/modules/auth/handlers.ts:588-613 | first insert of the saga, thrown on failure, then the rest |
| `Worker.AuthWorker.CreateProfile` | apps/api/src/modules/auth/handlers.ts:302-317 | second insert; its failure is answered at once, with the compensating DELETE handed over and left in flight |
| `Worker.AuthWorker.RunBackground` | apps/api/src/modules/auth/handlers.ts:310-313 | the DELETE run by waitUntil, at any later time, ends the process |
| `Worker.AuthWorker.PhoneSignup` | apps/api/src/modules/auth/handlers.ts:266-322 | a run of its process in the machine, its compensation possibly still in flight behind a thrown answer; served quietly, answer and database are the ones stated over the tables before: the code's error, an existing user, or a new account, profile and session |
| `Worker.AuthWorker.PhoneSignIn` | apps/api/src/modules/auth/handlers.ts:325-358 | a run of its process in the machine; served quietly, answer and database are the ones stated over the tables before: the code's error, an unknown or incomplete user, or a session for the account of the phone |
| `Worker.AuthWorker.OAuthExisting` | apps/api/src/modules/auth/handlers.ts:496-513 | an existing account gets its e-mail filled in when it has none, then tokens |
| `Worker.AuthWorker.OAuthSignIn` | apps/api/src/modules/auth/handlers.ts:488-532 | the handler after token verification is a run of its process in the machine; served quietly, answer and database are the ones stated over the tables before: a session for the identity's account, an e-mail conflict, or a signup needed |
| `Worker.AuthWorker.OAuthSignup` | apps/api/src/modules/auth/handlers.ts:538-632 | a run of its process in the machine, its compensation possibly still in flight behind a thrown answer; served quietly, answer and database are the ones stated over the tables before: a session for the account found or made, or an e-mail conflict |
| `Worker.AuthWorker.RefreshTokens` | apps/api/src/modules/auth/handlers.ts:361-398 | a run of its process in the machine; served quietly, answer and database are the ones stated over the tables before: refused for a missing, revoked or expired row, rate limited, or rotated |
| `Worker.AuthWorker.Logout` | apps/api/src/modules/auth/handlers.ts:401-412 | a run of its process in the machine; served quietly, answer and database are the ones stated over the tables before: revoked, or unauthorized for an unknown or revoked token |
| `Worker.AuthWorker.RequireAuth` | apps/api/src/modules/auth/middleware.ts:27-49 | the middleware after JWT verification is a run of its process; served quietly, answer and database are the ones stated over the tables before: allowed as the token's subject; never "Profile required" for a signed token |
| `Accounts.StepKeeps` | apps/api/src/modules/auth/handlers.ts:266-317 | every step of every interleaving keeps the saga invariant: constraints, owned sessions and tokens, and for each `auth` row without profile a request that still owes it one or a cleanup |
| `Accounts.StepGrows` | apps/api/src/modules/auth/handlers.ts:302-314 | no step removes a profile, a session row or a signed token, or gives an id another identity |
| `Accounts.NamedIdsKeepTheirProfile` | apps/api/src/modules/auth/handlers.ts:243-263 | an id named by a session row or a signed access token has its profile then and for ever, under the same identity |
| `Accounts.ProfileRequiredUnreachable` | apps/api/src/modules/auth/middleware.ts:28-33 | no reachable state holds a "Profile required" answer to a signed token |
| `Accounts.CompensationNeverCascades` | apps/api/src/modules/auth/handlers.ts:310-314 | the compensating DELETE removes its own `auth` row and nothing from `users` or `tokens` |
| `Accounts.SignupAllOrNothing` | apps/api/src/modules/auth/handlers.ts:297-314 | at rest `auth` and `users` hold the same ids, and of two ids generated for one identity at least one left no row |
| `Accounts.SameIdentitySameAccount` | apps/api/src/modules/auth/handlers.ts:490-512 | all successful sign-ins and signups for one identity name one id, which stays that identity's account |
| `Sessions.StepKeeps` | apps/api/src/modules/auth/handlers.ts:361-412 | every step keeps the session invariant: rotated-out strings are gone, readers hold true snapshots, rotations respect the cooldown |
| `Sessions.ExecView` | apps/api/src/modules/auth/handlers.ts:387-407 | a statement of one request leaves each session row as it was, inserts it, rotates exactly the row holding the presented token, or revokes it |
| `Revocation.RotationIsCompareAndSwap` | apps/api/src/modules/auth/handlers.ts:387-394 | of all refreshes that present one token at most one rotates |
| `Revocation.RotationRate` | apps/api/src/modules/auth/handlers.ts:82-91 | a row rotated k times has lastUsedAt at least k cooldowns after createdAt, so T ms allow T / 300000 rotations |
| `Revocation.RotationsAreSpaced` | apps/api/src/modules/auth/handlers.ts:378-394 | in every interleaving any two rotations of one row are at least a cooldown apart |
| `Revocation.EveryStepKeepsRows` | apps/api/src/modules/auth/handlers.ts:387-394 | a step changes token, expiry and lastUsedAt together by a rotation of the row's own token, or sets revokedAt, or nothing |
| `Revocation.SessionRowsPersist` | apps/api/src/modules/auth/handlers.ts:361-412 | over every run a session row keeps its authId, device and creation time, and a revocation is never cleared |
| `Revocation.DeadForever` | apps/api/src/modules/auth/handlers.ts:364-370 | a string that no live row holds and no statement will store stays so in every run |
| `Revocation.DeadTokenRefused` | apps/api/src/modules/auth/handlers.ts:364-370 | every refresh of a dead string ends refused |
| `Revocation.RotatedOutNeverRefreshes` | apps/api/src/modules/auth/handlers.ts:361-398 | a rotated-out string is never found again, and every refresh of it whose SELECT comes later is refused |
| `Revocation.RevocationIsPermanent` | apps/api/src/modules/auth/handlers.ts:401-412 | a revoked row stays revoked, and a refresh of whatever token it then holds is refused if its SELECT comes later |
| `Revocation.ExpiryIsPermanent` | apps/api/src/modules/auth/handlers.ts:364-370 | in every interleaving, once a session's expiry has passed with no refresh of its token under way, its row is never rotated again and every later refresh of it is refused |
| `Revocation.InFlightRefreshYieldsDeadToken` | apps/api/src/modules/auth/handlers.ts:372-397 | a refresh that had read its row before the revocation can only answer a token that is refused for ever |
| `Revocation.RefreshAnswerIsLiveExactly` | apps/api/src/modules/auth/handlers.ts:384-397 | the refresh token answered is live if and only if an unrevoked row holds the presented token when the UPDATE is executed; otherwise the same answer carries a dead token |
| `Revocation.LogoutRevokesExactlyTheCurrentToken` | apps/api/src/modules/auth/handlers.ts:405-407 | the UPDATE of a logout revokes a live row if and only if the row still holds the presented token |
| `Revocation.LogoutCanMissItsSession` | apps/api/src/modules/auth/handlers.ts:405-411 | a run in which a rotation goes first: the logout answers success and the session stays live |
| `Revocation.EndpointCodes` | apps/api/src/modules/auth/handlers.ts:641-642 | refresh and logout never answer EXPIRED_TOKEN, and logout no code that makes a client log out |
| `Provenance.RepliesBelongToTheirSession` | apps/api/src/modules/auth/handlers.ts:243-263 | in every interleaving a refresh answers for the account of a session that held the presented token, and a sign-in answers a token stored in a session of the account it names, with the device it sent |
| `Provenance.OneSessionPerString` | apps/api/src/modules/auth/handlers.ts:384-394 | a token string belongs to one session and one account for all time, rotated out or not |
| `SessionRaces.BothRacesAreLost` | apps/api/src/modules/auth/handlers.ts:361-412 | a run from the empty database: a rotation goes first, then a logout answers success over the live session and a second refresh is answered a dead token |
| `OtpLock.AtMostTwoMisses` | apps/api/src/modules/auth/handlers.ts:195-216 | between two stores a legal history has at most two OTP_INVALID |
| `OtpLock.OnlyNotFoundAfterTheEnd` | apps/api/src/modules/auth/handlers.ts:171-177 | after success or exhaustion only OTP_NOT_FOUND follows until the next store |
| `OtpLock.StoresKeepTheirDistance` | apps/api/src/modules/auth/handlers.ts:100-107 | two stores without a success or exhaustion between them are a cooldown apart, expiry or not |
| `OtpLock.StoresInWindow` | apps/api/src/modules/auth/handlers.ts:100-107 | a window of T ms without such an end holds at most T / 60000 + 1 stores |
| `OneTimeCodes.SerialOtpRefinesLock` | apps/api/src/modules/auth/handlers.ts:94-221 | in every run serialised per phone each store and each verdict is one the reference lock allows |
| `OneTimeCodes.PrecheckOnlyAfterFailedCleanup` | apps/api/src/modules/auth/handlers.ts:185-193 | at rest the stored attempts are the misses, 0 to 2, and the pre-check fires if and only if the DELETE after a third miss failed |
| `OneTimeCodes.SerialBudget` | apps/api/src/modules/auth/handlers.ts:195-220 | the attempt budget of one stored code in every serialised run |
| `OneTimeCodes.SerialSpacing` | apps/api/src/modules/auth/handlers.ts:97-107 | the spacing of stored codes in every serialised run |
| `OneTimeCodes.OnlyFreshStoredCodesSucceed` | apps/api/src/modules/auth/handlers.ts:168-220 | in every interleaving stored attempts stay within 3, and success needs a code stored for the phone at most five minutes before |
| `Verification.TokensNeedAFreshCode` | apps/api/src/modules/auth/handlers.ts:329-332 | in every interleaving a phone sign-in or signup past its verification, or answered tokens, has a recorded success for its phone and code, stored at most five minutes before |
| `Verification.RefusalsHaveTheirVerdict` | apps/api/src/modules/auth/handlers.ts:224-240 | in every interleaving each of the four verification errors is answered only with its own verdict recorded |
| `Verification.RowDecidesTheAnswer` | apps/api/src/modules/auth/handlers.ts:168-221 | whatever interleaves, the row read and the time it is looked at decide which error is answered, or that none of them is |
| `OtpRaces.ConcurrentMissesShareOneCount` | apps/api/src/modules/auth/handlers.ts:198-199 | for every n a reachable state in which one stored code has answered n OTP_INVALID and counts one attempt |
| `LostUpdates.NoLostUpdateMeansTwoMisses` | apps/api/src/modules/auth/handlers.ts:195-216 | in every interleaving without a lost update of the count, the OTP_INVALID answers for one stored code, given and owed, are at most two |
| `LostUpdates.LostUpdateMakesThreeMisses` | apps/api/src/modules/auth/handlers.ts:198-216 | the converse: a write no higher than the count on the row, before the code expires, lets the run be continued to three OTP_INVALID answers for this code |
| `LostUpdates.WritesAreAnswers` | apps/api/src/modules/auth/handlers.ts:198-215 | in every run each executed write below the maximum is exactly one OTP_INVALID answer, given or owed, and there are no others |
| `Lifeline.DueMeansCooled` | packages/auth/expo/src/api.ts:95-104 | a token due on the client is past the server's cooldown while skew and delay stay within the margin |
| `Lifeline.MarginIsExact` | apps/api/src/modules/auth/handlers.ts:82-91 | that implication holds for all timings if and only if skew + delay is at most 1319001 ms |
| `Lifeline.NoRefreshIsRefused` | apps/api/src/modules/auth/handlers.ts:361-398 | for a client that refreshes when due, one request at a time, no refresh is refused whatever else the server does |
| `EndToEnd.NotDueWhileResuming` | apps/api/src/modules/auth/handlers.ts:50-55 | the token a refresh brings is not due while its waiters resume, by the way it is signed and the bounds on skew and lag |
| `EndToEnd.StepTogether` | packages/auth/expo/src/api.ts:116-184 | every move of the joint world keeps the job-queue client in step with the reduced one, dispatching where it asks and storing where it receives |
| `EndToEnd.EveryProactiveRefreshSucceeds` | packages/auth/expo/src/api.ts:116-184 | in every life of the job-queue client against the interleaving server no refresh call is answered with an error, at most one is outstanding, the client is never logged out, and with none outstanding the stored refresh token is that of its own unrevoked row |
| `EndToEnd.SessionIsOneRow` | apps/api/src/modules/auth/handlers.ts:387-394 | once signed in the client stays signed in, and its session is one row for the rest of its life |
| `EndToEnd.RestartStep` | packages/auth/expo/src/store.ts:45-54 | a restart with the persisted store while no refresh is outstanding keeps client and session together |
| `FullLife.ARefreshIsLived` | packages/auth/expo/src/api.ts:116-184 | a life from an empty server: signup, a due request 27 minutes later, the refresh served, the waiter sent with the new token |
| `ClientRuns.StepKeeps` | packages/auth/expo/src/api.ts:58-184 | every step keeps each call at one place: in the queue, on the wire, or among the waiters of one pending promise |
| `ClientRuns.LinkedStep` | packages/auth/expo/src/api.ts:126-138 | every step keeps each refresh call unsettled exactly while its own promise is pending, with a waiter |
| `Attended.AttendedStep` | packages/auth/expo/src/api.ts:116-184 | every step keeps a job in the queue for each call that is to be sent or answered |
| `ClientRuns.RetriesEndAndNoRefreshWaitsForItself` | packages/auth/expo/src/api.ts:58-77 | a call is dispatched at most twice, twice only as the retry of a private call; refresh and logout calls never wait for a refresh |
| `ClientRuns.LogoutSchedulesNoLogout` | packages/auth/expo/src/api.ts:202-217 | an answered or failed logout clears the store and schedules no logout |
| `Logouts.TokenlessRequestLogsOut` | packages/auth/expo/src/api.ts:116-148 | a private request without an access token goes out unchanged and schedules a logout, pending in every run until the store is signed out; with a token that is not due nothing is scheduled |
| `Logouts.PendingUntilSignedOut` | packages/auth/expo/src/api.ts:143-217 | a scheduled, queued or outstanding logout stays pending in every run until the store is signed out |
| `Flight.GuardedMeansSingleFlight` | packages/auth/expo/src/api.ts:15-16 | in every run, failures, logouts and sign-ins included, in which no waiter of a fulfilled promise resumes over a pending one, at most one refresh call is outstanding and refreshPromise holds its promise |
| `Flight.BrokenGuardBreaksSingleFlight` | packages/auth/expo/src/api.ts:64-70 | from a store with both tokens or none, a run about to break that guard for the first time can be continued to two outstanding refresh calls |
| `LateJoin.LateJoinBreaksSingleFlight` | packages/auth/expo/src/api.ts:126-132 | a run from a fresh start, with tokens as the endpoint signs them, in which a late join leads to two outstanding refreshes |
| `FailedRefresh.LostForever` | packages/auth/expo/src/api.ts:64-76 | from a lost state no run makes a refresh call again, logouts and sign-ins included |
| `FailedRefresh.NeverAgainExactly` | packages/auth/expo/src/api.ts:64-76 | in every reachable state no refresh call is ever made again if and only if the stated condition on promise, waiters and outstanding calls holds |
| `FailedRefresh.FailureIsFinalExactly` | packages/auth/expo/src/api.ts:181-183 | a refresh that fails on the wire is the last one for ever if and only if that condition holds when it fails |
| `FailedRefresh.TokenlessIsFinalExactly` | packages/auth/expo/src/api.ts:169-171 | a refresh that fails for want of a token is followed by none for ever if and only if no waiter of a fulfilled promise is queued and every outstanding call has its error answer queued |
| `FailedRefresh.OnlyLateAnswersAreTokenless` | packages/auth/expo/src/api.ts:116-147 | a store without a refresh token has no access token either, so only a late EXPIRED_TOKEN answer starts a refresh without one |
| `FailedRefresh.GuardedFailureIsTheLastRefresh` | packages/auth/expo/src/api.ts:166-183 | under the guard of single flight a failure on the wire is always final, and a failure for want of a token exactly if no waiter of a fulfilled promise is queued |
| `LateJoin.LostIsReachable` | packages/auth/expo/src/api.ts:128-138 | a client that never refreshes again, within five events of a fresh start |
| `LateJoin.FailedRefreshNeedNotStick` | packages/auth/expo/src/api.ts:64-76 | a run in which a refresh fails and a later request makes a refresh call all the same |
| `LateJoin.OlderFailureIsFinalToo` | packages/auth/expo/src/api.ts:64-76 | a run in which the later failure of an unprotected refresh is final |
| `LateJoin.QueuedFailuresAreFinal` | packages/auth/expo/src/api.ts:64-76 | a run in which a failure is final although another refresh is still outstanding, its error answer queued |
| `LateJoin.TokenlessFailureIsFinal` | packages/auth/expo/src/api.ts:169-171 | a run from a fresh signed-in start in which a refresh without a token is final and no refresh call was ever made |
| `SingleFlight.AtMostOneRefreshInFlight` | packages/auth/expo/src/api.ts:116-142 | in every calm run one refresh at most is outstanding, waiters send the token it brought, and refreshPromise is null once they have resumed |
| `SingleFlight.ProactiveRunsAreCalm` | packages/auth/expo/src/api.ts:124-138 | runs of proactive requests whose refreshes succeed with tokens not yet due are calm |
| `SingleFlight.SingleFlightOfProactiveRequests` | packages/auth/expo/src/api.ts:15-16 | so in every such run one refresh at most is outstanding, waiters send the token it brought, and refreshPromise is null once they have resumed |
| `ApiClient.Api.BeginRefresh` | packages/auth/expo/src/api.ts:166-176 | a new promise becomes the guarded one; exactly one refresh call, with the stored token, is added if there is a token, else the promise is rejected and a logout scheduled; the bookkeeping is kept |
| `ApiClient.Api.AwaitRefresh` | packages/auth/expo/src/api.ts:126-132 | the call waits for the one guarded promise, registered or queued according to its state; no second refresh is started while there is one; the bookkeeping is kept |
| `ApiClient.Api.RequestInterceptor` | packages/auth/expo/src/api.ts:116-154 | without an access token a private request leaves unchanged and one logout is scheduled; with one not due it leaves with it and none is; with a due one it waits; others leave unchanged; the bookkeeping is kept |
| `ApiClient.Api.SettlePromise` | packages/auth/expo/src/api.ts:166-184 | the loop over the reactions queues every waiter once, in order, and changes nothing else |
| `ApiClient.Api.Fails` | packages/auth/expo/src/api.ts:181-183 | a failed call is settled, a refresh call rejects its promise, a logout clears the store all the same; the bookkeeping is kept |
| `ApiClient.Api.ResponseInterceptor` | packages/auth/expo/src/api.ts:34-87 | only the first EXPIRED_TOKEN keeps a call alive, INVALID_TOKEN and INVALID_REFRESH_TOKEN schedule a logout, everything else settles the call; the bookkeeping is kept |
| `ApiClient.Api.ResumeWaiter` | packages/auth/expo/src/api.ts:69-76 | on success the variable is reset and the request goes on with the stored token; on failure the variable stays and the request fails; the bookkeeping is kept |
| `ApiClient.Api.StartLogOut` | packages/auth/expo/src/api.ts:202-217 | a logout call exactly if there is a token to revoke, else the store is cleared at once; no timer is set; the bookkeeping is kept |
| `ApiClient.Api.Turn` | packages/auth/expo/src/api.ts:116-217 | any queued job can be run; afterwards no call has been dispatched more than twice, no refresh or logout call waits, and under the guard at most one refresh is outstanding |
| `ApiClient.Api.KeptByAllCalls` | packages/auth/expo/src/api.ts:15-16 | what holds of the object after any sequence of its events: bookkeeping, two dispatches, single flight under the guard |
| `ApiClient.Api.Request` | packages/auth/expo/src/api.ts:116-121 | issuing a request keeps all of that |
| `ApiClient.Api.Arrive` | packages/auth/expo/src/api.ts:157-164 | so does an arriving response |
| `ApiClient.Api.TimerFires` | packages/auth/expo/src/api.ts:143-147 | so does a logout timer that fires |
| `ApiClient.Api.UserLeaves` | apps/mobile/src/app/(tabs)/settings/index.tsx:7-9 | so does the user's own logout |
| `ApiClient.Api.SignedIn` | packages/auth/expo/src/service.ts:41-46 | so does a successful sign-in |
| `Generators.PaddedTailIsLowDigits` | apps/api/src/modules/auth/handlers.ts:73-74 | toString(36), padStart and slice give the w low base-36 digits of any number |
| `Generators.GenerateRefreshToken` | apps/api/src/modules/auth/handlers.ts:62-75 | for all 2^128 inputs the token's value is the big-endian value modulo 36^24, and the schema returns it unchanged |
| `Generators.LowDigitsPassTheSchema` | packages/schemas/src/primitives.ts:49-54 | 24 low digits pass the refresh-token schema unchanged |
| `Generators.EveryTokenHasFifteenOrSixteenPreimages` | apps/api/src/modules/auth/handlers.ts:62-75 | every 24-character base-36 string comes from exactly the 15 or 16 distinct listed byte strings, 16 on the stated low end |
| `Generators.GenerateOtp` | apps/api/src/modules/auth/handlers.ts:35-47 | the loop returns the first six bytes below 250 modulo 10, stops right after the sixth, and its result passes the schema |
| `Generators.CodesPassTheSchema` | packages/schemas/src/primitives.ts:17-21 | six printed digits pass the OTP schema unchanged |
| `Generators.EveryCodeIsEquallyLikely` | apps/api/src/modules/auth/handlers.ts:33-44 | every code of n digits comes from exactly 25^n distinct accepted byte strings |
| `Images.ImageUpload.HasUnsavedChanges` | packages/utils/expo/src/hooks/use-image-upload.ts:93-117 | the staged check says whether the initial list is non-empty and differs from the current one, duplicates included |
| `Images.ImageUpload.UploadImage` | packages/utils/expo/src/hooks/use-image-upload.ts:271-323 | the uploading and uploaded sets after one upload, and the error it reports |
| `Images.ImageUpload.UploadPending` | packages/utils/expo/src/hooks/use-image-upload.ts:326-364 | uploads in order up to the first failure; publishes the first-match list or nothing |
| `Images.ImageUpload.UploadAndGetImageIds` | packages/utils/expo/src/hooks/use-image-upload.ts:367-398 | publishes both lists and returns the ids; without duplicate previews the result and both lists are the in-order replacement |
| `Images.BothReplacementsAreInOrder` | packages/utils/expo/src/hooks/use-image-upload.ts:346-387 | duplicate-free previews and non-empty ids make both algorithms put the k-th id for the k-th preview |
| `Images.ReplacementsAgreeExactlyWithoutDuplicates` | packages/utils/expo/src/hooks/use-image-upload.ts:346-387 | for new distinct ids the lists agree, with each other and with the reference, if and only if previews are duplicate-free and no id is empty |
| `Images.NoPreviewLeft` | packages/utils/expo/src/hooks/use-image-upload.ts:346-393 | same length and order, uploaded entries untouched, no preview left |
| `ImageUrl.SearchOfPrinted` | packages/utils/expo/src/utils/image-url.ts:66-77 | what the leftmost greedy match finds in a printed pathname, whatever underscores the base path holds |
| `ImageUrl.MatchesAvoidUnderscores` | packages/utils/expo/src/utils/image-url.ts:71-73 | whatever is extracted is non-empty and has no underscore |
| `ImageUrl.PrintThenExtract` | packages/utils/expo/src/utils/image-url.ts:19-77 | printing then extracting gives the id, or path/id, exactly under the stated conditions, for every size |
| `ImageUrl.SizesPrintTheirLetter` | packages/utils/expo/src/utils/image-url.ts:19-38 | each size prints its own suffix, the given base URL goes before the configured one, and without both there is an error |

## Left out

- HTTP, Hono routing, Zod and Drizzle internals: validated inputs and atomic statements are taken as given.
- JWT signing and verification, JWKS fetching and the Google and Apple SDKs: a verified token is its claims.
- SMS and e-mail sending, templates and address parsing: I/O or easy members.
- AWS Signature V4, image resizing, pickers, secure storage, logger and device information: platform plumbing.
- React components, navigation and signup screens: user interface with finite, easy state.
- The wording of conflict messages, and the letter case of OAuth e-mails against lower-cased signup e-mails.
- requireAuth's missing-header and expired-token answers: they precede the statement and follow from JWT verification.
- A throw of a route handler inside `next()`, which the middleware maps to INVALID_TOKEN: the routes are not modelled.
- The await of the Google sign-out inside `logOut`: it is merged with the step that sends the logout request.
- Calls of the exported `refreshTokens` by screens: on the client every refresh starts in an interceptor; sign-ins are offered to signed-out users only.
- Rehydration of the store: a run starts with any persisted store.
- `EndToEnd.EveryProactiveRefreshSucceeds`: reactive refreshes (after EXPIRED_TOKEN) are outside it; a late one can meet the cooldown of a refresh just made.
- `Worker.AuthWorker` serves one request after another; interleaving is the subject of the machine its methods are runs of.
- `Images.ImageUpload` is one render of the hook: the effect that records the first non-empty list is a constructor argument.
- `ImageUrl.ExtractImageId`: URL normalisation (percent-encoding, dot segments, queries, authorities the parser rejects) is outside its precondition.
- `getImageUrls`, `getDisplayImageUrl`, `clearError`, `clearUI`, `handleOtpError` beyond its mapping: single-branch members.
