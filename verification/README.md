# Sessions, tokens and accounts, verified

A Dafny model of the authentication core: refresh-token rotation, revocation and the session cap, the
unit of work and the denylist that hang off them, external sign-in, password change and lockout, email
verification, single-use nonces and the cleanup job. All of it works on the same tables, and most of its
promises are about several requests at once, so the model has two layers that are proved to agree.

## How the model is laid out

**Statements that interleave.** `ReadCommitted` cuts the session transactions (rotation, login,
revocation, password change) into their SQL statements and runs any number of them together, with aborts,
the effects that follow a commit, the passing of time and cleanup. A row has its committed version and at
most one uncommitted version; the transaction that wrote it holds the row's lock. A statement sees
committed rows plus its own writes; an update of a locked row waits and re-tests its condition. A
multi-row update fixes its rows first and takes them one at a time, in any order. The relation
`stored.session` is read as a statement of its own, after the token row, because a nested select is more
than one query; this only adds interleavings. `Evolution`, `Assertions`, `Rows`, `OwnSteps` and `Safety`
build the invariant of every run; `Guarantees`, `Families`, `SessionCap`, `DoubleSubmit` and `DoubleSubmitEnds`
draw the theorems from it. `Overlaps`, `LooseTokens` and `Retirement` say exactly what overlapping revocations can do
to each other and to a session's tokens, and `Retention` what cleanup can do to a rotation;
`OverlappingRevocations` and `LooseTokenRuns` hold the runs that show the first two happening.
`IdentityRace` and `SharedEmail` treat external sign-in and its two unique indexes in the same way,
`GoogleNonce` the nonces.

**Whole transactions.** `AuthDb` says what each transaction does to the tables when nothing overlaps it.
The classes (`SessionService`, `PasswordService`, `IdentityService`, `AuthService`,
`PasswordAuthenticator`, `GoogleNonceService`, `GoogleAuthenticator`, `CleanupService`, `JwtAuthGuard`,
with `Database`, `Work` and `SessionDenylist` of `UnitOfWork`) follow the source statement by statement
and are proved to meet it, for commits and for rollbacks. `Runs` executes any sequence of whole
transactions on one clock; `Forward`, `TidySessions`, `PasswordCollapse`, `Accounts`, `Verification`,
`CleanupSimulation` and `CleanupInvisible` prove what every such run keeps. `SessionRows` and `AccountRows` say
by the columns of the rows alone, without the functions of `AuthDb`, what each operation answers and writes, and
the contracts of the classes repeat it for the database they work on; `Credentials` draws from it which hash
opens an account, and `SessionRuns` what a logout ends for good. `Lockout` is about histories of password
attempts, `LockoutRuns` proves that every run with such attempts in between is one, and `LockoutRace` takes the
attempts apart into steps that overlap.

**The two agree.** `RunningAlone` proves that a transaction of `ReadCommitted` whose statements run with
nothing else in flight commits exactly the tables that `AuthDb` gives for it, with the same verdict.
`SignInAlone` proves the same of a sign-in of `IdentityRace`.

## Assumptions

- One monotone clock in milliseconds; a request reads it once, but for a failed password login, which reads
  it again when it sets a lock. Hashing is injective, so a raw token and
  its hash are one identifier, and an email is identified with its address.
- Random values are fresh: a new token, session or nonce id was never used before, deleted rows included.
- Settings are what the environment schema allows: positive, with the grace window and the retentions
  possibly zero.
- What the environment decides is a parameter: whether a transaction commits, which Redis commands get
  through, how the database orders equal rows, what argon2 and the Google verifier answer.
- In a class method, a branch that only a rival transaction can reach (losing the conditional update, the
  unique violation) is left to the interleaved model, where it is reachable.

## What the code does differently from what one might read into it

- `cleanup.service.ts:103` says that rows remain when the batch limit is reached. They do, except when the
  backlog was exactly one run's quota (`WarningMeansRowsRemain`).
- `session.service.ts:446` says that the returned ids are the sessions this call revoked, and one may think
  that the first revocation time is kept. Two calls both return a session exactly when both were in flight
  with it selected (`SharedRevocationsOverlapped`), and the recorded time stands exactly unless such a call
  commits later with another clock reading (`RecordStandsUnlessOvertaken`), because the update at line 469
  does not test `revokedAt`. Without such an overlap both hold (`RevokedSessionsAreNotReturned`,
  `SoleRevocationsAreFinal`). With one, both can fail (`LaterRevocationOverwrites`). That `revokedAt` never
  returns to null holds always (`CommittedRowsAreMonotone`).
- A revoked session may hold an unrevoked token, by two routes. A rotation consumes its token without testing
  the session again (`session.service.ts:239`; `RotationLeavesALooseToken`), and a password change checks its
  session before its transaction and reissues inside it (`PasswordChangeLeavesALooseToken`). Either way the
  transaction that minted the token overlapped every revocation of the session
  (`LooseTokensOverlapTheRevocation`), and its row was uncommitted whenever a committed transaction selected the
  session's tokens, which is exactly the condition (`LooseExactlyWhenTooLate`). With whole transactions only the
  second route is left, and the property holds exactly when no password change commits for a session revoked
  after its check (`TidyExactlyWhenChecksHold`). Such a token is still refused (`RevokedSessionsNeverRotate`), so the
  theorems speak of usable tokens: token and session both unrevoked and unexpired.
- Cleanup can delete the presented row while its rotation is in flight. The rotation then takes the branch at
  `session.service.ts:250` and revokes the family with no `usedAt`, although nobody reused anything. It takes a
  rotation that outlasts the retention, which may be zero, by two milliseconds
  (`NullReuseExactlyBeyondRetention`).
- The resend cooldown survives cleanup exactly when it is at most the token lifetime plus the retention
  (`CooldownHoldsExactlyWhenRetained`); a longer one is forgotten with the row.
- The unique-violation retry of an external sign-in looks up its own identity only, so the loser of a race
  over an email surfaces the error when its identity is still not linked (`ViolationSurfacesWhen`). Sign-ins
  that share one verified email can get there exactly when the email has no account yet and at least two of
  the requested identities are not linked (`ViolationsSurfaceExactly`).

## Model

| member | source | states |
|---|---|---|
| `Guarantees.ReuseIsExact` | src/auth/session/session.service.ts:226-257 | Over every interleaving, past the liveness checks and as long as the row is not deleted, a rotation ends in TOKEN_REUSE if and only if the committed `usedAt` is more than the grace before the request's clock, and it reports that `usedAt`; the branch "winner has no usedAt" is never taken |
| `Retention.NullReuseExactlyBeyondRetention` | src/auth/session/session.service.ts:244-256 | The branch "winner has no usedAt" needs the row deleted in between: with rotations in flight for at most a given limit no run takes it, if and only if the limit is at most the retention plus one millisecond |
| `Retention.ReuseIsExactWithinRetention` | src/auth/session/session.service.ts:226-257 | For rotations within that limit TOKEN_REUSE is exact whether or not the row has been deleted |
| `Guarantees.TheftKillsTheLineage` | src/auth/session/session.service.ts:551-586 | After a committed TOKEN_REUSE no token with any ancestor in that session is accepted by a rotation whose first read comes later, in any run |
| `Families.ReuseStaysInTheFamily` | src/auth/session/session.service.ts:563-568 | Over every interleaving, each session that a committed TOKEN_REUSE revoked has the user and the family of the session whose token was presented |
| `Families.ReuseTakesTheFamily` | src/auth/session/session.service.ts:551-568 | Over every interleaving, each session of that family that was there before the rotation read anything is revoked once TOKEN_REUSE has committed |
| `Guarantees.RevokedSessionsNeverRotate` | src/auth/session/session.service.ts:191-193 | A rotation whose first read follows a committed revocation of its session is never ROTATED |
| `Guarantees.RotationRespectsLifetimes` | src/auth/session/session.service.ts:195-215 | Every accepted rotation comes before login time plus absoluteTtl and before the presented token's mint time plus refreshTtl |
| `Guarantees.TokensDieWithTheirSession` | src/auth/session/session.service.ts:519-537 | Every committed token was unexpired when minted and expires no later than its session, whose expiry is login time plus absoluteTtl |
| `Guarantees.DenylistAgrees` | src/common/prisma/unit-of-work.ts:25-45 | In every run with arbitrary aborts a denylisted session's revocation committed; a returned unit of work has denylisted all it revoked; when all have returned the denylist is exactly the revoked sessions |
| `Guarantees.RunIsAccounted` | src/auth/session/session.service.ts:439-482 | Every committed revocation, and every uncommitted one, was queued for the denylist by the transaction that wrote it: revokeSessions is the only writer |
| `Evolution.CommittedRowsAreMonotone` | src/auth/session/session.service.ts:239-242 | Between any two moments of a run `usedAt` and `revokedAt` of a token are set at most once and kept, and a session's `revokedAt` never returns to null |
| `Overlaps.SharedRevocationsOverlapped` | src/auth/session/session.service.ts:446-482 | Over every run, two committed transactions both return a session if and only if at some moment both were in flight with it selected |
| `Overlaps.RevokedSessionsAreNotReturned` | src/auth/session/session.service.ts:459-467 | A transaction that has not selected a session by the time its revocation has committed never returns it, at any later point of any run |
| `Overlaps.RecordStandsUnlessOvertaken` | src/auth/session/session.service.ts:469-472 | From any moment at which a session is revoked, the recorded time stands if and only if no transaction that held the session in flight then commits with another clock reading |
| `Overlaps.SoleRevocationsAreFinal` | src/auth/session/session.service.ts:469-472 | If no two transactions in flight ever have a session selected together, then once it is revoked its time and reason never change |
| `Overlaps.UnheldRecordIsFinal` | src/auth/session/session.service.ts:469-472 | Once a session is revoked and nobody in flight has it selected, its time and reason are final |
| `OverlappingRevocations.LaterRevocationOverwrites` | src/auth/session/session.service.ts:469-472 | That the condition is needed: a reachable run in which two overlapping revocations both return one session and the later commit overwrites the time and reason of the earlier |
| `LooseTokens.LooseTokensOverlapTheRevocation` | src/auth/session/session.service.ts:239-242 | Over every run, a committed token of a revoked session is unrevoked only if the transaction that minted it was in flight together with each transaction that committed a revocation of the session, and at least one did |
| `Retirement.LooseExactlyWhenTooLate` | src/auth/session/session.service.ts:540-549 | Over every run, a committed token of a revoked session is unrevoked if and only if its row was uncommitted each time a committed transaction selected the live tokens of the session; every committed revocation of it made that selection |
| `Retirement.RetiredExactlyWhenFound` | src/auth/session/session.service.ts:540-549 | Over every run, a committed and undeleted token is revoked if and only if some committed transaction found its row committed when it selected the tokens of its session |
| `LooseTokenRuns.RotationLeavesALooseToken` | src/auth/session/session.service.ts:239-274 | A reachable run that ends with such a token: the consuming update does not test the session again |
| `LooseTokenRuns.PasswordChangeLeavesALooseToken` | src/auth/password/password.service.ts:34-125 | A second route to one: the password change checks its session before its transaction and reissues inside it |
| `SessionCap.SoftCapIsBounded` | src/auth/session/session.service.ts:42-97 | If at most k logins of one user are ever in flight together, the user never has more than maxActivePerUser - 1 + k unrevoked, unexpired sessions, under every interleaving |
| `DoubleSubmit.DoubleSubmitIsBenign` | src/auth/session/session.service.ts:217-264 | For any number of rotations presenting one fresh token within the grace window, every interleaving accepts all that commit, with distinct children, exactly one consumer, and nothing revoked |
| `DoubleSubmit.SceneNeverStalls` | src/auth/session/session.service.ts:236-242 | In that scene some rotation can always run its next statement or commit: waiting for row locks never deadlocks |
| `DoubleSubmit.StatementsDescend` | src/auth/session/session.service.ts:158-307 | Each statement brings its rotation strictly closer to its commit |
| `DoubleSubmitEnds.EveryRotationCanCommit` | src/auth/session/session.service.ts:158-307 | From every state of that scene the run has a continuation in which all rotations in flight commit, each accepted with a live child of its own |
| `DoubleSubmitEnds.SchedulesAreFinite` | src/auth/session/session.service.ts:158-307 | However the rotations are scheduled, a stretch in which only they move is at most as long as the statements and commits they had left, and loses none of them |
| `SharedEmail.ViolationsSurfaceExactly` | src/auth/identity/identity.service.ts:50-64 | For sign-ins that share one verified email, from any quiet state: no run surfaces a unique violation if and only if the email has its account already or the requested identities that are not linked yet are one and the same |
| `SharedEmail.CollisionsSurface` | prisma/schema.prisma:66 | Any two distinct unlinked identities on any email without an account have a run that surfaces one |
| `IdentityRace.ResolutionIsAFunction` | src/auth/identity/identity.service.ts:38-43 | Over every interleaving all calls that return for one (provider, providerUserId) return the same user, forever, whatever email they carry |
| `IdentityRace.ResolvedWereVetted` | src/auth/identity/identity.service.ts:99-134 | Over every interleaving, with accounts suspended and restored at any time, a call that resolved to a user found that user usable, or created them, at a moment at which it was in flight itself |
| `IdentityRace.LookupAnswers` | src/auth/identity/identity.service.ts:67-107 | A lookup, the one after a lost race included, resolves to a user if and only if the identity is linked to that user and the user is usable; it is refused as unavailable if and only if linked to an unusable one |
| `IdentityRace.FirstSignInsNeverCollide` | src/auth/identity/identity.service.ts:50-64 | Concurrent first sign-ins of one identity and email, on an absent or usable account with no other writer, all resolve to the same user; none surfaces a unique violation |
| `IdentityRace.IdentitiesAreKept` | prisma/schema.prisma:104 | A committed identity keeps its user for the rest of the run |
| `IdentityRace.ViolationSurfacesWhen` | src/auth/identity/identity.service.ts:57-63 | In any run a statement surfaces a unique violation if and only if it is the second lookup of an identity that is still not linked, or a registration of a taken email; the email is taken in both cases |
| `GoogleNonce.NoncesAreSingleUse` | src/auth/google/google-nonce.service.ts:38-52 | Over every interleaving of issues, sign-ins and cleanup an issued nonce lets at most one sign-in past, with a clock reading before its expiry, and an unissued one nobody |
| `GoogleNonce.UpdatePassesExactly` | src/auth/google/google-nonce.service.ts:38-52 | Over every interleaving, the conditional update lets a sign-in pass if and only if its nonce was issued, is neither spent nor deleted, and has not expired at the clock the sign-in read |
| `GoogleNonce.EnforcementDecides` | src/auth/google/google-authenticator.service.ts:128-148 | A token without a nonce is turned away if and only if one is required; one with a nonce always has it checked |
| `GoogleNonce.DeletionNeverReopens` | src/maintenance/cleanup.service.ts:56-62 | Once a nonce is spent or its row is deleted, no further sign-in ever passes with it |
| `GoogleNonce.RequiredMeansSpent` | src/auth/google/google-authenticator.service.ts:128-148 | With nonces required, every sign-in that passes has spent one |
| `RunningAlone.LoneRotationIsWhole` | src/auth/session/session.service.ts:158-307 | Interleaved model and whole-transaction model agree on rotation: alone, its statements commit the same tables and verdict |
| `RunningAlone.LoneLoginIsWhole` | src/auth/session/session.service.ts:36-117 | The two models agree on login |
| `RunningAlone.LoneRevocationIsWhole` | src/auth/session/session.service.ts:450-482 | The two models agree on revocation, in whatever order the rows are visited |
| `RunningAlone.LonePasswordChangeIsWhole` | src/auth/password/password.service.ts:34-147 | The two models agree on password change, refusals included |
| `RunningAlone.FutureIsFixed` | src/auth/session/session.service.ts:450-482 | While a transaction runs alone, each statement leaves what remains to be done, as a function of the tables it sees, unchanged |
| `SignInAlone.LoneSignInIsWhole` | src/auth/identity/identity.service.ts:34-65 | The two models agree on external sign-in: alone, at most five statements commit the same tables and return the same outcome |
| `PasswordCollapse.PasswordChangeCollapses` | src/auth/password/password.service.ts:99-130 | Afterwards the user's usable tokens are contained in the reissued one, which is usable if and only if the caller's session was still unrevoked and until its expiry |
| `PasswordCollapse.OldTokensStayDead` | src/auth/session/session.service.ts:484-502 | Every token from before the change is refused at every later moment of every run, and never with TOKEN_REUSE |
| `PasswordCollapse.ChangeTouchesOnlyTheUser` | src/auth/password/password.service.ts:99-130 | The new hash is set and the lockout cleared for this user only; every other session of theirs ends revoked, and nobody else's changes |
| `AccountRows.ChangePasswordRows` | src/auth/password/password.service.ts:30-147 | A change is accepted if and only if the session runs, the account is open and has a password, the current password is right and the new one differs; it then stores the new hash, ends the user's other sessions and all their tokens but one new one, and writes nothing otherwise; each refusal if and only if its reason |
| `Credentials.NewPasswordStands` | src/auth/password/password.service.ts:96-110 | At every later moment of every run of operations and login attempts the stored hash is the one the change was given, until the user's password is written again |
| `Credentials.PasswordStands` | src/auth/password/password-authenticator.service.ts:183-198 | Whatever else happens to an account and around it, its hash and the time it was set stay until an operation writes them |
| `Credentials.TransactSetsPasswords` | src/auth/password/password.service.ts:102-110 | Only a password change and a takeover of an unverified address write a password: the new hash, or none; every other user's stays |
| `TidySessions.TidyExactlyWhenChecksHold` | src/auth/password/password.service.ts:34-125 | Over every run of whole transactions, revoked sessions have only revoked tokens at every moment if and only if each committed password change found its session unrevoked |
| `TidySessions.StepIsTidy` | src/auth/session/session.service.ts:540-549 | Each single transaction keeps that property if and only if it is not a password change for an already revoked session |
| `Forward.RunIsForward` | src/auth/session/session.service.ts:450-482 | Over every run of whole transactions sessions are never lost or revived and keep their first revocation, tokens are consumed and revoked once, and no token outlives its session |
| `Forward.TransactIsForward` | src/auth/session/session.service.ts:513-549 | Each single transaction moves the session tables forward only and mints only tokens that end with their session |
| `Accounts.AccountsStayOk` | src/auth/identity/identity.service.ts:148-173 | In every run each user has exactly one email, a primary one, that is never unverified again, and a linked identity means it is verified |
| `Accounts.LinkedUsersAreVerified` | src/auth/identity/identity.service.ts:45-48 | In every reachable state a user holding an identity has one email, primary and verified |
| `Accounts.ResolvedForGood` | src/auth/identity/identity.service.ts:38-43 | After an external sign-in the identity resolves to the same user at every later moment of every run, whatever email it then carries, or is refused because that account is not open |
| `Accounts.LinkingClosesPriorAccess` | src/auth/identity/identity.service.ts:212-242 | Linking to a never-verified account leaves no password, no unrevoked session and no live verification token; linking to a verified one leaves users, emails, sessions and tokens as they were |
| `AccountRows.SignInRows` | src/auth/identity/identity.service.ts:34-254 | Which sign-in resolves to whom, is refused as unverified or as unavailable, each if and only if, and what it writes: a new account, a link, or a link that verifies the address and ends password, sessions and verification links; a resolved identity is linked to an active account that is not deleted |
| `Accounts.ConfirmedStaysVerified` | src/auth/auth.service.ts:486-494 | After an accepted verification link its address is verified, for the same user, at every later moment of every run |
| `AccountRows.ConfirmationRows` | src/auth/auth.service.ts:203-225 | A link confirms if and only if it is an unused, unexpired verification link of an address that has a row; then the address is verified at that time, the link is used, one event is written and nothing else changes; otherwise nothing |
| `AccountRows.RegistrationRows` | src/auth/auth.service.ts:280-300 | A registration stores an active account with the given hash and its time, one unverified primary address and one link with the configured lifetime, or nothing for a taken address |
| `CleanupInvisible.CleanupIsInvisible` | src/maintenance/cleanup.service.ts:38-62 | Cleanup passes inserted anywhere into any run change no reply: no rotation verdict, theft alarm, sign-in, resend or verification; the usable tokens at the end are the same |
| `CleanupInvisible.RunsSimulate` | src/maintenance/cleanup.service.ts:14-26 | The simulation behind it: the two runs differ only in expired rows, at every step |
| `CleanupInvisible.RunsFromTheStartAreHealthy` | src/maintenance/cleanup.service.ts:14-26 | Every run from empty tables reaches only states that meet the hypotheses of the theorems on whole runs |
| `CleanupInvisible.CookieLogoutSeesCleanup` | src/auth/session/session.service.ts:387-398 | Logout by refresh cookie is the exception, exactly: a cleanup pass changes the sessions it leaves if and only if the pass deletes the row of the cookie while its session is unrevoked |
| `CleanupInvisible.CooldownsAgree` | src/auth/auth.service.ts:353-399 | Cleanup lets no resend through that the deleted rows would have held back |
| `CleanupSimulation.RotationsAgree` | src/auth/session/session.service.ts:183-229 | Rotation answers alike on two databases that differ only in expired rows, because expiry is tested before reuse |
| `CleanupSimulation.LoginsAgree` | src/auth/session/session.service.ts:39-64 | Login evicts and inserts alike on them, because only unexpired sessions count |
| `CleanupSimulation.RevocationsAgree` | src/auth/session/session.service.ts:450-482 | Every revocation keeps them alike |
| `CleanupSimulation.CleanPassRows` | src/maintenance/cleanup.service.ts:35-62 | A pass deletes, of the rows it reaches, exactly those that expired more than their own table's retention ago |
| `Verification.TokensAreSpaced` | src/auth/auth.service.ts:353-399 | Over any run of everything the model has, cleanup included, consecutive verification tokens of one address are at least the cooldown apart |
| `Verification.WindowHoldsFew` | src/auth/auth.service.ts:383-394 | A window of length W holds at most W / cooldown + 1 tokens of one address |
| `Verification.AtMostOneLiveToken` | src/auth/auth.service.ts:313-328 | At any time at most one token of an address is both unused and unexpired |
| `Verification.LinksAreSingleUse` | src/auth/auth.service.ts:439-483 | A verification link that was accepted is never accepted again, at any later point of any run |
| `Verification.CooldownHoldsExactlyWhenRetained` | src/maintenance/cleanup.service.ts:48-54 | The spacing holds in every run if and only if the cooldown is at most token lifetime plus retention |
| `Verification.ForgottenCooldown` | src/maintenance/cleanup.service.ts:46-54 | Otherwise registering, waiting, cleaning and resending is a run that breaks it |
| `Verification.TransactOnMail` | src/auth/auth.service.ts:404-418 | Every operation either leaves verification tokens to age or replaces all of one address, past its cooldown, by one |
| `AccountRows.ResendRows` | src/auth/auth.service.ts:402-420 | A resend sends if and only if the address has an unverified row and no link of it is younger than the cooldown; then all its links end and one new one appears, and no other user token changes |
| `Lockout.LockoutBoundsTheRate` | src/auth/password/password-authenticator.service.ts:61-78 | With no successful login and no new credential in between, a counted failure that has max or more counted failures before it comes at least the lock duration after the first of them, when attempts follow one another |
| `LockoutRace.ParallelGuessesAreBounded` | src/auth/password/password-authenticator.service.ts:24-90 | With at most k overlapping attempts, in a stretch shorter than the lock duration without success or new credential, at most (k + 1)(max + k - 1) failures count, and at most max + k - 1 if it starts unlocked with nobody in flight |
| `LockoutRace.LoneAttemptIsWhole` | src/auth/password/password-authenticator.service.ts:24-90 | An attempt whose steps follow one another does to the row what the whole attempt does, with the same verdict |
| `LockoutRace.OutcomesAreVerified` | src/auth/password/password-authenticator.service.ts:32-81 | Over every run of overlapping attempts, an attempt that may succeed was verified with the right password and one that may count as a failure with a wrong one, against a row that was open, had a password and was not locked then |
| `LockoutRace.VerifyDecides` | src/auth/password/password-authenticator.service.ts:30-81 | Right if and only if the row it read may be tried and the password is right; wrong if and only if it may be tried and the password is wrong; over otherwise |
| `AccountRows.AttemptRows` | src/auth/password/password-authenticator.service.ts:24-90 | The right password, and only the right one, opens an account that is open, has a password and is not locked; a wrong one counts, from zero after a lock that is over, and locks at the maximum; each other refusal if and only if its reason, and nothing else is written |
| `Lockout.CountersStayOk` | src/auth/password/password-authenticator.service.ts:183-198 | In every history the counter stays in 0..max and equals max exactly while a lock is set |
| `Lockout.EventProgresses` | src/auth/password/password-authenticator.service.ts:68-78 | Each attempt after a failure counts on, or has set a lock that reaches past the lock duration, or comes after it |
| `LockoutRuns.RunsAreHistories` | src/auth/password/password-authenticator.service.ts:61-78 | Every run of the services, with password attempts anywhere in between, is a history as the rate bound takes it |
| `LockoutRuns.OnlyCredentialsClearTheLockout` | src/auth/password/password.service.ts:157-167 | Every operation leaves the lockout columns alone, except one that sets or removes a password, which clears those of that one user |
| `LockoutRuns.RunsKeepCounters` | src/auth/password/password-authenticator.service.ts:183-198 | At the end of every such run each counter is in 0..max and equals max exactly while a lock is set |
| `JwtAuthGuard.RevokedTokenWindow` | src/auth/session/session-denylist.service.ts:63-67 | A token minted no later than its session's denylist entry at w passes at t if and only if w + ttl <= t and t, in whole seconds, is before iat + ttl + 5 |
| `JwtAuthGuard.GapIsClosedExactlyAfterTolerance` | src/auth/session/token.service.ts:50-57 | It never passes again if and only if w is at least iat + 5 seconds |
| `CleanupService.WarningMeansRowsRemain` | src/maintenance/cleanup.service.ts:103-109 | After a full quota rows remain if and only if the backlog was not exactly the quota; after less, none remain |
| `CleanupService.DeletedRowsWereExpired` | src/maintenance/cleanup.service.ts:75-77 | A row goes only if it expired more than the retention ago; every other row stays as it was |
| `Safety.RunIsSafe` | src/auth/session/session.service.ts:149-307 | Every reachable state satisfies the full invariant: the per-statement assertions of every transaction in flight, what every committed result implies, lifetimes and lineages |
| `Assertions.AssertionsAreStable` | src/auth/session/session.service.ts:225-274 | No statement or commit of another transaction falsifies what a transaction knows between its own statements |
| `OwnSteps.OwnStepsKeepAssertions` | src/auth/session/session.service.ts:158-305 | Each statement of a rotation, login, revocation or password change establishes what its next statement relies on |
| `SessionCap.EvictionLeavesRoom` | src/auth/session/session.service.ts:57-64 | Evicting the head of the listing leaves at most maxActivePerUser - 1 of the sessions seen |
| `SessionCap.RunKeepsCap` | src/auth/session/session.service.ts:36-97 | Every run keeps the bookkeeping behind the cap: what each login saw, evicted and overlapped accounts for every session of the user |
| `SessionLaws.LoginKeepsTheCap` | src/auth/session/session.service.ts:42-97 | Without overlaps a login leaves exactly min(before + 1, maxActivePerUser) active sessions, its own among them |
| `SessionLaws.LoginEvictsTheOldest` | src/auth/session/session.service.ts:42-64 | No evicted session was used later than any that is kept |
| `SessionLaws.LogoutIsIdempotent` | src/auth/session/session.service.ts:335-379 | Logout ends exactly the one session and records it once; repeating it at any later time changes nothing |
| `SessionLaws.LogoutAllEndsEverySession` | src/auth/session/session.service.ts:404-437 | Logout-all leaves the user no unrevoked session and other users' sessions as they were |
| `SessionLaws.RevocationIsExact` | src/auth/session/session.service.ts:450-482 | Without overlaps exactly the matching active sessions end revoked, with their tokens; earlier revocations keep their time and everything else is untouched |
| `SessionRows.ReuseRevokesTheFamily` | src/auth/session/session.service.ts:551-586 | After TOKEN_REUSE exactly the sessions with the user and the family of the presented token's session that were not over end, at this time and for this reason, with their tokens; every other session and token is as it was, and no token of the family is usable at any time |
| `SessionRows.RotationAnswers` | src/auth/session/session.service.ts:183-215 | Which of the other refusals a known token gets, each if and only if: session over, session expired, user not active, token revoked, token expired, in this order |
| `SessionRows.ExpiredSessionsAreSwept` | src/auth/session/session.service.ts:195-200 | A known token of a session past its lifetime that is not over gets SESSION_EXPIRED, and the session ends as EXPIRED with its tokens; nothing else changes |
| `SessionRows.RotatedRows` | src/auth/session/session.service.ts:264-274 | The child of an accepted rotation expires at the earlier of its own lifetime and its session's end, and no other table is written |
| `SessionRows.LoginRows` | src/auth/session/session.service.ts:36-117 | A login ends the surplus of the listing with SESSION_LIMIT, adds its session and its token, and records the eviction if there was one and then the login; everything else is as it was |
| `SessionRows.RunningSessionsAreListed` | src/auth/session/session.service.ts:42-46 | What a login counts and may end is exactly the user's sessions that are neither over nor expired |
| `SessionRows.LogoutRows` | src/auth/session/session.service.ts:343-379 | Logout ends a session that was not over, with reason, time and event, and writes nothing otherwise |
| `SessionRows.LogoutAllRows` | src/auth/session/session.service.ts:404-437 | Logout-all ends exactly the user's sessions that were not over, with reason and time, and records it once with the initiating session, if there was any |
| `SessionRuns.LogoutIsForGood` | src/auth/session/session.service.ts:343-437 | After a logout, of one session, by cookie or of all, the session is over at every later moment of every run, at the time it first was, and every token of it is refused without a theft alarm |
| `SessionRuns.MintedTokensAreUsable` | src/auth/session/session.service.ts:36-117 | A login leaves its user an unused token that can be used at once, an accepted refresh one in the session it had with the presented token used, and a refused refresh none |
| `SessionService.SessionService.CreateSession` | src/auth/session/session.service.ts:25-139 | A login commits the evictions, its session, its first token and its event, or nothing; exactly the evicted sessions are denylisted after the commit |
| `SessionService.SessionService.CreateWithin` | src/auth/session/session.service.ts:36-117 | The body of that unit of work, with exactly the evicted sessions queued and the expiry of the token returned |
| `SessionService.SessionService.EvictLeastRecentlyUsed` | src/auth/session/session.service.ts:57-80 | The sessions sliced off the listing are revoked and queued, with one event if any was |
| `SessionService.SessionService.RotateRefreshToken` | src/auth/session/session.service.ts:149-333 | A rotation commits the tables and returns the verdict of the specification, rejections included; rolled back, it changes nothing and denylists nobody |
| `SessionService.SessionService.RotateWithin` | src/auth/session/session.service.ts:158-307 | The body of the rotation, check by check in the source's order, with exactly the sessions it revoked queued |
| `SessionService.SessionService.RevokeSession` | src/auth/session/session.service.ts:343-379 | Logout: revokes and records once, and is a no-op on an unknown or already revoked session |
| `SessionService.SessionService.RevokeSessionByRefreshToken` | src/auth/session/session.service.ts:387-398 | Logout by cookie is logout of the token's session, and nothing for an unknown token |
| `SessionService.SessionService.RevokeAllSessions` | src/auth/session/session.service.ts:404-437 | Logout-all revokes every active session of the user and returns how many |
| `SessionService.SessionService.RevokeSessions` | src/auth/session/session.service.ts:450-482 | Returns exactly the ids it revoked, writes exactly those sessions and their tokens, and queues them once |
| `SessionService.SessionService.ReissueRefreshToken` | src/auth/session/session.service.ts:494-502 | While the session lives the new token is accepted as a first use exactly before its expiry, and every other token of the session is refused as revoked |
| `SessionService.SessionService.CreateRefreshToken` | src/auth/session/session.service.ts:513-537 | The expiry is the earlier of the token lifetime and the session end, and while the session lives the token is accepted as a first use exactly before it |
| `SessionService.SessionService.RetireRefreshTokens` | src/auth/session/session.service.ts:540-549 | No token of the given sessions is left unrevoked, one revoked before keeps its time, and no other token and no consumption changes |
| `SessionService.SessionService.RevokeTokenFamily` | src/auth/session/session.service.ts:555-586 | Ends exactly the sessions of the same user and family that were not over, queues exactly those, and records the reuse |
| `PasswordService.PasswordService.ChangePassword` | src/auth/password/password.service.ts:30-147 | By the rows: an allowed change stores the new hash and its time, ends the user's other sessions and reissues one token, or fails as a whole; a refused one writes nothing and each refusal has its reason; the revoked sessions, and only they, are denylisted |
| `PasswordService.PasswordService.ReplacePassword` | src/auth/password/password.service.ts:101-146 | The unit of work of a password change, committed or rolled back as one |
| `PasswordService.PasswordService.RemovePassword` | src/auth/password/password.service.ts:157-167 | Afterwards no password login opens the account and no password change is accepted; whether it is usable stays, as does every other user |
| `IdentityService.IdentityService.ResolveExternalIdentity` | src/auth/identity/identity.service.ts:34-65 | By the rows: resolves to the linked user, the owner of the address or a new user, never to an account that is not open; refuses an unverified email and an unavailable account exactly then; writes what the rows ask for, or nothing if the transaction fails |
| `IdentityService.IdentityService.FindLinkedUser` | src/auth/identity/identity.service.ts:67-107 | Finds the identity's user whatever the profile's email, refuses one that is suspended or deleted, and reports whether the primary email is verified |
| `IdentityService.IdentityService.LinkOrCreate` | src/auth/identity/identity.service.ts:110-139 | Creates a user for an absent email, refuses an unusable account, links otherwise, in one unit of work |
| `IdentityService.IdentityService.LinkOrCreateWithin` | src/auth/identity/identity.service.ts:110-139 | The body of that unit of work, with exactly the sessions it revoked queued; an unusable account changes nothing |
| `IdentityService.IdentityService.CreateUser` | src/auth/identity/identity.service.ts:142-184 | Writes the rows of a new account; afterwards the identity resolves to the new user whatever email it carries, the address cannot be registered, and everything else is as it was |
| `IdentityService.IdentityService.LinkToExistingUser` | src/auth/identity/identity.service.ts:187-254 | To a verified address it adds the identity alone; to another it also verifies the address, ends the unused links and the password, and ends the sessions, which are queued for the denylist |
| `AuthService.AuthService.Register` | src/auth/auth.service.ts:45-125 | Creates account with its password, unverified address and verification link together, nothing for an address that is taken, with the same answer whether the taken account is usable or not, and nothing with an error if the transaction fails |
| `AuthService.AuthService.CreateNewToken` | src/auth/auth.service.ts:331-350 | The link is accepted exactly until the configured lifetime ends, holds back the next mail for the cooldown, and leaves every other link as it was |
| `AuthService.AuthService.ResendVerifyEmail` | src/common/prisma/serializable-retry.ts:18-45 | At most three attempts, repeated only on serialization conflicts and never after the last; sent if and only if the final attempt committed and the address was unverified and rested for the cooldown; the tables hold the effect of that attempt, and are as before otherwise |
| `AuthService.AuthService.ReplaceToken` | src/auth/auth.service.ts:402-420 | Within the cooldown nothing changes; past it every token of the address expires and one new one appears |
| `AuthService.AuthService.VerifyEmail` | src/auth/auth.service.ts:203-225 | By the rows: a link that confirms is used and verifies its address, in one transaction or not at all with an error; any other writes nothing, and unknown, used, expired and without an address are told apart exactly |
| `PasswordAuthenticator.PasswordAuthenticator.Authenticate` | src/auth/password/password-authenticator.service.ts:24-90 | By the rows: logged in if and only if the account may be tried and the password is right, counted as a failure if and only if it may be tried and the password is wrong, with the counter and the lock that follow; and it is the attempt the histories are made of |
| `PasswordAuthenticator.PasswordAuthenticator.RecordFailedLogin` | src/auth/password/password-authenticator.service.ts:176-214 | Increments, and locks when the maximum is reached |
| `PasswordAuthenticator.PasswordAuthenticator.ResetPasswordFailureState` | src/auth/password/password-authenticator.service.ts:217-224 | Afterwards n wrong passwords lock the account if and only if n has reached the maximum |
| `UnitOfWork.Work.Complete` | src/common/prisma/unit-of-work.ts:29-44 | Commit keeps the tables and runs the queued effects in order; rollback restores the tables and discards the effects |
| `UnitOfWork.SessionDenylist.Revoke` | src/auth/session/session-denylist.service.ts:57-75 | Writes each id that Redis accepted with the access-token lifetime; inert when disabled |
| `UnitOfWork.SessionDenylist.IsRevoked` | src/auth/session/session-denylist.service.ts:78-94 | True exactly for a live entry of an enabled, reachable denylist: it fails open |
| `GoogleAuthenticator.GoogleAuthenticator.Authenticate` | src/auth/google/google-authenticator.service.ts:33-61 | Switched off, without a valid token, with a spent or unknown nonce or without a required one: each refusal if and only if its reason, and it changes nothing; one let through has spent its nonce whatever the identity turns out to be |
| `GoogleAuthenticator.GoogleAuthenticator.EnforceNonce` | src/auth/google/google-authenticator.service.ts:128-148 | A nonce that is present is always consumed or refused; an absent one is refused exactly when required |
| `GoogleNonce.GoogleNonceService.Issue` | src/auth/google/google-nonce.service.ts:16-31 | The nonce can be consumed exactly until its lifetime ends, once, and every other nonce is as consumable as before |
| `GoogleNonce.GoogleNonceService.Consume` | src/auth/google/google-nonce.service.ts:38-52 | Succeeds if and only if the nonce is known, unused and unexpired, marks exactly it, and leaves every other nonce as it was |
| `JwtAuthGuard.JwtAuthGuard.CanActivate` | src/common/guards/jwt-auth.guard.ts:15-71 | Grants access to a protected route if and only if the token verifies, is within its lifetime plus the leeway, and is on no entry of an answering denylist that still runs; each other answer if and only if its reason; a silent denylist never denies |
| `CleanupService.CleanupService.DeleteInBatches` | src/maintenance/cleanup.service.ts:87-112 | Deletes only rows past the cutoff, min(backlog, 50000) of them, and returns that number; an early return means none remain; it warns if and only if the backlog reached the limit |
| `CleanupService.CleanupService.RunRepeatedly` | src/maintenance/cleanup.service.ts:9-10 | With no inserts r runs remove exactly min(n, 50000 r) rows of a backlog of n |
| `CleanupService.CleanupService.Cleanup` | src/maintenance/cleanup.service.ts:35-73 | Drains the three tables, each with the cutoff of its own retention |
| `CleanupService.ExpiringTable.DeleteMany` | src/maintenance/cleanup.service.ts:39-42 | One batch removes min(matching, limit) matching rows, of the database's choosing |
| `SessionLaws.RotationVerdicts` | src/auth/session/session.service.ts:183-257 | ROTATED if and only if token, session and user are live and the token is unused or within grace; TOKEN_REUSE if and only if they are live and it is stale; TOKEN_NOT_FOUND if and only if it is unknown |
| `SessionLaws.RotationConsumesOnce` | src/auth/session/session.service.ts:235-274 | An accepted rotation sets `usedAt` once, adds one usable child in the same session, touches the session, and changes no other row |
| `SessionLaws.RotationIsRecorded` | src/auth/session/session.service.ts:284-293 | TOKEN_REFRESH is recorded exactly for an accepted rotation, TOKEN_REUSE_DETECTED exactly for detected reuse, and nothing otherwise |
| `SessionLaws.RefusalWritesOnlyTheSweep` | src/auth/session/session.service.ts:183-215 | A refused rotation mints and consumes nothing; apart from theft it writes only to sweep a session past its lifetime |
| `SessionLaws.LoginIssuesOneSession` | src/auth/session/session.service.ts:82-97 | A login adds one session that runs for absoluteTtl and one token, usable until the earlier of its own and the session's expiry; tokens of sessions it did not evict are unchanged |

## Left out

- HTTP, dependency injection, request validation, cookies, throttling, logging and configuration loading: plumbing.
- argon2, SHA-256, random bytes, JWT signing and Google's signature checks: foreign calls, replaced by parameters or fresh values.
- The email stack: sending the verification mail follows the commit and writes none of these tables.
- The password policy, the common-password list and the breach check: table lookups and a web call.
- IP addresses, user agents, device ids, names and the metadata of events: opaque to every decision modelled.
- The claims that a rotation copies into the next access token (email verified, must change password).
- Timing equality and enumeration resistance of login: not functional properties.
- Organisations, RBAC, billing, OTP challenges and OAuth states: schema only, no code.
- User deletion cascades: no code deletes users; changes of status are modelled as coming from outside.
- SessionService.SessionService.RotateRefreshToken: has no branch for losing the conditional update, because nothing overlaps it there; `ReadCommitted` has that branch, and `Guarantees.ReuseIsExact` covers it.
- SessionService.SessionService.RotateWithin: likewise leaves the losing branch of the conditional update to `ReadCommitted`.
- IdentityService.IdentityService.ResolveExternalIdentity: has no retry after a unique violation, which cannot occur without overlap; `IdentityRace` has it.
- Lockout.LockoutBoundsTheRate: covers attempts that follow one another; `LockoutRace.ParallelGuessesAreBounded` has the weaker bound that holds for overlapping ones.
- PasswordAuthenticator.PasswordAuthenticator.Authenticate: leaves out the LOGIN_FAILED events and the rehash of an old password encoding, which touch neither the lockout columns nor any token.
- Credentials.NewPasswordStands: a login may store the same password in a newer encoding, which is left out, so the hash is that of the password whatever its encoding.
- Credentials.PasswordStands: likewise.
- Guarantees.ReuseIsExact: is about rows that are not deleted; `Retention` covers the deleted ones.
- CleanupInvisible.CleanupIsInvisible: excludes logout by refresh cookie, which cleanup does change, and needs the retained cooldown only for runs that resend.
- Guarantees.DenylistAgrees: takes the denylist as a set without expiry and without Redis failures; `UnitOfWork` has the expiry and the failures, and `JwtAuthGuard` the consequences of the expiry.
