# Verification of the identity gateway's stateful protocols

This project models the parts of the identity gateway whose safety argument spans several
functions and a whole run, and proves what they keep.

| part | specification | what runs keep | what calls achieve | code |
|---|---|---|---|---|
| Login sessions and their cache | `SessionModel` | `SessionRuns`, `SessionChain`, `SessionBudget`, `SessionAudit`, `FinalizeGate` | `SessionOutcomes` | `SessionService` |
| Refresh-token rotation and replay detection | `GrantModel` | `GrantRuns`, `GrantTheorems` | `GrantOutcomes` | `GrantStore` |
| Signing other devices out | (the two above) | `Account` | `Account` | `Account` |
| QR Login | `QrModel` | `QrRuns`, `QrSafety`, `QrTheorems`, `QrFinality`, `QrLatePush` | `QrOutcomes` | `QrService` |
| Passkeys | `PasskeyModel` | `PasskeyTheorems`, `PasskeyCap`, `PasskeyEnrol` | `PasskeyOutcomes` | `PasskeyService` |
| A passkey at sign-in, over both stores | `SignInModel` | `SignInRuns`, `SignInTheorems` | `SignInOutcomes` | `SignInService` |
| Scope and claim-mapper registry | `RegistryModel` | `RegistryRuns` | `RegistryOutcomes` | `RegistryService` |
| Claims of one person | `Claims` | `Claims` | `ClaimsOutcomes` | `Claims` |
| Owner guard of the two rosters | `OwnersModel` | `OwnersTheorems` | `OwnersOutcomes` | `OwnersService` |

Each part has the same four layers. A specification says, over immutable values, what one call
does to the tables, to the cache and to the answer. A class holds the code in its own shape: fields
that are updated in place, decorators around a repository, guards, loops and transactions that put
rows back. Every method of the class is proved to take exactly the step its specification names.
The lemmas then say two things: what every run of such steps keeps, and what one step has to
achieve, which is when a call goes through, as an equivalence over the tables, what it leaves, and
which refusal each cause becomes. Those stated from a state that meets the invariant hold of every
reachable one, because the empty tables (or the seed) meet it and every run keeps it.

## How the gateway is read

- **Transactions.** A call takes a `Fate`, or flags, for the writes that may fail. A transaction that
  fails brings the tables back and leaves cache writes standing, as `db.TxRunner` does.
- **Tokens and digests.** A digest is injective on the tokens in use, and sealing and opening are
  inverses, so both are constructors. A minted token is a counter, so it is new. A caller presents
  a token that was handed to somebody, or guesses one that the mint has not produced; a minted
  token that was never handed out is not presented.
- **Time.** One monotone clock in milliseconds, read once per call. A cache entry is visible until
  its deadline.
- **Atomicity.** A service call is one step, except where the code itself interleaves: the QR
  callback is split into read, claim, judge and write, and a passkey registration into the half that
  takes its challenge and reads the row of the device, and the half that writes. At sign-in the first
  half holds both guards and the second the completion of the session.
- **What other domains decide** is a parameter: whether a password hash matches, what a directory
  answers, whether a second authenticator is active, what the WebAuthn library made of an answer,
  which accounts are active and local, how many clients name a scope, what an audit write did.

## What turned out not to hold as written

- **A replay at the token endpoint revokes nothing.** The store's comment promises that presenting a
  rotated-away refresh token revokes the whole grant and that the successor dies with it
  (internal/oidc/storage_repo.go:164-166). At the token endpoint the replay becomes `invalid_grant`
  (internal/api/oidc/storage.go:204-218), that route runs in a transaction of the whole request
  (internal/api/http/oidc_route.go:52), and an answer of 400 or worse takes the transaction back
  (internal/api/http/middlewares/intx.go:50-52), the audit row of the replay with it. The other routes
  that read a refresh token have no request transaction. So the revocation stays if and only if the
  request came in by one of those (`GrantTheorems.ReplayIsCaught`; with a failing statement,
  `GrantTheorems.RevocationStaysIff`). After a replay at the token endpoint the grant is live and the
  successor is still answered with it (`GrantTheorems.SuccessorAfterReplay`, and
  `GrantTheorems.ReplayRun` for a concrete run); over whole runs the reads at that route change
  nothing at all (`GrantTheorems.TokenEndpointIsInert`). The repository contradicts itself here: its own
  integration test replays at that endpoint and asserts a dead access token and one
  `token.refresh_reused` row (internal/api/oidc/flow_integration_test.go:638-665). The model follows the
  middleware.
- **The revocation endpoint carries no request transaction.** A comment says it mounts one
  (internal/api/oidc/storage.go:161-163); the routes mount it for the token and the logout endpoint
  alone (internal/api/http/oidc_route.go:52-60). The model follows the routes.
- **An expired QR poll is not always final.** It is final if and only if no push in flight may still
  sign the session in: one that was judged for a person the session could be bound to, or one that
  claimed the transaction with an accepted state word, its own nonce and a name, which some directory
  answer would make prove that person (`QrFinality.ExpiredIsFinalIff`). What anybody can read off the
  row is enough on one side: an expired answer over a transaction nobody claimed is final
  (`QrFinality.UnclaimedIsFinal`). `QrLatePush.ExpiredIsNotFinal` is a run in which it is not.
- **The passkey cap needs the cache to delete, and calls that do not overlap.** A finish checks no cap.
  `consume` logs a failed delete and carries on (internal/passkey/service.go:950-954), so one challenge
  can land any number of devices (`PasskeyCap.CapNeedsTheDelete`). A registration that has taken
  its challenge and not written yet is seen by no later start, so with every delete done any number
  can still land (`PasskeyCap.ReplacedChallengesLand`). And sign-ins of one person, each with a challenge
  of its own, pass the guard against a held factor together, so any number can land with no challenge
  answered twice or replaced (`PasskeyCap.EnrolmentsPileUp`). In every run a person holds at most ten,
  and one for each portal landing under a challenge that was answered before or replaced since, and
  one for each sign-in enrolment written when the person holds a device (`PasskeyCap.CapBound`); a
  portal finish keeps the room the start made if and only if its challenge was deleted or there was
  room for two (`PasskeyCap.LandingKeepsRoomIff`). In runs of whole calls whose portal finishes delete
  their challenge nobody holds more than ten (`PasskeyCap.CapHolds`).
- **A sign-in can enrol a second factor.** The finish of an enrolment repeats the guard against a held
  factor, so that a factor gained while the prompt is open is challenged rather than met by the new
  passkey (internal/passkey/login_service.go:383-387). That guard and the claim run before the
  transaction opens (internal/passkey/login_service.go:397-403, internal/passkey/service.go:570-575), so
  a device may land in between. `PasskeyEnrol.SecondFactorLands` is the run: two sign-ins of one person
  pass the guard, and both land. An enrolment leaves its person holding one device if and only if the
  person held none just before the write (`PasskeyEnrol.LandsAsFirstIff`), which is if and only if since
  the claim as many devices were removed from that person as landed for it
  (`PasskeyEnrol.EnrolmentIsTheFirstIff`; over runs of both stores, `SignInTheorems.FirstFactorIff`). With
  nothing between guard and write it is the first (`PasskeyTheorems.EnrolmentIsTheFirst`). What remains
  true of every session that carries the passkey factor is `SignInTheorems.PasskeyIsEarned`.
- **A challenge may be answered twice.** The comment of `consume` says one challenge answers one
  ceremony (internal/passkey/service.go:925-927). A failed delete leaves it for another answer. In every
  run a holder's answers are at most its starts and the answers whose delete failed
  (`PasskeyTheorems.AnswersArePaidFor`), so at most its starts while every delete is done
  (`PasskeyTheorems.OneAnswerPerChallenge`).
- **A grant to a sitting owner asks the guard nothing.** `Add` replaces the roles of a sitting member. It
  leaves no owner if and only if it takes the role from the only active one, and no local owner if and
  only if it takes it from the only local one (`OwnersTheorems.GrantEmptiesTheOwners`). The two runs:
  `OwnersTheorems.OwnerLocksThemselvesOut` and `OwnersTheorems.LocalOwnerGrantedAway`.
- **The owner guard refuses more than the lockout its comment describes.** The count does not ask
  whether the person is in it, so an inactive owner cannot be removed while exactly one active owner
  sits (`OwnersTheorems.InactiveOwnerStays`; both refusals as equivalences in
  `OwnersTheorems.GuardIsExact`).

## Model

| member | source | states |
|---|---|---|
| SessionChain.CacheLiesOnlyToNobody | internal/session/cache.go:31-210 | In every run in which any transaction may be taken back, that of a logout request after its session was ended included, a read through the cache answers what the table answers for every token anybody holds; it differs for exactly the tokens that were minted, never handed out and still cached |
| SessionRuns.LookupAgrees | internal/session/cache.go:110-157 | Under the invariant of runs, `CachedFinder` answers what `FindByTokenHash` answers, in every tenant, for every token a caller can present |
| SessionRuns.RefillKeeps | internal/session/cache.go:110-157 | A miss that refills the cache moves nothing else and keeps the cache in agreement with the table |
| SessionRuns.RotatedKeeps | internal/session/service.go:307-325 | A rotation keeps cache and table in agreement whichever way its transaction ends; a rolled-back one leaves an entry only under a token nobody was given |
| SessionRuns.EndedKeeps | internal/session/cache.go:81-99 | Ending a session keeps the agreement even when the audit write fails and the row comes back without its cache entry |
| SessionRuns.DeletedKeeps | internal/session/cache.go:172-210 | Hard deletes drop the entries of exactly the deleted rows, and keep the agreement when the rows come back |
| SessionRuns.StepKeeps | internal/session/service.go:178-752 | Every call of the session service keeps the invariant, reuses no id and no token, and leaves a terminated row as it is |
| SessionRuns.RunKeeps | internal/session/service.go:178-752 | Every run keeps the invariant, from any sound state |
| SessionChain.DeadStaysDead | internal/session/repo.go:67-95 | A token that was handed out and does not resolve never resolves again, in any tenant, whatever runs |
| SessionChain.OneLiveLink | internal/session/repo.go:41-62 | At any moment one session answers to at most one token |
| SessionChain.UpgradeMovesTheLink | internal/session/service.go:242-326 | After a successful `VerifyPassword` or `Complete` the presented token resolved to the session before, only the returned token does now, and the presented one never resolves again |
| SessionChain.OverForGood | internal/session/repo.go:104-154 | A session that is terminated or gone stays so, and no token of it ever resolves, although every save writes the active state |
| SessionChain.EndingEnds | internal/session/service.go:705-752 | `Logout`, the fifth wrong code, `TerminateByID` and both hard deletes end the session they answer for |
| SessionChain.SessionNeverLoses | internal/session/service.go:348-384 | Over any run a session keeps its factors and its count of wrong codes, and a session that names somebody always does, and keeps its person if no directory proves it |
| SessionBudget.LedgerHolds | internal/session/service.go:474-525 | In every run an active session carries exactly the number of wrong codes counted against it, through token rotations |
| SessionBudget.AtMostFiveWrongCodes | internal/session/service.go:474-525 | At most five calls ever count a wrong code against one session id; the trail holds its one `bad_second_factor` row exactly when the fifth was counted, and then the session is over |
| SessionAudit.UpgradeProves | internal/session/service.go:242-384 | An upgrade answers a token only on a proof: for a local session the hash of its own person matched, for a directory session the directory named the person; the session gains that factor at this moment, twelve hours, and nothing else |
| SessionAudit.TrailFollowsAnswers | internal/session/service.go:307-325 | A call leaves one audit row, about the session behind the presented token, exactly when it answers that it upgraded, refused or ended a sign-in; a call that was rolled back leaves none |
| SessionAudit.FactorWasProved | internal/session/service.go:242-326 | In every reachable state each factor a session carries was recorded by an answered upgrade of the run under that factor |
| SessionAudit.PasswordWasProved | internal/session/service.go:348-384 | In every reachable state a session that carries the password proved it in some call of the run: a local session by the hash of the very person it names, a directory session by a bind that named a person |
| SessionAudit.TrailCountsAnswers | internal/session/service.go:307-325 | In every run, and for every session, the audit rows of a success, of a logout and of an ending on wrong codes are as many as the calls that answered it |
| FinalizeGate.StepsNameTheFactors | internal/api/http/router.go:270-287 | Reading the pending steps for a challenge finds exactly the factors the two tables hold |
| FinalizeGate.PendingSteps | internal/api/http/router.go:1522-1605 | Something is owed exactly when the person holds a factor of either kind or the policy demands one |
| FinalizeGate.StepsAreExact | internal/api/http/router.go:1560-1604 | Which of the four steps are owed, exactly, and the passkey first |
| FinalizeGate.GateOfAnAccount | internal/session/service.go:672-697 | The gate and the account together: a holder of a factor must have proved a second factor, anybody else passes unless the policy demands one, and a scan alone passes |
| FinalizeGate.EnrolmentOpensTheGate | internal/session/model.go:250-280 | A sign-in stuck on a demanded enrolment passes once the enrolment lands, because the step owed becomes the challenge just met |
| SessionOutcomes.AnswersTheActiveRow | internal/session/repo.go:67-95 | A token answers a session if and only if a row of the tenant holds its digest, is active and has time left |
| SessionOutcomes.UnknownTokenIsRefused | internal/session/service.go:242-733 | Every call under a token that answers no live session is refused as not found and changes no row and no audit row |
| SessionOutcomes.OpenAchieves | internal/session/service.go:178-218 | A session that opens answers to a token nobody held, carries no factor and lives ten minutes |
| SessionOutcomes.RightPasswordAchieves | internal/session/service.go:242-454 | A right password (the hash of the named person, or a person named by the directory) answers a token if and only if the steps could be read and the upgrade committed; the session answers to it for twelve hours, carries the password, and names that person |
| SessionOutcomes.WrongPasswordIsRefused | internal/session/service.go:242-454 | A wrong password is refused under the name of its cause, each directory answer under its own, and leaves one audit row that says so |
| SessionOutcomes.UnreadHashIsNoRefusal | internal/session/service.go:242-454 | A hash that cannot be read is a failure and no refusal: nothing is audited |
| SessionOutcomes.CompletionAchieves | internal/session/service.go:575-630 | A completion is refused if and only if the session names somebody else, and otherwise answers a token if and only if it commits |
| SessionOutcomes.WrongCodeAchieves | internal/session/service.go:474-525 | A committed wrong code is counted under the same token below four, and the fifth ends the session with its one `bad_second_factor` row |
| SessionOutcomes.FiveGuessesEnd | internal/session/service.go:474-525 | In every run, five committed wrong codes sent while a session is live end it for good, under whatever tokens; no session takes a sixth |
| SessionOutcomes.LogoutAchieves | internal/session/service.go:705-733 | A logout of a live session ends it if and only if it commits, with one audit row |
| SessionOutcomes.TerminationAchieves | internal/session/service.go:738-752 | An end by id ends exactly a live session |
| SessionOutcomes.DeletionAchieves | internal/session/admin_repo.go:187-221 | A hard delete revokes exactly a row that is there and the owner's, whatever its state |
| SessionOutcomes.UserDeletionAchieves | internal/session/admin_repo.go:236-284 | A sign-out of the others takes every row of the person but the spared one and no other |
| SessionOutcomes.AnsweredIsWarm | internal/session/cache.go:31-67 | What was opened or upgraded is cached under its new token until it expires, and not under the token it spent |
| SessionOutcomes.ReadIsWarm | internal/session/cache.go:110-157 | A read that found a session leaves it cached |
| SessionOutcomes.EntryAnswers | internal/session/cache.go:110-157 | An entry whose deadline has not passed answers the read, which then writes nothing |
| SessionOutcomes.EndedIsCold | internal/session/cache.go:81-99 | A session that ended is not cached under the token it had |
| SessionOutcomes.TakenBackIsCold | internal/session/cache.go:81-210 | An ending whose transaction is taken back brings rows and trail back and leaves the session out of the cache |
| SessionService.Sessions.Save | internal/session/repo.go:41-62 | Upserts the sealed session with its extracted columns, always in the active state |
| SessionService.Sessions.FindByTokenHash | internal/session/repo.go:67-95 | Answers the active, unexpired row of the tenant with that digest, or nothing |
| SessionService.Sessions.Terminate | internal/session/repo.go:104-136 | Marks one live row, answers the digest it held, and refuses a row that is not live |
| SessionService.Sessions.CachingSave | internal/session/cache.go:31-67 | Database first, then the replaced digest is dropped, then the new entry set with the time left; a refused write touches no cache |
| SessionService.Sessions.CachingFind | internal/session/cache.go:110-157 | A visible entry answers, a miss reads the table and refills |
| SessionService.Sessions.CachingTerminate | internal/session/cache.go:81-99 | Terminates, then drops the entry of the digest the row held |
| SessionService.Sessions.DeleteSession | internal/session/admin_repo.go:187-221 | Deletes one row whatever its state; a missing row and a row of another owner answer alike |
| SessionService.Sessions.DeleteUserSessions | internal/session/admin_repo.go:236-284 | Deletes exactly the rows of the person but the spared one, and lists each of them once with what it held |
| SessionService.Sessions.DropCached | internal/session/cache.go:198-210 | Removes the entry of every listed digest and no other |
| SessionService.Sessions.CachingRevoke | internal/session/cache.go:172-181 | The delete of one session and of its cache entry |
| SessionService.Sessions.CachingRevokeUser | internal/session/cache.go:185-194 | The delete of a person's sessions and of their cache entries |
| SessionService.Sessions.Open | internal/session/service.go:178-218 | Opens a partial session with no factor and ten minutes, under a fresh token |
| SessionService.Sessions.Rotate | internal/session/service.go:307-325 | The save under a fresh token and the audit row, on one transaction; a failure brings the row back and hands nothing out |
| SessionService.Sessions.VerifyPassword | internal/session/service.go:242-454 | Takes the password step: lookup, proof, audited refusal or upgrade, and answers the steps owed only with a token |
| SessionService.Sessions.Complete | internal/session/service.go:575-630 | Takes the completion step: refuses a session bound to somebody else, otherwise upgrades it |
| SessionService.Sessions.End | internal/session/service.go:495-525 | Terminate and audit row on one transaction |
| SessionService.Sessions.FailSecondFactor | internal/session/service.go:474-525 | Counts under the same token below the cap, ends the session at it |
| SessionService.Sessions.Find | internal/session/service.go:547-561 | Answers the session behind a token |
| SessionService.Sessions.Resolve | internal/session/service.go:637-654 | Answers the table's session exactly when it proved some factor |
| SessionService.Sessions.ResolveForFinalize | internal/session/service.go:672-697 | Answers a session if and only if its token resolves, a factor is proved, and `vc` is proved or every pending step is a challenge step and, if any is pending, `otp` or `webauthn` is; names the one refusal exactly |
| SessionService.Sessions.Logout | internal/session/service.go:705-733 | Ends the presented session with its audit row |
| SessionService.Sessions.TerminateByID | internal/session/service.go:738-752 | Ends one live session by id |
| SessionService.Sessions.LogoutByRelyingParty | internal/api/oidc/logout.go:75-90 | Ends one session by id on the transaction of the logout request; what fails later in it takes the row back and leaves the cache entry dropped |
| SessionService.AuthTime | internal/session/model.go:230-238 | The latest moment a factor was proved, zero for a partial session |
| GrantRuns.RetainedKeeps | internal/oidc/storage_repo.go:115-148 | Retaining a replaced token makes exactly one record, under a digest no record held, and leaves detection complete |
| GrantRuns.SweepKeeps | internal/oidc/storage_repo.go:138-148 | A sweep of expired records takes nothing whose window is open |
| GrantRuns.RevokedKeeps | internal/oidc/storage_repo.go:235-278 | Revoking a grant with its history leaves detection complete for every other grant |
| GrantRuns.DeleteKeeps | internal/oidc/grant_repo.go:175-224 | Between the two deletes and after them every record names a stored grant, and detection stays complete |
| GrantRuns.RunKeeps | internal/oidc/storage_repo.go:79-278 | Every run keeps: columns equal what sealing extracts, one grant per token, sound and complete history |
| GrantTheorems.RotatedAwayForGood | internal/oidc/storage_repo.go:167-184 | A token that a rotation replaced is answered as a reuse or as not found in every later state, tenant and route, after sweeps, revocations and deletes too; only a statement that fails answers otherwise, and never with a grant |
| GrantTheorems.ReplayIsCaught | internal/oidc/storage_repo.go:115-278 | While the grant is stored and unrevoked and the token's own deadline, or thirty days from the rotation, has not passed, presenting the token answers a reuse naming that grant; the grant ends revoked, and its history gone, iff the route has no request transaction; no other grant moves |
| GrantTheorems.RevocationStaysIff | internal/oidc/storage_repo.go:235-278 | Whichever statement of the replay fails, the grant ends revoked iff the route has no request transaction and the stamp was written |
| GrantTheorems.SuccessorAfterReplay | internal/api/http/oidc_route.go:48-60 | In every run, after a replay the successor of the token is answered with the grant; the grant is live iff the replay came in at the token endpoint |
| GrantTheorems.TokenEndpointIsInert | internal/api/http/middlewares/intx.go:32-58 | Every state a run reaches is the one its other calls reach without the reads at the token endpoint |
| GrantTheorems.ReplayRun | internal/api/oidc/storage.go:204-218 | The shortest run: issue, rotate, replay, at the token endpoint and by another route |
| GrantTheorems.SaveHandsOver | internal/oidc/storage_repo.go:79-107 | After a save the token it carries names the grant just saved, and the token it replaced is rotated away |
| GrantTheorems.RecordsAreTrue | internal/oidc/grant_repo.go:175-224 | In every reachable state a superseded record is the only one of its token and names a stored grant, also between the two deletes |
| GrantTheorems.LookupIsAScan | internal/oidc/storage_repo.go:282-311 | In every reachable state the lookup by digest answers what a scan of the opened grants by plain token or code answers, and no two grants share a refresh token |
| GrantTheorems.RotationResizes | internal/oidc/storage_repo.go:115-148 | A rotation changes the size of the superseded table by one minus the lesser of 200 and the records expired at that instant; any other save leaves it |
| GrantTheorems.BacklogDrains | internal/oidc/storage_repo.go:115-148 | While nothing further expires, each rotation takes a full batch off the expired backlog, so a backlog of E is gone after ceil(E/200) rotations, whatever runs between |
| GrantOutcomes.ReadIsExact | internal/oidc/storage_repo.go:167-184 | A read is a replay if and only if a record of the token is stored, whatever its deadline; otherwise it answers the grant that holds the token, or that none does |
| GrantOutcomes.ReplayAchieves | internal/oidc/storage_repo.go:235-278 | A replay stamps the grant its record names with this second and drops exactly its history; at the token endpoint nothing moves |
| GrantOutcomes.FaultyReplay | internal/oidc/storage_repo.go:235-278 | What a replay answers and keeps when each of its statements fails |
| GrantOutcomes.RecordIsKept | internal/oidc/storage_repo.go:115-278 | Over any run a record is still there, unchanged, if and only if no sweep took it, no replay of its grant dropped it and its grant was not deleted; time alone takes none |
| GrantOutcomes.RotationRecords | internal/oidc/storage_repo.go:115-148 | A rotation records the replaced token under the grant, and the same call sweeps that record only if its deadline had passed |
| GrantOutcomes.StoredRecordIsCaught | internal/oidc/storage_repo.go:167-184 | In every run, while its record is stored, a rotated-away token is a replay of its grant, past its deadline too |
| GrantOutcomes.SaveAchieves | internal/oidc/storage_repo.go:79-148 | A save stores the grant and moves no other; it records and sweeps exactly when it rotates, at most two hundred expired records, and all of them when there are fewer |
| GrantOutcomes.ColumnsCopyTheGrant | internal/oidc/storage_repo.go:374-391 | In every reachable state each column of a row is what its grant says |
| GrantOutcomes.DeleteAchieves | internal/oidc/grant_repo.go:175-224 | A delete takes exactly the grants of its tenant that say they are the session's, the person's, or the person's with that client; a record leaves with its grant and in no other way |
| GrantStore.Grants.FindGrantByAuthCode | internal/oidc/storage_repo.go:157-159 | A grant of the tenant that carries the plain code, and nothing only when none does |
| GrantStore.Grants.FindByDigest | internal/oidc/storage_repo.go:282-311 | The one grant whose column holds the digest |
| GrantStore.Grants.FindGrantsByLoginSession | internal/oidc/storage_repo.go:192-230 | Every grant of one sign-in once, the revoked ones too, and nothing for an empty id |
| GrantStore.Grants.Prune | internal/oidc/storage_repo.go:138-146 | Removes the lesser of 200 and all of the tenant's expired records, and no other record |
| GrantStore.Grants.RetainSuperseded | internal/oidc/storage_repo.go:115-148 | Records the token a save replaces and sweeps one batch; a first save and an unchanged token do neither |
| GrantStore.Grants.SaveGrant | internal/oidc/storage_repo.go:79-107 | Takes the save step with a batch the database may choose |
| GrantStore.Grants.FindGrantByRefreshToken | internal/oidc/storage_repo.go:167-184 | What the read does inside a request: the history first, and a revocation, statement by statement, on a replay |
| GrantStore.Grants.Serve | internal/api/http/middlewares/intx.go:32-58 | The same read by a route: at the token endpoint an answer of 400 or worse takes it back |
| GrantStore.Grants.RevokeGrant | internal/oidc/storage_repo.go:235-278 | Stamps an unrevoked grant, then drops its history, and answers a reuse; a statement that fails leaves what came before it |
| GrantStore.Grants.DeleteGrants | internal/oidc/grant_repo.go:175-224 | Deletes the selected grants with their history, and answers the exact drop of the table |
| GrantStore.Grants.DeleteGrantsByLoginSession | internal/oidc/grant_repo.go:116-123 | Deletes by sign-in; an empty id deletes nothing |
| GrantStore.Grants.DeleteGrantsBySubject | internal/oidc/grant_repo.go:130-137 | Deletes by person; an empty subject deletes nothing |
| GrantStore.Grants.DeleteGrantsBySubjectClient | internal/oidc/grant_repo.go:149-157 | Deletes by person and client; either one empty deletes nothing |
| Account.SignedOutElsewhere | internal/session/account_service.go:112-144 | The person keeps no session but the spared one, nothing the removed sessions fanned out to is left, nobody else's session or grant moves, and no token of a removed session ever resolves again |
| Account.Accounts.RevokeOthers | internal/session/account_service.go:112-144 | Commits if and only if the sessions were deleted, every delete of grants went through and the audit row was written; the reported counts are the exact drops of the two tables |
| Account.Accounts.RevokeEach | internal/session/account_service.go:127-139 | The loop over the removed sessions accumulates exactly the grants that left, and stops at the first delete that fails |
| Account.Accounts.Revoke | internal/session/account_service.go:76-100 | Ends one own session with its grants; a missing and a foreign session are refused alike |
| QrTheorems.OneClaimOneResult | internal/qrlogin/service.go:162-283 | Under any interleaving of any number of callbacks a transaction is claimed at most once and gets at most one, final, result; verified only if claimed before its deadline by a push that addresses it, with the state word absent or accepted, the nonce absent or its own, and a name the directory answered |
| QrTheorems.VerifiedWasNamed | internal/qrlogin/service.go:227-256 | The person a verified transaction records is one the directory named, under the name of the claiming push, at some moment of the run |
| QrTheorems.ScanIsEarned | internal/qrlogin/service.go:301-371 | In every reachable state a session carries `vc` only if a transaction of its own is verified and names the person it is bound to |
| QrTheorems.HandedOutOnce | internal/qrlogin/service.go:345-371 | At most one poll ever hands out a rotated token for one login session |
| QrTheorems.PollAnswers | internal/qrlogin/service.go:301-371 | What each poll of a live session answers, by the session's factor, its one transaction and the outcome of the transaction |
| QrFinality.AnswersAreFinal | internal/qrlogin/service.go:301-341 | Once a poll answers authenticated every later one does, without a token and for the same person; once one answers expired and no push may still sign the session in, every later one does |
| QrFinality.WholePushesStraddleNothing | internal/qrlogin/service.go:162-220 | When callbacks are single steps no push may still sign a session in behind an expired answer, so polls answer pending, repeated, then one of the two for good |
| QrFinality.ExpiredIsFinalIff | internal/qrlogin/service.go:162-220 | In every reachable state an expired answer is final, in every continuation, if and only if no push in flight was judged for a person the session fits, or claimed with a state word, nonce and name that can still prove one |
| QrFinality.UnclaimedIsFinal | internal/qrlogin/repo.go:122-149 | An expired answer over a row that is missing, decided, or claimed by nobody is final |
| QrFinality.LandsNow | internal/qrlogin/repo.go:153-172 | A push that proved a person the session fits writes, and the next poll signs in as that person |
| QrLatePush.ExpiredIsNotFinal | internal/qrlogin/service.go:187-220 | A concrete run in which that happens |
| QrRuns.ClaimKeeps | internal/qrlogin/repo.go:122-149 | A claim keeps: one push at most holds a transaction, and a claim happens before the deadline |
| QrRuns.WriteKeeps | internal/qrlogin/repo.go:153-172 | The unguarded result write keeps one result per transaction, because the claim before it is guarded |
| QrSafety.OthersScanNobody | internal/session/service.go:575-630 | No session call but the completion under `vc` records it |
| QrSafety.RunKeeps | internal/qrlogin/service.go:100-371 | Every run of session calls, starts, pushes and polls keeps the invariant |
| QrOutcomes.StartAchieves | internal/qrlogin/service.go:100-152 | A start records a pending transaction for ninety seconds if and only if the verifier minted one, the session opened and both references were free; its session names nobody |
| QrOutcomes.WholeIsFourSteps | internal/qrlogin/service.go:162-220 | A push that nothing interleaves with is its read, claim, judgement and write in a row |
| QrOutcomes.PushFindsItsTransaction | internal/qrlogin/repo.go:60-88 | A push finds the transaction either of its references names and no other |
| QrOutcomes.PushDecides | internal/qrlogin/service.go:187-256 | A whole push over a claimable transaction verifies it for exactly the person its state word, nonce and name prove, and fails it otherwise |
| QrOutcomes.LatePushChangesNothing | internal/qrlogin/repo.go:122-149 | A push over a transaction that is claimed, decided or past its deadline changes none |
| QrOutcomes.UnfinishedPush | internal/qrlogin/service.go:198-220 | An unread directory fails the transaction; an unwritten result leaves it claimed and pending |
| QrOutcomes.PushSignsIn | internal/qrlogin/service.go:301-371 | After such a push the next poll of a fitting session answers authenticated as that person with a token |
| QrService.QrLogins.Insert | internal/qrlogin/repo.go:31-48 | A strict insert: a verifier reference that is taken, in any tenant, is refused |
| QrService.QrLogins.FindByVerifierRef | internal/qrlogin/repo.go:60-88 | A row either reference matches, and nothing only when none does |
| QrService.QrLogins.FindByLoginSession | internal/qrlogin/repo.go:92-115 | The newest transaction of one login session |
| QrService.QrLogins.Consume | internal/qrlogin/repo.go:122-149 | Claims exactly a pending, unexpired, unconsumed row |
| QrService.QrLogins.SetResult | internal/qrlogin/repo.go:153-172 | Writes the state, and the person only when there is one |
| QrService.QrLogins.Start | internal/qrlogin/service.go:100-152 | Asks the verifier first, opens a session that names nobody, then records the pair |
| QrService.QrLogins.Callback | internal/qrlogin/service.go:162-220 | Read, claim, judge and write in one go; only an unusable body is refused as such |
| QrService.QrLogins.Settle | internal/qrlogin/service.go:198-220 | What a push does after it won the claim, on the row it had read |
| QrService.QrLogins.Poll | internal/qrlogin/service.go:301-341 | Takes the poll step |
| QrService.QrLogins.AnswerFor | internal/qrlogin/service.go:329-341 | What a poll answers for the transaction of its session |
| QrService.QrLogins.CompleteWith | internal/qrlogin/service.go:345-371 | Completes under `vc`; a session bound to another person reads as expired |
| PasskeyTheorems.LandingsAreRemovals | internal/passkey/service.go:625-670 | Over any interleaving of split registrations with removals, renames and write-backs, every landing of a device is paid for by a removal, but for the row live at the end |
| PasskeyTheorems.AtMostOneLands | internal/passkey/repo.go:93-188 | Of registrations racing on one device at most one lands unless a removal separates them, and none while it is live |
| PasskeyTheorems.OwnerIsKept | internal/passkey/repo.go:161-289 | A live row keeps its owner, RP ID and birthday until it is removed |
| PasskeyCap.CapBound | internal/passkey/service.go:441-623 | In every run, registrations split or whole and deletes done or not, a person holds at most ten passkeys and one for each portal landing under a challenge answered before or replaced since, and one for each sign-in enrolment written when the person holds a device |
| PasskeyCap.CapHolds | internal/passkey/service.go:441-489 | In every run of whole calls whose portal finishes delete their challenge nobody holds more than ten passkeys, although the finish checks no cap |
| PasskeyCap.LandingKeepsRoomIff | internal/passkey/service.go:510-623 | From under the cap, with room for one more while a portal challenge is stored, a portal finish that lands keeps that if and only if its challenge was deleted or there was room for two |
| PasskeyCap.WholeIsTwoHalves | internal/passkey/service.go:510-623 | A whole registration does what its two halves do with nothing between them |
| PasskeyCap.ReplacedChallengesLand | internal/passkey/service.go:643-670 | For every count there is a run, every delete done, that leaves a person holding that many: each start found room because nothing had been written |
| PasskeyCap.EnrolmentsPileUp | internal/passkey/login_service.go:351-421 | For every count there is a run in which that many sign-ins of one person enrol, each under its own challenge, answered once and never replaced, and all land |
| PasskeyTheorems.EnrolmentIsTheFirst | internal/passkey/login_service.go:351-421 | A sign-in enrolment with nothing between its guard and its write lands only for a person who holds no factor of either kind, who then holds one |
| PasskeyEnrol.HoldingsBalance | internal/passkey/repo.go:93-289 | Over any interleaving, what a person holds at the end and what was removed from it equal what it held at the start and what landed for it |
| PasskeyEnrol.LandsAsFirstIff | internal/passkey/service.go:570-607 | A sign-in enrolment that lands adds one device, and leaves its person holding one if and only if the person held none just before the write |
| PasskeyEnrol.EnrolmentIsTheFirstIff | internal/passkey/login_service.go:391-421 | An enrolment whose guard read no factor and which lands after any run of other calls is the first device of its person if and only if as many were removed from the person since the claim as landed for it |
| PasskeyEnrol.SecondFactorLands | internal/passkey/login_service.go:383-421 | The run in which two sign-ins of one person both land, the second when the person holds a factor |
| PasskeyTheorems.AnswersArePaidFor | internal/passkey/service.go:932-964 | In every run a holder's answers and what is still stored are at most the challenges it started and the answers whose delete failed |
| PasskeyTheorems.OneAnswerPerChallenge | internal/passkey/service.go:903-964 | While the cache deletes every challenge it is told to, no holder finishes more ceremonies than it started, however each of them ended |
| PasskeyCap.KeptChallengeLandsAgain | internal/passkey/service.go:932-964 | When the delete fails, one stored challenge lands two devices |
| PasskeyCap.CapNeedsTheDelete | internal/passkey/service.go:932-964 | For every count there is a run with one start and failing deletes that leaves a person holding that many |
| PasskeyOutcomes.HeldAreTheLiveRows | internal/passkey/repo.go:32-53 | What a person holds are the rows of the tenant that carry the person and no mark of a removal |
| PasskeyOutcomes.PortalStartAchieves | internal/passkey/service.go:441-489 | A start stores a challenge for five minutes if and only if fewer than ten are held, it was allowed and the cache took it |
| PasskeyOutcomes.EnrolStartAchieves | internal/passkey/login_service.go:304-319 | At sign-in an enrolment starts only for a person with no factor of either kind |
| PasskeyOutcomes.ChallengeStartAchieves | internal/passkey/login_service.go:55-119 | At sign-in a challenge starts only for a person who holds a device |
| PasskeyOutcomes.RegistrationAchieves | internal/passkey/service.go:510-670 | A registration lands if and only if its challenge is open, the answer verified, no live row holds the device and the write committed; the device is then live, the person's, with the record, RP ID and name of the answer |
| PasskeyOutcomes.EnrolFinishAchieves | internal/passkey/login_service.go:391-421 | The same at sign-in, for a person who holds no factor |
| PasskeyOutcomes.ClaimAchieves | internal/passkey/service.go:643-670 | A claim plans to insert a new device, to take a removed one back, and refuses a live one |
| PasskeyOutcomes.WritingAchieves | internal/passkey/repo.go:93-188 | The write lands if and only if the table is still as its plan found it and it commits |
| PasskeyOutcomes.RemovedDeviceReturns | internal/passkey/service.go:657-669 | A removed device can be registered again, by anybody |
| PasskeyOutcomes.AssertionAchieves | internal/passkey/login_service.go:141-227 | An assertion is accepted if and only if its challenge is open, it verified, the device is the person's and live, and the write committed; its record is stored |
| PasskeyOutcomes.RenameAchieves | internal/passkey/repo.go:230-255 | A rename reaches exactly a live device of the person and changes its name alone |
| PasskeyOutcomes.RemovalAchieves | internal/passkey/account_service.go:135-183 | A removal reaches exactly a live device of the person and leaves one less held |
| PasskeyService.Passkeys.CountLive | internal/passkey/repo.go:32-53 | How many live rows a person holds |
| PasskeyService.Passkeys.InsertRow | internal/passkey/repo.go:93-110 | Inserts under a free key; a key any row holds, removed ones too, is a duplicate |
| PasskeyService.Passkeys.ReviveRow | internal/passkey/repo.go:161-188 | Rewrites a removed row as a fresh registration; a row that is not removed is a duplicate |
| PasskeyService.Passkeys.Touch | internal/passkey/repo.go:198-224 | Writes back the record of a live row of the person, or answers not found |
| PasskeyService.Passkeys.Rename | internal/passkey/repo.go:230-255 | Renames a live row of the person, or answers not found |
| PasskeyService.Passkeys.Delete | internal/passkey/repo.go:265-289 | Marks a live row of the person, or answers not found |
| PasskeyService.Passkeys.Store | internal/passkey/service.go:903-921 | One challenge per holder, for five minutes |
| PasskeyService.Passkeys.Consume | internal/passkey/service.go:932-964 | Reads an unexpired challenge and deletes it; a failed delete refuses nothing |
| PasskeyService.Passkeys.RegisterStart | internal/passkey/service.go:441-489 | Refuses over the cap, otherwise stores a challenge |
| PasskeyService.Passkeys.Claim | internal/passkey/service.go:643-670 | Insert for a free id, revive for a removed row, refusal for a live one |
| PasskeyService.Passkeys.Write | internal/passkey/service.go:570-607 | The planned write and the audit row on one transaction |
| PasskeyService.Passkeys.RegisterClaim | internal/passkey/service.go:510-573 | A registration up to its transaction: consume, verify, claim |
| PasskeyService.Passkeys.RegisterWrite | internal/passkey/service.go:575-607 | Its transaction, whatever ran since the claim |
| PasskeyService.Passkeys.RegisterFinish | internal/passkey/service.go:510-623 | Both with nothing between them |
| PasskeyService.Passkeys.AccountRegisterStart | internal/passkey/account_service.go:25-33 | The portal start, held by the person |
| PasskeyService.Passkeys.AccountRegisterFinish | internal/passkey/account_service.go:41-51 | The portal finish |
| PasskeyService.Passkeys.RefuseHeldFactor | internal/passkey/login_service.go:351-367 | Whether the account holds a factor of either kind |
| PasskeyService.Passkeys.LoginEnrolClaim | internal/passkey/login_service.go:391-404 | The guard against a held factor and the registration up to its transaction |
| PasskeyService.Passkeys.AccountRemove | internal/passkey/account_service.go:135-183 | The removal and its audit row on one transaction |
| SignInTheorems.PasskeyIsEarned | internal/passkey/login_service.go:141-421 | In every reachable state a session carries `webauthn` only if some call of the run signed it in as the person it names, which had proved a password: either a live device of that very person was asserted, or a device of that person landed in that very transaction, for an enrolment of this session whose guards read, in an earlier call, a proved password and no factor of either kind |
| SignInTheorems.FirstFactorIff | internal/passkey/login_service.go:383-421 | Such an enrolment gave its person a first device if and only if as many devices were removed from the person since its guards as landed for it |
| SignInTheorems.InFlightWasClaimed | internal/passkey/login_service.go:391-404 | An enrolment waiting for its transaction was claimed by an earlier call, which passed both guards, and stands as claimed |
| SignInRuns.StepKeeps | internal/passkey/login_service.go:141-421 | Every call of either store keeps an enrolment in flight tied to its session: whatever still answers to its token is that session, names somebody and proved a password |
| SignInRuns.PasskeysRun | internal/passkey/service.go:441-623 | What a run over both stores does to the passkeys is a run of passkey calls, so every theorem about those holds here |
| SignInRuns.SessionsRun | internal/session/service.go:575-630 | What a run over both stores does to the sessions is an admissible run of session calls, so every theorem about those holds here |
| SignInTheorems.PasskeyImpliesPassword | internal/passkey/login_service.go:272-284 | In every reachable state a session that carries `webauthn` carries the password |
| SignInRuns.GuardReads | internal/passkey/login_service.go:272-284 | What the guard lets through is the live session behind the token, with a proved password and the person it names |
| SignInOutcomes.GuardIsExact | internal/passkey/login_service.go:272-284 | The guard lets exactly a live session through that proved a password and names somebody, and names the refusal of any other |
| SignInOutcomes.GuardRefuses | internal/passkey/login_service.go:272-284 | What the guard refuses starts nothing, finishes nothing and moves no row |
| SignInOutcomes.ChallengeSignsIn | internal/passkey/login_service.go:141-227 | A challenge signs in if and only if the ceremony is open, the assertion verified, the device is the person's and live, and both halves commit; otherwise neither device nor session moved |
| SignInOutcomes.EnrolmentClaims | internal/passkey/login_service.go:391-404 | An enrolment reaches its transaction if and only if the person holds no factor, the ceremony is open, the answer verified and the device is free |
| SignInOutcomes.EnrolmentSignsIn | internal/passkey/login_service.go:405-413 | Its transaction signs in if and only if the table is as the plan found it, the session still answers to the token and names that person, and both halves commit; otherwise nothing moved |
| SignInService.SignIns.ReadPrincipal | internal/passkey/login_service.go:272-284 | Refuses a session that proved no password or names nobody |
| SignInService.SignIns.LoginEnrolStart | internal/passkey/login_service.go:304-319 | The guard, then the refusal of a held factor, then the start under the sign-in |
| SignInService.SignIns.LoginStart | internal/passkey/login_service.go:55-119 | The guard, then the refusal of a person who holds none, then a challenge under the sign-in |
| SignInService.SignIns.EnrolUpToWrite | internal/passkey/login_service.go:391-404 | Both guards again, the challenge and the claim |
| SignInService.SignIns.EnrolWriteAndComplete | internal/passkey/login_service.go:405-413 | The row, its audit row and the completion under `webauthn`, on one transaction over both stores, whatever ran since the claim |
| SignInService.SignIns.LoginEnrolFinish | internal/passkey/login_service.go:391-421 | Both with nothing between them |
| SignInService.SignIns.LoginFinish | internal/passkey/login_service.go:141-227 | The guard, the write-back of a row that is still the person's live one, and the completion under `webauthn` on one transaction |
| SignInService.SignIns.Close | internal/api/http/router.go:413-416 | The completion closes the transaction: when it fails the row of the passkey goes back |
| RegistryRuns.RegistryHolds | internal/oidc/mapper_admin_service.go:62-312 | In every state reachable from the seed scope names are unique per tenant, claims are unique per scope, no scope holds more than 50 mappers, every mapper has its scope, every builtin scope keeps its name, and the mappers of protected claims are exactly the seeded ones, unchanged |
| RegistryRuns.SeedIsSound | cmd/bootstrap.go:587-625 | The seed meets the invariant; its one protected claim per tenant is `email_verified`, in the builtin email scope |
| RegistryRuns.ScopeDeleted | internal/oidc/scope_admin_repo.go:135-166 | A delete takes the scope's mappers along, orphans none and touches no protected one |
| RegistryRuns.MapperWritten | internal/oidc/mapper_admin_service.go:132-257 | A written mapper keeps uniqueness and the cap, and neither makes nor unmakes a protected claim |
| RegistryRuns.StepKeeps | internal/oidc/scope_admin_service.go:126-303 | Every call, of an owner or not, keeps the invariant, the protected rows and the builtin scopes |
| RegistryOutcomes.CreateScopeAchieves | internal/oidc/scope_admin_service.go:126-175 | An owner creates a scope if and only if the name is free and the write commits; it is new and not builtin |
| RegistryOutcomes.UpdateScopeAchieves | internal/oidc/scope_admin_service.go:183-241 | An owner rewrites a scope if and only if it is there and no other carries a name it would take on; a builtin one keeps its name |
| RegistryOutcomes.DeleteScopeAchieves | internal/oidc/scope_admin_service.go:249-303 | An owner deletes a scope if and only if it is there, not builtin and named by no client; exactly its mappers leave with it |
| RegistryOutcomes.CreateMapperAchieves | internal/oidc/mapper_admin_service.go:132-193 | An owner adds a mapper if and only if none of the five refusals applies, and the first that applies is answered |
| RegistryOutcomes.UpdateMapperAchieves | internal/oidc/mapper_admin_service.go:200-257 | The same for a rewrite, with the stored claim checked as well as the new one |
| RegistryOutcomes.DeleteMapperAchieves | internal/oidc/mapper_admin_service.go:261-294 | An owner deletes exactly a mapper that is there and whose claim is not protected |
| RegistryOutcomes.ProtectedNames | internal/oidc/mapper_admin_service.go:62-72 | Which twenty-one claims no write carries, and that nobody but an owner writes anything |
| RegistryOutcomes.SeedHasFourScopes | cmd/bootstrap.go:587-625 | A tenant starts with the four scopes of the protocol, enabled and builtin, all but the one for refresh tokens granted by default |
| RegistryService.Registry.FindScopeByName | internal/oidc/scope_admin_repo.go:62-80 | A scope of the tenant with the name, and none only when there is none |
| RegistryService.Registry.ListMappers | internal/oidc/scope_admin_repo.go:194-211 | The rows of one scope, all of them and no other |
| RegistryService.Registry.CountMappers | internal/oidc/scope_admin_repo.go:237-247 | How many mappers the scope holds |
| RegistryService.Registry.FreeName | internal/oidc/scope_admin_service.go:307-319 | Whether nobody but the named scope carries the name |
| RegistryService.Registry.FreeClaim | internal/oidc/mapper_admin_service.go:299-312 | Whether no mapper of the scope but the named one releases the claim |
| RegistryService.Registry.CreateScope | internal/oidc/scope_admin_service.go:126-175 | Owner only, free name only, never builtin |
| RegistryService.Registry.UpdateScope | internal/oidc/scope_admin_service.go:183-241 | Leaves the name of a builtin scope alone, and renames any other only to a free name |
| RegistryService.Registry.DeleteScope | internal/oidc/scope_admin_service.go:249-303 | Refuses a builtin scope and one a client names, otherwise deletes it with its mappers |
| RegistryService.Registry.CreateMapper | internal/oidc/mapper_admin_service.go:132-193 | Refuses a protected claim, a large static value, a missing scope, a full scope and a taken claim, in that order |
| RegistryService.Registry.UpdateMapper | internal/oidc/mapper_admin_service.go:200-257 | Checks the stored claim as well as the new one |
| RegistryService.Registry.DeleteMapper | internal/oidc/mapper_admin_service.go:261-294 | Refuses a protected mapper |
| Claims.Resolve | internal/oidc/claims_service.go:105-118 | The loop that fills the two maps computes the claims of the mappers in their order |
| Claims.LastPutWins | internal/oidc/claims_service.go:105-118 | A claim is present in a place exactly when some mapper resolves and reaches it, and the last one gives the value |
| ClaimsOutcomes.StandardAttributes | internal/oidc/claims_service.go:144-175 | Each key of the whitelist releases its own field of the profile where the person carries one, and any other key nothing |
| ClaimsOutcomes.OtherSources | internal/oidc/claims_service.go:129-139 | A mapper of the bag releases the attribute its key names unless it is absent or null; a membership or static mapper releases nothing |
| ClaimsOutcomes.SeedReleases | cmd/bootstrap.go:587-625 | A tenant as seeded releases to UserInfo exactly the standard attributes the person carries whose scope was asked for, and nothing to the ID token, in any order of the rows |
| Claims.OrderFreeIffAgreeing | internal/oidc/claims_service.go:80-124 | The two maps are the same for every order of the mappers if and only if mappers that put one claim in one place agree on its value |
| Claims.OneScopeIsOrderFree | internal/oidc/claims_service.go:80-124 | In every reachable registry the claims of a request for one scope do not depend on the order of the rows |
| Claims.TrustIsWhatWasVerified | internal/oidc/claims_service.go:144-168 | In every reachable registry, for any scopes and any order, `email_verified` reaches UserInfo exactly when the email scope is asked for and enabled and the person has an address, with the value the gateway holds, never the ID token; no other protected claim is released |
| OwnersTheorems.GuardIsExact | internal/organization/member_service.go:382-440 | When the guard refuses for the last owner and for the last local owner, as equivalences over the rosters; what it lets through leaves an owner, and a local owner if there was one |
| OwnersTheorems.OwnersAreKept | internal/organization/member_service.go:241-315 | Over any run of grants, role changes and revokes a tenant with an active owner keeps one and a tenant with a local owner keeps one, if each tenant grant is to a person not seated or one the guard would let through |
| OwnersTheorems.GrantEmptiesTheOwners | internal/organization/member_service.go:241-251 | A grant leaves no owner if and only if it takes the role from the only active owner, and no local owner if and only if it takes it from the only local one |
| OwnersTheorems.OwnerLocksThemselvesOut | internal/organization/member_service.go:241-275 | The concrete grant that does it, which a role change refuses |
| OwnersTheorems.LocalOwnerGrantedAway | internal/organization/member_service.go:241-275 | The concrete grant that takes the only local owner, which a role change refuses |
| OwnersTheorems.InactiveOwnerStays | internal/organization/member_service.go:382-409 | The concrete removal of an inactive owner that is refused although an active owner would be left |
| OwnersTheorems.NobodyRises | internal/organization/member_service.go:41-49 | People who neither manage the tenant nor own the organization never make an owner of it or move the tenant roster, by any run of membership writes of their own |
| OwnersOutcomes.TenantAdmissionIsExact | internal/organization/member_service.go:448-458 | A write to the tenant roster is admitted if and only if its actor sits there as IAM_OWNER and it confers tenant roles alone; an administrator is forbidden |
| OwnersOutcomes.OrgAdmissionIsExact | internal/organization/member_service.go:459-485 | A write to an organization is admitted if and only if its actor manages it or the tenant, the roles are its own, ORG_OWNER comes from an owner of it or a manager of the tenant, and it is there |
| OwnersOutcomes.OwnersAreTheActiveSeats | internal/tenant/repo.go:177-256 | Who counts as an owner and as a local owner |
| OwnersOutcomes.AddAchieves | internal/organization/member_service.go:241-251 | A grant is made if and only if it is admitted and commits, and moves one seat |
| OwnersOutcomes.UpdateAchieves | internal/organization/member_service.go:258-275 | A role change is made if and only if it is admitted, the person sits there, a second active owner and another local owner are left where it demotes one, and it commits; each refusal exactly |
| OwnersOutcomes.RemoveAchieves | internal/organization/member_service.go:279-315 | The same for a revoke, which empties one seat |
| OwnersOutcomes.OnlyOwnersMoveTheTenant | internal/organization/member_service.go:454-457 | A step that moves the tenant roster had an IAM_OWNER as actor |
| OwnersOutcomes.OnlyManagersMoveAnOrg | internal/organization/member_service.go:459-485 | A seat of an organization moves only by a write to it of somebody who manages it or the tenant |
| OwnersOutcomes.TenantStandsWithoutOwner | internal/organization/member_service.go:454-457 | Over any run, people without an IAM_OWNER among them, administrators included, leave the tenant roster as it is |
| OwnersService.ScanLocalOwners | internal/tenant/model.go:69-79 | Whether the list is not empty and the write takes every owner in it |
| OwnersService.Members.CountOwners | internal/tenant/repo.go:177-192 | How many active accounts sit as owner |
| OwnersService.Members.ListLocalOwners | internal/tenant/repo.go:217-256 | The owners the local compare signs in, each of them |
| OwnersService.Members.Admit | internal/organization/member_service.go:448-485 | The role gate of every write, refusal by refusal |
| OwnersService.Members.GuardOwner | internal/organization/member_service.go:382-440 | The two guards in their order |
| OwnersService.Members.Save | internal/organization/member_service.go:318-350 | Writes one roster row, or nothing when the transaction fails |
| OwnersService.Members.Add | internal/organization/member_service.go:241-251 | Grants, and replaces the roles of a sitting member, without the guard |
| OwnersService.Members.UpdateRoles | internal/organization/member_service.go:258-275 | Changes the roles of a sitting member, behind the guard |
| OwnersService.Members.Remove | internal/organization/member_service.go:279-315 | Revokes one membership, behind the guard |

## Left out

- HTTP handlers, DTO validation, SQL text, paging and sorting, the admin list reads, the web UI: no state rule.
- Cryptography, JSON and WebAuthn verification: assumed as inverses, an injective digest, and an outcome.
- Redis failures in the session cache: a failed delete leaves a stale copy until its deadline, so the agreement of cache and table is claimed only when Redis calls succeed. A failed delete of a passkey challenge is modelled.
- Overlapping polls, overlapping wrong codes, concurrent owner revokes and concurrent registry writes: the code names these races itself, so those calls are single steps. An assertion of a passkey is one step too: its write-back asks again, in the transaction, whether the device is the person's and live.
- Several clock readings within one call: one reading is used.
- Fields that no rule reads: the address, the user agent and the typed identifier of a session, the moment it was terminated, and the sorted factor names of the ID token.
- The audit rows outside the session service: whether the write succeeded is modelled, what it says is not. A refused QR scan and an unknown identifier leave their audit row unmodelled.
- The timing floor and the decoy hash of the password step: a property of time; the decoy matches nothing.
- Session ids, user ids, transaction ids and grant ids are assumed not to collide; a ceremony of a person and one of a sign-in have different holders.
- The authn sessions of the protocol engine (`SaveSession`, `FindSession`): one upsert and one read.
- A failing statement inside `SaveGrant`: a save runs at the token endpoint, whose transaction makes its writes all or nothing. The statements of a replay are modelled one by one.
- What the protocol engine answers after a grant was found: a refusal later in the request takes nothing back, because the read wrote nothing.
- What the protocol engine itself saves: a save writes a grant it just read, under its own token or one never used, and undoes no revocation (`GrantModel.Writable`).
- The authenticator (TOTP) module: whether an account holds an active one is a parameter of the guard, read at the claim of an enrolment. One that lands after that is not counted among the devices of a person.
- The enrolment and challenge budgets of passkeys, the exclude list, the origin checks and unreadable stored rows: folded into the flag that says a start was allowed.
- Case-insensitive and accent-insensitive comparison of names by the database collation, and a write that changes nothing being counted as no row: names compare exactly.
- Soft-deleted scopes, mappers and memberships are absent rows; no code modelled here reads them back. Removed passkeys are kept, because a registration reads them.
- One tenant at a time in the owner guard: every read and write of it carries one tenant id. Accounts, directories and organizations do not change during such a run.
- Projects, applications, authentication policy, federation administration and notifications: role checks and one-row writes.
