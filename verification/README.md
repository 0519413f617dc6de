# Verification of the auth and rate-limiting core

This project models the session and credential protocol of the scaffold (its auth service, the SQL under it, the
transaction wrapper, and the gate in front of protected routes), the fixed-window rate limiter, and the two migrations
that rewrite rows, and proves what they keep over every run and every interleaving. `dafny verify dfyconfig.toml`
checks all of it.

## What is modelled

**The protocol** (`Protocol.dfy`) is a transition system. Its state is the database (users with a password hash and an
int32 `token_version`, orgs, memberships, refresh-token rows), the password-reset keys in Redis with their expiries, one
clock, and any number of requests, each stopped between two of its statements and holding what it has read so far. One
step is one statement outside a transaction, one whole transaction, one Redis command, one signing, the clock moving on,
a new membership, or a request dying where it stands because a statement of it was lost. History is recorded beside it:
the access tokens ever signed, the log of commits, where each refresh row comes from, and the reset keys ever stored.

| file | contents |
|---|---|
| `Text.dfy`, `Security.dfy` | trimming and lowering, email normalisation, the password rule, digests and cache keys |
| `Schema.dfy` | the tables after all migrations, their constraints, and each query as a function |
| `Transactions.dfy` | `WithTx` over an arbitrary body and every failure point |
| `Bodies.dfy` | the four transaction bodies and the exact effect and report of each |
| `Protocol.dfy` | states, steps and runs |
| `Effects.dfy`, `Invariant.dfy`, `Steps.dfy`, `Runs.dfy` | the inductive invariant, part by part, and that every reachable state satisfies it |
| `Gate.dfy`, `Revocation.dfy` | the middleware, and what it admits over whole runs |
| `Credentials.dfy` | what each caller had to show: every token, commit and reset key was earned |
| `Accounts.dfy` | single use, version counts, registration races, password reset |
| `Sessions.dfy` | the refresh table refines a store of sessions; rotation families are chains |
| `Completeness.dfy` | exactly which logins each statement of a login lets through |
| `Calls.dfy` | a call's own statements in a run, whatever happens between them; what a successful call hands out and how long it is good |
| `Operations.dfy`, `PasswordReset.dfy` | what every operation answers and leaves behind, from the call to its end, in every run |
| `Answers.dfy` | the same of the calls made of the service object |
| `Overtaken.dfy` | a run in which a login is overtaken by a revocation of its user |
| `Isolation.dfy` | what other users do leaves no trace in one user's verdicts |
| `Store.dfy`, `Service.dfy` | the pool and the service as objects: one method per query, per statement and per operation, proved to be runs of the protocol |
| `RateLimit.dfy`, `RateKeys.dfy`, `Limiter.dfy` | the counter and its bound, the key printer, and the limiter over whole request sequences |
| `Migrations.dfy` | migrations 00003 and 00004 as in-place updates |

`Service.Service` ties the two views together. Its real fields are the pool, the reset cache and the clock; its ghost
fields are a protocol state and the run that leads there. Each operation performs the source's statements in the
source's order and, between two of them, calls `Yield`, whose contract lets any other requests take any steps; every
operation ends with the run still a run, the real fields equal to its last state, and its own result equal to the
outcome the run records. A state that ends a run is reachable (`Service.RunsToReachable`), so whatever is proved of
reachable states holds of the object, and what a method returns is what the theorem about its call says
(`Answers.ServiceAnswers`).

The theorems about whole calls read alike: `Served` says that a call arrives in a reachable state and ends in the run that
follows; `TurnOf` names the states in which its first, second, ... statement runs, other requests having done anything in
between; and the conclusion decides the answer, error by error, from the call's own arguments and those states.

## Assumptions

- Transaction bodies are serialised: a body runs against one database state and is published as a whole. PostgreSQL's
  default isolation is weaker than this.
- There is one clock and it never goes back; one step reads it once. A key or counter is dead from its expiry on.
- SHA-256 is injective (`Sha256` is a constructor), and generated secrets, reset tokens and token texts have not been
  used before. Generated user and org ids may clash.
- Theorems about a call's answer are about runs in which the infrastructure fails none of its statements (`Unharmed`) and
  bcrypt hashes its password. Without a JWT secret, issuer and audience nothing is signed, and a login, refresh or
  registration that gets so far answers with an internal error.
- A token text parses only if it was signed (`signed` is a map from texts to claims); JWT dates have whole seconds.
- bcrypt is a relation between hashes and passwords; hashing is a partial function, because bcrypt refuses passwords
  over 72 bytes, and what it yields the relation accepts. Go's and PostgreSQL's character tables are parameters; the laws used
  are `LowerKeepsSpaces`, `LowerIdempotent` and `ClassesDisjoint`, stated where they are used.
- The only writes are the repository's own queries, plus inserting a membership (`Join`); none deletes. Runs start from
  empty tables. Ids are in their canonical text form.
- A peer address that `net.ParseIP` accepts consists of hex digits, dots and colons (`ParsesOnlyAddresses`).

## What the proofs found

- A login that read the user before a mass revocation can still store a live refresh row after it: there is such a run
  for every configuration that accepts some email and password (`Overtaken.LoginIsOvertaken`,
  `Overtaken.LiveRowAfterRevocation`). Its access token is dead (`Overtaken.OvertakenLoginLeavesLiveRow`), but the row is
  a live session; so live rows are exactly the sessions opened since the latest revocation
  (`Accounts.LiveRowsAreOpenSessions`), not none.
- The membership table's CHECK admits only `admin` and `member`, while the repository's README recommends
  `RequireRole(auth.RoleOwner, auth.RoleAdmin)`: the owner half never admits anybody (`Revocation.OwnersAreNeverAdmitted`).
- Any unique violation while creating the user is reported as `ErrEmailExists`: the report is made exactly when the
  email or the generated user id is taken (`Bodies.EmailExistsReported`), so a clash of ids alone blames a free email
  (`Bodies.IdClashReportsEmailExists`).
- A password that is strong but too long for bcrypt burns the reset token it is presented with: the key is taken before
  the password is hashed (`Accounts.LostResetBurnsToken`).
- At `token_version` 2147483647, logout, password change and password reset of that user fail as a whole
  (`Accounts.RevokesUnlessAtMaximum`).
- The limiter's key is injective exactly when no two client texts in use are `Confusable` (`RateKeys.KeysInjectiveIff`);
  addresses never are, but a peer address that is no address could be (`RateKeys.HostTextCollides`).
- The bound on admitted requests is reached exactly when a window is two milliseconds or longer or the limit is one
  (`RateLimit.RateBoundReached`); windows in use are a minute or longer.

## Model

| member | source | states |
|---|---|---|
| Text.TrimIsCore | internal/auth/security.go:13-14 | trimming keeps the text from its first to its last character that is no space, and lowering maps each |
| Text.LowerTrimCommute | internal/middleware/ratelimit.go:183-186 | trimming and lowering in either order give the same text, so the limiter and the service normalise alike |
| Text.LowerTrimIdempotent | db/migrations/00003_auth_security.sql:6-7 | a lowered trimmed text is a fixed point of both |
| Security.NormalizedIs | internal/auth/security.go:13-25 | a normalised email is the trimmed core of the one typed, each character lowered; malformed exactly when that is empty or no bare address |
| Security.ValidatePassword | internal/auth/security.go:27-49 | the rune loop accepts exactly the passwords of twelve bytes or more with an upper-case, a lower-case and a digit character |
| Schema.Execute | db/gen/auth.sql.go:15-293 | a failing statement changes no table |
| Schema.ExecuteKeepsTables | db/migrations/00002_auth.sql:3-41 | every query keeps unique LOWER(email), int32 versions, the role CHECK and all foreign keys |
| Schema.UserByEmailUnique | db/gen/auth.sql.go:172-191 | under the unique index the lookup finds the one user whose lower-cased email matches |
| Transactions.AllOrNothing | internal/platform/database/tx.go:14-32 | for every body and failure point: nil error exactly when nothing failed and the body returned, and then the database is the sequential effect of its statements; with an error it is the old one |
| Transactions.WithTxKeepsTables | internal/platform/database/tx.go:14-41 | whatever the body and wherever it fails, every table constraint survives |
| Bodies.RegisterTx | internal/auth/service.go:133-159 | user, org and admin membership are created together or not at all; without faults exactly when ids and email are free; a taken email reports ErrEmailExists |
| Bodies.RegisterReports | internal/auth/service.go:133-159 | what a registration transaction reports under every plan of failures |
| Bodies.EmailExistsReported | internal/auth/service.go:141-143 | without faults ErrEmailExists is reported if and only if the email or the generated user id is taken |
| Bodies.IdClashReportsEmailExists | internal/auth/service.go:464-467 | an input on which the report is wrong: the id is taken and the email is free |
| Bodies.RefreshTx | internal/auth/service.go:204-244 | the presented row is spent exactly when its replacement for the same user and org is stored; without faults exactly when the row can be consumed and its user and membership exist |
| Bodies.RefreshReports | internal/auth/service.go:204-247 | what a refresh transaction reports under every plan of failures |
| Bodies.LogoutTx | internal/auth/service.go:261-275 | a live token's logout bumps the version and revokes every row of the user in one commit; any other logout changes nothing and is no error |
| Bodies.LogoutReports | internal/auth/service.go:261-275 | what a logout reports under every plan of failures |
| Bodies.PasswordTx | internal/auth/service.go:374-389 | new hash, next version and no live row in one commit, or nothing; without faults it fails exactly at the largest version |
| Bodies.PasswordReports | internal/auth/service.go:414-427 | what a password transaction reports under every plan of failures |
| Protocol.ChooseMembership | internal/auth/service.go:469-493 | the search returns the first row of the requested org, and an error only if there is none or the choice is open |
| Invariant.WorldKept | internal/auth/service.go:108-462 | every permitted effect keeps the whole invariant and only adds to the past |
| Steps.EveryStep | internal/auth/service.go:108-462 | every step of every request is one permitted effect, and commits and signatures fit the call that made them |
| Steps.NextPhaseOk | internal/auth/service.go:108-462 | the next statement of a request may rely on what it has read or written |
| Steps.PhaseKept | internal/auth/service.go:108-462 | what a stopped request relies on survives whatever others do |
| Runs.StateKept | internal/auth/service.go:108-462 | the invariant over all requests is inductive |
| Runs.ReachableOk | internal/auth/service.go:108-462 | every reachable state satisfies it |
| Runs.RunGoesOn | internal/auth/service.go:108-462 | from a reachable state every run stays reachable and rewrites nothing of the past |
| Gate.BearerRoundTrip | internal/middleware/auth.go:24-40 | the header a client sends for a token is read back as that token |
| Gate.BearerOnly | internal/middleware/auth.go:24-40 | and no other header carries a token |
| Gate.ForeignTokensRejected | internal/auth/tokens.go:65-86 | a signed token of another issuer or audience is rejected |
| Revocation.AuthExact | internal/middleware/auth.go:42-64 | in every reachable state Auth accepts exactly the signed unexpired tokens whose user has not been revoked since the row behind the token was read, and takes the bearer for the user, org and role the token names |
| Revocation.AuthLasts | internal/auth/tokens.go:36-50 | a token nobody has revoked is accepted from its signing for the configured time, less at most a second, and rejected from the end of that time on |
| Revocation.AdmitsExactly | internal/middleware/authorization.go:14-55 | with an accepted token, exactly the route of the token's org and the routes allowing its role are open |
| Revocation.RevocationIsFinal | internal/middleware/auth.go:48-59 | once a logout, password change or reset of a user has committed, in that and every later state every token minted from an earlier read is rejected |
| Revocation.InFlightTokensAreRevoked | internal/auth/service.go:431-435 | also the tokens signed only later, by a login, registration or refresh already in flight |
| Revocation.Provenance | internal/middleware/authorization.go:14-55 | who gets past Auth, RequireOrgAccess and RequireRole is taken for the user, org and role of an unexpired token, for a current membership with that role, that a login earned with that user's email and password, a registration by creating the user and org, or a refresh by spending the user's token, and no revocation since that read |
| Revocation.OwnersAreNeverAdmitted | internal/middleware/authorization.go:14-30 | a route for owners alone admits nobody |
| Credentials.TokensAreEarned | internal/auth/service.go:170-194 | over all runs: a login's token is for the user its email names and whose password at the read it gave, in an org its org_id allows; a registration's for the user it just created; a refresh's for the user and org of the token it just spent |
| Credentials.CommitsAreEarned | internal/auth/service.go:392-428 | over all runs: every new hash is of the strong password its call asked for, every password change gave a password the user had before, and every session was opened for someone who earned it |
| Credentials.KeysAreEarned | internal/auth/service.go:313-363 | every reset key was stored for a request that named its user by email, and is taken by nobody but a request that presents its token |
| Accounts.SingleUse | db/gen/auth.sql.go:15-36 | at most one commit of any refresh or logout consumes a given refresh token, and it stays revoked |
| Accounts.RowsOnlyGetRevoked | db/gen/auth.sql.go:15-36 | a row is never deleted, moved, re-dated or un-revoked in any run |
| Accounts.FailedRefreshChangesNothing | internal/auth/service.go:245-247 | a refresh whose transaction errs leaves the world, its token included, as it was |
| Accounts.VersionCountsRevocations | db/gen/auth.sql.go:214-223 | token_version is the number of committed revoking transactions of the user, and at most 2^31-1 |
| Accounts.RevokesUnlessAtMaximum | db/gen/auth.sql.go:214-223 | without faults a revoking transaction does all of it, to that user and no other, or at 2^31-1 none of it, password write included |
| Accounts.HashIsLastCommitted | db/gen/auth.sql.go:279-293 | the stored hash is that of the last committed sign-up, change or reset |
| Accounts.LiveRowsAreOpenSessions | db/gen/auth.sql.go:257-266 | conservation: a user's unrevoked rows are as many as the issueTokens inserts committed since the user's latest revocation |
| Accounts.EmailsStayUnique | db/migrations/00003_auth_security.sql:9-10 | no two users ever share LOWER(email) |
| Accounts.OneSignUpPerEmail | internal/auth/service.go:117-157 | among any interleaved registrations one commit at most creates a user for an email, with its org and admin membership |
| Accounts.UsersSignedUp | internal/auth/service.go:134-157 | every stored user comes from a committed registration |
| Accounts.RaceLoserReportsEmailExists | internal/auth/service.go:141-144 | after its lookup a call reports ErrEmailExists exactly when email or id is taken at the insert, fails without any change, and succeeds exactly when email and ids are free |
| Accounts.ResetTokenOnce | internal/auth/service.go:353-390 | a reset token drives at most one password change, of the user whose email asked for it, by the request that took it within the hour |
| Accounts.WeakResetKeepsToken | internal/auth/service.go:353-357 | a weak password is refused before the token is looked at |
| Accounts.TakenTokenIsGone | internal/auth/service.go:359-362 | a taken token is refused ever after, whatever became of the request that took it |
| Accounts.LostResetBurnsToken | internal/auth/service.go:358-372 | a reset that fails after GETDEL, as on a password bcrypt refuses, burns its token for good |
| Accounts.ResetsBoundedByKeys | internal/auth/service.go:334-337 | committed resets of a user never outnumber the reset keys stored for the user |
| Sessions.RefreshedSecrets | internal/auth/service.go:204-244 | in the session store, refreshing kills the old secret at once, the new one lives until its deadline, every other is untouched |
| Sessions.SimulatedSecrets | internal/auth/service.go:204-244 | in the stores that runs produce no two sessions share a secret, and a new secret is nobody's |
| Sessions.WorksIsConsumable | db/gen/auth.sql.go:15-36 | a secret works in the store exactly when its row can be consumed |
| Sessions.RefreshDecided | internal/auth/service.go:197-247 | in reachable states, without faults, refresh commits exactly on unrevoked unexpired tokens and else reports ErrInvalidToken |
| Sessions.TableRefinesStore | internal/auth/service.go:197-275 | over every run the table simulates the store of sessions and gives the same verdict on every secret at every time |
| Sessions.RefreshForClients | internal/auth/service.go:204-244 | after a committed refresh, in every later state the old secret works at no time; the new one works until its deadline and every other as before |
| Sessions.FamiliesAreChains | internal/auth/service.go:204-244 | of two rows of a rotation family the earlier is an ancestor of the later; both are for one user and org, and only the newest can be live |
| Sessions.RevokedFamiliesAreDead | internal/auth/service.go:261-275 | a family whose login committed before its user's latest revocation has no live row |
| Completeness.SelectionDecided | internal/auth/service.go:469-493 | selection succeeds exactly when the login names a membership or is blank with exactly one, in any listing order, and picks that one |
| Completeness.LookupDecided | internal/auth/service.go:164-180 | the lookup lets a login through exactly when its email and the last committed password name an account |
| Completeness.MembersDecided | internal/auth/service.go:182-193 | the listing lets it through exactly when it is entitled to a membership at that moment |
| Completeness.IssueCompletes | internal/auth/service.go:431-462 | from there it cannot fail, whatever has happened since it read, and the stored token is usable |
| Completeness.EveryUserHasAHome | internal/auth/service.go:151-156 | every user has a membership at all times |
| Calls.IssueEnds | internal/auth/service.go:431-462 | in every run issueTokens signs once and stores once, for the user and org it was called with, or without a JWT configuration ends in an internal error |
| Calls.HandedOutPasses | internal/middleware/auth.go:42-64 | what a call handed out passes Auth as its user in its org until the user is revoked or the time is over, and the refresh token can be consumed until its row is revoked or its time is over |
| Operations.LoginCall | internal/auth/service.go:164-195 | in every run: a malformed or unknown email or a wrong password at its first statement is ErrInvalidCredentials; then the memberships at its second statement decide between tokens for the one it is entitled to, ErrOrgSelectionRequired and ErrInvalidOrgSelection |
| Operations.RefreshCall | internal/auth/service.go:197-259 | in every run: a secret stored, live and unexpired at the rotation is answered with tokens for its row's user and org, any other with ErrInvalidToken |
| Operations.RegisterCall | internal/auth/service.go:108-162 | in every run: the email's error, then the password's, then ErrEmailExists by the lookup or the insert; otherwise the account has the email, name and password asked for and an org of its own, and tokens for it are handed out |
| Operations.LogoutCall | internal/auth/service.go:261-275 | in every run: a live secret ends every session of its user and nobody else's; any other is answered alike and changes nothing |
| Operations.ChangePasswordCall | internal/auth/service.go:392-428 | in every run: weak password, bad id, missing user, wrong password, in this order; otherwise the user, and nobody else, has the new password, the next version and no session |
| Operations.ResetPasswordCall | internal/auth/service.go:353-390 | in every run: a token whose key is stored and unexpired when presented sets the password of the key's user, any other is ErrInvalidToken |
| PasswordReset.ForgotPasswordCall | internal/auth/service.go:313-351 | in every run: success is reported, and a key is stored, under the request's own secret, for the user the normalised email names and for one hour, if and only if there is such a user at the lookup |
| PasswordReset.ForgotThenReset | internal/auth/service.go:332-390 | the chain: presented with a strong password, the token made for a user sets that user's password if it is untaken and its hour is not over, and is ErrInvalidToken if not |
| Answers.EveryCall | internal/auth/service.go:108-428 | the seven theorems for any call |
| Answers.ServiceAnswers | internal/auth/service.go:108-428 | whatever a method of the service object returns is the answer those theorems give for its call, in the state the call arrived in and the run recorded since |
| Overtaken.OvertakenLoginLeavesLiveRow | internal/auth/service.go:431-462 | a login or registration overtaken by a revocation of its user stores a row that works and hands out an access token that does not |
| Overtaken.LoginIsOvertaken | internal/auth/service.go:164-195 | the run that gets there: register, log in up to the insert, log the registration's token out |
| Overtaken.LiveRowAfterRevocation | internal/auth/service.go:442-451 | one step on, the user has a live row after the revocation |
| Isolation.SameAuth | internal/middleware/auth.go:21-64 | two worlds that agree on a user's rows and tokens give the user's headers one verdict |
| Isolation.UserIsolation | internal/auth/service.go:197-275 | deleting from a run all steps on other users, except the registrations, up to their commit, of the orgs the user joins in it, leaves it a run, and leaves every Auth, Refresh and Logout verdict of an existing user |
| Store.Pool.constructor | db/migrations/00002_auth.sql:3-41 | the empty tables satisfy the schema |
| Store.Pool.CreateUser | db/gen/auth.sql.go:108-133 | inserts the row with version 0, or fails on a clash of id or lower-cased email; the schema is kept |
| Store.Pool.CreateOrg | db/gen/auth.sql.go:38-49 | inserts the org or fails on a clash |
| Store.Pool.CreateOrgMembership | db/gen/auth.sql.go:51-74 | checks role, uniqueness and foreign keys, then inserts |
| Store.Pool.CreateRefreshToken | db/gen/auth.sql.go:76-106 | inserts a live row or fails on a clash or a missing user or org |
| Store.Pool.ConsumeRefreshToken | db/gen/auth.sql.go:15-36 | revokes and returns the row if it is live and unexpired, else finds none |
| Store.Pool.GetOrgMembershipByUser | db/gen/auth.sql.go:148-170 | returns the membership's role or finds none |
| Store.Pool.GetUserByID | db/gen/auth.sql.go:193-212 | returns the row or finds none |
| Store.Pool.GetUserByEmail | db/gen/auth.sql.go:172-191 | the object's lookup finds the user the specification names |
| Store.Pool.UpdateUserPassword | db/gen/auth.sql.go:279-293 | replaces the hash of that user only |
| Store.Pool.IncrementUserTokenVersion | db/gen/auth.sql.go:214-223 | adds one, or fails past the largest int32 |
| Store.Pool.RevokeAllUserRefreshTokens | db/gen/auth.sql.go:257-266 | revokes every row of that user and no other |
| Store.Pool.ListOrgMembershipsByUser | db/gen/auth.sql.go:225-255 | the loop returns each membership of the user exactly once |
| Store.Pool.WithTx | internal/platform/database/tx.go:14-32 | running the body on the tables and restoring them on failure is the specified transaction, for any body and failures |
| Service.Service.Register | internal/auth/service.go:108-162 | with anything happening between its statements, the call is part of a run of the protocol and returns what the run records; with a password bcrypt refuses it fails |
| Service.Service.Login | internal/auth/service.go:164-195 | a run of the protocol under any interleaving, ending in the outcome returned: the account read, the membership chosen and the tokens stored are those of its own reads |
| Service.Service.Refresh | internal/auth/service.go:197-259 | a run of the protocol under any interleaving, ending in the outcome returned: the access token is minted after, and only after, the rotation has committed |
| Service.Service.Logout | internal/auth/service.go:261-275 | a run of the protocol under any interleaving, ending in the outcome returned: an unknown, spent or expired token ends in success without effect |
| Service.Service.ForgotPassword | internal/auth/service.go:313-351 | a run of the protocol under any interleaving, ending in the outcome returned: an unknown or malformed email ends in success without effect |
| Service.Service.ResetPassword | internal/auth/service.go:353-390 | a run of the protocol under any interleaving, ending in the outcome returned: the key is taken before the transaction, so a later failure, such as bcrypt refusing the password, does not give it back |
| Service.Service.ChangePassword | internal/auth/service.go:392-428 | a run of the protocol under any interleaving, ending in the outcome returned: the old password is compared outside the transaction that writes the new one, and a new one bcrypt refuses is an error |
| Service.Service.IssueTokens | internal/auth/service.go:431-462 | mint, then store; a lost or failing insert returns its error and no tokens |
| Service.Service.LookUpRegister | internal/auth/service.go:117-123 | the early lookup refuses exactly the addresses the protocol refuses |
| Service.Service.InsertAccount | internal/auth/service.go:125-157 | the account transaction on the real tables is the protocol's, result and failure alike |
| Service.Service.LookUpLogin | internal/auth/service.go:170-180 | an unknown email and a wrong password both end in ErrInvalidCredentials |
| Service.Service.ListAndSelect | internal/auth/service.go:182-193 | whatever order the rows come in, the choice is the protocol's |
| Service.Service.MintForIssue | internal/auth/service.go:432-435 | the minted text is on record for that user, org, role, version and expiry; without secret, issuer or audience nothing is minted |
| Service.Service.MintForRefresh | internal/auth/service.go:249-258 | the same after a rotation, which is not undone when minting fails |
| Service.Service.StoreRefreshToken | internal/auth/service.go:442-461 | the real insert is the protocol's, and tokens are returned only if it succeeds |
| Service.Service.Rotate | internal/auth/service.go:204-247 | the rotation transaction on the real tables is the protocol's |
| Service.Service.RunLogout | internal/auth/service.go:261-275 | the logout transaction on the real tables is the protocol's |
| Service.Service.StoreReset | internal/auth/service.go:329-337 | the reset key is stored for that user with one hour to live |
| Service.Service.TakeReset | internal/auth/service.go:358-367 | GETDEL hands the entry out once and only before it expires |
| Service.Service.CommitReset | internal/auth/service.go:369-389 | the reset's transaction on the real tables is the protocol's |
| Service.Service.LookUpChange | internal/auth/service.go:402-409 | a missing user and a wrong password end in their own errors, before any write |
| Service.Service.CommitChange | internal/auth/service.go:411-427 | the change's transaction on the real tables is the protocol's |
| RateLimit.WindowsPartition | internal/middleware/ratelimit.go:18-24 | windows are consecutive runs of requests, each shorter than the window length and opening no sooner than one length after the last |
| RateLimit.AdmitsByHistory | internal/middleware/ratelimit.go:62-72 | a request is admitted exactly when fewer than the limit came before it in its greedily defined window |
| RateLimit.ExpiryIsBounded | internal/middleware/ratelimit.go:18-24 | a stored key expires within one window of the last request, rejected requests do not extend it, and the first request after it is admitted |
| RateLimit.RateBound | internal/middleware/ratelimit.go:18-24 | any half-open interval of k windows admits at most (k+1)*limit-1 requests, for every arrival sequence |
| RateLimit.MomentsBounded | internal/middleware/ratelimit.go:18-24 | with windows of one millisecond k windows admit at most k*limit requests |
| RateLimit.RateBoundReached | internal/middleware/ratelimit.go:18-24 | some arrivals reach that bound if and only if a window is two milliseconds or longer or the limit is one |
| RateKeys.PoliciesFit | internal/middleware/ratelimit.go:80-95 | every path's policy has a limit and a window the bound applies to, and a colon-free name |
| RateKeys.PoliciesByName | internal/middleware/ratelimit.go:80-95 | a policy's name determines the policy |
| RateKeys.SplitJoins | internal/middleware/ratelimit.go:148-148 | splitting the header at commas loses nothing and leaves no comma |
| RateKeys.FirstParsingIs | internal/middleware/ratelimit.go:143-159 | the forwarded address is the leftmost entry that is an address once trimmed, or none is |
| RateKeys.FirstForwardedIP | internal/middleware/ratelimit.go:143-159 | the loop, with its skips, finds that entry |
| RateKeys.ClientIPIs | internal/middleware/ratelimit.go:115-132 | a peer that is no trusted proxy keeps its own address whatever headers it sends, and behind one the address is still an address |
| RateKeys.ClientBehindProxy | internal/middleware/ratelimit.go:115-159 | behind a trusted proxy the client is the leftmost entry of X-Forwarded-For that is an address once trimmed; without one, a trimmed X-Real-IP that is an address; else the peer |
| RateKeys.PathPolicies | internal/middleware/ratelimit.go:80-95 | the paths with a policy of their own, each with its limit, window and scope, and the paths exempt from limiting |
| RateKeys.OneAccountOneEmail | internal/middleware/ratelimit.go:183-186 | emails the service takes for one account are one email to the limiter |
| RateKeys.PrintedName | internal/middleware/ratelimit.go:97-113 | keys of one text name one policy |
| RateKeys.KeysInjectiveIff | internal/middleware/ratelimit.go:97-113 | the key determines policy, address and email if and only if no two address texts in use are confusable |
| RateKeys.AddressKeysInjective | internal/middleware/ratelimit.go:97-113 | on hex digits, dots and colons it does |
| RateKeys.HostTextCollides | internal/middleware/ratelimit.go:115-119 | on arbitrary host text it does not: two clients, one key |
| Limiter.Redis.RunScript | internal/middleware/ratelimit.go:18-24 | INCR, and PEXPIRE on one, move the key's window as specified and no other, and leave no key without expiry |
| Limiter.Serve | internal/middleware/ratelimit.go:49-78 | skipped paths, absent Redis, absent key, Redis failure, over and under the limit: the verdict and the counters |
| Limiter.Uncounted | internal/middleware/ratelimit.go:49-60 | health, readiness and metrics requests, and requests without a client address, pass and touch no counter |
| Limiter.CountersAreHistories | internal/middleware/ratelimit.go:49-78 | whatever else is served, a counter is what its own key's requests make it |
| Limiter.VerdictByHistory | internal/middleware/ratelimit.go:62-72 | a limited request passes exactly when fewer than the limit of its key's requests came before it in its window |
| Limiter.KeysAreClients | internal/middleware/ratelimit.go:97-113 | unless their address texts are confusable, sharing a counter is having one policy, address and email |
| Limiter.UnmarkedAreApart | internal/middleware/ratelimit.go:97-119 | peers whose host text is free of ":email" are never confusable, addresses with a zone included |
| Limiter.ClientsAreIndependent | internal/middleware/ratelimit.go:49-113 | dropping every other client's requests leaves a client's verdicts as they were, unless one's address text is confusable with its own |
| Limiter.LimiterBound | internal/middleware/ratelimit.go:49-95 | over any request sequence, no key gets more than (k+1)*limit-1 requests through in k windows of its policy |
| Migrations.NormalIs | db/migrations/00003_auth_security.sql:6-7 | the rewritten email is the one stored, without surrounding spaces and lowered |
| Migrations.Database.NormalizeEmails | db/migrations/00003_auth_security.sql:6-7 | row by row in any order, the update aborts exactly when two emails become one |
| Migrations.Database.AuthSecurity | db/migrations/00003_auth_security.sql:3-10 | aborts, leaving the table alone, exactly then; else emails are normal, versions zero, and the index can be built |
| Migrations.Database.RefreshTokenOrgScope | db/migrations/00004_refresh_token_org_scope.sql:3-13 | aborts, leaving the table alone, exactly when some row's user has no membership; else every row gets one of its user's orgs |
| Migrations.ClashIsReal | db/migrations/00003_auth_security.sql:6-7 | a new value that clashes with a row not yet rewritten clashes for good |
| Migrations.Ready | db/migrations/00004_refresh_token_org_scope.sql:3-13 | together they establish every constraint the service relies on and change nothing else |
| Migrations.Database.Upgrade | db/migrations/00003_auth_security.sql:3-10 | from any database of the first schema both succeed exactly under those two conditions, with that outcome |

## Left out

- HTTP handlers, status mapping, routing, JSON, CORS, logging, metrics, health checks, configuration, email delivery: plumbing or I/O; the mail that carries a reset link is not modelled, only the key behind it.
- Me, GetOrg and the organisation's name; RevokeRefreshToken, which no code calls; created_at and updated_at columns.
- Isolation weaker than serialisable transactions, and commits whose outcome the client does not learn: a commit failure is definite, and a lost Redis reply to the limiter means the script did not run.
- Internals of bcrypt, SHA-256, JWT, uuid, net.ParseIP, CIDR matching, mail.ParseAddress and the random byte buffer behind a token: abstract functions, relations and parameters, as listed under Assumptions.
- net.SplitHostPort: a request carries the host part it yields; a nil trusted network is a network containing nothing.
- A nil user reader, with which Auth would skip the version check: main always passes one.
- Service.Service.Yield: its body has no other requests about; the operations are proved against its contract, which allows any steps by others.
- Down migrations, indexes other than the unique ones, and the update trigger.
