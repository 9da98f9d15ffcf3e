# Verification of the authentication service

The service is a set of HTTP handlers over Postgres tables: users and roles, permission
overrides, OAuth identities, refresh tokens, and one-time tokens for e-mail verification and
password reset. No handler opens a transaction. Each is a short program of SQL statements that
other requests may interleave with and that may stop after any of them. This project models that
in Dafny and proves what survives it. `dafny verify dfyconfig.toml` checks everything.

## How the model is built

* **Tables** (`schema.dfy`). One map per table, keyed by its primary key or by the unique column
  the code reads by, the rows the migration seeds, and the constraints it declares.
* **Statements** (`queries.dfy`). A read is a function of the tables. A statement that writes is a
  value of type `Write`, and `Commit` is its effect.
* **Handlers** (`handlers.dfy`). A `Pc` names the next statement of a request and holds the locals
  still in scope. `Step` runs that statement and the local code up to the next one. Random values
  and the database's order of ties are parameters of the step.
* **Runs** (`runs.dfy`). Any number of threads; a step spawns a request, runs one statement of a
  thread, abandons a thread, or lets time pass. A `History` is a start state and the steps taken.
  A claim about who did what, and when, is a claim about indices into it, so parents of refresh
  tokens, logs of grants and the like need no ghost state: they are read off the run.
* **The invariant** (`growth.dfy`, `locals.dfy`, `origins.dfy`, `integrity.dfy`). What a statement
  may do to the tables, what a thread's locals say about them while everybody else runs, and where
  each program point and each write comes from. Every theorem about runs rests on these.
* **Requests and answers** (`requests.dfy`, `endings.dfy`, `answers.dfy`). What each thread still holds
  of the request it was spawned with, with what result each statement may end a request, and from both,
  what every request is answered.
* **The theorems**, one file a subject: `rotation.dfy`, `sessions.dfy`, `tokens.dfy`, `rbac.dfy`,
  `delegation.dfy`, `credentials.dfy`, `accounts.dfy`, `paging.dfy` with `listing.dfy`, and the
  limits of each in `races.dfy`, `ties.dfy`, `openings.dfy` and `orphans.dfy`.
* **The imperative service** (`store.dfy`, `api.dfy`, `service.dfy`). A class whose fields are the
  tables, with a method per statement; the handlers as methods on it; and a server whose ghost
  field is a run of the model. Each method is proved equal to its specification, and the server to
  refine the model (`solo.dfy`), so every theorem about runs holds of it.

## Main results

* **Answers.** For every kind of request and in every interleaving, what a finished request was
  answered and what it wrote is decided, both ways, by what it brought and by the tables its own
  statements met (`Answers.RegisterAnswers` to `Answers.AdministerAnswers`). Behind every account
  lies a request that asked for it as it is (`Answers.InsertIsAsked`).
* **Delegation.** Whoever may assign roles, at any moment of any interleaving, does so by a finite
  chain of checked delegations from an account the bootstrap command created
  (`Delegation.Provenance`). Without that command nobody ever gets past a permission check
  (`Delegation.NoEscalation`). Role claims in access tokens change nothing
  (`Delegation.RoleClaimsIrrelevant`).
* **Rotation.** A refresh token with a successor is revoked for good, and every successor stems
  from a look-up made before the first revocation (`Rotation.ParentRevoked`,
  `Rotation.LookupBeforeRevocation`). If refreshes with one token do not overlap, a session is a
  path with one live end (`Sessions.OneLivePerFamily`); one request at a time, a refresh conserves
  everybody's live tokens (`Sessions.RefreshConserves`). A dead family stays dead (`Sessions.DeadStaysDead`).
* **One-time tokens.** Used reset tokens and requests past consumption correspond one to one
  (`Tokens.UsedIsRedeemed`); behind every password change is a whole recovery of that very account
  (`Tokens.ResetChain`); an account is verified exactly if created so or verified by both steps of
  one request (`Tokens.VerifiedExactly`); a reset revokes every earlier token of the user for good
  (`Tokens.ResetCloses`), and closes every earlier session if and only if no refresh of the user is
  past its look-up at that moment (`Races.ResetClosesExactly`); OAuth accounts never acquire a
  password (`Tokens.OauthOnly`).
* **OAuth subjects.** Callbacks for one subject sign in one account in every interleaving if and
  only if their profiles all carry one address (`Races.SubjectIsSafe`), and whatever they carry if
  they do not overlap (`Accounts.SameAccountAgain`).
* **Refinements.** The permission query answers what the log of grants and roles says
  (`Rbac.PermissionsRefineLog`), login what a ledger of credentials kept from the requests says
  (`Credentials.LoginAnswers`), and the imperative server is a run of the interleaving model
  (`Service.Server.Handle`).
* **Pages.** While others are created and changed, a client that browses by offset sees an account
  in every continuation if and only if nobody shares its creation time and that time is past
  (`Ties.BrowsingIsSafe`); any account that shares its time can be missed
  (`Ties.TieMakesClientMiss`).
* **Leftovers.** A login or registration caught between check and store by a password reset, and
  nothing else, can open a session with the old password after it (`Openings.OldPasswordsExactly`).
  A callback abandoned before its bind leaves an account nobody can ever sign in to and an address
  nobody can use again (`Orphans.OrphanNeverSignsIn`, `Orphans.AddressLost`).

Most theorems hold of every interleaving. The others say which requests must not overlap:
refreshes with one token (`Sessions.RefreshesApart`), callbacks for one subject (`Accounts.Apart`),
or, where a whole rotation is compared with the tables before it, any two (`OneAtATime` in
`serial.dfy`: a request starts only when every other has finished or been abandoned). The runs of
`Service.Server` satisfy all three. `races.dfy` says exactly what overlapping requests break: a
token can get two successors if and only if it is usable (`Races.TwiceExactlyIfUsable`), a session
can outlive a reset if and only if a refresh is past its look-up, and a subject can get two
accounts if and only if profiles for it differ in their address or lack one.

## Choices a reader should know

* SHA-256 is a free constructor, so it is injective. An Argon2 hash holds its salt and its
  password, and verification compares the password. Random ids, salts and tokens are arbitrary
  values not already stored.
* A signed access token can be presented only if the service handed it out: JWT forgery is
  excluded. Verification accepts a token for sixty seconds past its expiry, the default leeway of
  the JWT library (section 4.1.4 of RFC 7519 allows one).
* The verdict of the e-mail syntax validator is an input of the request.
* One monotone clock serves handlers and database. A handler's reading of it happens in the same
  step as the query it goes with.
* A query that fails, or whose reply is lost, ends the request: the thread is abandoned before or
  after the statement. Where the code ignores a failure (the look-up and the token of a
  registration's mail, re-sending, forgotten passwords) the step carries a flag for it and goes on
  as the code does.
* `role_id_for` is folded into the statement after it. No statement writes the roles table.
* A success without a body is one outcome, `NoContent`; e-mail verification answers it with 200, the
  others with 204.
* CITEXT folds ASCII letters. The address a look-up is given is taken as CITEXT, as the column is. A
  driver that binds it as TEXT makes the database compare with case; `find_by_email` would then
  find an account only under the spelling it was created with, while uniqueness still folds.
* The permission query's result is a set, as `load_permissions` collects it.

## Where the code and its documentation disagree

The code is followed in each case.

* Registration documents a 409 for a taken address (`crates/api/src/routes/auth.rs:137`). The
  unique violation becomes a `Database` error (`crates/db/src/lib.rs:55-62`);
  `Accounts.RegistrationFails` says that this happens exactly then.
* Password reset documents a 400 for a short password (`crates/api/src/routes/auth.rs:517`). The
  check yields a validation error (`Tokens.ShortRefused`).
* Logout documents a 401 (`crates/api/src/routes/auth.rs:245`). The handler asks for no bearer
  token and always answers 204 unless the query fails (`Rotation.LogoutSucceeds`).

## Model

| member | source | states |
|---|---|---|
| Schema.FoldIgnoresCase | migrations/0001_init_auth_schema.sql:53 | e-mail addresses are CITEXT: two are one address exactly if they have the same characters up to the case of ASCII letters |
| Growth.WriteConstraints | migrations/0001_init_auth_schema.sql:11-124 | every statement the database accepts keeps the keys, foreign keys, case-folded e-mail uniqueness and the seeded catalogue |
| Growth.EmailsStayUnique | migrations/0001_init_auth_schema.sql:53 | no INSERT or UPDATE the database accepts can leave two accounts with one address |
| Growth.WriteGrows | crates/db/src/users.rs:133-379 | no statement deletes a row, changes an e-mail, an owner or an expiry, adds or removes the presence of a password, or clears a verified, revoked or used mark |
| Growth.WriteUsers | crates/db/src/users.rs:133-368 | which columns of which account each statement changes, the update time among them, and that it leaves every other account alone |
| Growth.WriteSessions | crates/db/src/users.rs:229-250 | a revocation stamps the token it names with the moment, again if revoked before; a reset stamps only the user's unrevoked ones; no other row changes |
| Growth.WriteTokens | crates/db/src/users.rs:271-353 | a consumption stamps its token with the moment and changes nothing else of any token |
| Growth.WriteAccounts | crates/db/src/users.rs:25-379 | a new account, token, verified mark or used mark is there because of the one statement that writes such a thing for that very key |
| Locals.StepKept | crates/api/src/routes/auth.rs:107-614 | from sound tables each statement of each handler is one the database accepts, never gives a password to an account without one, and leaves the handler's next locals true |
| Origins.Origin | crates/api/src/routes/auth.rs:107-614 | which point of which handler leads to which, under what condition on the tables, and the only points that issue each write with the values they put in it (token lifetimes, creation columns, owners) |
| Integrity.StepInv | crates/api/src/routes/auth.rs:107-614 | one step of any thread keeps the constraints, and with them what every other thread in flight has learnt from the tables |
| Integrity.Reachable | migrations/0001_init_auth_schema.sql:11-124 | the constraints hold, and every thread's locals are true, in every state of every interleaving with aborts and clock ticks |
| Integrity.Persist | crates/db/src/users.rs:133-379 | from any state of a run to any later one rows only gain marks: owners, e-mails, expiries and password presence stay |
| Integrity.EntryFirst | crates/api/src/routes/auth.rs:215-466 | a request executes its first statement once |
| Rotation.RotationSteps | crates/api/src/routes/auth.rs:215-234 | every successor token was stored by one thread that saw its parent usable, then revoked it, then found the user, with no other statement between |
| Rotation.ParentRevoked | crates/api/src/routes/auth.rs:219-233 | under any interleaving a token with a successor is revoked for good, has the successor's user, and was stored earlier |
| Rotation.LiveIsLeaf | crates/api/src/routes/auth.rs:219-233 | an unrevoked token has no successor |
| Rotation.LookupBeforeRevocation | crates/api/src/routes/auth.rs:219-228 | each successor of a token stems from a look-up made before that token was first revoked, whoever revoked it |
| Rotation.RevokedIsRefused | crates/api/src/routes/auth.rs:223-225 | a refresh that looks up a token at any time after its revocation answers Unauthorized and writes nothing |
| Rotation.LogoutEnds | crates/api/src/routes/auth.rs:249-257 | logout revokes the presented token for good and changes no other token |
| Rotation.RevokedBy | crates/db/src/users.rs:244-250 | a revoked token was revoked by a logout with it, a refresh with it, or a password reset of its user, and by nothing else |
| Rotation.Minted | crates/db/src/users.rs:229-242 | every stored refresh token was stored by some step of the run |
| Rotation.MintedOnce | migrations/0001_init_auth_schema.sql:80-89 | no refresh token is stored twice |
| Sessions.HasLineage | crates/api/src/routes/auth.rs:215-234 | every token of every run descends by a finite chain of rotations from the token of a registration, login or callback |
| Sessions.SerialRefreshesApart | crates/api/src/routes/auth.rs:215-234 | serving one request at a time keeps refreshes with one token from overlapping |
| Sessions.OneSuccessor | crates/api/src/routes/auth.rs:215-234 | no token is rotated twice if refreshes with it do not overlap before they revoke it, whatever else overlaps |
| Sessions.OneLivePerFamily | crates/api/src/routes/auth.rs:215-234 | if refreshes with one token never overlap so, a session is a single path of rotations with at most one unrevoked token, its end |
| Sessions.SessionsBounded | crates/api/src/routes/auth.rs:596-614 | if refreshes with one token never overlap so, a user never has more unrevoked tokens than sessions started |
| Sessions.RotationRows | crates/api/src/routes/auth.rs:219-233 | with one request at a time a rotation leaves exactly the rows its look-up saw, with the parent revoked and one fresh token added |
| Sessions.RefreshConserves | crates/api/src/routes/auth.rs:215-234 | a successful refresh trades the parent for the child in its user's unrevoked tokens and leaves every other user's alone, so no count changes |
| Sessions.Lifetime | crates/api/src/routes/auth.rs:602-608 | a refresh token expires the configured number of days after the moment it was stored, forever |
| Sessions.RotatedInTime | crates/api/src/routes/auth.rs:223-225 | with the clock steady inside handlers a token is only ever rotated strictly before it expires |
| Sessions.DeadIsBarren | crates/api/src/routes/auth.rs:223-225 | a token found revoked or expired while no request is under way never gets a successor, however later requests interleave |
| Sessions.DeadStaysDead | crates/api/src/routes/auth.rs:215-234 | a family whose tokens are all revoked or expired while no request is under way never gains a member |
| Tokens.RedeemStep | crates/db/src/users.rs:339-353 | consuming a reset token hits only an unused, unexpired row, marks it used, and hands on that row's user |
| Tokens.RedeemedOnce | crates/db/src/users.rs:339-353 | no reset token is consumed twice and no request consumes two, under any interleaving |
| Tokens.UsedIsRedeemed | crates/api/src/routes/auth.rs:454-466 | used reset tokens correspond one to one to the threads past the consuming step, abandoned ones included |
| Tokens.PasswordStep | crates/api/src/routes/auth.rs:460-463 | a password changes only right after the same request consumed a token of that account, to the password that request carried |
| Tokens.ResetRequested | crates/api/src/routes/auth.rs:435-451 | a reset token is stored, good for one hour, only after the same request found an account with a password under the address it named |
| Tokens.ResetChain | crates/api/src/routes/auth.rs:435-466 | behind every password change: a request naming the account's address, a token stored for the account, its consumption within the hour, and the change by the consuming request |
| Tokens.OneChange | crates/api/src/routes/auth.rs:454-466 | one consumed token allows at most one password change |
| Tokens.ChangesBounded | crates/api/src/routes/auth.rs:454-466 | password changes in a run are never more than used reset tokens |
| Tokens.PasswordsLong | crates/api/src/routes/auth.rs:503-508 | no account in any reachable state has a password shorter than eight characters |
| Tokens.Creation | crates/db/src/users.rs:25-53 | every account was created by some step, and keeps the e-mail, name, creation time and presence of a password it was created with |
| Tokens.OauthOnly | crates/api/src/routes/auth.rs:584-590 | an account has a password, at any time, exactly if it was registered or bootstrapped; one made by the callback never has one and no reset token or reset thread past consumption names it |
| Tokens.VerifiedExactly | crates/api/src/routes/auth.rs:337-350 | an account is verified exactly if it was created verified or one request both consumed a verification token of it and marked it |
| Tokens.UsedVerification | crates/api/src/routes/auth.rs:341-347 | a used verification token's user is verified or the request that used it stands, running or abandoned, before the marking step |
| Tokens.VerificationChain | crates/api/src/routes/auth.rs:362-379 | a verification token is consumed within a day of being stored, for the account it was stored for, which had registered or asked again while unverified |
| Sessions.SurvivesByRotation | crates/api/src/routes/auth.rs:219-233 | in every interleaving, a live token of a session begun before a reset closed has in its lineage a rotation that looked its parent up before and stored its child after |
| Sessions.ResetClosesSessions | crates/api/src/routes/auth.rs:462-464 | if no refresh of the user is past its look-up when the reset closes, no earlier session ever has a live token again |
| Sessions.ResetClosesSerially | crates/api/src/routes/auth.rs:462-464 | with one request at a time a reset closes every earlier session of the user for good |
| Tokens.ResetCloses | crates/db/src/users.rs:370-379 | once a reset reaches its last step every token of the user stored before is revoked for good and no other user's token has changed |
| Tokens.LiveSinceReset | crates/api/src/routes/auth.rs:462-464 | an unrevoked token of that user was stored after that step, with refreshes, logouts and logins running alongside |
| Rbac.QueryIsOverrideOrRole | crates/db/src/users.rs:148-178 | the name-based UNION / NOT IN query equals: an override decides, without one the role does; this needs permission names to be unique |
| Rbac.RoleEncoding | crates/db/src/users.rs:383-387 | each role's name finds one row, and that row's name parses back to the role |
| Rbac.PermissionEncoding | migrations/0001_init_auth_schema.sql:23-32 | exactly the three seeded names resolve to a permission, each to one |
| Rbac.RoleMapping | migrations/0001_init_auth_schema.sql:34-48 | admin maps to every seeded permission, moderator to users.read, user to none |
| Rbac.RoleStored | crates/db/src/users.rs:133-139 | the role column always holds the role last logged by an account's creation or a set-role request |
| Rbac.OverrideStored | crates/api/src/routes/admin.rs:147-155 | the override table always holds, for each user and seeded permission, the last grant or revocation logged, and nothing else |
| Rbac.PermissionsRefineLog | crates/db/src/users.rs:148-178 | after any run the permission query answers what the last grant or revocation logged says, and without one what the last role logged maps to |
| Rbac.OnlySeeded | crates/auth/src/permissions.rs:10-49 | no run gives anyone a permission the migration did not seed, for all thirteen the code can name |
| Rbac.RoleRoundTrip | crates/db/src/users.rs:84-106 | the users-roles JOIN finds every account and reads back the role last written; the fallback to user is never taken |
| Rbac.RefreshFindsUser | crates/api/src/routes/auth.rs:229-233 | refresh never misses the user of the token it looked up, and issues for that user's role of the moment |
| Delegation.CheckedFirst | crates/api/src/routes/admin.rs:78-158 | a privileged step was preceded, in its thread, by a check at which its actor held the required permission |
| Delegation.GatedFirst | crates/api/src/middleware/auth.rs:60-80 | before the check came the gate; the actor's e-mail is verified from the gate on, when the action lands and ever after |
| Delegation.ChangeIsAction | crates/api/src/routes/admin.rs:87-155 | a role, active flag or override changes only by the admin request for that target and value |
| Delegation.ChangesAreGated | crates/api/src/routes/admin.rs:84-88 | so every such change in any interleaving has its gate and its check behind it |
| Delegation.Conferred | crates/api/src/routes/admin.rs:87-155 | the step by which somebody comes to hold users.assign_roles is the bootstrap command or a request that asks for just that |
| Delegation.Provenance | crates/api/src/routes/admin.rs:84-155 | whoever holds users.assign_roles at any moment does so by a finite chain of delegations from an account created by create_admin; each link is the very step by which its holder came to hold the right, and was checked earlier in the run |
| Delegation.NoEscalation | crates/api/src/routes/auth.rs:85-91 | in a run without create_admin no thread gets past a permission check, no role but user and no override is ever logged, and every permission set is empty |
| Delegation.NoPrivilegeStored | migrations/0001_init_auth_schema.sql:40-48 | in such a run the override table stays empty and every account reads back as user |
| Delegation.Authenticated | crates/api/src/middleware/auth.rs:32-51 | behind every privileged step stands an access token that this service handed out, whose subject is the actor, presented within its lifetime plus the verifier's leeway, and the session stored when it was issued |
| Delegation.RoleClaimsIrrelevant | crates/api/src/middleware/auth.rs:47-49 | two runs that differ only in the role claims of their bearer tokens have the same tables throughout |
| Credentials.LedgerKept | crates/db/src/users.rs:25-53 | at every moment the accounts agree with a ledger of id, password and active flag by case-folded e-mail, kept from the requests the threads were spawned with and, for a reset, from the account its token was stored for |
| Credentials.LoginAnswers | crates/api/src/routes/auth.rs:180-200 | a finished login, by the address and password sent and the ledger of its look-up: Auth if they do not match, Forbidden if they do and the account is inactive, and else a pair whose subject is the ledger's account, whose role claim is the role last given to it, and whose session is stored |
| Credentials.LoginFollowsLedger | crates/api/src/routes/auth.rs:180-200 | a login is accepted exactly if the ledger's account is active and the password the one last set by register, create_admin or reset; otherwise the error says which failed |
| Requests.AtTheDoor | crates/api/src/middleware/auth.rs:32-51 | a request is refused before any statement exactly for a bad address or short password, with a validation error, or for its bearer, with Unauthorized |
| Requests.AlwaysFits | crates/api/src/routes/auth.rs:107-614 | wherever a thread stands in whatever interleaving, it holds the address, password, digest, profile or action that its request brought |
| Endings.EndedAt | crates/api/src/routes/auth.rs:107-614 | for each statement, the results it may end its request with, and the condition on the tables and the write behind each |
| Answers.DoorAnswers | crates/api/src/routes/auth.rs:112-113 | a finished request was answered with a validation error exactly if its form is bad, and with Unauthorized if its bearer is; and then ran nothing |
| Answers.InsertIsAsked | crates/api/src/routes/auth.rs:107-117 | behind every new account lies a request, not refused, that asked for it: its address, a hash that verifies its password of at least eight characters, its name, and the role and verified mark of its kind |
| Answers.InsertDecides | crates/db/src/users.rs:25-53 | an account-creating statement creates the account exactly as asked unless the address is taken, and then fails with Database |
| Answers.LoginDecides | crates/api/src/routes/auth.rs:184-198 | the look-up of a login goes on exactly if an active account has the address and the password, and then for it and in its role; with the two errors told apart |
| Answers.LookupDecides | crates/api/src/routes/auth.rs:219-225 | a refresh goes on exactly if its token is stored, unrevoked and before its expiry; otherwise it is refused and nothing changes |
| Answers.VerifyDecides | crates/db/src/users.rs:292-306 | a verification token is consumed exactly if it is stored, unused and before its expiry; otherwise the answer is BadRequest and nothing is written |
| Answers.ResetDecides | crates/db/src/users.rs:339-353 | a reset token is consumed exactly if it is stored, unused and before its expiry; otherwise the answer is BadRequest and nothing is written |
| Answers.GateDecides | crates/api/src/middleware/auth.rs:60-80 | the gate answers Unauthorized exactly to an actor without an account, EmailNotVerified exactly to an unverified one, and lets every other through |
| Answers.CheckDecides | crates/auth/src/permissions.rs:46-57 | the check answers Forbidden exactly to an actor without the required permission |
| Answers.ActDecides | crates/api/src/routes/admin.rs:49-158 | a permitted action is carried out for the target and value asked for, or fails for the one reason it can |
| Answers.RegisterAnswers | crates/api/src/routes/auth.rs:107-162 | a well-formed registration that finishes: Database exactly if the address is taken, and else the account as asked, a session, a pair naming the account in role user, and, unless lost, its verification token |
| Answers.CreateAdminAnswers | crates/api/src/commands/create_admin.rs:18-42 | a well-formed bootstrap that finishes: Database exactly if the address is taken, and else a verified administrator as asked |
| Answers.LoginAnswers | crates/api/src/routes/auth.rs:180-200 | a finished login by the tables of its look-up: which of the three results, exactly when, and a pair naming the matching account in the role last given to it |
| Answers.RefreshAnswers | crates/api/src/routes/auth.rs:215-234 | a finished refresh: if its token was fine at the look-up it was revoked and succeeded, and the pair names its user in the role of the moment; else Unauthorized and nothing was written |
| Answers.LogoutAnswers | crates/api/src/routes/auth.rs:249-257 | a finished logout revoked the token presented and succeeded |
| Answers.VerifyAnswers | crates/api/src/routes/auth.rs:337-350 | a finished verification: success, its user marked, exactly if the token presented was good; else BadRequest and nothing was written |
| Answers.ResendAnswers | crates/api/src/routes/auth.rs:362-379 | a finished re-sending: Unauthorized exactly without an account; a token stored, unless that was lost, exactly for an unverified account with an address |
| Answers.ForgotAnswers | crates/api/src/routes/auth.rs:435-451 | a finished request for recovery: always the same answer; a reset token good for an hour stored, unless lost, exactly if an account with a password has the address |
| Answers.ResetAnswers | crates/api/src/routes/auth.rs:454-466 | a finished reset with a long password: exactly if its token was good, the token is used, the password sent is set, the user's sessions are revoked, and it succeeds; else BadRequest and nothing was written |
| Answers.CallbackAnswers | crates/api/src/routes/auth.rs:569-594 | a finished callback: a known subject's owner is signed in, in the owner's role; for an unknown one an account is created as the profile says, bound and signed in, unless its address is taken |
| Answers.AdministerAnswers | crates/api/src/routes/admin.rs:49-158 | a finished admin request with a good bearer: which of gate, check and action answered it, with what, exactly when; it succeeds only by its action |
| Accounts.EmailFindsOne | crates/db/src/users.rs:55-82 | in every reachable state at most one account answers to an address, in any case, and the look-up finds it |
| Accounts.RegistrationFails | crates/api/src/routes/auth.rs:116-128 | a registration past validation that finishes ends in the database's error exactly if the address was taken at its insert, and otherwise in a token pair |
| Accounts.RegistrationFindsItself | crates/api/src/routes/auth.rs:146-159 | the look-up after a registration finds the account that registration created, under any interleaving; if it fails the pair is answered all the same |
| Accounts.RegistrationMailsItself | crates/api/src/routes/auth.rs:530-536 | the verification token of a registration is stored for the account it created |
| Accounts.OwnerFixed | crates/db/src/users.rs:180-199 | the owner of a (provider, subject) pair never changes |
| Accounts.BindEffect | crates/db/src/users.rs:188-197 | a bind keeps a known subject's owner, gives an unknown one the account at hand, and records the profile's e-mail |
| Accounts.BindAfterInsert | crates/api/src/routes/auth.rs:577-593 | a callback that binds an unknown subject has just created the account it binds |
| Accounts.FirstBind | crates/api/src/routes/auth.rs:584-593 | every identity was first bound by the request that created its owner |
| Accounts.OwnersDiffer | crates/api/src/routes/auth.rs:569-594 | no two identities share an owner |
| Accounts.IdentitiesBounded | crates/api/src/routes/auth.rs:569-594 | there are never more identities than accounts made by callbacks |
| Accounts.BindsOwn | crates/api/src/routes/auth.rs:569-594 | if callbacks for a subject do not overlap before their binds, each ends with the subject bound to the account it signs in, whatever else overlaps |
| Accounts.SameAccountAgain | crates/api/src/routes/auth.rs:299-317 | if callbacks for a subject do not overlap before their binds, all of them sign in one account, whatever profiles they bring and whatever else overlaps |
| Accounts.OneAtATimeIsApart | crates/api/src/routes/auth.rs:299-317 | serving one request at a time keeps callbacks from overlapping so |
| Accounts.OneAddressOneAccount | crates/api/src/routes/auth.rs:569-594 | however they overlap, callbacks for a subject sign in one account if those that would create it all carry one case-folded address |
| Accounts.IdentitiesMatch | crates/api/src/routes/auth.rs:569-594 | if callbacks for one subject never overlap, identities and callback-made accounts are equal in number if and only if every thread standing, or abandoned, before a bind finds its subject bound to its account already |
| Paging.PositionIsRank | crates/db/src/users.rs:114-115 | an account that shares its creation time with nobody stands in the list behind exactly those created later |
| Paging.WalkMissesNobody | crates/api/src/routes/admin.rs:49-60 | a walk by offset sees every account that existed when it began and shares its creation time with nobody, while others are created, tied or not, and changed between pages |
| Paging.WalkIsList | crates/api/src/routes/admin.rs:49-60 | with nobody created meanwhile the pages concatenate to the list |
| Paging.TiesLoseAccounts | crates/db/src/users.rs:114-115 | any account that shares its creation time can be missed by a walk over unchanging tables |
| Paging.WalksAreSafe | crates/db/src/users.rs:114-115 | walks over unchanging tables see an account, whatever the page size and the order of ties, if and only if it shares its creation time with nobody |
| UserListing.Answered | crates/api/src/routes/admin.rs:57-58 | a listing answers the window of a newest-first order of all accounts, the limit cut to 200 |
| UserListing.PageCapped | crates/api/src/routes/admin.rs:57 | no answer has more than 200 rows |
| Ties.SettledStays | crates/db/src/users.rs:25-53 | an account that shares its creation time with nobody, that time being past, never comes to share it, whoever is created |
| Ties.TieMakesClientMiss | crates/api/src/routes/admin.rs:49-60 | from any run, a client that may list can browse to the end and miss any account that shares its creation time, though nothing is written meanwhile |
| Ties.BrowsingIsSafe | crates/api/src/routes/admin.rs:49-60 | once a client may list, browsing shows an account in every continuation, whatever runs and whoever is created, if and only if nobody shares its creation time and that time is past |
| Ties.TiesHappen | crates/api/src/commands/create_admin.rs:18-25 | a run with a tie and a client that may list exists: the bootstrap command, a callback and a login within one instant |
| UserListing.BrowsingMissesNobody | crates/api/src/routes/admin.rs:49-60 | in any interleaved run a client that steps its offset by the page size to the end sees every account there was when it began and that shares its creation time with nobody by then |
| Races.OverlappingRefreshes | crates/api/src/routes/auth.rs:219-233 | from any state of any run with a usable token, two overlapping refreshes with it can both store a successor |
| Races.TwiceExactlyIfUsable | crates/api/src/routes/auth.rs:219-233 | from a moment of any run with no request under way, a stored token can yet get two successors if and only if it is usable then |
| Races.OverlappingCallbacks | crates/api/src/routes/auth.rs:577-593 | from any state of any run, two overlapping callbacks for an unknown subject, with no address or with free and different ones, can each create an account and go on to sign in to it |
| Races.SubjectIsSafe | crates/api/src/routes/auth.rs:569-594 | callbacks for a subject sign in one account in every interleaving if and only if the profiles they may bring all carry one address |
| Openings.Opener | crates/api/src/routes/auth.rs:107-200 | every session is stored right after its thread checked the account's password, created the account, or bound it |
| Openings.OpenedSince | crates/api/src/routes/auth.rs:460-464 | if nobody is about to open a session of the account when a reset changes its password, every later session was opened by a password check after the change |
| Openings.OldPasswordsExactly | crates/api/src/routes/auth.rs:460-464 | every session begun after a reset closes was opened by a password check after the change, whatever runs, if and only if nobody stands between check and store at the change |
| Openings.LiveMeansNewPassword | crates/api/src/routes/auth.rs:454-466 | with nobody between check and store at the change and no refresh past its look-up at the close, every token live afterwards goes back to a password checked after the change |
| Orphans.OrphanHasNothing | crates/api/src/routes/auth.rs:584-592 | an account whose callback was abandoned before its bind never has a password or an identity |
| Orphans.OrphanNeverSignsIn | crates/api/src/routes/auth.rs:584-592 | such an account never has a refresh token: nobody ever signs in to it |
| Orphans.AddressLost | crates/api/src/routes/auth.rs:584-590 | every later registration, bootstrap or callback with its address fails with the database's error, and every password login with Invalid credentials |
| Orphans.OrphansHappen | crates/api/src/routes/auth.rs:584-592 | from any run, a callback for an unknown subject with a free address can leave such an account |
| Races.ResetClosesExactly | crates/api/src/routes/auth.rs:462-464 | a reset at its last step closes every earlier session of the user, whatever follows, if and only if no refresh of that user is past its look-up then |
| Solo.Descends | crates/api/src/routes/auth.rs:107-614 | every handler finishes: each statement leaves fewer to come, from at most four |
| Solo.ServeAlone | crates/api/src/routes/auth.rs:107-614 | a request served alone extends any run to a run, and a one-at-a-time run to a one-at-a-time run |
| Service.Server.constructor | migrations/0001_init_auth_schema.sql:1-124 | a freshly migrated server starts an empty run |
| Service.Server.Handle | crates/api/src/routes/auth.rs:107-614 | a call for req extends a one-at-a-time run by the spawning of req and the steps of its thread, and leaves the tables and the result that req comes to when served alone; in that run req has finished with that result, so every theorem above holds of the call |
| Service.Server.Wait | crates/api/src/routes/auth.rs:223 | time passing changes nothing but the clock |
| Store.Database.constructor | migrations/0001_init_auth_schema.sql:11-124 | the migrated, otherwise empty database meets its constraints |
| Store.Database.FindByEmail | crates/db/src/users.rs:55-82 | finds the one account with the address, up to case, with its role |
| Store.Database.RoleIdFor | crates/db/src/users.rs:383-387 | finds the one row with the role's name |
| Store.Database.CreateUser | crates/db/src/users.rs:25-53 | inserts the row with the columns given, active, both times now; on a taken address fails with Database and changes nothing |
| Store.Database.SetRole | crates/db/src/users.rs:133-139 | sets the role and the update time of the one row, if there |
| Store.Database.SetActive | crates/db/src/users.rs:141-146 | sets the active flag and the update time of the one row, if there |
| Store.Database.MarkEmailVerified | crates/db/src/users.rs:308-314 | sets the verified mark of the one row, if there |
| Store.Database.UpdatePasswordHash | crates/db/src/users.rs:355-368 | sets the hash of the one row, if there |
| Store.Database.GrantPermission | crates/api/src/routes/admin.rs:147-156 | inserts or overwrites the override; an unknown name changes nothing, an unknown user is an error |
| Store.Database.UpsertOauthIdentity | crates/db/src/users.rs:180-199 | binds an unknown subject; a known one keeps its owner |
| Store.Database.StoreRefreshToken | crates/db/src/users.rs:229-242 | inserts the row, or fails on a duplicate hash or missing user and changes nothing |
| Store.Database.RevokeRefreshToken | crates/db/src/users.rs:244-250 | stamps the revocation time of the one row, again if already revoked |
| Store.Database.RevokeAllRefreshTokens | crates/db/src/users.rs:370-379 | stamps all unrevoked rows of the user and no others |
| Store.Database.StoreEmailVerificationToken | crates/db/src/users.rs:271-288 | inserts the row unless its hash is there |
| Store.Database.ConsumeEmailVerificationToken | crates/db/src/users.rs:292-306 | uses the row and returns its user exactly if unused and unexpired |
| Store.Database.StorePasswordResetToken | crates/db/src/users.rs:318-335 | inserts the row unless its hash is there |
| Store.Database.ConsumePasswordResetToken | crates/db/src/users.rs:339-353 | uses the row and returns its user exactly if unused and unexpired |
| Api.IssueTokens | crates/api/src/routes/auth.rs:596-614 | stores a session for the user and answers with the pair, or answers the database's error, leaving the tables and the result its program of atomic statements comes to when served alone, and the constraints intact |
| Api.Refresh | crates/api/src/routes/auth.rs:215-234 | refuses an unknown, revoked or expired token; else revokes it, finds its user and issues tokens, leaving the tables and the result its program of atomic statements comes to when served alone, and the constraints intact |
| Api.Logout | crates/api/src/routes/auth.rs:249-257 | revokes the presented token and always succeeds, leaving the tables and the result its program of atomic statements comes to when served alone, and the constraints intact |
| Api.Register | crates/api/src/routes/auth.rs:142-162 | refuses a bad address or short password; else creates the account and starts its session, leaving the tables and the result its program of atomic statements comes to when served alone, and the constraints intact |
| Api.RegisterSession | crates/api/src/routes/auth.rs:119-161 | stores the first session, then looks the account up by address and stores its verification token, ignoring failures of the last two, leaving the tables and the result its program of atomic statements comes to when served alone, and the constraints intact |
| Api.Login | crates/api/src/routes/auth.rs:180-200 | refuses an unknown address, an account without a password and a wrong password alike, then an inactive account; else issues tokens, leaving the tables and the result its program of atomic statements comes to when served alone, and the constraints intact |
| Api.VerifyEmail | crates/api/src/routes/auth.rs:337-350 | consumes the token and marks its user verified, or refuses, leaving the tables and the result its program of atomic statements comes to when served alone, and the constraints intact |
| Api.ResendVerification | crates/api/src/routes/auth.rs:362-379 | needs a bearer; stores a token only for an unverified account with an address, leaving the tables and the result its program of atomic statements comes to when served alone, and the constraints intact |
| Api.ForgotPassword | crates/api/src/routes/auth.rs:483-501 | stores a reset token only for an account with a password; answers the same in every case, leaving the tables and the result its program of atomic statements comes to when served alone, and the constraints intact |
| Api.ResetPassword | crates/api/src/routes/auth.rs:454-466 | checks the length, consumes the token, sets the password and revokes every session, in that order, leaving the tables and the result its program of atomic statements comes to when served alone, and the constraints intact |
| Api.GoogleCallback | crates/api/src/routes/auth.rs:299-317 | signs a known subject in; for an unknown one creates an account first, verified if it has an address, leaving the tables and the result its program of atomic statements comes to when served alone, and the constraints intact |
| Api.Bind | crates/api/src/routes/auth.rs:580-593 | binds the subject, then issues tokens, leaving the tables and the result its program of atomic statements comes to when served alone, and the constraints intact |
| Api.Administer | crates/api/src/routes/admin.rs:49-158 | bearer, then gate, then permission check, then action, each refusing with its own error, leaving the tables and the result its program of atomic statements comes to when served alone, and the constraints intact |
| Api.CarryOut | crates/api/src/routes/admin.rs:57-157 | carries out the one action asked for, leaving the tables and the result its program of atomic statements comes to when served alone, and the constraints intact |
| Api.CreateAdmin | crates/api/src/commands/create_admin.rs:18-25 | refuses a bad address or short password; else creates a verified administrator, leaving the tables and the result its program of atomic statements comes to when served alone, and the constraints intact |

## Left out

- Sending e-mail and the background tasks that do: only that a token row was stored is modelled.
- `google_start`, the code exchange and the userinfo request: network. A profile is an arbitrary input, and the provider may be any name.
- HTTP routing, JSON, OpenAPI, CORS, tracing, configuration loading, shutdown: no state of their own.
- The read-only endpoints for the caller's own account and permissions: they call queries modelled here.
- Columns nothing reads back: row ids of token and identity tables, `raw_profile`, `user_agent`, `ip`, the JWT's `iss` and `jti`.
- The rows of a listing beyond their ids: the records are those of `find_by_id`.
- Malformed headers and malformed hashes: a bearer value is a token this service signed or it is not; a stored hash always parses.
- The time between a handler's clock reading and the database's own `now()` for the same statement: both are one instant.
- Failures inside Argon2, JWT encoding and the random generator.
- Claims the code does not make: a permission still held when the write lands, `is_active` barring refresh or OAuth sign-in, an administrator always remaining, one successor per refresh token when requests overlap.
- Sessions.RotatedInTime: assumes that the clock stands still inside a handler, since the expiry is checked at the look-up and the successor stored three statements later.
- Sessions.DeadStaysDead: starts from a moment with no request under way, since one already past its look-up may still store a successor.
- Store.Database.FindByEmail: find_by_id, find_user_by_oauth, lookup_refresh_token, list_users and permissions_for have no method of their own; the handlers evaluate the functions in `queries.dfy` on the store's fields.
- Schema.FoldIgnoresCase: folds ASCII letters only; CITEXT also folds other alphabets, by the database's locale.
