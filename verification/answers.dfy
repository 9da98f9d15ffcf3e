/**
 * What every request is answered, from the request itself and the tables its statements meet, in
 * every interleaving: each condition decides the result both ways.
 */
module Answers {
  import opened Basics
  import opened Schema
  import opened Queries
  import opened Handlers
  import opened Runs
  import opened Growth
  import opened Locals
  import opened Origins
  import opened Integrity
  import opened Rbac
  import opened Rotation
  import opened Paging
  import Accounts
  import UserListing
  import opened Requests
  import opened Endings

  /** Thread `t`, spawned at step `x` with `req`, has finished by state `n` with `out`. */
  ghost predicate Served(r: History, x: nat, n: nat, t: nat, req: Request, out: Outcome) {
    r.Valid() && x < n <= |r.steps| && Sent(r, x, t, req) && EndsWith(r, n, t, out)
  }

  // ---- at the door ---------------------------------------------------------------------------------

  /** A validation error is answered exactly to a bad form, and then nothing has been run. */
  lemma {:induction false} DoorAnswers(r: History, x: nat, n: nat, t: nat, req: Request, out: Outcome)
    requires Served(r, x, n, t, req, out)
    ensures out == Failed(Validation) <==> BadForm(req)
    ensures BadBearer(req, r.At(x).now) ==> out == Failed(Unauthorized)
    ensures BadForm(req) || BadBearer(req, r.At(x).now) ==> forall m: nat | x < m < n :: !IsBy(r, m, t)
  {
    hide Step, Begin, Commit, Apply, Enabled, Refuses, BadForm, BadBearer;
    AtTheDoor(r, x, t, req);
    if BadForm(req) || BadBearer(req, r.At(x).now) {
      Stopped(r, x + 1, n, t);
      StoppedSince(r, x, n, t);
    } else {
      var j := LastStatement(r, x, n, t, req, out);
      NeverInvalid(r, j);
    }
  }

  lemma {:induction false} StoppedSince(r: History, x: nat, n: nat, t: nat)
    requires r.Valid() && x < n <= |r.steps| && t in r.At(x + 1).threads && !r.At(x + 1).threads[t].Active()
    ensures forall m: nat | x < m < n :: !IsBy(r, m, t)
  {
    hide Step, Begin, Commit, Apply, Enabled;
    Stopped(r, x + 1, n, t);
    forall m: nat | x < m < n ensures !IsBy(r, m, t) {
      assert IsBy(r, m, t) ==> r.Moves(m, t);
    }
  }

  lemma {:induction false} LastStatement(r: History, x: nat, n: nat, t: nat, req: Request, out: Outcome)
    returns (j: nat)
    requires Served(r, x, n, t, req, out) && !BadForm(req) && !BadBearer(req, r.At(x).now)
    ensures x < j < n && IsBy(r, j, t) && r.Next(j) == Done(out)
  {
    hide Step, Begin, Commit, Apply, Enabled, BadForm, BadBearer, Fits;
    var i := FirstStatement(r, x, n, t, req, out);
    j := LastStep(r, n, t);
    assert r.Moves(i, t);
    Stopped(r, i, n, t);
    assert r.Moves(j, t);
  }

  lemma NeverInvalid(r: History, j: nat)
    requires r.Valid() && r.Acts(j)
    ensures r.Next(j) != Fail(Validation)
  {
    hide Step, Begin, Commit, Apply, Enabled, Named, PermissionsFor, EmailTaken, Matches, Concludes;
    EndedAt(r, j);
  }

  // ---- statement by statement ----------------------------------------------------------------------

  /** A refresh token that is stored, unrevoked and before its expiry. */
  predicate Fine(db: Tables, h: Digest, now: Time) {
    h in db.refreshTokens && db.refreshTokens[h].revokedAt == None && now < db.refreshTokens[h].expiresAt
  }

  /** A refresh goes on exactly if its token is stored, unrevoked and before its expiry; otherwise it is refused. */
  lemma {:induction false} LookupDecides(r: History, i: nat, h: Digest)
    requires r.Valid() && r.Acts(i) && r.Here(i) == RefreshLookup(h)
    ensures r.Wrote(i) == NoWrite && r.At(i + 1).db == r.At(i).db
    ensures var db := r.At(i).db;
            if Fine(db, h, r.At(i).now) then r.Next(i) == RefreshRevoke(h, db.refreshTokens[h].user)
            else r.Next(i) == Fail(Unauthorized)
  {
    hide Step, Begin, Apply, Enabled, ThreadSound, Warranted, Inv, HasRole, Names, PermissionsFor;
    EndedAt(r, i);
    Issued(r, i);
  }

  /** A verification token is consumed exactly if it is stored, unused and before its expiry. */
  lemma {:induction false} VerifyDecides(r: History, i: nat, h: Digest)
    requires r.Valid() && r.Acts(i) && r.Here(i) == VerifyConsume(h)
    ensures var tokens := r.At(i).db.verificationTokens;
            if Good(tokens, h, r.At(i).now)
            then r.Wrote(i) == UseVerification(h) && r.Next(i) == VerifyMark(h, tokens[h].user)
            else r.Wrote(i) == NoWrite && r.Next(i) == Fail(BadRequest)
  {
    hide Step, Begin, Apply, Enabled, ThreadSound, Warranted, Inv, HasRole, Names, PermissionsFor, Commit;
    EndedAt(r, i);
    Issued(r, i);
  }

  /** A reset token is consumed exactly if it is stored, unused and before its expiry. */
  lemma {:induction false} ResetDecides(r: History, i: nat, h: Digest, password: string)
    requires r.Valid() && r.Acts(i) && r.Here(i) == ResetConsume(h, password)
    ensures var tokens := r.At(i).db.resetTokens;
            if Good(tokens, h, r.At(i).now)
            then r.Wrote(i) == UseReset(h) && r.Next(i) == ResetUpdate(h, tokens[h].user, password)
            else r.Wrote(i) == NoWrite && r.Next(i) == Fail(BadRequest)
  {
    hide Step, Begin, Apply, Enabled, ThreadSound, Warranted, Inv, HasRole, Names, PermissionsFor, Commit;
    EndedAt(r, i);
    Issued(r, i);
  }

  /** The gate lets exactly verified accounts through. */
  lemma {:induction false} GateDecides(r: History, i: nat, actor: Actor, action: Action)
    requires r.Valid() && r.Acts(i) && r.Here(i) == AdminGate(actor, action)
    ensures r.Wrote(i) == NoWrite
    ensures var users := r.At(i).db.users;
            if actor.id !in users then r.Next(i) == Fail(Unauthorized)
            else if !users[actor.id].verified then r.Next(i) == Fail(EmailNotVerified)
            else r.Next(i) == AdminCheck(actor, action)
  {
    hide Step, Begin, Apply, Enabled, ThreadSound, Warranted, Inv, HasRole, Names, PermissionsFor, Commit;
    EndedAt(r, i);
    Issued(r, i);
  }

  /** The check lets through exactly actors who hold the required permission. */
  lemma {:induction false} CheckDecides(r: History, i: nat, actor: Actor, action: Action)
    requires r.Valid() && r.Acts(i) && r.Here(i) == AdminCheck(actor, action)
    ensures r.Wrote(i) == NoWrite
    ensures if Permits(PermissionsFor(r.At(i).db, actor.id), action)
            then r.Next(i) == AdminAct(actor, action) else r.Next(i) == Fail(Forbidden)
  {
    hide Step, Begin, Apply, Enabled, ThreadSound, Warranted, Inv, HasRole, Names, PermissionsFor, PermissionName;
    hide Required, Commit, Permits;
    EndedAt(r, i);
    Issued(r, i);
    RequiredName(PermissionsFor(r.At(i).db, actor.id), action);
  }

  /** The permission that each admin endpoint asks for, by its name. */
  predicate Permits(held: set<string>, action: Action) {
    match action
    case SetRole(_, _) => "users.assign_roles" in held
    case SetActive(_, _) => "users.manage" in held
    case Grant(_, _, _) => "users.assign_roles" in held
    case ListUsers(_, _) => "users.read" in held
  }

  lemma RequiredName(held: set<string>, action: Action)
    ensures PermissionName(Required(action)) in held <==> Permits(held, action)
  {
  }

  /** An action that was let through is carried out, or fails with the database's error for the one reason it can. */
  lemma {:induction false} ActDecides(r: History, i: nat, actor: Actor, action: Action)
    requires r.Valid() && r.Acts(i) && r.Here(i) == AdminAct(actor, action)
    ensures match action
            case SetRole(u, role) => r.Next(i) == Done(NoContent) && r.Wrote(i) == UpdateRole(u, RoleNumber(role))
            case SetActive(u, active) => r.Next(i) == Done(NoContent) && r.Wrote(i) == UpdateActive(u, active)
            case Grant(u, name, granted) =>
              if Named(r.At(i).db, name) && u !in r.At(i).db.users
              then r.Next(i) == Fail(Database) && r.Wrote(i) == NoWrite
              else r.Next(i) == Done(NoContent) && CarriesOut(r.At(i).db, action, r.Wrote(i))
            case ListUsers(limit, offset) =>
              && r.Wrote(i) == NoWrite
              && if limit < 0 || offset < 0 then r.Next(i) == Fail(Database)
                 else r.Next(i).Done? && r.Next(i).outcome.Listed?
  {
    hide Step, Begin, Apply, Enabled, ThreadSound, Inv, HasRole, Names, PermissionsFor, PermissionName, Required;
    hide Commit, SeedPermissions, SeedRoles, SeedRolePermissions;
    EndedAt(r, i);
    Issued(r, i);
    if action.SetRole? {
      assert Catalogue(r.At(i).db) by { CatalogueAt(r, i); }
      RoleEncoding(r.At(i).db, action.role);
    }
  }

  /** A new account of `u`: the columns the request decides, and those every account starts with. */
  ghost predicate Opens(r: History, i: nat, u: Uid, email: Option<string>, password: Option<string>,
                        name: Option<string>, role: Role, verified: bool) {
    && r.Acts(i) && r.Wrote(i).InsertUser? && r.Wrote(i).id == u
    && var row := r.Wrote(i).user;
       && row.email == email && row.displayName == name && row.verified == verified && row.active
       && row.roleId == RoleNumber(role) && row.createdAt == r.At(i).now && row.updatedAt == r.At(i).now
       && (row.password.Some? <==> password.Some?)
       && (password.Some? ==> row.password.value.Verify(password.value))
  }

  /** What an account-creating statement was asked for. */
  predicate Asks(k: Pc, email: Option<string>, password: Option<string>, name: Option<string>) {
    || (k.RegisterInsert? && email == Some(k.email) && password == Some(k.password) && name == k.name)
    || (k.AdminInsert? && email == Some(k.email) && password == Some(k.password) && name == None)
    || (k.OauthInsert? && email == k.profile.email && password == None && name == k.profile.name)
  }

  /** An account is created, exactly as asked, unless its address is taken. */
  lemma {:induction false} InsertDecides(r: History, i: nat, email: Option<string>, password: Option<string>,
                                         name: Option<string>)
    requires r.Valid() && r.Acts(i) && Asks(r.Here(i), email, password, name)
    ensures var k := r.Here(i);
            if EmailTaken(r.At(i).db, email) then r.Next(i) == Fail(Database) && r.Wrote(i) == NoWrite
            else
              && r.Wrote(i).InsertUser?
              && Opens(r, i, r.Wrote(i).id, email, password, name, if k.AdminInsert? then Admin else User,
                       k.AdminInsert? || (k.OauthInsert? && email.Some?))
              && (k.RegisterInsert? ==> r.Next(i) == RegisterStore(r.Wrote(i).id, k.email))
              && (k.OauthInsert? ==> r.Next(i) == OauthBind(k.profile, r.Wrote(i).id, User))
              && (k.AdminInsert? ==> r.Next(i) == Done(AdminCreated(r.Wrote(i).id)))
  {
    hide Step, Begin, Apply, Enabled, ThreadSound, Inv, HasRole, Names, PermissionsFor, Commit, EmailTaken, RoleIdFor;
    hide Opens;
    EndedAt(r, i);
    Issued(r, i);
    if r.Wrote(i).InsertUser? {
      InsertOpens(r, i, email, password, name);
    }
  }

  lemma {:induction false} InsertOpens(r: History, i: nat, email: Option<string>, password: Option<string>,
                                       name: Option<string>)
    requires r.Valid() && r.Acts(i) && Asks(r.Here(i), email, password, name) && r.Wrote(i).InsertUser?
    ensures var k := r.Here(i);
            Opens(r, i, r.Wrote(i).id, email, password, name, if k.AdminInsert? then Admin else User,
                  k.AdminInsert? || (k.OauthInsert? && email.Some?))
  {
    hide Step, Begin, Apply, Enabled, ThreadSound, Inv, CameBy, Warranted, PermissionsFor, Commit, RoleIdFor;
    Issued(r, i);
    assert Catalogue(r.At(i).db) by { CatalogueAt(r, i); }
    RoleEncoding(r.At(i).db, User);
    RoleEncoding(r.At(i).db, Admin);
  }

  /** The account that `req` asks for, which is not refused at the door. */
  predicate Asked(req: Request, row: UserRow) {
    match req
    case Register(email, emailOk, password, name) =>
      && emailOk && |password| >= 8 && row.email == Some(email) && row.displayName == name
      && row.password.Some? && row.password.value.Verify(password) && row.roleId == RoleNumber(User) && !row.verified
    case CreateAdmin(email, emailOk, password) =>
      && emailOk && |password| >= 8 && row.email == Some(email) && row.displayName == None
      && row.password.Some? && row.password.value.Verify(password) && row.roleId == RoleNumber(Admin) && row.verified
    case GoogleCallback(p) =>
      && row.email == p.email && row.displayName == p.name && row.password == None
      && row.roleId == RoleNumber(User) && row.verified == p.email.Some?
    case _ => false
  }

  /** Behind every new account lies a request that was sent for it. */
  lemma {:induction false} InsertIsAsked(r: History, i: nat) returns (x: nat, req: Request)
    requires r.Valid() && r.Acts(i) && r.Wrote(i).InsertUser?
    ensures x < i && Sent(r, x, r.steps[i].tid, req) && Asked(req, r.Wrote(i).user)
  {
    hide Step, Begin, Apply, Enabled, CameBy, Warranted, Inv, ThreadSound, Commit, Fits, RoleIdFor, Asked;
    var t := r.steps[i].tid;
    AlwaysFits(r, i, t);
    x := SentAt(r, i, t);
    req := RequestOf(r, i, t).value;
    AtTheDoor(r, x, t, req);
    Stopped(r, x + 1, i, t);
    Effect(r, i);
    InsertFits(r, i, req);
  }

  lemma InsertFits(r: History, i: nat, req: Request)
    requires r.Valid() && r.Acts(i) && r.Wrote(i).InsertUser? && Fits(req, r.Here(i)) && !BadForm(req)
    ensures Asked(req, r.Wrote(i).user)
  {
    hide Step, Begin, Apply, Enabled, CameBy, Warranted, Inv, ThreadSound, Commit, RoleIdFor;
    Issued(r, i);
    match req
    case Register(email, _, password, name) => InsertOpens(r, i, Some(email), Some(password), name);
    case CreateAdmin(email, _, password) => InsertOpens(r, i, Some(email), Some(password), None);
    case GoogleCallback(p) => InsertOpens(r, i, p.email, None, p.name);
    case _ =>
  }

  /**
   * A login goes on exactly if an account has the address, the password and is active, and then in that
   * account's role.
   */
  lemma {:induction false} LoginDecides(r: History, i: nat, email: string, password: string)
    requires r.Valid() && r.Acts(i) && r.Here(i) == LoginFind(email, password)
    ensures r.Wrote(i) == NoWrite && Admits(r.At(i).db, email, password, r.Next(i))
  {
    hide Step, Begin, Apply, Enabled, ThreadSound, CameBy, EndsBy, IssuedBy, Warranted, Commit, Admits, Sound;
    EndedAt(r, i);
    Issued(r, i);
    LoginLeads(r.At(i).cfg, r.At(i).db, r.At(i).now, r.Here(i), r.steps[i].choice, r.Wrote(i), r.Next(i));
    AdmitsBy(r.At(i).db, email, password, r.Next(i));
  }

  lemma LoginLeads(cfg: Config, db: Tables, now: Time, k: Pc, c: Choice, w: Write, k': Pc)
    requires k.LoginFind? && CameBy(cfg, db, now, k, w, k')
    requires k'.Done? ==> EndsBy(db, now, k, c, w, k'.outcome)
    ensures w == NoWrite
    ensures
      || (k'.IssueStore? && Accepts(db, k, k'.id) && HasRole(db, k'.id, k'.role) && k'.parent == None)
      || (exists e :: k' == Fail(e) && Refuses(db, now, k, e))
  {
    hide Accepts, HasRole, Matches;
  }

  /** An address and a password match at most one account. */
  lemma AdmitsBy(db: Tables, email: string, password: string, k: Pc)
    requires Sound(db)
    requires
      || (k == Fail(Auth) && forall id | id in db.users :: !Matches(db, id, email, password))
      || (k == Fail(Forbidden) && exists id :: Matches(db, id, email, password) && !db.users[id].active)
      || (k.IssueStore? && Accepts(db, LoginFind(email, password), k.id) && HasRole(db, k.id, k.role)
          && k.parent == None)
    ensures Admits(db, email, password, k)
  {
    hide Sound, HasEmail, HasRole;
    forall id, id' | Matches(db, id, email, password) && Matches(db, id', email, password) ensures id == id' {
      OneMatch(db, id, id', email, password);
    }
    if k.IssueStore? {
      assert Matches(db, k.id, email, password);
    }
  }

  ghost predicate Admits(db: Tables, email: string, password: string, k: Pc) {
    && (k == Fail(Auth) <==> forall id | id in db.users :: !Matches(db, id, email, password))
    && (k == Fail(Forbidden) <==> exists id :: Matches(db, id, email, password) && !db.users[id].active)
    && (k.IssueStore? <==> exists id :: Matches(db, id, email, password) && db.users[id].active)
    && (k.IssueStore? ==>
          Matches(db, k.id, email, password) && db.users[k.id].active && HasRole(db, k.id, k.role) && k.parent == None)
    && (k.IssueStore? || k == Fail(Auth) || k == Fail(Forbidden))
  }

  lemma OneMatch(db: Tables, id: Uid, id': Uid, email: string, password: string)
    requires Sound(db) && Matches(db, id, email, password) && Matches(db, id', email, password)
    ensures id == id'
  {
    hide Fold, Catalogue, ResetPasswords;
  }

  /** A stored session is answered, or looked up after registration, with an access token for its user and role. */
  lemma {:induction false} IssueDecides(r: History, i: nat)
    requires r.Valid() && r.Acts(i) && r.Here(i).IssueStore?
    ensures r.Next(i).Done? && r.Next(i).outcome.Tokens?
    ensures var pair := r.Next(i).outcome.pair;
            && Names(pair.access, r.At(i).cfg, r.At(i).now, r.Here(i).id, r.Here(i).role)
            && r.Wrote(i).InsertRefresh? && r.Wrote(i).hash == Sha256(pair.refresh)
            && r.Wrote(i).refresh == Session(r.At(i).cfg, r.At(i).now, r.Here(i).id)
  {
    hide Step, Begin, Apply, Enabled, ThreadSound, Inv, HasRole, Names, PermissionsFor, Commit, Warranted;
    EndedAt(r, i);
    Issued(r, i);
  }

  /** A known subject goes on to its owner, in the owner's role; an unknown one to a new account. */
  lemma {:induction false} SubjectDecides(r: History, i: nat, p: Profile)
    requires r.Valid() && r.Acts(i) && r.Here(i) == OauthFind(p)
    ensures var db, k' := r.At(i).db, r.Next(i);
            && r.Wrote(i) == NoWrite
            && if p.Key() in db.identities
               then k'.OauthBind? && k'.profile == p
                 && k'.id == db.identities[p.Key()].user && HasRole(db, k'.id, k'.role)
               else k' == OauthInsert(p)
  {
    hide Step, Begin, Apply, Enabled, ThreadSound, HasRole, Names, PermissionsFor, Commit, FindById, Catalogue;
    hide UniqueEmails;
    EndedAt(r, i);
    Issued(r, i);
    if p.Key() in r.At(i).db.identities {
      FindsOwner(r.At(i).db, p.Key());
    }
  }

  lemma FindsOwner(db: Tables, key: (string, string))
    requires Constraints(db) && key in db.identities
    ensures FindByOauth(db, key).Some?
  {
    hide Catalogue, UniqueEmails;
  }

  /** A bind records the profile's address and goes on to sign its account in. */
  lemma {:induction false} BindDecides(r: History, i: nat)
    requires r.Valid() && r.Acts(i) && r.Here(i).OauthBind?
    ensures var k := r.Here(i);
            r.Next(i) == IssueStore(k.id, k.role, None)
              && r.Wrote(i) == UpsertIdentity(k.profile.Key(), IdentityRow(k.id, k.profile.email))
  {
    hide Step, Begin, Apply, Enabled, ThreadSound, Inv, HasRole, Names, PermissionsFor, Commit, Warranted;
    EndedAt(r, i);
    Issued(r, i);
  }

  /** Re-sending goes on to store a token exactly for an unverified account with an address. */
  lemma {:induction false} ResendDecides(r: History, i: nat, actor: Actor)
    requires r.Valid() && r.Acts(i) && r.Here(i) == ResendFind(actor)
    ensures var users := r.At(i).db.users;
            && r.Wrote(i) == NoWrite
            && if actor.id !in users then r.Next(i) == Fail(Unauthorized)
               else if users[actor.id].verified || users[actor.id].email == None then r.Next(i) == Done(NoContent)
               else r.Next(i) == ResendStore(actor.id)
  {
    hide Step, Begin, Apply, Enabled, ThreadSound, Warranted, Inv, HasRole, Names, PermissionsFor, Commit;
    EndedAt(r, i);
    Issued(r, i);
  }

  /** A reset token is asked for exactly if an account with a password answers to the address. */
  lemma {:induction false} ForgotDecides(r: History, i: nat, email: string)
    requires r.Valid() && r.Acts(i) && r.Here(i) == ForgotFind(email)
    ensures var db, k' := r.At(i).db, r.Next(i);
            && r.Wrote(i) == NoWrite
            && (k' == Done(NoContent) || k'.ForgotStore?)
            && (k'.ForgotStore? ==> Recoverable(db, k'.id, email))
            && (!r.steps[i].choice.lost && (exists id :: Recoverable(db, id, email)) ==> k'.ForgotStore?)
  {
    hide Step, Begin, Apply, Enabled, ThreadSound, Warranted, Inv, HasRole, Names, PermissionsFor, Commit, HasEmail;
    EndedAt(r, i);
    Issued(r, i);
  }

  predicate Recoverable(db: Tables, id: Uid, email: string) {
    id in db.users && HasEmail(db.users[id], email) && db.users[id].password.Some?
  }

  /** The statements that have no branches. */
  lemma {:induction false} PlainSteps(r: History, i: nat)
    requires r.Valid() && r.Acts(i)
    ensures var k, w, k' := r.Here(i), r.Wrote(i), r.Next(i);
            && (k.LogoutRevoke? ==> w == RevokeRefresh(k.hash) && k' == Done(NoContent))
            && (k.RefreshRevoke? ==> w == RevokeRefresh(k.hash) && k' == RefreshFind(k.hash, k.id))
            && (k.VerifyMark? ==> w == UpdateVerified(k.id) && k' == Done(NoContent))
            && (k.ResetUpdate? ==>
                  && w.UpdatePassword? && w.id == k.id && w.phc.Verify(k.password)
                  && k' == ResetRevoke(k.hash, k.id))
            && (k.ResetRevoke? ==> w == RevokeAllRefresh(k.id) && k' == Done(NoContent))
  {
    hide Step, Begin, Apply, Enabled, ThreadSound, Warranted, Inv, HasRole, Names, PermissionsFor, Commit;
    EndedAt(r, i);
    Issued(r, i);
  }

  /** What is mailed, is stored first; a failure to store is ignored. */
  lemma {:induction false} MailSteps(r: History, i: nat)
    requires r.Valid() && r.Acts(i)
    ensures var k, c, now := r.Here(i), r.steps[i].choice, r.At(i).now;
            k.ResendStore? || k.ForgotStore? ==>
              && r.Next(i) == Done(NoContent)
              && r.Wrote(i) == if c.lost then NoWrite
                               else if k.ResendStore?
                               then InsertVerification(Sha256(c.mail), OneTimeRow(k.id, now + 24 * 3600, None))
                               else InsertReset(Sha256(c.mail), OneTimeRow(k.id, now + 3600, None))
  {
    hide Step, Begin, Apply, Enabled, ThreadSound, Warranted, Inv, HasRole, Names, PermissionsFor, Commit;
    EndedAt(r, i);
    Issued(r, i);
  }

  /** Refresh always finds the user of the token it looked up. */
  lemma {:induction false} FindDecides(r: History, i: nat)
    requires r.Valid() && r.Acts(i) && r.Here(i).RefreshFind?
    ensures var k, k' := r.Here(i), r.Next(i);
            r.Wrote(i) == NoWrite && k'.IssueStore? && k'.id == k.id
              && k'.parent == Some(k.hash) && HasRole(r.At(i).db, k.id, k'.role)
  {
    hide Step, Begin, Apply, Enabled, ThreadSound, Warranted, Inv, HasRole, Names, PermissionsFor, Commit;
    EndedAt(r, i);
    Issued(r, i);
  }

  /** After the account, a registration stores a session for it. */
  lemma {:induction false} StoreDecides(r: History, i: nat)
    requires r.Valid() && r.Acts(i) && r.Here(i).RegisterStore?
    ensures var k, k' := r.Here(i), r.Next(i);
            k'.RegisterFind? && Names(k'.pair.access, r.At(i).cfg, r.At(i).now, k.id, User)
              && r.Wrote(i) == InsertRefresh(Sha256(k'.pair.refresh), Session(r.At(i).cfg, r.At(i).now, k.id))
  {
    hide Step, Begin, Apply, Enabled, ThreadSound, Warranted, Inv, HasRole, Names, PermissionsFor, Commit, Session;
    EndedAt(r, i);
    Issued(r, i);
  }

  lemma {:induction false} MailEnds(r: History, i: nat)
    requires r.Valid() && r.Acts(i) && r.Here(i).RegisterMail?
    ensures r.Next(i) == Done(Tokens(r.Here(i).pair))
  {
    hide Step, Begin, Apply, Enabled, ThreadSound, Warranted, Inv, HasRole, Names, PermissionsFor, Commit, Session;
    EndedAt(r, i);
    Issued(r, i);
  }

  // ---- request by request --------------------------------------------------------------------------

  lemma {:induction false} RoleAt(r: History, i: nat, id: Uid, role: Role)
    requires r.Valid() && i <= |r.steps| && HasRole(r.At(i).db, id, role)
    ensures RoleLog(r, i, id) == Some(role)
  {
    hide Apply, Enabled, RoleLog, Step;
    RoleRoundTrip(r, i, id);
  }

  /** Step `s` of thread `t` stored the session that `pair` is for, and `pair` names `id` in `role`. */
  ghost predicate SignedIn(r: History, s: nat, t: nat, pair: TokenPair, id: Uid, role: Role) {
    && IsBy(r, s, t) && r.Wrote(s).InsertRefresh? && r.Wrote(s).hash == Sha256(pair.refresh)
    && r.Wrote(s).refresh.user == id && Names(pair.access, r.At(s).cfg, r.At(s).now, id, role)
  }

  ghost predicate SignsIn(r: History, t: nat, pair: TokenPair, id: Uid, role: Role) {
    exists s: nat :: SignedIn(r, s, t, pair, id, role)
  }

  lemma {:induction false} IssuesPair(r: History, s: nat, n: nat, t: nat, out: Outcome)
    requires r.Valid() && s < n <= |r.steps| && IsBy(r, s, t) && r.Here(s).IssueStore? && EndsWith(r, n, t, out)
    ensures out.Tokens? && SignedIn(r, s, t, out.pair, r.Here(s).id, r.Here(s).role)
  {
    hide Apply, Enabled, Step, Begin, Commit, Names;
    IssueDecides(r, s);
    var j := NextStatement(r, s, n, t, out);
  }

  /** A registration's last two steps: unless one of them is lost, a verification token for `id` is stored. */
  ghost predicate Mails(r: History, f: nat, t: nat, id: Uid) {
    && IsBy(r, f, t)
    && (r.steps[f].choice.lost
        || exists m: nat :: f < m && IsBy(r, m, t) && (r.steps[m].choice.lost || Mailed(r, m, id)))
  }

  ghost predicate Mailed(r: History, m: nat, id: Uid)
    requires r.Acts(m)
  {
    r.Wrote(m).InsertVerification? && r.Wrote(m).token == OneTimeRow(id, r.At(m).now + 24 * 3600, None)
  }

  /** What a well-formed registration does and is answered. */
  ghost predicate Registers(r: History, i: nat, t: nat, email: string, password: string, name: Option<string>,
                            out: Outcome) {
    && IsBy(r, i, t)
    && if EmailTaken(r.At(i).db, Some(email)) then out == Failed(Database) && r.Wrote(i) == NoWrite
       else && out.Tokens? && Opens(r, i, out.pair.access.sub, Some(email), Some(password), name, User, false)
            && SignsIn(r, t, out.pair, out.pair.access.sub, User)
            && exists f: nat :: i < f && Mails(r, f, t, out.pair.access.sub)
  }

  lemma {:induction false} RegisterAnswers(r: History, x: nat, n: nat, t: nat, email: string, emailOk: bool,
                                           password: string, name: Option<string>, out: Outcome)
    returns (i: nat)
    requires Served(r, x, n, t, Request.Register(email, emailOk, password, name), out)
    requires emailOk && |password| >= 8
    ensures x < i < n && Registers(r, i, t, email, password, name, out)
  {
    hide Apply, Enabled, Step, Begin, Commit, EmailTaken, Names, Opens, SignedIn, Mails;
    i := FirstStatement(r, x, n, t, Request.Register(email, emailOk, password, name), out);
    InsertDecides(r, i, Some(email), Some(password), name);
    var j := NextStatement(r, i, n, t, out);
    if !EmailTaken(r.At(i).db, Some(email)) {
      var f := RegisterTail(r, j, n, t, out);
    }
  }

  lemma {:induction false} RegisterTail(r: History, j: nat, n: nat, t: nat, out: Outcome) returns (f: nat)
    requires r.Valid() && j < n <= |r.steps| && IsBy(r, j, t) && r.Here(j).RegisterStore? && EndsWith(r, n, t, out)
    ensures out.Tokens? && out.pair.access.sub == r.Here(j).id
    ensures SignedIn(r, j, t, out.pair, out.pair.access.sub, User)
    ensures j < f && Mails(r, f, t, out.pair.access.sub)
  {
    hide Apply, Enabled, Step, Begin, Commit, Names, Session;
    StoreDecides(r, j);
    f := NextStatement(r, j, n, t, out);
    var created := Accounts.RegistrationFindsItself(r, f);
    var m := NextStatement(r, f, n, t, out);
    if !r.steps[f].choice.lost {
      var creator := Accounts.RegistrationMailsItself(r, m);
      MailEnds(r, m);
      var last := NextStatement(r, m, n, t, out);
    }
    SessionSigned(r, j, t, out, User);
  }

  lemma SessionSigned(r: History, j: nat, t: nat, out: Outcome, role: Role)
    requires IsBy(r, j, t) && r.Here(j).RegisterStore? && out.Tokens?
    requires Names(out.pair.access, r.At(j).cfg, r.At(j).now, r.Here(j).id, role)
    requires r.Wrote(j) == InsertRefresh(Sha256(out.pair.refresh), Session(r.At(j).cfg, r.At(j).now, r.Here(j).id))
    ensures SignedIn(r, j, t, out.pair, out.pair.access.sub, role) && out.pair.access.sub == r.Here(j).id
  {
    hide Apply, Step;
  }

  /** What a well-formed bootstrap command does and is answered. */
  lemma {:induction false} CreateAdminAnswers(r: History, x: nat, n: nat, t: nat, email: string, emailOk: bool,
                                              password: string, out: Outcome)
    returns (i: nat)
    requires Served(r, x, n, t, CreateAdmin(email, emailOk, password), out) && emailOk && |password| >= 8
    ensures x < i < n && IsBy(r, i, t)
    ensures if EmailTaken(r.At(i).db, Some(email)) then out == Failed(Database) && r.Wrote(i) == NoWrite
            else out.AdminCreated? && Opens(r, i, out.id, Some(email), Some(password), None, Admin, true)
  {
    hide Apply, Enabled, Step, Begin, Commit, EmailTaken, Opens;
    i := FirstStatement(r, x, n, t, CreateAdmin(email, emailOk, password), out);
    InsertDecides(r, i, Some(email), Some(password), None);
    var j := NextStatement(r, i, n, t, out);
  }

  /**
   * A login is answered with a pair exactly if an active account has the address and the password, and the
   * pair names that account in the role last given to it; with Forbidden exactly if such an account is
   * inactive; and with Auth otherwise.
   */
  ghost predicate LogsIn(r: History, i: nat, t: nat, email: string, password: string, out: Outcome) {
    && IsBy(r, i, t) && r.Wrote(i) == NoWrite
    && var db := r.At(i).db;
       && (out == Failed(Auth) <==> forall id | id in db.users :: !Matches(db, id, email, password))
       && (out == Failed(Forbidden) <==> exists id :: Matches(db, id, email, password) && !db.users[id].active)
       && (out.Tokens? <==> exists id :: Matches(db, id, email, password) && db.users[id].active)
       && (out.Tokens? ==>
             && Matches(db, out.pair.access.sub, email, password) && RoleLog(r, i, out.pair.access.sub).Some?
             && SignsIn(r, t, out.pair, out.pair.access.sub, RoleLog(r, i, out.pair.access.sub).value))
  }

  lemma {:induction false} LoginAnswers(r: History, x: nat, n: nat, t: nat, email: string, password: string,
                                        out: Outcome)
    returns (i: nat)
    requires Served(r, x, n, t, Request.Login(email, password), out)
    ensures x < i < n && LogsIn(r, i, t, email, password, out)
  {
    hide Apply, Enabled, Step, Begin, Commit, HasRole, RoleLog, Matches, SignedIn, Names;
    i := FirstStatement(r, x, n, t, Request.Login(email, password), out);
    LoginDecides(r, i, email, password);
    var s := NextStatement(r, i, n, t, out);
    if r.Next(i).IssueStore? {
      IssuesPair(r, s, n, t, out);
      Subject(r, s, t, out.pair, r.Here(s).id, r.Here(s).role);
      RoleAt(r, i, r.Next(i).id, r.Next(i).role);
    }
  }

  lemma Subject(r: History, s: nat, t: nat, pair: TokenPair, id: Uid, role: Role)
    requires SignedIn(r, s, t, pair, id, role)
    ensures pair.access.sub == id
  {
    hide Apply, Step;
  }

  /**
   * A refresh is answered with a pair exactly if its token was fine at the look-up; then the token is revoked and
   * succeeded, and the pair names its user in the role of the moment. Otherwise it is refused and nothing is written.
   */
  ghost predicate Rotates(r: History, i: nat, n: nat, t: nat, h: Digest, out: Outcome)
    requires n <= |r.steps|
  {
    && IsBy(r, i, t)
    && if Fine(r.At(i).db, h, r.At(i).now)
       then Rotated(r, i, n, t, h, out)
       else out == Failed(Unauthorized) && r.Wrote(i) == NoWrite && forall m: nat | i < m < n :: !IsBy(r, m, t)
  }

  ghost predicate Rotated(r: History, i: nat, n: nat, t: nat, h: Digest, out: Outcome) {
    exists b: nat, f: nat, s: nat :: i < b < f < s < n && RotatesBy(r, i, b, f, s, t, h, out)
  }

  ghost predicate RotatesBy(r: History, i: nat, b: nat, f: nat, s: nat, t: nat, h: Digest, out: Outcome) {
    && r.Acts(i) && h in r.At(i).db.refreshTokens
    && var id := r.At(i).db.refreshTokens[h].user;
       && IsBy(r, b, t) && r.Wrote(b) == RevokeRefresh(h)
       && f <= |r.steps| && RoleLog(r, f, id).Some?
       && out.Tokens? && SignedIn(r, s, t, out.pair, id, RoleLog(r, f, id).value)
       && Mints(r, s, Sha256(out.pair.refresh), Some(h))
  }

  lemma {:induction false} RefreshAnswers(r: History, x: nat, n: nat, t: nat, raw: string, out: Outcome)
    returns (i: nat)
    requires Served(r, x, n, t, Request.Refresh(raw), out)
    ensures x < i < n && Rotates(r, i, n, t, Sha256(raw), out)
  {
    hide Apply, Enabled, Step, Begin, Commit, HasRole, RoleLog, SignedIn;
    i := FirstStatement(r, x, n, t, Request.Refresh(raw), out);
    LookupDecides(r, i, Sha256(raw));
    var b := NextStatement(r, i, n, t, out);
    if Fine(r.At(i).db, Sha256(raw), r.At(i).now) {
      var f, s := RefreshTail(r, i, b, n, t, Sha256(raw), out);
      assert RotatesBy(r, i, b, f, s, t, Sha256(raw), out);
    } else {
      NoneAfter(r, i, n, t);
    }
  }

  lemma {:induction false} RefreshTail(r: History, i: nat, b: nat, n: nat, t: nat, h: Digest, out: Outcome)
    returns (f: nat, s: nat)
    requires r.Valid() && i < b < n <= |r.steps| && r.Acts(i) && IsBy(r, b, t) && EndsWith(r, n, t, out)
    requires h in r.At(i).db.refreshTokens && r.Here(b) == RefreshRevoke(h, r.At(i).db.refreshTokens[h].user)
    ensures b < f < s < n && RotatesBy(r, i, b, f, s, t, h, out)
  {
    hide Apply, Enabled, Step, Begin, Commit, HasRole, RoleLog, SignedIn;
    PlainSteps(r, b);
    f := NextStatement(r, b, n, t, out);
    FindDecides(r, f);
    s := NextStatement(r, f, n, t, out);
    IssuesPair(r, s, n, t, out);
    RoleAt(r, f, r.Next(f).id, r.Next(f).role);
    IsMint(r, s, t, out, h);
  }

  lemma IsMint(r: History, s: nat, t: nat, out: Outcome, h: Digest)
    requires out.Tokens? && r.Acts(s) && r.Here(s).IssueStore? && r.Here(s).parent == Some(h)
    requires SignedIn(r, s, t, out.pair, r.Here(s).id, r.Here(s).role)
    ensures Mints(r, s, Sha256(out.pair.refresh), Some(h))
  {
    hide Apply, Step;
  }

  lemma {:induction false} NoneAfter(r: History, i: nat, n: nat, t: nat)
    requires r.Valid() && i < n <= |r.steps| && IsBy(r, i, t) && r.Next(i).Done?
    ensures forall m: nat | i < m < n :: !IsBy(r, m, t)
  {
    hide Step, Begin, Commit, Apply, Enabled;
    Effect(r, i);
    StoppedSince(r, i, n, t);
  }

  /** A logout revokes its token and is answered with an empty success, whatever it presents. */
  lemma {:induction false} LogoutAnswers(r: History, x: nat, n: nat, t: nat, raw: string, out: Outcome) returns (i: nat)
    requires Served(r, x, n, t, Request.Logout(raw), out)
    ensures x < i < n && IsBy(r, i, t) && r.Wrote(i) == RevokeRefresh(Sha256(raw)) && out == NoContent
  {
    hide Apply, Enabled, Step, Begin, Commit;
    i := FirstStatement(r, x, n, t, Request.Logout(raw), out);
    PlainSteps(r, i);
    var j := NextStatement(r, i, n, t, out);
  }

  /** An e-mail is verified, and the request succeeds, exactly if the token is good; otherwise nothing is written. */
  lemma {:induction false} VerifyAnswers(r: History, x: nat, n: nat, t: nat, raw: string, out: Outcome)
    returns (i: nat, m: nat)
    requires Served(r, x, n, t, Request.VerifyEmail(raw), out)
    ensures x < i < n && IsBy(r, i, t)
    ensures var h, tokens := Sha256(raw), r.At(i).db.verificationTokens;
            if Good(tokens, h, r.At(i).now)
            then && out == NoContent && r.Wrote(i) == UseVerification(h)
                 && i < m < n && IsBy(r, m, t) && r.Wrote(m) == UpdateVerified(tokens[h].user)
            else out == Failed(BadRequest) && r.Wrote(i) == NoWrite && forall y: nat | i < y < n :: !IsBy(r, y, t)
  {
    hide Apply, Enabled, Step, Begin, Commit;
    i := FirstStatement(r, x, n, t, Request.VerifyEmail(raw), out);
    VerifyDecides(r, i, Sha256(raw));
    m := NextStatement(r, i, n, t, out);
    if Good(r.At(i).db.verificationTokens, Sha256(raw), r.At(i).now) {
      PlainSteps(r, m);
      var j := NextStatement(r, m, n, t, out);
    } else {
      NoneAfter(r, i, n, t);
    }
  }

  /** Re-sending stores a token exactly for an account that exists, is unverified and has an address. */
  lemma {:induction false} ResendAnswers(r: History, x: nat, n: nat, t: nat, claims: Claims, out: Outcome)
    returns (i: nat, m: nat)
    requires Served(r, x, n, t, Request.ResendVerification(Signed(claims)), out) && r.At(x).now <= claims.exp + 60
    ensures x < i < n && IsBy(r, i, t) && r.Wrote(i) == NoWrite
    ensures var users := r.At(i).db.users;
            if claims.sub !in users then out == Failed(Unauthorized)
            else if users[claims.sub].verified || users[claims.sub].email == None then out == NoContent
            else && out == NoContent && i < m < n && IsBy(r, m, t)
                 && (!r.steps[m].choice.lost ==>
                       r.Wrote(m).InsertVerification?
                         && r.Wrote(m).token == OneTimeRow(claims.sub, r.At(m).now + 24 * 3600, None))
  {
    hide Apply, Enabled, Step, Begin, Commit;
    i := FirstStatement(r, x, n, t, Request.ResendVerification(Signed(claims)), out);
    ResendDecides(r, i, r.Here(i).actor);
    m := NextStatement(r, i, n, t, out);
    if r.Next(i).ResendStore? {
      MailSteps(r, m);
      var j := NextStatement(r, m, n, t, out);
    }
  }

  /** Whatever the address, the answer is the same; a token is stored exactly for an account with a password. */
  lemma {:induction false} ForgotAnswers(r: History, x: nat, n: nat, t: nat, email: string, out: Outcome)
    returns (i: nat, m: nat)
    requires Served(r, x, n, t, Request.ForgotPassword(email), out)
    ensures out == NoContent && x < i < n && IsBy(r, i, t) && r.Wrote(i) == NoWrite
    ensures var db, id := r.At(i).db, if r.Next(i).ForgotStore? then r.Next(i).id else 0;
            if r.Next(i).ForgotStore?
            then && Recoverable(db, id, email) && i < m < n && IsBy(r, m, t)
                 && (!r.steps[m].choice.lost ==>
                       r.Wrote(m).InsertReset? && r.Wrote(m).token == OneTimeRow(id, r.At(m).now + 3600, None))
            else && (!r.steps[i].choice.lost ==> forall v :: !Recoverable(db, v, email))
                 && forall y: nat | i < y < n :: !IsBy(r, y, t)
  {
    hide Apply, Enabled, Step, Begin, Commit, Recoverable;
    i := FirstStatement(r, x, n, t, Request.ForgotPassword(email), out);
    ForgotDecides(r, i, email);
    m := NextStatement(r, i, n, t, out);
    if r.Next(i).ForgotStore? {
      MailSteps(r, m);
      var j := NextStatement(r, m, n, t, out);
    } else {
      NoneAfter(r, i, n, t);
    }
  }

  /** What a reset with a good token does: sets the password asked for, closes the user's sessions, and succeeds. */
  ghost predicate Recovers(r: History, i: nat, m: nat, v: nat, t: nat, h: Digest, password: string, out: Outcome) {
    && r.Acts(i) && h in r.At(i).db.resetTokens && r.Wrote(i) == UseReset(h)
    && var id := r.At(i).db.resetTokens[h].user;
       && i < m < v && IsBy(r, m, t) && r.Wrote(m).UpdatePassword?
            && r.Wrote(m).id == id && r.Wrote(m).phc.Verify(password)
       && IsBy(r, v, t) && r.Wrote(v) == RevokeAllRefresh(id)
       && out == NoContent
  }

  /** A reset is accepted exactly if its token is good, and then carried through; otherwise nothing is written. */
  lemma {:induction false} ResetAnswers(r: History, x: nat, n: nat, t: nat, raw: string, password: string, out: Outcome)
    returns (i: nat)
    requires Served(r, x, n, t, Request.ResetPassword(raw, password), out) && |password| >= 8
    ensures x < i < n && IsBy(r, i, t)
    ensures if Good(r.At(i).db.resetTokens, Sha256(raw), r.At(i).now)
            then exists m: nat, v: nat :: v < n && Recovers(r, i, m, v, t, Sha256(raw), password, out)
            else out == Failed(BadRequest) && r.Wrote(i) == NoWrite && forall y: nat | i < y < n :: !IsBy(r, y, t)
  {
    hide Apply, Enabled, Step, Begin, Commit;
    i := FirstStatement(r, x, n, t, Request.ResetPassword(raw, password), out);
    ResetDecides(r, i, Sha256(raw), password);
    var m := NextStatement(r, i, n, t, out);
    if Good(r.At(i).db.resetTokens, Sha256(raw), r.At(i).now) {
      PlainSteps(r, m);
      var v := NextStatement(r, m, n, t, out);
      PlainSteps(r, v);
      var j := NextStatement(r, v, n, t, out);
      assert Recovers(r, i, m, v, t, Sha256(raw), password, out);
    } else {
      NoneAfter(r, i, n, t);
    }
  }

  /** A bind of `p` to `id` and the session it leads to, in `role`. */
  ghost predicate BindsAndSigns(r: History, b: nat, t: nat, p: Profile, id: Uid, role: Role, out: Outcome) {
    && IsBy(r, b, t) && r.Wrote(b) == UpsertIdentity(p.Key(), IdentityRow(id, p.email))
    && out.Tokens? && SignsIn(r, t, out.pair, id, role)
  }

  lemma {:induction false} BindTail(r: History, b: nat, n: nat, t: nat, p: Profile, id: Uid, role: Role, out: Outcome)
    requires r.Valid() && b < n <= |r.steps| && IsBy(r, b, t)
    requires r.Here(b) == OauthBind(p, id, role) && EndsWith(r, n, t, out)
    ensures BindsAndSigns(r, b, t, p, id, role, out)
  {
    hide Apply, Enabled, Step, Begin, Commit, SignedIn;
    BindDecides(r, b);
    var s := NextStatement(r, b, n, t, out);
    IssuesPair(r, s, n, t, out);
  }

  /**
   * A callback for a known subject signs its owner in, in the owner's role. One for an unknown subject creates an
   * account, as the profile says and without a password, and signs it in, unless the address is taken.
   */
  lemma {:induction false} CallbackAnswers(r: History, x: nat, n: nat, t: nat, p: Profile, out: Outcome)
    returns (i: nat, j: nat)
    requires Served(r, x, n, t, Request.GoogleCallback(p), out)
    ensures x < i < j < n && IsBy(r, i, t) && r.Wrote(i) == NoWrite && IsBy(r, j, t)
    ensures var db := r.At(i).db;
            if p.Key() in db.identities
            then var id := db.identities[p.Key()].user;
                 RoleLog(r, i, id).Some? && BindsAndSigns(r, j, t, p, id, RoleLog(r, i, id).value, out)
            else if EmailTaken(r.At(j).db, p.email) then out == Failed(Database) && r.Wrote(j) == NoWrite
            else && r.Wrote(j).InsertUser? && Opens(r, j, r.Wrote(j).id, p.email, None, p.name, User, p.email.Some?)
                 && exists b: nat :: j < b < n && BindsAndSigns(r, b, t, p, r.Wrote(j).id, User, out)
  {
    hide Apply, Enabled, Step, Begin, Commit, EmailTaken, Opens, HasRole, RoleLog, BindsAndSigns;
    i := FirstStatement(r, x, n, t, Request.GoogleCallback(p), out);
    SubjectDecides(r, i, p);
    j := NextStatement(r, i, n, t, out);
    if p.Key() in r.At(i).db.identities {
      RoleAt(r, i, r.Next(i).id, r.Next(i).role);
      BindTail(r, j, n, t, p, r.Next(i).id, r.Next(i).role, out);
    } else {
      InsertDecides(r, j, p.email, None, p.name);
      var b := NextStatement(r, j, n, t, out);
      if !EmailTaken(r.At(j).db, p.email) {
        BindTail(r, b, n, t, p, r.Wrote(j).id, User, out);
      }
    }
  }

  /** An admin request by a bearer whose account is `id`: who is refused, with what, and what the others get. */
  ghost predicate Administers(r: History, g: nat, n: nat, t: nat, id: Uid, action: Action, out: Outcome)
    requires n <= |r.steps|
  {
    && IsBy(r, g, t)
    && var users := r.At(g).db.users;
       if id !in users then out == Failed(Unauthorized)
       else if !users[id].verified then out == Failed(EmailNotVerified)
       else exists c: nat :: g < c < n && IsBy(r, c, t) && Checks(r, c, n, t, id, action, out)
  }

  ghost predicate Checks(r: History, c: nat, n: nat, t: nat, id: Uid, action: Action, out: Outcome)
    requires n <= |r.steps| && r.Acts(c)
  {
    if !Permits(PermissionsFor(r.At(c).db, id), action) then out == Failed(Forbidden)
    else exists a: nat :: c < a < n && IsBy(r, a, t) && Performed(r, a, action, out)
  }

  /** What a permitted action does and is answered. */
  ghost predicate Performed(r: History, a: nat, action: Action, out: Outcome)
    requires r.Acts(a)
  {
    match action
    case SetRole(u, role) => out == NoContent && r.Wrote(a) == UpdateRole(u, RoleNumber(role))
    case SetActive(u, active) => out == NoContent && r.Wrote(a) == UpdateActive(u, active)
    case Grant(u, name, granted) =>
      if Named(r.At(a).db, name) && u !in r.At(a).db.users then out == Failed(Database) && r.Wrote(a) == NoWrite
      else out == NoContent && CarriesOut(r.At(a).db, action, r.Wrote(a))
    case ListUsers(limit, offset) =>
      && r.Wrote(a) == NoWrite
      && if limit < 0 || offset < 0 then out == Failed(Database)
         else out.Listed? && IsPage(r.At(a).db.users, limit, offset, out.page)
  }

  /** Some newest-first order of all accounts has `page` at `offset`, of at most `limit` and two hundred rows. */
  ghost predicate IsPage(users: map<Uid, UserRow>, limit: nat, offset: nat, page: seq<Uid>) {
    exists order :: Ordered(users, order) && page == Window(order, Min(limit, 200), offset)
  }

  lemma {:induction false} AdministerAnswers(r: History, x: nat, n: nat, t: nat, claims: Claims, action: Action,
                                             out: Outcome)
    returns (g: nat)
    requires Served(r, x, n, t, Request.Administer(Signed(claims), action), out) && r.At(x).now <= claims.exp + 60
    ensures x < g < n && Administers(r, g, n, t, claims.sub, action, out)
  {
    hide Apply, Enabled, Step, Begin, Commit, PermissionsFor, Permits, Performed;
    g := FirstStatement(r, x, n, t, Request.Administer(Signed(claims), action), out);
    var actor := r.Here(g).actor;
    GateDecides(r, g, actor, action);
    var c := NextStatement(r, g, n, t, out);
    if r.Next(g) == AdminCheck(actor, action) {
      CheckDecides(r, c, actor, action);
      var a := NextStatement(r, c, n, t, out);
      if r.Next(c) == AdminAct(actor, action) {
        ActionAnswers(r, a, n, t, actor, action, out);
      }
      assert Checks(r, c, n, t, claims.sub, action, out);
    }
  }

  lemma {:induction false} ActionAnswers(r: History, a: nat, n: nat, t: nat, actor: Actor, action: Action, out: Outcome)
    requires r.Valid() && a < n <= |r.steps| && IsBy(r, a, t)
    requires r.Here(a) == AdminAct(actor, action) && EndsWith(r, n, t, out)
    ensures Performed(r, a, action, out)
  {
    hide Apply, Enabled, Step, Begin, Commit, Named, CarriesOut, Ordered, Window;
    ActDecides(r, a, actor, action);
    if action.ListUsers? && action.limit >= 0 && action.offset >= 0 {
      UserListing.Answered(r, a, action.limit, action.offset);
    }
    var j := NextStatement(r, a, n, t, out);
  }
}
