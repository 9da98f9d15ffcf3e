/**
 * With what result a statement may end a request. Together with the program points it may lead to, this
 * decides every branch.
 */
module Endings {
  import opened Basics
  import opened Schema
  import opened Queries
  import opened Handlers
  import opened Runs
  import opened Growth
  import opened Locals
  import opened Origins
  import opened Integrity
  import opened Rbac

  /** `id` answers to the address and has the password. */
  predicate Matches(db: Tables, id: Uid, email: string, password: string) {
    && id in db.users && HasEmail(db.users[id], email)
    && db.users[id].password.Some? && db.users[id].password.value.Verify(password)
  }

  ghost predicate Named(db: Tables, name: string) { exists p :: p in db.permissions && db.permissions[p] == name }

  /** The statement at `k` fails its request with `e`, having written nothing, only for this reason. */
  ghost predicate Refuses(db: Tables, now: Time, k: Pc, e: AppError) {
    match k
    case RegisterInsert(email, _, _) => e == Database && EmailTaken(db, Some(email))
    case AdminInsert(email, _) => e == Database && EmailTaken(db, Some(email))
    case OauthInsert(p) => e == Database && EmailTaken(db, p.email)
    case LoginFind(email, password) =>
      || (e == Auth && forall id | id in db.users :: !Matches(db, id, email, password))
      || (e == Forbidden && exists id :: Matches(db, id, email, password) && !db.users[id].active)
    case RefreshLookup(h) =>
      && e == Unauthorized
      && (h in db.refreshTokens && db.refreshTokens[h].revokedAt == None ==> db.refreshTokens[h].expiresAt <= now)
    case VerifyConsume(h) => e == BadRequest && !Good(db.verificationTokens, h, now)
    case ResetConsume(h, _) => e == BadRequest && !Good(db.resetTokens, h, now)
    case ResendFind(actor) => e == Unauthorized && actor.id !in db.users
    case AdminGate(actor, _) =>
      || (e == Unauthorized && actor.id !in db.users)
      || (e == EmailNotVerified && actor.id in db.users && !db.users[actor.id].verified)
    case AdminCheck(actor, action) =>
      e == Forbidden && PermissionName(Required(action)) !in PermissionsFor(db, actor.id)
    case AdminAct(_, Grant(u, name, _)) => e == Database && Named(db, name) && u !in db.users
    case AdminAct(_, ListUsers(limit, offset)) => e == Database && (limit < 0 || offset < 0)
    case _ => false
  }

  /** A one-time token that is stored, unused, and not past its expiry. */
  predicate Good(tokens: map<Digest, OneTimeRow>, h: Digest, now: Time) {
    h in tokens && tokens[h].usedAt == None && now < tokens[h].expiresAt
  }

  /** The write that carries out an admin request. */
  ghost predicate CarriesOut(db: Tables, action: Action, w: Write) {
    match action
    case SetRole(u, role) => w.UpdateRole? && w.id == u && w.roleId in db.roles && db.roles[w.roleId] == RoleName(role)
    case SetActive(u, active) => w == UpdateActive(u, active)
    case Grant(u, name, granted) =>
      if Named(db, name)
      then w.UpsertOverride? && w.id == u && w.granted == granted
           && w.permission in db.permissions && db.permissions[w.permission] == name
      else w == NoWrite
    case ListUsers(_, _) => false
  }

  /** The statement at `k` ends its request with an empty success only so. */
  ghost predicate Concludes(db: Tables, now: Time, k: Pc, c: Choice, w: Write) {
    match k
    case LogoutRevoke(h) => w == RevokeRefresh(h)
    case VerifyMark(_, id) => w == UpdateVerified(id)
    case ResendFind(actor) =>
      w == NoWrite && actor.id in db.users && (db.users[actor.id].verified || db.users[actor.id].email == None)
    case ResendStore(id) =>
      w == if c.lost then NoWrite else InsertVerification(Sha256(c.mail), OneTimeRow(id, now + 24 * 3600, None))
    case ForgotFind(email) =>
      && w == NoWrite
      && (c.lost || forall id | id in db.users && HasEmail(db.users[id], email) :: db.users[id].password == None)
    case ForgotStore(id) =>
      w == if c.lost then NoWrite else InsertReset(Sha256(c.mail), OneTimeRow(id, now + 3600, None))
    case ResetRevoke(_, id) => w == RevokeAllRefresh(id)
    case AdminAct(_, action) => CarriesOut(db, action, w)
    case _ => false
  }

  ghost predicate EndsBy(db: Tables, now: Time, k: Pc, c: Choice, w: Write, out: Outcome) {
    match out
    case Tokens(_) => k.IssueStore? || k.RegisterFind? || k.RegisterMail?
    case NoContent => Concludes(db, now, k, c, w)
    case Listed(_) => k.AdminAct? && k.action.ListUsers? && k.action.limit >= 0 && k.action.offset >= 0 && w == NoWrite
    case AdminCreated(id) => k.AdminInsert? && w.InsertUser? && w.id == id
    case Failed(e) => w == NoWrite && Refuses(db, now, k, e)
  }

  // ---- family by family ----------------------------------------------------------------------------

  lemma InsertEnds(cfg: Config, db: Tables, now: Time, k: Pc, c: Choice)
    requires Sound(db) && (k.RegisterInsert? || k.AdminInsert? || k.OauthInsert?)
    ensures var (w, k') := Step(cfg, db, now, k, c); k'.Done? ==> EndsBy(db, now, k, c, w, k'.outcome)
  {
    hide RoleIdFor, EmailTaken, Catalogue, UniqueEmails, RolesExist, IdentityUsers, RefreshUsers, TokenUsers;
    hide OverrideKeys;
    RoleEncoding(db, User);
    RoleEncoding(db, Admin);
  }

  lemma LoginEnds(cfg: Config, db: Tables, now: Time, k: Pc, c: Choice)
    requires Sound(db) && k.LoginFind?
    ensures var (w, k') := Step(cfg, db, now, k, c); k'.Done? ==> EndsBy(db, now, k, c, w, k'.outcome)
  {
    hide Fold, HasEmail, ParseRole, Constraints, FindByEmail;
    FoundHasEmail(db, k.email);
    forall id | id in db.users && HasEmail(db.users[id], k.email)
      ensures FindByEmail(db, k.email).Some? && FindByEmail(db, k.email).value.id == id
    {
      FindsIt(db, id, k.email);
    }
    if Step(cfg, db, now, k, c).1 == Fail(Forbidden) {
      assert Matches(db, FindByEmail(db, k.email).value.id, k.email, k.password);
    } else if FindByEmail(db, k.email).Some? {
      assert forall id | Matches(db, id, k.email, k.password) :: id == FindByEmail(db, k.email).value.id;
    }
  }

  lemma FindsIt(db: Tables, id: Uid, email: string)
    requires Constraints(db) && id in db.users && HasEmail(db.users[id], email)
    ensures FindByEmail(db, email).Some? && FindByEmail(db, email).value.id == id
  {
    hide Fold, ParseRole, Catalogue, IdentityUsers, RefreshUsers, TokenUsers, OverrideKeys;
    assert Joins(db, id);
  }

  lemma IssueEnds(cfg: Config, db: Tables, now: Time, k: Pc, c: Choice)
    requires ThreadSound(cfg, db, k) && Fresh(db, k, c)
    requires k.RegisterStore? || k.RegisterFind? || k.RegisterMail? || k.IssueStore?
    ensures var (w, k') := Step(cfg, db, now, k, c); k'.Done? ==> EndsBy(db, now, k, c, w, k'.outcome)
  {
    hide FindByEmail, MailVerification, Coherent;
  }

  lemma RotateEnds(cfg: Config, db: Tables, now: Time, k: Pc, c: Choice)
    requires Sound(db) && ThreadSound(cfg, db, k) && Rotating(k)
    ensures var (w, k') := Step(cfg, db, now, k, c); k'.Done? ==> EndsBy(db, now, k, c, w, k'.outcome)
  {
    hide ParseRole, Catalogue, UniqueEmails, IdentityUsers, TokenUsers, OverrideKeys, ResetPasswords;
  }

  lemma VerifyEnds(cfg: Config, db: Tables, now: Time, k: Pc, c: Choice)
    requires Sound(db) && ThreadSound(cfg, db, k) && Fresh(db, k, c) && Verifying(k)
    ensures var (w, k') := Step(cfg, db, now, k, c); k'.Done? ==> EndsBy(db, now, k, c, w, k'.outcome)
  {
    hide ParseRole, Catalogue, UniqueEmails, IdentityUsers, RefreshUsers, TokenUsers, OverrideKeys, ResetPasswords;
  }

  lemma ForgotEnds(cfg: Config, db: Tables, now: Time, k: Pc, c: Choice)
    requires Sound(db) && ThreadSound(cfg, db, k) && Fresh(db, k, c) && (k.ForgotFind? || k.ForgotStore?)
    ensures var (w, k') := Step(cfg, db, now, k, c); k'.Done? ==> EndsBy(db, now, k, c, w, k'.outcome)
  {
    hide Fold, HasEmail, ParseRole, Constraints, FindByEmail, ResetPasswords;
    if k.ForgotFind? {
      FoundHasEmail(db, k.email);
      forall id | id in db.users && HasEmail(db.users[id], k.email)
        ensures FindByEmail(db, k.email).Some? && FindByEmail(db, k.email).value.id == id
      {
        FindsIt(db, id, k.email);
      }
    }
  }

  lemma ResetEnds(cfg: Config, db: Tables, now: Time, k: Pc, c: Choice)
    requires k.ResetConsume? || k.ResetUpdate? || k.ResetRevoke?
    ensures var (w, k') := Step(cfg, db, now, k, c); k'.Done? ==> EndsBy(db, now, k, c, w, k'.outcome)
  {
  }

  lemma LinkEnds(cfg: Config, db: Tables, now: Time, k: Pc, c: Choice)
    requires ThreadSound(cfg, db, k) && (k.OauthFind? || k.OauthBind?)
    ensures var (w, k') := Step(cfg, db, now, k, c); k'.Done? ==> EndsBy(db, now, k, c, w, k'.outcome)
  {
    hide ParseRole;
  }

  lemma AdministerEnds(cfg: Config, db: Tables, now: Time, k: Pc, c: Choice)
    requires Sound(db) && Administering(k)
    ensures var (w, k') := Step(cfg, db, now, k, c); k'.Done? ==> EndsBy(db, now, k, c, w, k'.outcome)
  {
    hide ParseRole, RoleName, PermissionName, PermissionsFor, Listing, Window, Catalogue, UniqueEmails, ResetPasswords;
    hide IdentityUsers, RefreshUsers, TokenUsers, OverrideKeys;
    if k.AdminAct? && k.action.SetRole? {
      RoleEncoding(db, k.action.role);
    }
  }

  lemma Ended(cfg: Config, db: Tables, now: Time, k: Pc, c: Choice)
    requires Sound(db) && ThreadSound(cfg, db, k) && Fresh(db, k, c) && !k.Done?
    ensures var (w, k') := Step(cfg, db, now, k, c); k'.Done? ==> EndsBy(db, now, k, c, w, k'.outcome)
  {
    hide Step, EndsBy, Sound, ThreadSound, Fresh;
    if k.RegisterInsert? || k.AdminInsert? || k.OauthInsert? { InsertEnds(cfg, db, now, k, c); }
    else if k.LoginFind? { LoginEnds(cfg, db, now, k, c); }
    else if SigningIn(k) { IssueEnds(cfg, db, now, k, c); }
    else if Rotating(k) { RotateEnds(cfg, db, now, k, c); }
    else if Verifying(k) { VerifyEnds(cfg, db, now, k, c); }
    else if k.ForgotFind? || k.ForgotStore? { ForgotEnds(cfg, db, now, k, c); }
    else if Resetting(k) { ResetEnds(cfg, db, now, k, c); }
    else if Linking(k) { LinkEnds(cfg, db, now, k, c); }
    else { AdministerEnds(cfg, db, now, k, c); }
  }

  /** In every run: how the step came about, what it wrote, and, if it was its request's last, why with that result. */
  lemma {:induction false} EndedAt(r: History, i: nat)
    requires r.Valid() && r.Acts(i)
    ensures r.Next(i).Done? ==>
              EndsBy(r.At(i).db, r.At(i).now, r.Here(i), r.steps[i].choice, r.Wrote(i), r.Next(i).outcome)
  {
    hide Step, EndsBy, CameBy, IssuedBy, Warranted, Sound, ThreadSound, Fresh, Apply, Presentable, Begin, Commit;
    Issued(r, i);
    assert r.Legal(i);
    assert Fresh(r.At(i).db, r.Here(i), r.steps[i].choice) by { IsFresh(r, i); }
    Ended(r.At(i).cfg, r.At(i).db, r.At(i).now, r.Here(i), r.steps[i].choice);
  }

  lemma IsFresh(r: History, i: nat)
    requires r.Valid() && r.Acts(i)
    ensures Fresh(r.At(i).db, r.Here(i), r.steps[i].choice)
  {
    hide Fresh, Step, Begin, Apply, Presentable;
    assert r.Legal(i);
  }
}
