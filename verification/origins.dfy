/** Which program point a thread must have come from, and which program point issues each write. */
module Origins {
  import opened Basics
  import opened Schema
  import opened Queries
  import opened Handlers

  /** The points a request starts at. */
  predicate Entry(k: Pc) {
    || k.RegisterInsert? || k.LoginFind? || k.RefreshLookup? || k.LogoutRevoke? || k.VerifyConsume? || k.ResendFind?
    || k.ForgotFind? || k.ResetConsume? || k.OauthFind? || k.AdminGate? || k.AdminInsert?
  }

  predicate Usable(db: Tables, now: Time, h: Digest, id: Uid) {
    h in db.refreshTokens && !db.refreshTokens[h].Revoked() && db.refreshTokens[h].expiresAt > now
      && db.refreshTokens[h].user == id
  }

  /** The password a login brings is that of the account its address finds, and the account is active. */
  predicate Accepts(db: Tables, k: Pc, id: Uid)
    requires k.LoginFind?
  {
    && id in db.users && HasEmail(db.users[id], k.email) && db.users[id].active
    && db.users[id].password.Some? && db.users[id].password.value.Verify(k.password)
  }

  /** The role `JOIN roles` reads for `id`; a name it does not know reads as `user`. */
  predicate HasRole(db: Tables, id: Uid, role: Role) {
    && Joins(db, id)
    && (ParseRole(db.roles[db.users[id].roleId]) == Some(role)
        || (ParseRole(db.roles[db.users[id].roleId]) == None && role == User))
  }

  /** An access token for `id` in `role`, issued now and good for the configured minutes. */
  predicate Names(access: Claims, cfg: Config, now: Time, id: Uid, role: Role) {
    && access.sub == id && ParseRole(access.role) == Some(role)
    && access.iat == now && access.exp == now + cfg.accessTtlMin * 60
  }

  /** A step from `k` that wrote `w` can end at `k'` only in this way. */
  ghost predicate CameBy(cfg: Config, db: Tables, now: Time, k: Pc, w: Write, k': Pc) {
    match k'
    case RegisterStore(id, email) => k.RegisterInsert? && k.email == email && w.InsertUser? && w.id == id
    case RegisterFind(email, pair) =>
      && k == RegisterStore(pair.access.sub, email)
      && w == InsertRefresh(Sha256(pair.refresh), Session(cfg, now, pair.access.sub))
      && Names(pair.access, cfg, now, pair.access.sub, User)
    case RegisterMail(id, pair) => k.RegisterFind? && k.pair == pair && w == NoWrite
    case IssueStore(id, role, Some(p)) => k == RefreshFind(p, id) && w == NoWrite && HasRole(db, id, role)
    case IssueStore(id, role, None) =>
      || (k.LoginFind? && Accepts(db, k, id) && HasRole(db, id, role) && w == NoWrite)
      || (k.OauthBind? && k.id == id && k.role == role && w.UpsertIdentity?)
    case RefreshRevoke(h, id) => k == RefreshLookup(h) && Usable(db, now, h, id) && w == NoWrite
    case RefreshFind(h, id) => k == RefreshRevoke(h, id) && w == RevokeRefresh(h)
    case VerifyMark(h, id) =>
      && k == VerifyConsume(h) && w == UseVerification(h)
      && Consumable(db.verificationTokens, h, now) && db.verificationTokens[h].user == id
    case ResendStore(id) =>
      && k.ResendFind? && k.actor.id == id && w == NoWrite
      && id in db.users && !db.users[id].verified && db.users[id].email.Some?
    case ForgotStore(id) =>
      && k.ForgotFind? && w == NoWrite
      && id in db.users && HasEmail(db.users[id], k.email) && db.users[id].password.Some?
    case ResetUpdate(h, id, password) =>
      && k == ResetConsume(h, password) && w == UseReset(h)
      && Consumable(db.resetTokens, h, now) && db.resetTokens[h].user == id
    case ResetRevoke(h, id) =>
      && k.ResetUpdate? && k.hash == h && k.id == id
      && w.UpdatePassword? && w.id == id && w.phc.Verify(k.password)
    case OauthInsert(p) => k == OauthFind(p) && FindByOauth(db, p.Key()).None? && w == NoWrite
    case OauthBind(p, id, role) =>
      || (k == OauthFind(p) && p.Key() in db.identities && db.identities[p.Key()].user == id && HasRole(db, id, role)
          && w == NoWrite)
      || (k == OauthInsert(p) && w.InsertUser? && w.id == id && role == User)
    case AdminCheck(actor, action) =>
      k == AdminGate(actor, action) && actor.id in db.users && db.users[actor.id].verified && w == NoWrite
    case AdminAct(actor, action) =>
      k == AdminCheck(actor, action) && PermissionName(Required(action)) in PermissionsFor(db, actor.id) && w == NoWrite
    case Done(Tokens(pair)) =>
      || (k.IssueStore? && w == InsertRefresh(Sha256(pair.refresh), Session(cfg, now, k.id))
          && Names(pair.access, cfg, now, k.id, k.role))
      || (k.RegisterFind? && k.pair == pair)
      || (k.RegisterMail? && k.pair == pair)
    case Done(Listed(page)) => k.AdminAct? && k.action.ListUsers?
    case Done(_) => true
    case _ => false
  }

  lemma StartsAtEntry(req: Request, now: Time)
    ensures Entry(Begin(req, now)) || (Begin(req, now).Done? && Begin(req, now).outcome.Failed?)
  {
  }

  /** The only points that issue a write, and the values they put in it. */
  ghost predicate IssuedBy(cfg: Config, db: Tables, now: Time, k: Pc, w: Write) {
    match w
    case NoWrite => true
    case InsertUser(id, row) =>
      && row.active && row.createdAt == now && row.updatedAt == now
      && match k {
         case RegisterInsert(email, password, name) =>
           && row.email == Some(email) && row.displayName == name && !row.verified
           && row.password.Some? && row.password.value.plain == password
           && RoleIdFor(db, User) == Some(row.roleId)
         case AdminInsert(email, password) =>
           && row.email == Some(email) && row.displayName == None && row.verified
           && row.password.Some? && row.password.value.plain == password
           && RoleIdFor(db, Admin) == Some(row.roleId)
         case OauthInsert(p) =>
           && row.email == p.email && row.displayName == p.name && row.verified == p.email.Some?
           && row.password.None? && RoleIdFor(db, User) == Some(row.roleId)
         case _ => false
         }
    case UpdateRole(id, roleId) =>
      k.AdminAct? && k.action.SetRole? && k.action.target == id && RoleIdFor(db, k.action.role) == Some(roleId)
    case UpdateActive(id, active) => k.AdminAct? && k.action == SetActive(id, active)
    case UpdateVerified(id) => k.VerifyMark? && k.id == id
    case UpdatePassword(id, phc) => k.ResetUpdate? && k.id == id && phc.plain == k.password
    case UpsertOverride(id, p, granted) =>
      && k.AdminAct? && k.action.Grant? && k.action.target == id && k.action.granted == granted
      && PermissionIdFor(db, k.action.permission) == Some(p) && id in db.users
    case UpsertIdentity(key, row) => k.OauthBind? && key == k.profile.Key() && row == IdentityRow(k.id, k.profile.email)
    case InsertRefresh(h, row) => (k.IssueStore? || k.RegisterStore?) && row == Session(cfg, now, k.id)
    case RevokeRefresh(h) => (k.LogoutRevoke? || k.RefreshRevoke?) && k.hash == h
    case RevokeAllRefresh(id) => k.ResetRevoke? && k.id == id
    case InsertVerification(h, row) =>
      (k.RegisterMail? || k.ResendStore?) && row == OneTimeRow(k.id, now + 24 * 3600, None)
    case UseVerification(h) => k == VerifyConsume(h) && Consumable(db.verificationTokens, h, now)
    case InsertReset(h, row) => k == ForgotStore(row.user) && row == OneTimeRow(k.id, now + 3600, None)
    case UseReset(h) => k.ResetConsume? && k.hash == h && Consumable(db.resetTokens, h, now)
  }

  lemma RecordHasRole(db: Tables, u: Uid)
    ensures FindById(db, u).Some? ==> HasRole(db, u, FindById(db, u).value.role)
  {
  }

  lemma IssueNames(cfg: Config, now: Time, id: Uid, role: Role)
    ensures Names(Issue(cfg, now, id, role), cfg, now, id, role)
  {
  }

  /** A login goes on only for the account its address finds, and with that account's password. */
  lemma LoginOrigin(cfg: Config, db: Tables, now: Time, k: Pc, c: Choice)
    requires k.LoginFind?
    ensures var s := SignInStep(cfg, db, now, k, c); CameBy(cfg, db, now, k, s.0, s.1) && IssuedBy(cfg, db, now, k, s.0)
  {
    hide HasRole;
    hide PermissionName, ParseRole, RoleName, PermissionsFor, HasEmail, FindByEmail, Session, Consumable, Usable;
    FoundHasEmail(db, k.email);
  }

  /** Storing a session leads to the answer, or on to the look-up after registration, with a token for its user. */
  lemma IssueOrigin(cfg: Config, db: Tables, now: Time, k: Pc, c: Choice)
    requires k.IssueStore? || k.RegisterStore?
    ensures var s := SignInStep(cfg, db, now, k, c); CameBy(cfg, db, now, k, s.0, s.1) && IssuedBy(cfg, db, now, k, s.0)
  {
    hide HasRole, Names, PermissionsFor, HasEmail, RoleIdFor, FindByEmail, Session, Usable, FindByOauth, Accepts;
    IssueNames(cfg, now, k.id, if k.IssueStore? then k.role else User);
  }

  lemma SignInOrigin(cfg: Config, db: Tables, now: Time, k: Pc, c: Choice)
    requires SigningIn(k) && !k.LoginFind? && !k.IssueStore? && !k.RegisterStore?
    ensures var s := SignInStep(cfg, db, now, k, c); CameBy(cfg, db, now, k, s.0, s.1) && IssuedBy(cfg, db, now, k, s.0)
  {
    hide HasRole, Names;
    hide PermissionName, ParseRole, RoleName, PermissionsFor, Listing, Window, HasEmail, EmailTaken, RoleIdFor;
    hide PermissionIdFor, FindByEmail, Session, Consumable, Usable, FindByOauth, FindById, Accepts;
  }

  lemma RotateOrigin(cfg: Config, db: Tables, now: Time, k: Pc, c: Choice)
    requires Rotating(k)
    ensures var s := RotateStep(cfg, db, now, k, c); CameBy(cfg, db, now, k, s.0, s.1) && IssuedBy(cfg, db, now, k, s.0)
  {
    hide HasRole;
    hide PermissionName, ParseRole, RoleName, PermissionsFor, Listing, Window, HasEmail, EmailTaken, RoleIdFor;
    hide PermissionIdFor, FindByEmail, Accepts;
    if k.RefreshFind? {
      RecordHasRole(db, k.id);
    }
  }

  lemma VerifyOrigin(cfg: Config, db: Tables, now: Time, k: Pc, c: Choice)
    requires Verifying(k)
    ensures var s := VerifyStep(cfg, db, now, k, c); CameBy(cfg, db, now, k, s.0, s.1) && IssuedBy(cfg, db, now, k, s.0)
  {
    hide PermissionName, ParseRole, RoleName, PermissionsFor, Listing, Window, HasEmail, EmailTaken, RoleIdFor;
    hide PermissionIdFor, FindByEmail, Session, Issue, Usable, FindByOauth, Accepts;
  }

  lemma FoundHasEmail(db: Tables, email: string)
    ensures FindByEmail(db, email).Some? ==>
              var found := FindByEmail(db, email).value;
              found.id in db.users && HasEmail(db.users[found.id], email) && found.active == db.users[found.id].active
              && HasRole(db, found.id, found.role)
  {
    hide ParseRole, HasEmail;
  }

  lemma ResetOrigin(cfg: Config, db: Tables, now: Time, k: Pc, c: Choice)
    requires Resetting(k)
    ensures var s := ResetStep(cfg, db, now, k, c); CameBy(cfg, db, now, k, s.0, s.1) && IssuedBy(cfg, db, now, k, s.0)
  {
    hide PermissionName, ParseRole, RoleName, PermissionsFor, Listing, Window, HasEmail, EmailTaken, RoleIdFor;
    hide PermissionIdFor, FindByEmail, Accepts;
    if k.ForgotFind? {
      FoundHasEmail(db, k.email);
    }
  }

  lemma LinkOrigin(cfg: Config, db: Tables, now: Time, k: Pc, c: Choice)
    requires Linking(k)
    ensures var s := LinkStep(cfg, db, now, k, c); CameBy(cfg, db, now, k, s.0, s.1) && IssuedBy(cfg, db, now, k, s.0)
  {
    hide HasRole;
    hide PermissionName, ParseRole, RoleName, PermissionsFor, Listing, Window, HasEmail, EmailTaken, RoleIdFor;
    hide PermissionIdFor, FindByEmail, Accepts;
    if k.OauthFind? && k.profile.Key() in db.identities {
      RecordHasRole(db, db.identities[k.profile.Key()].user);
    }
  }

  lemma AdministerOrigin(cfg: Config, db: Tables, now: Time, k: Pc, c: Choice)
    requires Administering(k)
    ensures var s := AdministerStep(cfg, db, now, k, c);
            CameBy(cfg, db, now, k, s.0, s.1) && IssuedBy(cfg, db, now, k, s.0)
  {
    hide PermissionName, ParseRole, RoleName, PermissionsFor, Listing, Window, HasEmail, EmailTaken, RoleIdFor;
    hide PermissionIdFor, FindByEmail, Session, Issue, Usable, Consumable, FindByOauth, Accepts;
  }

  lemma {:induction false} Origin(cfg: Config, db: Tables, now: Time, k: Pc, c: Choice)
    requires !k.Done?
    ensures var s := Step(cfg, db, now, k, c); CameBy(cfg, db, now, k, s.0, s.1) && IssuedBy(cfg, db, now, k, s.0)
  {
    hide CameBy, IssuedBy;
    if k.LoginFind? { LoginOrigin(cfg, db, now, k, c); }
    else if k.IssueStore? || k.RegisterStore? { IssueOrigin(cfg, db, now, k, c); }
    else if SigningIn(k) { SignInOrigin(cfg, db, now, k, c); }
    else if Rotating(k) { RotateOrigin(cfg, db, now, k, c); }
    else if Verifying(k) { VerifyOrigin(cfg, db, now, k, c); }
    else if Resetting(k) { ResetOrigin(cfg, db, now, k, c); }
    else if Linking(k) { LinkOrigin(cfg, db, now, k, c); }
    else if Administering(k) { AdministerOrigin(cfg, db, now, k, c); }
  }

  /** No step leads back to an entry point. */
  lemma NeverReenters(cfg: Config, db: Tables, now: Time, k: Pc, w: Write, k': Pc)
    requires CameBy(cfg, db, now, k, w, k')
    ensures !Entry(k')
  {
    hide Accepts, Usable, HasEmail, PermissionsFor, FindByOauth, Session, Issue;
  }
}
