/**
 * The request handlers as the service runs them, against the mutable store. Each is shown to leave
 * the tables and return the result that its program of statements, served alone, arrives at; `Solo`
 * shows that to be a run, so what holds of every run holds of these.
 */
module Api {
  import opened Basics
  import opened Schema
  import opened Queries
  import opened Handlers
  import opened Solo
  import opened Store

  /** `out` and the tables are what request point `k` comes to from tables `db`. */
  ghost predicate Serves(cfg: Config, db: Tables, now: Time, k: Pc, c: Choice, db': Tables, out: Outcome) {
    Alone(cfg, db, now, k, c) == (db', out)
  }

  lemma Ends(cfg: Config, db: Tables, now: Time, k: Pc, c: Choice, out: Outcome)
    requires !k.Done? && Step(cfg, db, now, k, c).1 == Done(out)
    ensures Serves(cfg, db, now, k, c, Commit(db, now, Step(cfg, db, now, k, c).0), out)
  {
    hide Step, Commit, Rank;
    var (w, k') := Step(cfg, db, now, k, c);
    assert Alone(cfg, Commit(db, now, w), now, k', c) == (Commit(db, now, w), out);
  }

  lemma GoesOn(cfg: Config, db: Tables, now: Time, k: Pc, c: Choice, db': Tables, out: Outcome)
    requires !k.Done?
    requires var (w, k') := Step(cfg, db, now, k, c); Serves(cfg, Commit(db, now, w), now, k', c, db', out)
    ensures Serves(cfg, db, now, k, c, db', out)
  {
    hide Step, Commit, Rank;
  }

  lemma Over(cfg: Config, db: Tables, now: Time, c: Choice, out: Outcome)
    ensures Serves(cfg, db, now, Done(out), c, db, out)
  {
    hide Step, Commit, Rank;
  }

  method IssueTokens(store: Database, cfg: Config, now: Time, id: Uid, role: Role,
                     ghost parent: Option<Digest>, c: Choice)
    returns (out: Outcome)
    requires store.Valid()
    modifies store
    ensures store.Valid()
    ensures Serves(cfg, old(store.Db()), now, IssueStore(id, role, parent), c, store.Db(), out)
  {
    hide Commit, RotateStep, VerifyStep, ResetStep, LinkStep, AdministerStep, Record, Serves, Constraints;
    var error := store.StoreRefreshToken(now, Sha256(c.refresh), Session(cfg, now, id));
    if error.Some? {
      out := Failed(error.value);
    } else {
      out := Tokens(TokenPair(Issue(cfg, now, id, role), c.refresh));
    }
    ghost var db := old(store.Db());
    NoWriteNoChange(db, now);
    Ends(cfg, db, now, IssueStore(id, role, parent), c, out);
  }

  method Refresh(store: Database, cfg: Config, now: Time, raw: string, c: Choice) returns (out: Outcome)
    requires store.Valid()
    modifies store
    ensures store.Valid()
    ensures Serves(cfg, old(store.Db()), now, Begin(Request.Refresh(raw), now), c, store.Db(), out)
  {
    hide Commit, SignInStep, VerifyStep, ResetStep, LinkStep, AdministerStep, Record, Serves, Constraints;
    hide Session, Issue;
    ghost var db := store.Db();
    var h := Sha256(raw);
    NoWriteNoChange(db, now);
    if h !in store.refreshTokens || store.refreshTokens[h].Revoked() || store.refreshTokens[h].expiresAt <= now {
      out := Failed(Unauthorized);
      Ends(cfg, db, now, RefreshLookup(h), c, out);
      return;
    }
    var id := store.refreshTokens[h].user;
    store.RevokeRefreshToken(now, h);
    ghost var revoked := store.Db();
    NoWriteNoChange(revoked, now);
    var user := FindById(store.Db(), id);
    if user.None? {
      out := Failed(Unauthorized);
      Ends(cfg, revoked, now, RefreshFind(h, id), c, out);
    } else {
      out := IssueTokens(store, cfg, now, user.value.id, user.value.role, Some(h), c);
      GoesOn(cfg, revoked, now, RefreshFind(h, id), c, store.Db(), out);
    }
    GoesOn(cfg, db, now, RefreshRevoke(h, id), c, store.Db(), out);
    GoesOn(cfg, db, now, RefreshLookup(h), c, store.Db(), out);
  }

  method Logout(store: Database, cfg: Config, now: Time, raw: string, c: Choice) returns (out: Outcome)
    requires store.Valid()
    modifies store
    ensures store.Valid()
    ensures Serves(cfg, old(store.Db()), now, Begin(Request.Logout(raw), now), c, store.Db(), out)
  {
    hide Commit, SignInStep, VerifyStep, ResetStep, LinkStep, AdministerStep, Serves, Constraints;
    ghost var db := store.Db();
    store.RevokeRefreshToken(now, Sha256(raw));
    out := NoContent;
    Ends(cfg, db, now, LogoutRevoke(Sha256(raw)), c, out);
  }

  method Register(store: Database, cfg: Config, now: Time, email: string, emailOk: bool,
                  password: string, name: Option<string>, c: Choice)
    returns (out: Outcome)
    requires store.Valid()
    requires (MayCreate(Begin(Request.Register(email, emailOk, password, name), now)) ==> c.uid !in store.users)
    modifies store
    ensures store.Valid()
    ensures Serves(cfg, old(store.Db()), now, Begin(Request.Register(email, emailOk, password, name), now), c,
            store.Db(), out)
  {
    hide Commit, RotateStep, VerifyStep, ResetStep, LinkStep, AdministerStep, Serves, Constraints, Record;
    hide Queries.CreateUser, Queries.FindByEmail, Queries.RoleIdFor;
    ghost var db := store.Db();
    if !emailOk || |password| < MIN_PASSWORD {
      out := Failed(Validation);
      Over(cfg, db, now, c, out);
      return;
    }
    NoWriteNoChange(db, now);
    ghost var k := RegisterInsert(email, password, name);
    var error := store.CreateUser(now, c.uid, NewUser(Some(email), Some(Argon2(c.salt, password)), name, User, false));
    if error.Some? {
      out := Failed(error.value);
      Ends(cfg, db, now, k, c, out);
      return;
    }
    out := RegisterSession(store, cfg, now, c.uid, email, c);
    GoesOn(cfg, db, now, k, c, store.Db(), out);
  }

  method RegisterSession(store: Database, cfg: Config, now: Time, id: Uid, email: string, c: Choice)
    returns (out: Outcome)
    requires store.Valid()
    modifies store
    ensures store.Valid()
    ensures Serves(cfg, old(store.Db()), now, RegisterStore(id, email), c, store.Db(), out)
  {
    hide Commit, RotateStep, VerifyStep, ResetStep, LinkStep, AdministerStep, Serves, Constraints, Record;
    hide Queries.FindByEmail, StoreVerification;
    ghost var db := store.Db();
    NoWriteNoChange(db, now);
    var error := store.StoreRefreshToken(now, Sha256(c.refresh), Session(cfg, now, id));
    if error.Some? {
      out := Failed(error.value);
      Ends(cfg, db, now, RegisterStore(id, email), c, out);
      return;
    }
    var pair := TokenPair(Issue(cfg, now, id, User), c.refresh);
    out := Tokens(pair);
    ghost var stored := store.Db();
    NoWriteNoChange(stored, now);
    var found := None;
    if !c.lost {
      found := store.FindByEmail(email);
    }
    if found.Some? {
      var row := OneTimeRow(found.value.id, now + VERIFICATION_TTL_HOURS * HOUR, None);
      store.StoreEmailVerificationToken(now, Sha256(c.mail), row);
      Ends(cfg, stored, now, RegisterMail(found.value.id, pair), c, out);
      GoesOn(cfg, stored, now, RegisterFind(email, pair), c, store.Db(), out);
    } else {
      Ends(cfg, stored, now, RegisterFind(email, pair), c, out);
    }
    GoesOn(cfg, db, now, RegisterStore(id, email), c, store.Db(), out);
  }

  method Login(store: Database, cfg: Config, now: Time, email: string, password: string, c: Choice)
    returns (out: Outcome)
    requires store.Valid()
    modifies store
    ensures store.Valid()
    ensures Serves(cfg, old(store.Db()), now, Begin(Request.Login(email, password), now), c, store.Db(), out)
  {
    hide Commit, RotateStep, VerifyStep, ResetStep, LinkStep, AdministerStep, Serves, Constraints;
    ghost var db := store.Db();
    NoWriteNoChange(db, now);
    var found := store.FindByEmail(email);
    if found.None? {
      out := Failed(Auth);
      Ends(cfg, db, now, LoginFind(email, password), c, out);
      return;
    }
    var user := found.value;
    var phc := store.users[user.id].password;
    if phc.None? || !phc.value.Verify(password) {
      out := Failed(Auth);
      Ends(cfg, db, now, LoginFind(email, password), c, out);
    } else if !user.active {
      out := Failed(Forbidden);
      Ends(cfg, db, now, LoginFind(email, password), c, out);
    } else {
      out := IssueTokens(store, cfg, now, user.id, user.role, None, c);
      GoesOn(cfg, db, now, LoginFind(email, password), c, store.Db(), out);
    }
  }

  lemma ConsumeVerification(cfg: Config, db: Tables, now: Time, h: Digest, c: Choice)
    ensures Step(cfg, db, now, VerifyConsume(h), c) ==
            if Consumable(db.verificationTokens, h, now)
            then (UseVerification(h), VerifyMark(h, db.verificationTokens[h].user)) else (NoWrite, Fail(BadRequest))
  {
  }

  lemma MarkVerified(cfg: Config, db: Tables, now: Time, h: Digest, id: Uid, c: Choice)
    ensures Step(cfg, db, now, VerifyMark(h, id), c) == (UpdateVerified(id), Done(NoContent))
  {
  }

  method VerifyEmail(store: Database, cfg: Config, now: Time, raw: string, c: Choice) returns (out: Outcome)
    requires store.Valid()
    modifies store
    ensures store.Valid()
    ensures Serves(cfg, old(store.Db()), now, Begin(Request.VerifyEmail(raw), now), c, store.Db(), out)
  {
    hide Commit, Step, Serves, Constraints, Consumable;
    ghost var db := store.Db();
    var h := Sha256(raw);
    NoWriteNoChange(db, now);
    ConsumeVerification(cfg, db, now, h, c);
    var user := store.ConsumeEmailVerificationToken(now, h);
    if user.None? {
      out := Failed(BadRequest);
      Ends(cfg, db, now, VerifyConsume(h), c, out);
      return;
    }
    ghost var consumed := store.Db();
    MarkVerified(cfg, consumed, now, h, user.value, c);
    store.MarkEmailVerified(now, user.value);
    out := NoContent;
    Ends(cfg, consumed, now, VerifyMark(h, user.value), c, out);
    GoesOn(cfg, db, now, VerifyConsume(h), c, store.Db(), out);
  }

  method ResendVerification(store: Database, cfg: Config, now: Time, bearer: Bearer, c: Choice) returns (out: Outcome)
    requires store.Valid()
    modifies store
    ensures store.Valid()
    ensures Serves(cfg, old(store.Db()), now, Begin(Request.ResendVerification(bearer), now), c, store.Db(), out)
  {
    hide Commit, SignInStep, RotateStep, ResetStep, LinkStep, AdministerStep, Serves, Constraints, StoreVerification;
    hide ParseRole;
    ghost var db := store.Db();
    NoWriteNoChange(db, now);
    var claims := VerifyJwt(now, bearer);
    if claims.None? {
      out := Failed(Unauthorized);
      Over(cfg, db, now, c, out);
      return;
    }
    var actor := ActorOf(claims.value);
    var user := FindById(store.Db(), actor.id);
    if user.None? {
      out := Failed(Unauthorized);
      Ends(cfg, db, now, ResendFind(actor), c, out);
      return;
    }
    out := NoContent;
    if user.value.verified || user.value.email.None? {
      Ends(cfg, db, now, ResendFind(actor), c, out);
    } else {
      if !c.lost {
        var row := OneTimeRow(actor.id, now + VERIFICATION_TTL_HOURS * HOUR, None);
        store.StoreEmailVerificationToken(now, Sha256(c.mail), row);
      }
      Ends(cfg, db, now, ResendStore(actor.id), c, out);
      GoesOn(cfg, db, now, ResendFind(actor), c, store.Db(), out);
    }
  }

  lemma ForgotSteps(cfg: Config, db: Tables, now: Time, email: string, id: Uid, c: Choice)
    ensures var found := if c.lost then None else Queries.FindByEmail(db, email);
            Step(cfg, db, now, ForgotFind(email), c) ==
            (NoWrite,
             if found.Some? && db.users[found.value.id].password.Some? then ForgotStore(found.value.id)
             else Done(NoContent))
    ensures var row := OneTimeRow(id, now + RESET_TTL_HOURS * HOUR, None);
            Step(cfg, db, now, ForgotStore(id), c) ==
            (if c.lost then NoWrite else StoreReset(db, Sha256(c.mail), row), Done(NoContent))
  {
    hide Queries.FindByEmail, StoreReset;
  }

  method ForgotPassword(store: Database, cfg: Config, now: Time, email: string, c: Choice) returns (out: Outcome)
    requires store.Valid()
    modifies store
    ensures store.Valid()
    ensures Serves(cfg, old(store.Db()), now, Begin(Request.ForgotPassword(email), now), c, store.Db(), out)
  {
    hide Commit, Step, Serves, Constraints, StoreReset, Record, Queries.FindByEmail;
    ghost var db := store.Db();
    NoWriteNoChange(db, now);
    out := NoContent;
    var found := None;
    if !c.lost {
      found := store.FindByEmail(email);
    }
    ForgotSteps(cfg, db, now, email, if found.Some? then found.value.id else 0, c);
    if found.None? || store.users[found.value.id].password.None? {
      Ends(cfg, db, now, ForgotFind(email), c, out);
    } else {
      var row := OneTimeRow(found.value.id, now + RESET_TTL_HOURS * HOUR, None);
      store.StorePasswordResetToken(now, Sha256(c.mail), row);
      Ends(cfg, db, now, ForgotStore(found.value.id), c, out);
      GoesOn(cfg, db, now, ForgotFind(email), c, store.Db(), out);
    }
  }

  method ResetPassword(store: Database, cfg: Config, now: Time, raw: string, password: string, c: Choice)
    returns (out: Outcome)
    requires store.Valid()
    modifies store
    ensures store.Valid()
    ensures Serves(cfg, old(store.Db()), now, Begin(Request.ResetPassword(raw, password), now), c, store.Db(), out)
  {
    hide Commit, SignInStep, RotateStep, VerifyStep, LinkStep, AdministerStep, Serves, Constraints;
    ghost var db := store.Db();
    if |password| < MIN_PASSWORD {
      out := Failed(Validation);
      Over(cfg, db, now, c, out);
      return;
    }
    var h := Sha256(raw);
    NoWriteNoChange(db, now);
    var user := store.ConsumePasswordResetToken(now, h);
    if user.None? {
      out := Failed(BadRequest);
      Ends(cfg, db, now, ResetConsume(h, password), c, out);
      return;
    }
    ghost var consumed := store.Db();
    store.UpdatePasswordHash(now, user.value, Argon2(c.salt, password));
    store.RevokeAllRefreshTokens(now, user.value);
    out := NoContent;
    ResetTail(cfg, consumed, now, h, user.value, password, c);
    GoesOn(cfg, db, now, ResetConsume(h, password), c, store.Db(), out);
  }

  lemma ResetTail(cfg: Config, db: Tables, now: Time, h: Digest, id: Uid, password: string, c: Choice)
    ensures Serves(cfg, db, now, ResetUpdate(h, id, password), c,
                   Commit(Commit(db, now, UpdatePassword(id, Argon2(c.salt, password))), now, RevokeAllRefresh(id)),
                     NoContent)
  {
    hide Commit, SignInStep, RotateStep, VerifyStep, LinkStep, AdministerStep, Serves;
    var updated := Commit(db, now, UpdatePassword(id, Argon2(c.salt, password)));
    Ends(cfg, updated, now, ResetRevoke(h, id), c, NoContent);
    GoesOn(cfg, db, now, ResetUpdate(h, id, password), c, Commit(updated, now, RevokeAllRefresh(id)), NoContent);
  }

  lemma CallbackSteps(cfg: Config, db: Tables, now: Time, p: Profile, c: Choice)
    ensures var user := FindByOauth(db, p.Key());
            Step(cfg, db, now, OauthFind(p), c) ==
            (NoWrite, if user.Some? then OauthBind(p, user.value.id, user.value.role) else OauthInsert(p))
    ensures var account := NewUser(p.email, None, p.name, User, p.email.Some?);
            Step(cfg, db, now, OauthInsert(p), c) ==
            Try(Queries.CreateUser(db, now, c.uid, account), OauthBind(p, c.uid, User))
  {
    hide FindByOauth, Queries.CreateUser;
  }

  method GoogleCallback(store: Database, cfg: Config, now: Time, profile: Profile, c: Choice) returns (out: Outcome)
    requires store.Valid() && (MayCreate(Begin(Request.GoogleCallback(profile), now)) ==> c.uid !in store.users)
    modifies store
    ensures store.Valid()
    ensures Serves(cfg, old(store.Db()), now, Begin(Request.GoogleCallback(profile), now), c, store.Db(), out)
  {
    hide Commit, Step, Serves, Constraints, Record, FindById, Queries.CreateUser;
    ghost var db := store.Db();
    NoWriteNoChange(db, now);
    CallbackSteps(cfg, db, now, profile, c);
    var user := FindByOauth(store.Db(), profile.Key());
    if user.Some? {
      out := Bind(store, cfg, now, profile, user.value.id, user.value.role, c);
    } else {
      var error := store.CreateUser(now, c.uid, NewUser(profile.email, None, profile.name, User, profile.email.Some?));
      if error.Some? {
        out := Failed(error.value);
        Ends(cfg, db, now, OauthInsert(profile), c, out);
      } else {
        out := Bind(store, cfg, now, profile, c.uid, User, c);
        GoesOn(cfg, db, now, OauthInsert(profile), c, store.Db(), out);
      }
    }
    GoesOn(cfg, db, now, OauthFind(profile), c, store.Db(), out);
  }

  /** Binds the subject to the account and signs it in. */
  method Bind(store: Database, cfg: Config, now: Time, profile: Profile, id: Uid, role: Role, c: Choice)
    returns (out: Outcome)
    requires store.Valid()
    modifies store
    ensures store.Valid()
    ensures Serves(cfg, old(store.Db()), now, OauthBind(profile, id, role), c, store.Db(), out)
  {
    hide Commit, SignInStep, RotateStep, VerifyStep, ResetStep, AdministerStep, Serves, Constraints, Record;
    hide BindIdentity;
    ghost var db := store.Db();
    NoWriteNoChange(db, now);
    var error := store.UpsertOauthIdentity(now, profile.Key(), id, profile.email);
    if error.Some? {
      out := Failed(error.value);
      Ends(cfg, db, now, OauthBind(profile, id, role), c, out);
    } else {
      out := IssueTokens(store, cfg, now, id, role, None, c);
      GoesOn(cfg, db, now, OauthBind(profile, id, role), c, store.Db(), out);
    }
  }

  /** The four admin endpoints: bearer, gate, permission check, action. */
  method Administer(store: Database, cfg: Config, now: Time, bearer: Bearer, action: Action, c: Choice)
    returns (out: Outcome)
    requires store.Valid() && (MayList(Begin(Request.Administer(bearer, action), now)) ==> Listing(store.Db(), c.order))
    modifies store
    ensures store.Valid()
    ensures Serves(cfg, old(store.Db()), now, Begin(Request.Administer(bearer, action), now), c, store.Db(), out)
  {
    hide Commit, SignInStep, RotateStep, VerifyStep, ResetStep, LinkStep, Serves, Constraints, PermissionsFor;
    hide PermissionName, Listing, Act, ParseRole;
    ghost var db := store.Db();
    NoWriteNoChange(db, now);
    var claims := VerifyJwt(now, bearer);
    if claims.None? {
      out := Failed(Unauthorized);
      Over(cfg, db, now, c, out);
      return;
    }
    var actor := ActorOf(claims.value);
    var user := FindById(store.Db(), actor.id);
    if user.None? {
      out := Failed(Unauthorized);
      Ends(cfg, db, now, AdminGate(actor, action), c, out);
      return;
    }
    if !user.value.verified {
      out := Failed(EmailNotVerified);
      Ends(cfg, db, now, AdminGate(actor, action), c, out);
      return;
    }
    if PermissionName(Required(action)) !in PermissionsFor(store.Db(), actor.id) {
      out := Failed(Forbidden);
      Ends(cfg, db, now, AdminCheck(actor, action), c, out);
    } else {
      out := CarryOut(store, cfg, now, actor, action, c);
      GoesOn(cfg, db, now, AdminCheck(actor, action), c, store.Db(), out);
    }
    GoesOn(cfg, db, now, AdminGate(actor, action), c, store.Db(), out);
  }

  method CarryOut(store: Database, cfg: Config, now: Time, ghost actor: Actor, action: Action, c: Choice)
    returns (out: Outcome)
    requires store.Valid()
    modifies store
    ensures store.Valid()
    ensures Serves(cfg, old(store.Db()), now, AdminAct(actor, action), c, store.Db(), out)
  {
    hide Commit, SignInStep, RotateStep, VerifyStep, ResetStep, LinkStep, Serves, Constraints, PermissionsFor;
    hide PermissionName, GrantOverride;
    hide Queries.RoleIdFor;
    ghost var db := store.Db();
    NoWriteNoChange(db, now);
    out := NoContent;
    match action {
    case SetRole(target, role) =>
      var error := store.SetRole(now, target, role);
      if error.Some? { out := Failed(error.value); }
    case SetActive(target, active) =>
      store.SetActive(now, target, active);
    case Grant(target, name, granted) =>
      var error := store.GrantPermission(now, target, name, granted);
      if error.Some? { out := Failed(error.value); }
    case ListUsers(limit, offset) =>
      if limit < 0 || offset < 0 { out := Failed(Database); }
      else { out := Listed(Window(c.order, Min(limit, PAGE_CAP), offset)); }
    }
    Ends(cfg, db, now, AdminAct(actor, action), c, out);
  }

  method CreateAdmin(store: Database, cfg: Config, now: Time, email: string, emailOk: bool, password: string, c: Choice)
    returns (out: Outcome)
    requires store.Valid()
    requires (MayCreate(Begin(Request.CreateAdmin(email, emailOk, password), now)) ==> c.uid !in store.users)
    modifies store
    ensures store.Valid()
    ensures Serves(cfg, old(store.Db()), now, Begin(Request.CreateAdmin(email, emailOk, password), now), c, store.Db(),
            out)
  {
    hide Commit, RotateStep, VerifyStep, ResetStep, LinkStep, AdministerStep, Serves, Constraints, Record;
    hide Queries.CreateUser;
    ghost var db := store.Db();
    if !emailOk || |password| < MIN_PASSWORD {
      out := Failed(Validation);
      Over(cfg, db, now, c, out);
      return;
    }
    NoWriteNoChange(db, now);
    var error := store.CreateUser(now, c.uid, NewUser(Some(email), Some(Argon2(c.salt, password)), None, Admin, true));
    out := if error.Some? then Failed(error.value) else AdminCreated(c.uid);
    Ends(cfg, db, now, AdminInsert(email, password), c, out);
  }
}
