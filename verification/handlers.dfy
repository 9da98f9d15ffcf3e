/**
 * The request handlers as programs of atomic steps. A `Pc` says which statement comes next and
 * holds the locals still in scope; `Step` runs that statement and the local code up to the next.
 */
module Handlers {
  import opened Basics
  import opened Schema
  import opened Queries

  datatype Config = Config(accessTtlMin: int, refreshTtlDays: int)

  const DAY: int := 86400
  const HOUR: int := 3600
  const VERIFICATION_TTL_HOURS: int := 24
  const RESET_TTL_HOURS: int := 1
  const PAGE_CAP: int := 200
  const MIN_PASSWORD: nat := 8
  /** Seconds past `exp` that the JWT library's default validation still accepts. */
  const JWT_LEEWAY: int := 60

  // ---- access tokens ----------------------------------------------------------

  datatype Claims = Claims(sub: Uid, role: string, iat: Time, exp: Time)

  /** What a client can put in the bearer header: a token this service signed, or anything else. */
  datatype Bearer = Signed(claims: Claims) | Unsigned(raw: string)

  function Issue(cfg: Config, now: Time, id: Uid, role: Role): Claims {
    Claims(id, RoleName(role), now, now + cfg.accessTtlMin * 60)
  }

  function VerifyJwt(now: Time, bearer: Bearer): Option<Claims> {
    if bearer.Signed? && now <= bearer.claims.exp + JWT_LEEWAY then Some(bearer.claims) else None
  }

  /** `AuthUser` and, past the gate, `VerifiedUser`: the subject and the role the token claims. */
  datatype Actor = Actor(id: Uid, role: Role)

  function ActorOf(claims: Claims): Actor {
    var parsed := ParseRole(claims.role);
    Actor(claims.sub, if parsed.Some? then parsed.value else User)
  }

  // ---- requests ---------------------------------------------------------------

  datatype Profile = Profile(provider: string, subject: string, email: Option<string>, name: Option<string>) {
    function Key(): (string, string) { (provider, subject) }
  }

  datatype Action =
    | SetRole(target: Uid, role: Role)
    | SetActive(target: Uid, active: bool)
    | Grant(target: Uid, permission: string, granted: bool)
    | ListUsers(limit: int, offset: int)

  function Required(a: Action): Permission {
    match a
    case SetRole(_, _) => UsersAssignRoles
    case SetActive(_, _) => UsersManage
    case Grant(_, _, _) => UsersAssignRoles
    case ListUsers(_, _) => UsersRead
  }

  /** `emailOk` is the verdict of the e-mail syntax validator, which this model does not look into. */
  datatype Request =
    | Register(email: string, emailOk: bool, password: string, name: Option<string>)
    | Login(email: string, password: string)
    | Refresh(raw: string)
    | Logout(raw: string)
    | VerifyEmail(raw: string)
    | ResendVerification(bearer: Bearer)
    | ForgotPassword(email: string)
    | ResetPassword(raw: string, password: string)
    | GoogleCallback(profile: Profile)
    | Administer(bearer: Bearer, action: Action)
    | CreateAdmin(email: string, emailOk: bool, password: string)

  // ---- results ----------------------------------------------------------------

  datatype TokenPair = TokenPair(access: Claims, refresh: string)

  /** `NoContent` is a success without a body: 204, or 200 for e-mail verification. */
  datatype Outcome =
    | Tokens(pair: TokenPair)
    | NoContent
    | Listed(page: seq<Uid>)
    | AdminCreated(id: Uid)
    | Failed(error: AppError)

  // ---- program points ---------------------------------------------------------

  datatype Pc =
    | RegisterInsert(email: string, password: string, name: Option<string>)
    | RegisterStore(id: Uid, email: string)
    | RegisterFind(email: string, pair: TokenPair)
    | RegisterMail(id: Uid, pair: TokenPair)
    | LoginFind(email: string, password: string)
    /** `parent` is the refresh token being rotated; logins and OAuth callbacks have none. */
    | IssueStore(id: Uid, role: Role, parent: Option<Digest>)
    | RefreshLookup(hash: Digest)
    | RefreshRevoke(hash: Digest, id: Uid)
    | RefreshFind(hash: Digest, id: Uid)
    | LogoutRevoke(hash: Digest)
    | VerifyConsume(hash: Digest)
    | VerifyMark(hash: Digest, id: Uid)
    | ResendFind(actor: Actor)
    | ResendStore(id: Uid)
    | ForgotFind(email: string)
    | ForgotStore(id: Uid)
    | ResetConsume(hash: Digest, password: string)
    | ResetUpdate(hash: Digest, id: Uid, password: string)
    | ResetRevoke(hash: Digest, id: Uid)
    | OauthFind(profile: Profile)
    | OauthInsert(profile: Profile)
    | OauthBind(profile: Profile, id: Uid, role: Role)
    | AdminGate(actor: Actor, action: Action)
    | AdminCheck(actor: Actor, action: Action)
    | AdminAct(actor: Actor, action: Action)
    | AdminInsert(email: string, password: string)
    | Done(outcome: Outcome)

  function Fail(e: AppError): Pc { Done(Failed(e)) }

  /** The local code before a handler's first statement. */
  function Begin(req: Request, now: Time): Pc {
    match req
    case Register(email, emailOk, password, name) =>
      if !emailOk || |password| < MIN_PASSWORD then Fail(Validation) else RegisterInsert(email, password, name)
    case Login(email, password) => LoginFind(email, password)
    case Refresh(raw) => RefreshLookup(Sha256(raw))
    case Logout(raw) => LogoutRevoke(Sha256(raw))
    case VerifyEmail(raw) => VerifyConsume(Sha256(raw))
    case ResendVerification(bearer) =>
      (match VerifyJwt(now, bearer)
       case None => Fail(Unauthorized)
       case Some(claims) => ResendFind(ActorOf(claims)))
    case ForgotPassword(email) => ForgotFind(email)
    case ResetPassword(raw, password) =>
      if |password| < MIN_PASSWORD then Fail(Validation) else ResetConsume(Sha256(raw), password)
    case GoogleCallback(profile) => OauthFind(profile)
    case Administer(bearer, action) =>
      (match VerifyJwt(now, bearer)
       case None => Fail(Unauthorized)
       case Some(claims) => AdminGate(ActorOf(claims), action))
    case CreateAdmin(email, emailOk, password) =>
      if !emailOk || |password| < MIN_PASSWORD then Fail(Validation) else AdminInsert(email, password)
  }

  /**
   * What a step draws at random, the order the database lists tied users in, and whether a query
   * fails at the points where the handler ignores that. A failure anywhere else ends the request.
   */
  datatype Choice = Choice(uid: Uid, salt: nat, refresh: string, mail: string, order: seq<Uid>, lost: bool)

  /** Random values do not collide with stored ones, and the listing order is a listing order. */
  ghost predicate Fresh(db: Tables, k: Pc, c: Choice) {
    match k
    case RegisterInsert(_, _, _) => c.uid !in db.users
    case OauthInsert(_) => c.uid !in db.users
    case AdminInsert(_, _) => c.uid !in db.users
    case RegisterStore(_, _) => Sha256(c.refresh) !in db.refreshTokens
    case IssueStore(_, _, _) => Sha256(c.refresh) !in db.refreshTokens
    case RegisterMail(_, _) => Sha256(c.mail) !in db.verificationTokens
    case ResendStore(_) => Sha256(c.mail) !in db.verificationTokens
    case ForgotStore(_) => Sha256(c.mail) !in db.resetTokens
    case AdminAct(_, a) => a.ListUsers? ==> Listing(db, c.order)
    case _ => true
  }

  function Session(cfg: Config, now: Time, id: Uid): RefreshRow {
    RefreshRow(id, now, now + cfg.refreshTtlDays * DAY, None)
  }

  /** `spawn_verification_email`, whose outcome both callers ignore. */
  function MailVerification(db: Tables, now: Time, id: Uid, c: Choice): Write {
    var token := OneTimeRow(id, now + VERIFICATION_TTL_HOURS * HOUR, None);
    if c.lost then NoWrite else StoreVerification(db, Sha256(c.mail), token)
  }

  /** An INSERT followed by `?`: go on with `next`, or end the request with the error. */
  function Try(ins: Insert, next: Pc): (Write, Pc) {
    match ins
    case Accept(w) => (w, next)
    case Violation(e) => (NoWrite, Fail(e))
  }

  /**
   * Registration, login, the bootstrap command, and the token issue they and every OAuth callback and
   * refresh end in.
   */
  predicate SigningIn(k: Pc) {
    k.RegisterInsert? || k.RegisterStore? || k.RegisterFind? || k.RegisterMail? || k.LoginFind? || k.IssueStore?
      || k.AdminInsert?
  }

  ghost function SignInStep(cfg: Config, db: Tables, now: Time, k: Pc, c: Choice): (Write, Pc)
    requires SigningIn(k)
  {
    match k
    case RegisterInsert(email, password, name) =>
      Try(CreateUser(db, now, c.uid, NewUser(Some(email), Some(Argon2(c.salt, password)), name, User, false)),
          RegisterStore(c.uid, email))
    case RegisterStore(id, email) =>
      Try(StoreRefresh(db, Sha256(c.refresh), Session(cfg, now, id)),
          RegisterFind(email, TokenPair(Issue(cfg, now, id, User), c.refresh)))
    case RegisterFind(email, pair) =>
      var found := if c.lost then None else FindByEmail(db, email);
      (NoWrite, if found.Some? then RegisterMail(found.value.id, pair) else Done(Tokens(pair)))
    case RegisterMail(id, pair) => (MailVerification(db, now, id, c), Done(Tokens(pair)))
    case LoginFind(email, password) =>
      (NoWrite,
       match FindByEmail(db, email)
       case None => Fail(Auth)
       case Some(user) =>
         var phc := db.users[user.id].password;
         if phc.None? || !phc.value.Verify(password) then Fail(Auth)
         else if !user.active then Fail(Forbidden)
         else IssueStore(user.id, user.role, None))
    case IssueStore(id, role, parent) =>
      Try(StoreRefresh(db, Sha256(c.refresh), Session(cfg, now, id)),
          Done(Tokens(TokenPair(Issue(cfg, now, id, role), c.refresh))))
    case AdminInsert(email, password) =>
      Try(CreateUser(db, now, c.uid, NewUser(Some(email), Some(Argon2(c.salt, password)), None, Admin, true)),
        Done(AdminCreated(c.uid)))
  }

  /** Refresh and logout. */
  predicate Rotating(k: Pc) {
    k.RefreshLookup? || k.RefreshRevoke? || k.RefreshFind? || k.LogoutRevoke?
  }

  ghost function RotateStep(cfg: Config, db: Tables, now: Time, k: Pc, c: Choice): (Write, Pc)
    requires Rotating(k)
  {
    match k
    case RefreshLookup(h) =>
      (NoWrite,
       if h !in db.refreshTokens then Fail(Unauthorized)
       else if db.refreshTokens[h].Revoked() || db.refreshTokens[h].expiresAt <= now then Fail(Unauthorized)
       else RefreshRevoke(h, db.refreshTokens[h].user))
    case RefreshRevoke(h, id) => (RevokeRefresh(h), RefreshFind(h, id))
    case RefreshFind(h, id) =>
      var user := FindById(db, id);
      (NoWrite, if user.Some? then IssueStore(user.value.id, user.value.role, Some(h)) else Fail(Unauthorized))
    case LogoutRevoke(h) => (RevokeRefresh(h), Done(NoContent))
  }

  /** E-mail verification and its re-sending. */
  predicate Verifying(k: Pc) {
    k.VerifyConsume? || k.VerifyMark? || k.ResendFind? || k.ResendStore?
  }

  ghost function VerifyStep(cfg: Config, db: Tables, now: Time, k: Pc, c: Choice): (Write, Pc)
    requires Verifying(k)
  {
    match k
    case VerifyConsume(h) =>
      if Consumable(db.verificationTokens, h, now)
      then (UseVerification(h), VerifyMark(h, db.verificationTokens[h].user))
      else (NoWrite, Fail(BadRequest))
    case VerifyMark(h, id) => (UpdateVerified(id), Done(NoContent))
    case ResendFind(actor) =>
      (NoWrite,
       match FindById(db, actor.id)
       case None => Fail(Unauthorized)
       case Some(user) => if user.verified || user.email.None? then Done(NoContent) else ResendStore(actor.id))
    case ResendStore(id) => (MailVerification(db, now, id, c), Done(NoContent))
  }

  /** Password recovery. */
  predicate Resetting(k: Pc) {
    k.ForgotFind? || k.ForgotStore? || k.ResetConsume? || k.ResetUpdate? || k.ResetRevoke?
  }

  ghost function ResetStep(cfg: Config, db: Tables, now: Time, k: Pc, c: Choice): (Write, Pc)
    requires Resetting(k)
  {
    match k
    case ForgotFind(email) =>
      (NoWrite,
       match if c.lost then None else FindByEmail(db, email)
       case None => Done(NoContent)
       case Some(user) => if db.users[user.id].password.Some? then ForgotStore(user.id) else Done(NoContent))
    case ForgotStore(id) =>
      var token := OneTimeRow(id, now + RESET_TTL_HOURS * HOUR, None);
      (if c.lost then NoWrite else StoreReset(db, Sha256(c.mail), token), Done(NoContent))
    case ResetConsume(h, password) =>
      if Consumable(db.resetTokens, h, now) then (UseReset(h), ResetUpdate(h, db.resetTokens[h].user, password))
      else (NoWrite, Fail(BadRequest))
    case ResetUpdate(h, id, password) => (UpdatePassword(id, Argon2(c.salt, password)), ResetRevoke(h, id))
    case ResetRevoke(h, id) => (RevokeAllRefresh(id), Done(NoContent))
  }

  /** The Google callback. */
  predicate Linking(k: Pc) {
    k.OauthFind? || k.OauthInsert? || k.OauthBind?
  }

  ghost function LinkStep(cfg: Config, db: Tables, now: Time, k: Pc, c: Choice): (Write, Pc)
    requires Linking(k)
  {
    match k
    case OauthFind(p) =>
      var user := FindByOauth(db, p.Key());
      (NoWrite, if user.Some? then OauthBind(p, user.value.id, user.value.role) else OauthInsert(p))
    case OauthInsert(p) =>
      Try(CreateUser(db, now, c.uid, NewUser(p.email, None, p.name, User, p.email.Some?)), OauthBind(p, c.uid, User))
    case OauthBind(p, id, role) =>
      Try(BindIdentity(db, p.Key(), IdentityRow(id, p.email)), IssueStore(id, role, None))
  }

  ghost function Act(db: Tables, action: Action, c: Choice): (Write, Pc) {
    match action
    case SetRole(target, role) =>
      (match RoleIdFor(db, role)
       case None => (NoWrite, Fail(NotFound))
       case Some(id) => (UpdateRole(target, id), Done(NoContent)))
    case SetActive(target, active) => (UpdateActive(target, active), Done(NoContent))
    case Grant(target, name, granted) => Try(GrantOverride(db, target, name, granted), Done(NoContent))
    case ListUsers(limit, offset) =>
      (NoWrite,
       if limit < 0 || offset < 0 then Fail(Database)
       else Done(Listed(Window(c.order, Min(limit, PAGE_CAP), offset))))
  }

  /** The admin endpoints. */
  predicate Administering(k: Pc) {
    k.AdminGate? || k.AdminCheck? || k.AdminAct?
  }

  ghost function AdministerStep(cfg: Config, db: Tables, now: Time, k: Pc, c: Choice): (Write, Pc)
    requires Administering(k)
  {
    match k
    case AdminGate(actor, action) =>
      (NoWrite,
       match FindById(db, actor.id)
       case None => Fail(Unauthorized)
       case Some(user) => if user.verified then AdminCheck(actor, action) else Fail(EmailNotVerified))
    case AdminCheck(actor, action) =>
      (NoWrite,
       if PermissionName(Required(action)) in PermissionsFor(db, actor.id) then AdminAct(actor, action)
       else Fail(Forbidden))
    case AdminAct(actor, action) => Act(db, action, c)
  }

  ghost function Step(cfg: Config, db: Tables, now: Time, k: Pc, c: Choice): (Write, Pc) {
    if SigningIn(k) then SignInStep(cfg, db, now, k, c)
    else if Rotating(k) then RotateStep(cfg, db, now, k, c)
    else if Verifying(k) then VerifyStep(cfg, db, now, k, c)
    else if Resetting(k) then ResetStep(cfg, db, now, k, c)
    else if Linking(k) then LinkStep(cfg, db, now, k, c)
    else if Administering(k) then AdministerStep(cfg, db, now, k, c)
    else (NoWrite, k)
  }
}
