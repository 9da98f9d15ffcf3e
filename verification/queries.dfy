/**
 * The SQL statements. A read is a function of the tables; a statement that writes is a `Write`
 * value and `Commit` is its effect, so that a run can be read as a log of writes.
 */
module Queries {
  import opened Basics
  import opened Schema

  datatype AppError =
    NotFound | Forbidden | Unauthorized | Validation | BadRequest | Auth | EmailNotVerified | Database

  datatype NewUser = NewUser(
    email: Option<string>, password: Option<Phc>, displayName: Option<string>, role: Role, verified: bool)

  datatype UserRecord = UserRecord(
    id: Uid, email: Option<string>, displayName: Option<string>, role: Role,
    active: bool, verified: bool, createdAt: Time, updatedAt: Time)

  // ---- reads ----------------------------------------------------------------

  /** `JOIN roles` keeps the row only if its role exists; an unknown name falls back to `User`. */
  predicate Joins(db: Tables, u: Uid) { u in db.users && db.users[u].roleId in db.roles }

  function Record(db: Tables, u: Uid): UserRecord
    requires Joins(db, u)
  {
    var row := db.users[u];
    var parsed := ParseRole(db.roles[row.roleId]);
    UserRecord(u, row.email, row.displayName, if parsed.Some? then parsed.value else User,
               row.active, row.verified, row.createdAt, row.updatedAt)
  }

  function FindById(db: Tables, u: Uid): Option<UserRecord> {
    if Joins(db, u) then Some(Record(db, u)) else None
  }

  ghost function FindByEmail(db: Tables, email: string): Option<UserRecord> {
    if exists u :: Joins(db, u) && HasEmail(db.users[u], email)
    then var u :| Joins(db, u) && HasEmail(db.users[u], email); Some(Record(db, u))
    else None
  }

  function FindByOauth(db: Tables, key: (string, string)): Option<UserRecord> {
    if key in db.identities then FindById(db, db.identities[key].user) else None
  }

  ghost function RoleIdFor(db: Tables, role: Role): Option<nat> {
    if exists id :: id in db.roles && db.roles[id] == RoleName(role)
    then var id :| id in db.roles && db.roles[id] == RoleName(role); Some(id)
    else None
  }

  ghost function PermissionIdFor(db: Tables, name: string): Option<nat> {
    if exists id :: id in db.permissions && db.permissions[id] == name
    then var id :| id in db.permissions && db.permissions[id] == name; Some(id)
    else None
  }

  /** `permissions_for`: (role's names UNION granted names) except revoked names. */
  function PermissionsFor(db: Tables, u: Uid): set<string> {
    (RoleNames(db, u) + OverrideNames(db, u, true)) - OverrideNames(db, u, false)
  }

  function RoleNames(db: Tables, u: Uid): set<string> {
    if u !in db.users then {} else
      set rp | rp in db.rolePermissions && rp.0 == db.users[u].roleId && rp.1 in db.permissions :: db.permissions[rp.1]
  }

  function OverrideNames(db: Tables, u: Uid, granted: bool): set<string> {
    set p | p in db.permissions && (u, p) in db.overrides && db.overrides[(u, p)] == granted :: db.permissions[p]
  }

  /** A result order for `list_users`: newest first, ties in any order. */
  ghost predicate Listing(db: Tables, order: seq<Uid>) {
    && (forall u :: u in order <==> Joins(db, u))
    && (forall i, j | 0 <= i < j < |order| :: order[i] != order[j])
    && (forall i | 0 <= i < |order| :: order[i] in db.users)
    && (forall i, j | 0 <= i < j < |order| :: db.users[order[i]].createdAt >= db.users[order[j]].createdAt)
  }

  function Min(a: int, b: int): int { if a < b then a else b }

  /** LIMIT and OFFSET, neither negative. */
  function Window(order: seq<Uid>, limit: nat, offset: nat): seq<Uid> {
    order[Min(offset, |order|)..Min(offset + limit, |order|)]
  }

  // ---- writes ---------------------------------------------------------------

  datatype Write =
    | NoWrite
    | InsertUser(id: Uid, user: UserRow)
    | UpdateRole(id: Uid, roleId: nat)
    | UpdateActive(id: Uid, active: bool)
    | UpdateVerified(id: Uid)
    | UpdatePassword(id: Uid, phc: Phc)
    | UpsertOverride(id: Uid, permission: nat, granted: bool)
    | UpsertIdentity(key: (string, string), identity: IdentityRow)
    | InsertRefresh(hash: Digest, refresh: RefreshRow)
    | RevokeRefresh(hash: Digest)
    | RevokeAllRefresh(id: Uid)
    | InsertVerification(hash: Digest, token: OneTimeRow)
    | UseVerification(hash: Digest)
    | InsertReset(hash: Digest, token: OneTimeRow)
    | UseReset(hash: Digest)

  /** An UPDATE whose WHERE clause finds no row changes nothing. */
  function UsersAfter(users: map<Uid, UserRow>, now: Time, w: Write): map<Uid, UserRow> {
    match w
    case InsertUser(id, row) => users[id := row]
    case UpdateRole(id, roleId) =>
      if id !in users then users else users[id := users[id].(roleId := roleId, updatedAt := now)]
    case UpdateActive(id, active) =>
      if id !in users then users else users[id := users[id].(active := active, updatedAt := now)]
    case UpdateVerified(id) =>
      if id !in users then users else users[id := users[id].(verified := true, updatedAt := now)]
    case UpdatePassword(id, phc) =>
      if id !in users then users else users[id := users[id].(password := Some(phc), updatedAt := now)]
    case _ => users
  }

  /** ON CONFLICT (provider, subject) keeps the row's owner. */
  function IdentitiesAfter(identities: map<(string, string), IdentityRow>, w: Write)
    : map<(string, string), IdentityRow>
  {
    match w
    case UpsertIdentity(key, row) =>
      identities[key := if key in identities then row.(user := identities[key].user) else row]
    case _ => identities
  }

  function RefreshAfter(tokens: map<Digest, RefreshRow>, now: Time, w: Write): map<Digest, RefreshRow> {
    match w
    case InsertRefresh(h, row) => tokens[h := row]
    case RevokeRefresh(h) => if h !in tokens then tokens else tokens[h := tokens[h].(revokedAt := Some(now))]
    case RevokeAllRefresh(id) => RevokeAll(tokens, id, now)
    case _ => tokens
  }

  function RevokeAll(tokens: map<Digest, RefreshRow>, id: Uid, now: Time): map<Digest, RefreshRow> {
    map h | h in tokens ::
      if tokens[h].user == id && !tokens[h].Revoked() then tokens[h].(revokedAt := Some(now)) else tokens[h]
  }

  function VerificationAfter(tokens: map<Digest, OneTimeRow>, now: Time, w: Write): map<Digest, OneTimeRow> {
    match w
    case InsertVerification(h, row) => tokens[h := row]
    case UseVerification(h) => if h !in tokens then tokens else tokens[h := tokens[h].(usedAt := Some(now))]
    case _ => tokens
  }

  function ResetAfter(tokens: map<Digest, OneTimeRow>, now: Time, w: Write): map<Digest, OneTimeRow> {
    match w
    case InsertReset(h, row) => tokens[h := row]
    case UseReset(h) => if h !in tokens then tokens else tokens[h := tokens[h].(usedAt := Some(now))]
    case _ => tokens
  }

  function OverridesAfter(overrides: map<(Uid, nat), bool>, w: Write): map<(Uid, nat), bool> {
    match w
    case UpsertOverride(id, p, granted) => overrides[(id, p) := granted]
    case _ => overrides
  }

  /** The effect of a statement, table by table. */
  function Commit(db: Tables, now: Time, w: Write): Tables {
    db.(users := UsersAfter(db.users, now, w),
        identities := IdentitiesAfter(db.identities, w),
        refreshTokens := RefreshAfter(db.refreshTokens, now, w),
        verificationTokens := VerificationAfter(db.verificationTokens, now, w),
        resetTokens := ResetAfter(db.resetTokens, now, w),
        overrides := OverridesAfter(db.overrides, w))
  }

  // ---- statements that can violate a constraint ------------------------------

  /** What an INSERT comes to: the write, or the error a violated constraint raises. */
  datatype Insert = Accept(write: Write) | Violation(error: AppError)

  ghost predicate EmailTaken(db: Tables, email: Option<string>) {
    email.Some? && exists u :: u in db.users && HasEmail(db.users[u], email.value)
  }

  function NewRow(now: Time, account: NewUser, roleId: nat): UserRow {
    UserRow(account.email, account.password, account.displayName, roleId, true, account.verified, now, now)
  }

  ghost function CreateUser(db: Tables, now: Time, id: Uid, account: NewUser): Insert {
    match RoleIdFor(db, account.role)
    case None => Violation(NotFound)
    case Some(roleId) =>
      if EmailTaken(db, account.email) then Violation(Database)
      else Accept(InsertUser(id, NewRow(now, account, roleId)))
  }

  function StoreRefresh(db: Tables, h: Digest, row: RefreshRow): Insert {
    if row.user !in db.users || h in db.refreshTokens then Violation(Database) else Accept(InsertRefresh(h, row))
  }

  function BindIdentity(db: Tables, key: (string, string), row: IdentityRow): Insert {
    if key !in db.identities && row.user !in db.users then Violation(Database) else Accept(UpsertIdentity(key, row))
  }

  /** Both callers ignore the outcome, so a foreign-key error and DO NOTHING look alike. */
  function StoreVerification(db: Tables, h: Digest, row: OneTimeRow): Write {
    if row.user !in db.users || h in db.verificationTokens then NoWrite else InsertVerification(h, row)
  }

  function StoreReset(db: Tables, h: Digest, row: OneTimeRow): Write {
    if row.user !in db.users || h in db.resetTokens then NoWrite else InsertReset(h, row)
  }

  /** `used_at IS NULL AND expires_at > now()`: the row a consuming UPDATE hits. */
  predicate Consumable(tokens: map<Digest, OneTimeRow>, h: Digest, now: Time) {
    h in tokens && !tokens[h].Used() && tokens[h].expiresAt > now
  }

  ghost function GrantOverride(db: Tables, id: Uid, name: string, granted: bool): Insert {
    match PermissionIdFor(db, name)
    case None => Accept(NoWrite)
    case Some(p) => if id !in db.users then Violation(Database) else Accept(UpsertOverride(id, p, granted))
  }
}
