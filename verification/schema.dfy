/** The tables of the service, the rows the migration seeds, and the constraints it declares. */
module Schema {
  import opened Basics

  type Uid = nat
  /** Seconds on the one clock the handlers and the database share. */
  type Time = int

  /** SHA-256 of a raw token, as a free (hence injective) constructor. */
  datatype Digest = Sha256(raw: string)

  /** An Argon2 hash. `Verify` is the only thing the service does with it. */
  datatype Phc = Argon2(salt: nat, plain: string) {
    predicate Verify(password: string) { password == plain }
  }

  // ---- role and permission names --------------------------------------------

  datatype Role = Admin | Moderator | User

  function RoleName(role: Role): string {
    match role
    case Admin => "admin"
    case Moderator => "moderator"
    case User => "user"
  }

  function ParseRole(name: string): Option<Role> {
    match name
    case "admin" => Some(Admin)
    case "moderator" => Some(Moderator)
    case "user" => Some(User)
    case _ => None
  }

  /** Every permission the code can name; the migration seeds only the first three. */
  datatype Permission =
    | UsersRead | UsersManage | UsersAssignRoles
    | FilesUpload | FilesReadOwn | FilesReadAll | FilesDeleteOwn | FilesDeleteAny
    | FormatsManageOwn | FormatsManageAny | MappingsManageOwn | MappingsManageAny | JobsRun

  function PermissionName(p: Permission): string {
    match p
    case UsersRead => "users.read"
    case UsersManage => "users.manage"
    case UsersAssignRoles => "users.assign_roles"
    case FilesUpload => "files.upload"
    case FilesReadOwn => "files.read_own"
    case FilesReadAll => "files.read_all"
    case FilesDeleteOwn => "files.delete_own"
    case FilesDeleteAny => "files.delete_any"
    case FormatsManageOwn => "formats.manage_own"
    case FormatsManageAny => "formats.manage_any"
    case MappingsManageOwn => "mappings.manage_own"
    case MappingsManageAny => "mappings.manage_any"
    case JobsRun => "jobs.run"
  }

  // ---- rows -----------------------------------------------------------------

  datatype UserRow = UserRow(
    email: Option<string>, password: Option<Phc>, displayName: Option<string>, roleId: nat,
    active: bool, verified: bool, createdAt: Time, updatedAt: Time)

  datatype IdentityRow = IdentityRow(user: Uid, email: Option<string>)

  datatype RefreshRow = RefreshRow(user: Uid, issuedAt: Time, expiresAt: Time, revokedAt: Option<Time>) {
    predicate Revoked() { revokedAt.Some? }
  }

  /** A row of `email_verification_tokens` or of `password_reset_tokens`. */
  datatype OneTimeRow = OneTimeRow(user: Uid, expiresAt: Time, usedAt: Option<Time>) {
    predicate Used() { usedAt.Some? }
  }

  /** The database. A map's key is the table's primary key or the UNIQUE column the code reads by. */
  datatype Tables = Tables(
    roles: map<nat, string>,
    permissions: map<nat, string>,
    rolePermissions: set<(nat, nat)>,
    users: map<Uid, UserRow>,
    identities: map<(string, string), IdentityRow>,
    refreshTokens: map<Digest, RefreshRow>,
    verificationTokens: map<Digest, OneTimeRow>,
    resetTokens: map<Digest, OneTimeRow>,
    overrides: map<(Uid, nat), bool>)

  // ---- seed -----------------------------------------------------------------

  function SeedRoles(): map<nat, string> { map[1 := RoleName(Admin), 2 := RoleName(Moderator), 3 := RoleName(User)] }

  function SeedPermissions(): map<nat, string> {
    map[1 := PermissionName(UsersRead), 2 := PermissionName(UsersManage), 3 := PermissionName(UsersAssignRoles)]
  }

  function SeedRolePermissions(): set<(nat, nat)> {
    var roles, perms := SeedRoles(), SeedPermissions();
    (set r, p | r in roles && p in perms && roles[r] == RoleName(Admin) :: (r, p)) +
    (set r, p | r in roles && p in perms && roles[r] == RoleName(Moderator)
                && perms[p] == PermissionName(UsersRead) :: (r, p))
  }

  function Seed(): Tables {
    Tables(SeedRoles(), SeedPermissions(), SeedRolePermissions(), map[], map[], map[], map[], map[], map[])
  }

  // ---- constraints ----------------------------------------------------------

  /** CITEXT compares case-folded text. */
  function Fold(s: string): string { seq(|s|, i requires 0 <= i < |s| => FoldChar(s[i])) }

  function FoldChar(c: char): char { if 'A' <= c <= 'Z' then c - 'A' + 'a' else c }

  /** Two addresses are one to CITEXT exactly if they differ in the case of letters only. */
  lemma FoldIgnoresCase(s: string, t: string)
    ensures Fold(s) == Fold(t) <==>
            |s| == |t| && forall i | 0 <= i < |s| :: s[i] == t[i] || CaseOf(s[i], t[i]) || CaseOf(t[i], s[i])
  {
    if Fold(s) == Fold(t) {
      assert |Fold(s)| == |Fold(t)|;
      forall i | 0 <= i < |s| ensures s[i] == t[i] || CaseOf(s[i], t[i]) || CaseOf(t[i], s[i]) {
        assert Fold(s)[i] == Fold(t)[i];
      }
    } else if |s| == |t| {
      var i :| 0 <= i < |s| && Fold(s)[i] != Fold(t)[i];
    }
  }

  /** `upper` and `lower` are the two cases of one ASCII letter. */
  predicate CaseOf(upper: char, lower: char) {
    'A' <= upper <= 'Z' && 'a' <= lower <= 'z' && lower as int - upper as int == 'a' as int - 'A' as int
  }

  predicate HasEmail(row: UserRow, email: string) { row.email.Some? && Fold(row.email.value) == Fold(email) }

  ghost predicate UniqueEmails(users: map<Uid, UserRow>) {
    forall u, v | u in users && v in users && users[u].email.Some? && HasEmail(users[v], users[u].email.value) :: u == v
  }

  ghost predicate RolesExist(users: map<Uid, UserRow>, roles: map<nat, string>) {
    forall u | u in users :: users[u].roleId in roles
  }

  ghost predicate IdentityUsers(identities: map<(string, string), IdentityRow>, users: map<Uid, UserRow>) {
    forall k | k in identities :: identities[k].user in users
  }

  ghost predicate RefreshUsers(tokens: map<Digest, RefreshRow>, users: map<Uid, UserRow>) {
    forall h | h in tokens :: tokens[h].user in users
  }

  ghost predicate TokenUsers(tokens: map<Digest, OneTimeRow>, users: map<Uid, UserRow>) {
    forall h | h in tokens :: tokens[h].user in users
  }

  ghost predicate OverrideKeys(overrides: map<(Uid, nat), bool>, users: map<Uid, UserRow>,
                               permissions: map<nat, string>) {
    forall k | k in overrides :: k.0 in users && k.1 in permissions
  }

  ghost predicate Catalogue(db: Tables) {
    db.roles == SeedRoles() && db.permissions == SeedPermissions() && db.rolePermissions == SeedRolePermissions()
  }

  ghost predicate Constraints(db: Tables) {
    && Catalogue(db)
    && UniqueEmails(db.users)
    && RolesExist(db.users, db.roles)
    && IdentityUsers(db.identities, db.users)
    && RefreshUsers(db.refreshTokens, db.users)
    && TokenUsers(db.verificationTokens, db.users)
    && TokenUsers(db.resetTokens, db.users)
    && OverrideKeys(db.overrides, db.users, db.permissions)
  }
}
