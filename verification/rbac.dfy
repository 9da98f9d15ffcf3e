/** Roles and permissions: what the relational queries compute, and the log of requests they agree with. */
module Rbac {
  import opened Basics
  import opened Schema
  import opened Queries
  import opened Handlers
  import opened Runs
  import opened Growth
  import opened Locals
  import opened Origins
  import opened Integrity

  // ---- the permission query ------------------------------------------------------------

  ghost predicate UniqueNames(names: map<nat, string>) {
    forall p, q | p in names && q in names && names[p] == names[q] :: p == q
  }

  /** An override decides; without one the role does. */
  predicate Effective(db: Tables, u: Uid, p: nat) {
    if (u, p) in db.overrides then db.overrides[(u, p)]
    else u in db.users && (db.users[u].roleId, p) in db.rolePermissions
  }

  /** The query works on names. Names being unique, it is the override-or-role rule on permission ids. */
  lemma QueryIsOverrideOrRole(db: Tables, u: Uid, name: string)
    requires UniqueNames(db.permissions)
    ensures name in PermissionsFor(db, u) <==> exists p ::
            p in db.permissions && db.permissions[p] == name && Effective(db, u, p)
  {
    if p :| p in db.permissions && db.permissions[p] == name && Effective(db, u, p) {
      if (u, p) !in db.overrides {
        var rp := (db.users[u].roleId, p);
        assert rp in db.rolePermissions && db.permissions[rp.1] in RoleNames(db, u);
      }
    }
    if name in PermissionsFor(db, u) && name in RoleNames(db, u) {
      var rp :| rp in db.rolePermissions && rp.0 == db.users[u].roleId
        && rp.1 in db.permissions && db.permissions[rp.1] == name;
      assert (rp.0, rp.1) == rp;
      assert Effective(db, u, rp.1);
    }
  }

  // ---- the catalogue ---------------------------------------------------------------------

  function RoleNumber(role: Role): nat {
    match role
    case Admin => 1
    case Moderator => 2
    case User => 3
  }

  predicate Seeded(name: string) {
    name == PermissionName(UsersRead) || name == PermissionName(UsersManage) || name == PermissionName(UsersAssignRoles)
  }

  /** What the migration gives each role. */
  predicate RoleGives(role: Role, name: string) {
    match role
    case Admin => Seeded(name)
    case Moderator => name == PermissionName(UsersRead)
    case User => false
  }

  lemma RoleEncoding(db: Tables, role: Role)
    requires Catalogue(db)
    ensures RoleIdFor(db, role) == Some(RoleNumber(role)) && RoleNumber(role) in db.roles
    ensures ParseRole(db.roles[RoleNumber(role)]) == Some(role)
  {
    assert db.roles[RoleNumber(role)] == RoleName(role);
  }

  lemma PermissionEncoding(db: Tables, name: string)
    requires Catalogue(db)
    ensures UniqueNames(db.permissions)
    ensures Seeded(name) <==> PermissionIdFor(db, name).Some?
    ensures Seeded(name) <==> exists p :: p in db.permissions && db.permissions[p] == name
  {
    hide PermissionName;
    NamesDiffer();
    if Seeded(name) {
      assert db.permissions[1] == name || db.permissions[2] == name || db.permissions[3] == name;
    }
  }

  lemma NamesDiffer()
    ensures PermissionName(UsersRead) != PermissionName(UsersManage)
    ensures PermissionName(UsersManage) != PermissionName(UsersAssignRoles)
    ensures PermissionName(UsersAssignRoles) != PermissionName(UsersRead)
  {
  }

  lemma RoleMapping(db: Tables, role: Role, p: nat)
    requires Catalogue(db) && p in db.permissions
    ensures (RoleNumber(role), p) in db.rolePermissions <==> RoleGives(role, db.permissions[p])
  {
  }

  // ---- the log ----------------------------------------------------------------------------

  /** Step `i` carries out `action`. */
  ghost predicate Performs(r: History, i: nat, action: Action) {
    r.Acts(i) && r.Here(i).AdminAct? && r.Here(i).action == action
  }

  /** Step `i` creates account `u` with `role`. */
  ghost predicate CreatedAs(r: History, i: nat, u: Uid, role: Role) {
    && r.Acts(i) && Creating(r.Here(i))
    && role == (if r.Here(i).AdminInsert? then Admin else User)
    && r.steps[i].choice.uid == u && r.Next(i) != Fail(Database)
  }

  /** The role most recently given to `u` by its creation or by a set-role request; none before `u` exists. */
  ghost function RoleLog(r: History, n: nat, u: Uid): Option<Role>
    requires n <= |r.steps|
  {
    if n == 0 then None
    else if CreatedAs(r, n - 1, u, User) then Some(User)
    else if CreatedAs(r, n - 1, u, Admin) then Some(Admin)
    else
      var before := RoleLog(r, n - 1, u);
      if before.Some? && r.Acts(n - 1) && r.Here(n - 1).AdminAct? && r.Here(n - 1).action.SetRole?
        && r.Here(n - 1).action.target == u
      then Some(r.Here(n - 1).action.role)
      else before
  }

  /** The most recent grant or revocation of a seeded permission to `u`, if there was one. */
  ghost function OverrideLog(r: History, n: nat, u: Uid, name: string): Option<bool>
    requires n <= |r.steps|
  {
    if n == 0 then None
    else if Seeded(name) && RoleLog(r, n - 1, u).Some? && Performs(r, n - 1, Grant(u, name, true)) then Some(true)
    else if Seeded(name) && RoleLog(r, n - 1, u).Some? && Performs(r, n - 1, Grant(u, name, false)) then Some(false)
    else OverrideLog(r, n - 1, u, name)
  }

  predicate Creating(k: Pc) { k.RegisterInsert? || k.OauthInsert? || k.AdminInsert? }

  lemma Inserting(cfg: Config, db: Tables, now: Time, k: Pc, c: Choice)
    requires Catalogue(db) && Creating(k)
    ensures var (w, k') := Step(cfg, db, now, k, c);
            if k' == Fail(Database) then w == NoWrite
            else w.InsertUser? && w.id == c.uid && w.user.roleId == RoleNumber(if k.AdminInsert? then Admin else User)
  {
    hide SeedRoles, SeedPermissions, SeedRolePermissions, RoleIdFor, RoleName, HasEmail, EmailTaken, Fold;
    RoleEncoding(db, Admin);
    RoleEncoding(db, User);
  }

  lemma Assigning(cfg: Config, db: Tables, now: Time, k: Pc, c: Choice)
    requires Catalogue(db) && k.AdminAct? && k.action.SetRole?
    ensures Step(cfg, db, now, k, c).0 == UpdateRole(k.action.target, RoleNumber(k.action.role))
  {
    hide SeedRoles, SeedPermissions, SeedRolePermissions, RoleIdFor, RoleName;
    RoleEncoding(db, k.action.role);
  }

  /** What a write does to the role of `u`. */
  function RoleAfter(w: Write, u: Uid, id: Option<nat>): Option<nat> {
    if w.InsertUser? && w.id == u then Some(w.user.roleId)
    else if w.UpdateRole? && w.id == u && id.Some? then Some(w.roleId)
    else id
  }

  function RoleIdOf(db: Tables, u: Uid): Option<nat> {
    if u in db.users then Some(db.users[u].roleId) else None
  }

  lemma WriteRole(db: Tables, now: Time, w: Write, u: Uid)
    ensures RoleIdOf(Commit(db, now, w), u) == RoleAfter(w, u, RoleIdOf(db, u))
  {
  }

  /** The role column holds the number of the role last logged; nothing else touches it. */
  lemma {:induction false} RoleStored(r: History, n: nat, u: Uid)
    requires r.Valid() && n <= |r.steps|
    ensures RoleIdOf(r.At(n).db, u) ==
            if RoleLog(r, n, u).None? then None else Some(RoleNumber(RoleLog(r, n, u).value))
  {
    hide Apply, Enabled, Step, Commit, Begin, Warranted, ThreadSound, CameBy, Catalogue, RoleIdFor, Seed;
    if n == 0 {
      EmptyAtFirst(r.start, u);
    } else {
      var s := r.At(n - 1);
      RoleStored(r, n - 1, u);
      Effect(r, n - 1);
      WriteRole(s.db, s.now, r.Wrote(n - 1), u);
      if r.Acts(n - 1) {
        Issued(r, n - 1);
        var k, c := r.Here(n - 1), r.steps[n - 1].choice;
        if Creating(k) {
          Inserting(s.cfg, s.db, s.now, k, c);
        } else if k.AdminAct? && k.action.SetRole? {
          Assigning(s.cfg, s.db, s.now, k, c);
        }
      }
    }
  }

  lemma EmptyAtFirst(s: System, u: Uid)
    requires s.db == Seed()
    ensures u !in s.db.users && s.db.overrides == map[]
  {
  }

  function OverrideOf(db: Tables, u: Uid, p: nat): Option<bool> {
    if (u, p) in db.overrides then Some(db.overrides[(u, p)]) else None
  }

  lemma WriteOverride(db: Tables, now: Time, w: Write, u: Uid, p: nat)
    ensures OverrideOf(Commit(db, now, w), u, p) ==
            if w.UpsertOverride? && w.id == u && w.permission == p then Some(w.granted) else OverrideOf(db, u, p)
  {
  }

  lemma Granting(cfg: Config, db: Tables, now: Time, k: Pc, c: Choice)
    requires Catalogue(db) && k.AdminAct? && k.action.Grant?
    ensures var w := Step(cfg, db, now, k, c).0;
            if Seeded(k.action.permission) && k.action.target in db.users
            then exists p :: p in db.permissions && db.permissions[p] == k.action.permission
                             && w == UpsertOverride(k.action.target, p, k.action.granted)
            else w == NoWrite
  {
    hide SeedRoles, SeedPermissions, SeedRolePermissions, Seeded, PermissionName, RoleIdFor;
    PermissionEncoding(db, k.action.permission);
  }

  /** What a grant or revocation does to the override of `u` for `p`. */
  lemma GrantEffect(cfg: Config, db: Tables, now: Time, k: Pc, c: Choice, u: Uid, p: nat)
    requires Catalogue(db) && p in db.permissions && k.AdminAct? && k.action.Grant?
    ensures OverrideOf(Commit(db, now, Step(cfg, db, now, k, c).0), u, p) ==
            if k.action.target == u && k.action.permission == db.permissions[p] && u in db.users
            then Some(k.action.granted)
            else OverrideOf(db, u, p)
  {
    hide Step, Commit, Catalogue, Seeded, OverrideOf;
    var w := Step(cfg, db, now, k, c).0;
    Granting(cfg, db, now, k, c);
    WriteOverride(db, now, w, u, p);
    PermissionEncoding(db, db.permissions[p]);
  }

  /** What any step does to it: nothing, unless the step is a grant or revocation of just that. */
  lemma OverrideStep(r: History, i: nat, u: Uid, p: nat)
    requires r.Valid() && i < |r.steps| && p in SeedPermissions()
    ensures var name, before := SeedPermissions()[p], OverrideOf(r.At(i).db, u, p);
            OverrideOf(r.At(i + 1).db, u, p) ==
            if u in r.At(i).db.users && Performs(r, i, Grant(u, name, true)) then Some(true)
            else if u in r.At(i).db.users && Performs(r, i, Grant(u, name, false)) then Some(false)
            else before
  {
    hide Apply, Enabled, Step, Commit, Begin, Warranted, ThreadSound, CameBy, SeedPermissions, SeedRoles;
    hide SeedRolePermissions;
    hide PermissionIdFor, RoleIdFor, OverrideOf;
    Effect(r, i);
    Reachable(r, i);
    WriteOverride(r.At(i).db, r.At(i).now, r.Wrote(i), u, p);
    if r.Acts(i) {
      Issued(r, i);
      if r.Here(i).AdminAct? && r.Here(i).action.Grant? {
        GrantEffect(r.At(i).cfg, r.At(i).db, r.At(i).now, r.Here(i), r.steps[i].choice, u, p);
      }
    }
  }

  /** The override table holds, for every seeded permission, what was last logged for it and nothing else. */
  lemma {:induction false} OverrideStored(r: History, n: nat, u: Uid, p: nat)
    requires r.Valid() && n <= |r.steps| && p in SeedPermissions()
    ensures OverrideOf(r.At(n).db, u, p) == OverrideLog(r, n, u, SeedPermissions()[p])
  {
    hide Apply, Enabled, SeedPermissions, Seeded, Seed, RoleLog, Performs, History.Valid;
    if n == 0 {
      FirstState(r);
      EmptyAtFirst(r.start, u);
    } else {
      OverrideStored(r, n - 1, u, p);
      OverrideStep(r, n - 1, u, p);
      RoleStored(r, n - 1, u);
      SeededNames(p);
    }
  }

  lemma FirstState(r: History)
    requires r.Valid()
    ensures r.start.db == Seed() && r.At(0) == r.start
  {
    hide Seed, Enabled;
  }

  lemma SeededNames(p: nat)
    requires p in SeedPermissions()
    ensures Seeded(SeedPermissions()[p])
  {
  }

  /**
   * What `u` may do is decided by the last grant or revocation logged for it, and otherwise by the role
   * last logged.
   */
  lemma {:induction false} PermissionsRefineLog(r: History, n: nat, u: Uid, name: string)
    requires r.Valid() && n <= |r.steps|
    ensures name in PermissionsFor(r.At(n).db, u) <==>
            match OverrideLog(r, n, u, name)
            case Some(granted) => granted
            case None => RoleLog(r, n, u).Some? && RoleGives(RoleLog(r, n, u).value, name)
  {
    hide Apply, Enabled, PermissionsFor, SeedPermissions, SeedRoles, SeedRolePermissions, Seeded, RoleGives;
    hide PermissionName;
    var db := r.At(n).db;
    Reachable(r, n);
    PermissionEncoding(db, name);
    QueryIsOverrideOrRole(db, u, name);
    RoleStored(r, n, u);
    if p :| p in db.permissions && db.permissions[p] == name {
      OverrideStored(r, n, u, p);
      if RoleLog(r, n, u).Some? {
        RoleMapping(db, RoleLog(r, n, u).value, p);
      }
    } else {
      NeverOverridden(r, n, u, name);
    }
  }

  lemma {:induction false} NeverOverridden(r: History, n: nat, u: Uid, name: string)
    requires n <= |r.steps| && !Seeded(name)
    ensures OverrideLog(r, n, u, name).None? && forall role :: !RoleGives(role, name)
  {
    hide Apply, Performs, CreatedAs, RoleLog;
    if n > 0 {
      NeverOverridden(r, n - 1, u, name);
    }
  }

  /** No run gives anyone a permission the migration did not seed. */
  lemma OnlySeeded(r: History, n: nat, u: Uid, p: Permission)
    requires r.Valid() && n <= |r.steps| && PermissionName(p) in PermissionsFor(r.At(n).db, u)
    ensures p == UsersRead || p == UsersManage || p == UsersAssignRoles
  {
    hide Apply, Enabled, PermissionsFor, OverrideLog, RoleLog;
    PermissionsRefineLog(r, n, u, PermissionName(p));
    if !Seeded(PermissionName(p)) {
      NeverOverridden(r, n, u, PermissionName(p));
    }
  }

  // ---- writing a role and reading it back ---------------------------------------------------

  /**
   * Every account joins its role, and reads back the role last written; the fallback for unknown names is
   * never taken.
   */
  lemma RoleRoundTrip(r: History, n: nat, u: Uid)
    requires r.Valid() && n <= |r.steps|
    ensures var found := FindById(r.At(n).db, u);
            && (found.Some? <==> u in r.At(n).db.users)
            && (found.Some? <==> RoleLog(r, n, u).Some?)
            && (found.Some? ==> found.value.id == u && found.value.role == RoleLog(r, n, u).value)
  {
    hide Apply, Enabled, SeedPermissions, SeedRoles, SeedRolePermissions, ParseRole;
    Reachable(r, n);
    RoleStored(r, n, u);
    if RoleLog(r, n, u).Some? {
      RoleEncoding(r.At(n).db, RoleLog(r, n, u).value);
    }
  }

  /**
   * `refresh` never misses the user of the token it looked up, and issues for the role that user has at
   * that moment.
   */
  lemma RefreshFindsUser(r: History, i: nat)
    requires r.Valid() && r.Acts(i) && r.Here(i).RefreshFind?
    ensures RoleLog(r, i, r.Here(i).id).Some?
    ensures r.Next(i) == IssueStore(r.Here(i).id, RoleLog(r, i, r.Here(i).id).value, Some(r.Here(i).hash))
  {
    hide Apply, Enabled, RoleLog, Record;
    RoleRoundTrip(r, i, r.Here(i).id);
    Issued(r, i);
    OwnerExists(r.At(i).db, r.Here(i).hash);
  }

  lemma OwnerExists(db: Tables, h: Digest)
    requires Sound(db) && h in db.refreshTokens
    ensures db.refreshTokens[h].user in db.users
  {
  }
}
