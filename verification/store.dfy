/** The tables as mutable state, one method per statement that writes or that has to search. */
module Store {
  import opened Basics
  import opened Schema
  import opened Queries
  import opened Growth

  class Database {
    var roles: map<nat, string>
    var permissions: map<nat, string>
    var rolePermissions: set<(nat, nat)>
    var users: map<Uid, UserRow>
    var identities: map<(string, string), IdentityRow>
    var refreshTokens: map<Digest, RefreshRow>
    var verificationTokens: map<Digest, OneTimeRow>
    var resetTokens: map<Digest, OneTimeRow>
    var overrides: map<(Uid, nat), bool>

    function Db(): Tables
      reads this
    {
      Tables(roles, permissions, rolePermissions, users, identities, refreshTokens, verificationTokens, resetTokens,
        overrides)
    }

    ghost predicate Valid()
      reads this
    {
      Constraints(Db())
    }

    /** The migrated, otherwise empty database. */
    constructor ()
      ensures Db() == Seed() && Valid()
    {
      roles, permissions, rolePermissions := SeedRoles(), SeedPermissions(), SeedRolePermissions();
      users, identities, overrides := map[], map[], map[];
      refreshTokens, verificationTokens, resetTokens := map[], map[], map[];
    }

    method FindByEmail(email: string) returns (found: Option<UserRecord>)
      requires Valid()
      ensures found == Queries.FindByEmail(Db(), email) && (found.Some? ==> found.value.id in users)
    {
      if u: Uid :| u in users && users[u].roleId in roles && HasEmail(users[u], email) {
        found := Some(Record(Db(), u));
        OneByEmail(Db(), email, u);
      } else {
        found := None;
      }
    }

    method RoleIdFor(role: Role) returns (id: Option<nat>)
      requires Valid()
      ensures id == Queries.RoleIdFor(Db(), role)
    {
      if r: nat :| r in roles && roles[r] == RoleName(role) {
        id := Some(r);
        OneRole(Db(), role, r);
      } else {
        id := None;
      }
    }

    method CreateUser(now: Time, id: Uid, account: NewUser) returns (error: Option<AppError>)
      requires Valid() && id !in users
      modifies this`users
      ensures Valid()
      ensures match Queries.CreateUser(old(Db()), now, id, account) {
              case Accept(w) => error == None && Db() == Commit(old(Db()), now, w)
              case Violation(e) => error == Some(e) && Db() == old(Db())
              }
    {
      var roleId := RoleIdFor(account.role);
      if roleId.None? {
        return Some(NotFound);
      }
      if account.email.Some? && exists u :: u in users && HasEmail(users[u], account.email.value) {
        return Some(Database);
      }
      var row := UserRow(account.email, account.password, account.displayName, roleId.value, true,
                         account.verified, now, now);
      WriteConstraints(Db(), now, InsertUser(id, row));
      users := users[id := row];
      error := None;
    }

    method SetRole(now: Time, id: Uid, role: Role) returns (error: Option<AppError>)
      requires Valid()
      modifies this`users
      ensures Valid()
      ensures match Queries.RoleIdFor(old(Db()), role) {
              case Some(roleId) => error == None && Db() == Commit(old(Db()), now, UpdateRole(id, roleId))
              case None => error == Some(NotFound) && Db() == old(Db())
              }
    {
      var roleId := RoleIdFor(role);
      if roleId.None? {
        return Some(NotFound);
      }
      WriteConstraints(Db(), now, UpdateRole(id, roleId.value));
      if id in users {
        users := users[id := users[id].(roleId := roleId.value, updatedAt := now)];
      }
      error := None;
    }

    method SetActive(now: Time, id: Uid, active: bool)
      requires Valid()
      modifies this`users
      ensures Valid() && Db() == Commit(old(Db()), now, UpdateActive(id, active))
    {
      WriteConstraints(Db(), now, UpdateActive(id, active));
      if id in users {
        users := users[id := users[id].(active := active, updatedAt := now)];
      }
    }

    method MarkEmailVerified(now: Time, id: Uid)
      requires Valid()
      modifies this`users
      ensures Valid() && Db() == Commit(old(Db()), now, UpdateVerified(id))
    {
      WriteConstraints(Db(), now, UpdateVerified(id));
      if id in users {
        users := users[id := users[id].(verified := true, updatedAt := now)];
      }
    }

    method UpdatePasswordHash(now: Time, id: Uid, phc: Phc)
      requires Valid()
      modifies this`users
      ensures Valid() && Db() == Commit(old(Db()), now, UpdatePassword(id, phc))
    {
      WriteConstraints(Db(), now, UpdatePassword(id, phc));
      if id in users {
        users := users[id := users[id].(password := Some(phc), updatedAt := now)];
      }
    }

    method GrantPermission(now: Time, id: Uid, name: string, granted: bool) returns (error: Option<AppError>)
      requires Valid()
      modifies this`overrides
      ensures Valid()
      ensures match GrantOverride(old(Db()), id, name, granted) {
              case Accept(w) => error == None && Db() == Commit(old(Db()), now, w)
              case Violation(e) => error == Some(e) && Db() == old(Db())
              }
    {
      error := None;
      if p: nat :| p in permissions && permissions[p] == name {
        OnePermission(Db(), name, p);
        if id !in users {
          return Some(Database);
        }
        WriteConstraints(Db(), now, UpsertOverride(id, p, granted));
        overrides := overrides[(id, p) := granted];
      }
    }

    method UpsertOauthIdentity(now: Time, key: (string, string), id: Uid, email: Option<string>)
      returns (error: Option<AppError>)
      requires Valid()
      modifies this`identities
      ensures Valid()
      ensures match BindIdentity(old(Db()), key, IdentityRow(id, email)) {
              case Accept(w) => error == None && Db() == Commit(old(Db()), now, w)
              case Violation(e) => error == Some(e) && Db() == old(Db())
              }
    {
      error := None;
      if key in identities {
        WriteConstraints(Db(), now, UpsertIdentity(key, IdentityRow(id, email)));
        identities := identities[key := IdentityRow(identities[key].user, email)];
      } else if id in users {
        WriteConstraints(Db(), now, UpsertIdentity(key, IdentityRow(id, email)));
        identities := identities[key := IdentityRow(id, email)];
      } else {
        error := Some(Database);
      }
    }

    method StoreRefreshToken(now: Time, h: Digest, row: RefreshRow) returns (error: Option<AppError>)
      requires Valid()
      modifies this`refreshTokens
      ensures Valid()
      ensures match StoreRefresh(old(Db()), h, row) {
              case Accept(w) => error == None && Db() == Commit(old(Db()), now, w)
              case Violation(e) => error == Some(e) && Db() == old(Db())
              }
    {
      if row.user !in users || h in refreshTokens {
        return Some(Database);
      }
      WriteConstraints(Db(), now, InsertRefresh(h, row));
      refreshTokens := refreshTokens[h := row];
      error := None;
    }

    method RevokeRefreshToken(now: Time, h: Digest)
      requires Valid()
      modifies this`refreshTokens
      ensures Valid() && Db() == Commit(old(Db()), now, RevokeRefresh(h))
    {
      WriteConstraints(Db(), now, RevokeRefresh(h));
      if h in refreshTokens {
        refreshTokens := refreshTokens[h := refreshTokens[h].(revokedAt := Some(now))];
      }
    }

    method RevokeAllRefreshTokens(now: Time, id: Uid)
      requires Valid()
      modifies this`refreshTokens
      ensures Valid() && Db() == Commit(old(Db()), now, RevokeAllRefresh(id))
    {
      WriteConstraints(Db(), now, RevokeAllRefresh(id));
      refreshTokens := map h | h in refreshTokens ::
        if refreshTokens[h].user == id && !refreshTokens[h].Revoked()
        then refreshTokens[h].(revokedAt := Some(now)) else refreshTokens[h];
    }

    method StoreEmailVerificationToken(now: Time, h: Digest, row: OneTimeRow)
      requires Valid()
      modifies this`verificationTokens
      ensures Valid() && Db() == Commit(old(Db()), now, StoreVerification(old(Db()), h, row))
    {
      WriteConstraints(Db(), now, StoreVerification(Db(), h, row));
      if row.user in users && h !in verificationTokens {
        verificationTokens := verificationTokens[h := row];
      }
    }

    method ConsumeEmailVerificationToken(now: Time, h: Digest) returns (user: Option<Uid>)
      requires Valid()
      modifies this`verificationTokens
      ensures Valid()
      ensures if Consumable(old(verificationTokens), h, now)
              then user == Some(old(verificationTokens)[h].user) && Db() == Commit(old(Db()), now, UseVerification(h))
              else user == None && Db() == old(Db())
    {
      user := None;
      if h in verificationTokens && !verificationTokens[h].Used() && verificationTokens[h].expiresAt > now {
        WriteConstraints(Db(), now, UseVerification(h));
        user := Some(verificationTokens[h].user);
        verificationTokens := verificationTokens[h := verificationTokens[h].(usedAt := Some(now))];
      }
    }

    method StorePasswordResetToken(now: Time, h: Digest, row: OneTimeRow)
      requires Valid()
      modifies this`resetTokens
      ensures Valid() && Db() == Commit(old(Db()), now, StoreReset(old(Db()), h, row))
    {
      WriteConstraints(Db(), now, StoreReset(Db(), h, row));
      if row.user in users && h !in resetTokens {
        resetTokens := resetTokens[h := row];
      }
    }

    method ConsumePasswordResetToken(now: Time, h: Digest) returns (user: Option<Uid>)
      requires Valid()
      modifies this`resetTokens
      ensures Valid()
      ensures if Consumable(old(resetTokens), h, now)
              then user == Some(old(resetTokens)[h].user) && Db() == Commit(old(Db()), now, UseReset(h))
              else user == None && Db() == old(Db())
    {
      user := None;
      if h in resetTokens && !resetTokens[h].Used() && resetTokens[h].expiresAt > now {
        WriteConstraints(Db(), now, UseReset(h));
        user := Some(resetTokens[h].user);
        resetTokens := resetTokens[h := resetTokens[h].(usedAt := Some(now))];
      }
    }
  }

  lemma OneByEmail(db: Tables, email: string, u: Uid)
    requires Constraints(db) && Joins(db, u) && HasEmail(db.users[u], email)
    ensures Queries.FindByEmail(db, email) == Some(Record(db, u))
  {
    hide Fold, ParseRole, SeedRoles, SeedPermissions, SeedRolePermissions;
  }

  lemma OneRole(db: Tables, role: Role, id: nat)
    requires Constraints(db) && id in db.roles && db.roles[id] == RoleName(role)
    ensures Queries.RoleIdFor(db, role) == Some(id)
  {
    hide UniqueEmails, RolesExist, IdentityUsers, RefreshUsers, TokenUsers, OverrideKeys, SeedPermissions;
    hide SeedRolePermissions;
  }

  lemma OnePermission(db: Tables, name: string, p: nat)
    requires Constraints(db) && p in db.permissions && db.permissions[p] == name
    ensures PermissionIdFor(db, name) == Some(p)
  {
    hide UniqueEmails, RolesExist, IdentityUsers, RefreshUsers, TokenUsers, OverrideKeys, SeedRoles;
    hide SeedRolePermissions;
  }
}
