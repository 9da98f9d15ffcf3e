/**
 * What one statement may do to the tables: which columns it can never change back, and when it keeps the
 * constraints.
 */
module Growth {
  import opened Basics
  import opened Schema
  import opened Queries

  // ---- tables only grow ---------------------------------------------------------

  predicate SameAccount(p: UserRow, q: UserRow) {
    && q.email == p.email && q.displayName == p.displayName && q.createdAt == p.createdAt
    && q.password.Some? == p.password.Some?
    && (p.verified ==> q.verified)
  }

  predicate SameSession(p: RefreshRow, q: RefreshRow) {
    q.user == p.user && q.issuedAt == p.issuedAt && q.expiresAt == p.expiresAt && (p.Revoked() ==> q.Revoked())
  }

  predicate SameToken(p: OneTimeRow, q: OneTimeRow) {
    q.user == p.user && q.expiresAt == p.expiresAt && (p.Used() ==> q == p)
  }

  ghost predicate UsersGrow(a: map<Uid, UserRow>, b: map<Uid, UserRow>) {
    forall u | u in a :: u in b && SameAccount(a[u], b[u])
  }

  ghost predicate IdentitiesGrow(a: map<(string, string), IdentityRow>, b: map<(string, string), IdentityRow>) {
    forall k | k in a :: k in b && b[k].user == a[k].user
  }

  ghost predicate RefreshGrow(a: map<Digest, RefreshRow>, b: map<Digest, RefreshRow>) {
    forall h | h in a :: h in b && SameSession(a[h], b[h])
  }

  ghost predicate TokensGrow(a: map<Digest, OneTimeRow>, b: map<Digest, OneTimeRow>) {
    forall h | h in a :: h in b && SameToken(a[h], b[h])
  }

  /**
   * No row is deleted; e-mail, owners, expiries and the presence of a password never change; marks are
   * never cleared.
   */
  ghost predicate Grows(a: Tables, b: Tables) {
    && UsersGrow(a.users, b.users)
    && IdentitiesGrow(a.identities, b.identities)
    && RefreshGrow(a.refreshTokens, b.refreshTokens)
    && TokensGrow(a.verificationTokens, b.verificationTokens)
    && TokensGrow(a.resetTokens, b.resetTokens)
    && a.overrides.Keys <= b.overrides.Keys
  }

  // ---- soundness ----------------------------------------------------------------

  predicate HasPassword(db: Tables, u: Uid) { u in db.users && db.users[u].password.Some? }

  ghost predicate ResetPasswords(tokens: map<Digest, OneTimeRow>, users: map<Uid, UserRow>) {
    forall h | h in tokens :: tokens[h].user in users && users[tokens[h].user].password.Some?
  }

  ghost predicate Sound(db: Tables) { Constraints(db) && ResetPasswords(db.resetTokens, db.users) }

  /** What the database itself checks before it lets a write through. */
  ghost predicate Lawful(db: Tables, w: Write) {
    match w
    case InsertUser(id, row) => id !in db.users && row.roleId in db.roles && !EmailTaken(db, row.email)
    case UpdateRole(_, roleId) => roleId in db.roles
    case UpsertOverride(id, p, _) => id in db.users && p in db.permissions
    case UpsertIdentity(key, row) => key in db.identities || row.user in db.users
    case InsertRefresh(h, row) => h !in db.refreshTokens && row.user in db.users
    case InsertVerification(h, row) => h !in db.verificationTokens && row.user in db.users
    case InsertReset(h, row) => h !in db.resetTokens && row.user in db.users
    case _ => true
  }

  /** What a handler has established, besides, by the time it issues a write. */
  ghost predicate Warranted(db: Tables, w: Write) {
    && Lawful(db, w)
    && match w {
       case UpdatePassword(id, _) => id in db.users ==> HasPassword(db, id)
       case InsertRefresh(h, row) => !row.Revoked()
       case InsertVerification(h, row) => !row.Used()
       case UseVerification(h) => h in db.verificationTokens && !db.verificationTokens[h].Used()
       case InsertReset(h, row) => HasPassword(db, row.user) && !row.Used()
       case UseReset(h) => h in db.resetTokens && !db.resetTokens[h].Used()
       case _ => true
       }
  }

  lemma {:induction false} WriteGrows(db: Tables, now: Time, w: Write)
    requires Warranted(db, w)
    ensures Grows(db, Commit(db, now, w))
  {
    hide EmailTaken;
  }

  lemma EmailsStayUnique(users: map<Uid, UserRow>, now: Time, w: Write)
    requires UniqueEmails(users)
    requires w.InsertUser? && w.user.email.Some? ==> w.id !in users && forall v | v in users ::
              !HasEmail(users[v], w.user.email.value)
    requires w.InsertUser? ==> w.id !in users
    ensures UniqueEmails(UsersAfter(users, now, w))
  {
    hide Fold;
    var users' := UsersAfter(users, now, w);
    assert w.InsertUser? && w.user.email.Some? ==>
             forall v | v in users && users[v].email.Some? :: Fold(users[v].email.value) != Fold(w.user.email.value);
    forall u, v | u in users' && v in users' && users'[u].email.Some? && HasEmail(users'[v], users'[u].email.value)
      ensures u == v
    {
      assert u in users && v in users ==> HasEmail(users[v], users[u].email.value);
    }
  }

  lemma UsersKept(db: Tables, now: Time, w: Write)
    requires Constraints(db) && Lawful(db, w)
    ensures var users := Commit(db, now, w).users;
            UniqueEmails(users) && RolesExist(users, db.roles) && forall u | u in db.users :: u in users
  {
    hide Catalogue, Fold, HasEmail, UniqueEmails, IdentityUsers, RefreshUsers, TokenUsers, OverrideKeys;
    EmailsStayUnique(db.users, now, w);
  }

  lemma OwnersKept(db: Tables, now: Time, w: Write, users: map<Uid, UserRow>)
    requires Constraints(db) && Lawful(db, w) && forall u | u in db.users :: u in users
    ensures var db' := Commit(db, now, w);
            && IdentityUsers(db'.identities, users) && RefreshUsers(db'.refreshTokens, users)
            && TokenUsers(db'.verificationTokens, users) && TokenUsers(db'.resetTokens, users)
            && OverrideKeys(db'.overrides, users, db.permissions)
  {
    hide Catalogue, UniqueEmails, RolesExist, UsersAfter, EmailTaken;
  }

  lemma {:induction false} WriteConstraints(db: Tables, now: Time, w: Write)
    requires Constraints(db) && Lawful(db, w)
    ensures Constraints(Commit(db, now, w))
  {
    hide UniqueEmails, RolesExist, IdentityUsers, RefreshUsers, TokenUsers, OverrideKeys, Lawful;
    hide SeedRoles, SeedPermissions, SeedRolePermissions, UsersAfter, RefreshAfter, IdentitiesAfter, OverridesAfter;
    UsersKept(db, now, w);
    OwnersKept(db, now, w, Commit(db, now, w).users);
  }

  lemma {:induction false} WriteSound(db: Tables, now: Time, w: Write)
    requires Sound(db) && Warranted(db, w)
    ensures Sound(Commit(db, now, w))
  {
    hide SeedRoles, SeedPermissions, SeedRolePermissions, Fold, Constraints;
    WriteConstraints(db, now, w);
  }

  predicate Used(tokens: map<Digest, OneTimeRow>, h: Digest) { h in tokens && tokens[h].Used() }

  predicate Verified(db: Tables, u: Uid) { u in db.users && db.users[u].verified }

  /** The one write that can account for a row or a mark that was not there before. */
  ghost predicate AccountedFor(a: Tables, b: Tables, w: Write, u: Uid, h: Digest) {
    && (u in b.users && u !in a.users ==> w == InsertUser(u, b.users[u]))
    && (Verified(b, u) && !Verified(a, u) ==> w == UpdateVerified(u) || (w.InsertUser? && w.id == u && w.user.verified))
    && (h in b.refreshTokens && h !in a.refreshTokens ==> w == InsertRefresh(h, b.refreshTokens[h]))
    && (h in b.resetTokens && h !in a.resetTokens ==> w == InsertReset(h, b.resetTokens[h]))
    && (Used(b.resetTokens, h) && !Used(a.resetTokens, h) ==> w == UseReset(h))
    && (Used(b.verificationTokens, h) && !Used(a.verificationTokens, h) ==> w == UseVerification(h))
  }

  lemma WriteAccounts(db: Tables, now: Time, w: Write, u: Uid, h: Digest)
    requires Warranted(db, w)
    ensures AccountedFor(db, Commit(db, now, w), w, u, h)
  {
  }

  // ---- row by row -----------------------------------------------------------------

  /** Account `u` before and after `w`: each column has its own statement, and any of them is an update. */
  predicate UserRewritten(u: Uid, p: UserRow, now: Time, w: Write, q: UserRow) {
    && q.email == p.email && q.displayName == p.displayName && q.createdAt == p.createdAt
    && q.roleId == (if w.UpdateRole? && w.id == u then w.roleId else p.roleId)
    && q.active == (if w.UpdateActive? && w.id == u then w.active else p.active)
    && q.verified == (p.verified || w == UpdateVerified(u))
    && q.password == (if w.UpdatePassword? && w.id == u then Some(w.phc) else p.password)
    && q.updatedAt == (if Updates(w, u) then now else p.updatedAt)
  }

  predicate Updates(w: Write, u: Uid) {
    (w.UpdateRole? || w.UpdateActive? || w.UpdateVerified? || w.UpdatePassword?) && w.id == u
  }

  /** A session is stamped with the moment of its revocation; only a reset spares those revoked before. */
  predicate SessionRewritten(h: Digest, p: RefreshRow, now: Time, w: Write, q: RefreshRow) {
    && q.user == p.user && q.issuedAt == p.issuedAt && q.expiresAt == p.expiresAt
    && q.revokedAt == if w == RevokeRefresh(h) || (w == RevokeAllRefresh(p.user) && p.revokedAt == None) then Some(now)
                      else p.revokedAt
  }

  predicate TokenRewritten(p: OneTimeRow, now: Time, use: bool, q: OneTimeRow) {
    q.user == p.user && q.expiresAt == p.expiresAt && q.usedAt == if use then Some(now) else p.usedAt
  }

  /** A statement inserts or rewrites the rows it is about, as it says, and leaves every other row alone. */
  lemma WriteUsers(users: map<Uid, UserRow>, now: Time, w: Write, u: Uid)
    ensures var users' := UsersAfter(users, now, w);
            if w.InsertUser? && w.id == u then u in users' && users'[u] == w.user
            else if u in users then u in users' && UserRewritten(u, users[u], now, w, users'[u])
            else u !in users'
  {
  }

  lemma WriteSessions(db: Tables, now: Time, w: Write, h: Digest)
    ensures var tokens := Commit(db, now, w).refreshTokens;
            if w.InsertRefresh? && w.hash == h then h in tokens && tokens[h] == w.refresh
            else if h in db.refreshTokens
            then h in tokens && SessionRewritten(h, db.refreshTokens[h], now, w, tokens[h])
            else h !in tokens
  {
    hide UsersAfter;
  }

  lemma WriteTokens(db: Tables, now: Time, w: Write, h: Digest)
    ensures var tokens := Commit(db, now, w).verificationTokens;
            if w.InsertVerification? && w.hash == h then h in tokens && tokens[h] == w.token
            else if h in db.verificationTokens
            then h in tokens && TokenRewritten(db.verificationTokens[h], now, w == UseVerification(h), tokens[h])
            else h !in tokens
    ensures var tokens := Commit(db, now, w).resetTokens;
            if w.InsertReset? && w.hash == h then h in tokens && tokens[h] == w.token
            else if h in db.resetTokens
            then h in tokens && TokenRewritten(db.resetTokens[h], now, w == UseReset(h), tokens[h])
            else h !in tokens
  {
    hide UsersAfter, RefreshAfter;
  }
}
