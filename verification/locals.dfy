/** What the locals of a handler say about the tables, and why each of its statements is in order. */
module Locals {
  import opened Basics
  import opened Schema
  import opened Queries
  import opened Handlers
  import opened Growth

  predicate SessionOf(db: Tables, h: Digest, id: Uid) { h in db.refreshTokens && db.refreshTokens[h].user == id }

  predicate Coherent(cfg: Config, db: Tables, pair: TokenPair) {
    && pair.access.sub in db.users
    && SessionOf(db, Sha256(pair.refresh), pair.access.sub)
    && db.refreshTokens[Sha256(pair.refresh)].issuedAt == pair.access.iat
    && pair.access.exp == pair.access.iat + cfg.accessTtlMin * 60
  }

  predicate UsedBy(tokens: map<Digest, OneTimeRow>, h: Digest, id: Uid) {
    h in tokens && tokens[h].Used() && tokens[h].user == id
  }

  /** What the locals of a thread at `k` say about the tables, whoever else is running. */
  predicate ThreadSound(cfg: Config, db: Tables, k: Pc) {
    match k
    case RegisterStore(id, email) => id in db.users && db.users[id].email == Some(email)
    case RegisterFind(email, pair) =>
      Coherent(cfg, db, pair) && db.users[pair.access.sub].email == Some(email)
    case RegisterMail(id, pair) => Coherent(cfg, db, pair) && id == pair.access.sub
    case IssueStore(id, _, parent) =>
      id in db.users && (parent.Some? ==> SessionOf(db, parent.value, id) && db.refreshTokens[parent.value].Revoked())
    case RefreshRevoke(h, id) => SessionOf(db, h, id)
    case RefreshFind(h, id) => SessionOf(db, h, id) && db.refreshTokens[h].Revoked()
    case VerifyMark(h, id) => UsedBy(db.verificationTokens, h, id)
    case ResendStore(id) => id in db.users
    case ForgotStore(id) => HasPassword(db, id)
    case ResetUpdate(h, id, _) => UsedBy(db.resetTokens, h, id)
    case ResetRevoke(h, id) => UsedBy(db.resetTokens, h, id)
    case OauthBind(_, id, _) => id in db.users
    case AdminCheck(actor, _) => actor.id in db.users && db.users[actor.id].verified
    case AdminAct(actor, _) => actor.id in db.users && db.users[actor.id].verified
    case Done(Tokens(pair)) => Coherent(cfg, db, pair)
    case _ => true
  }

  lemma SoundGrows(cfg: Config, a: Tables, b: Tables, k: Pc)
    requires Grows(a, b) && ThreadSound(cfg, a, k)
    ensures ThreadSound(cfg, b, k)
  {
  }

  /** The write is warranted and leaves the thread's new locals true. */
  ghost predicate Kept(cfg: Config, db: Tables, now: Time, step: (Write, Pc)) {
    Warranted(db, step.0) && ThreadSound(cfg, Commit(db, now, step.0), step.1)
  }

  /** The look-up after registration finds the account just created, since no other can share its e-mail. */
  lemma RegisterFindKept(cfg: Config, db: Tables, now: Time, k: Pc, c: Choice)
    requires Sound(db) && ThreadSound(cfg, db, k) && k.RegisterFind?
    ensures Kept(cfg, db, now, SignInStep(cfg, db, now, k, c))
  {
    hide PermissionName, ParseRole, RoleName, Fold, Catalogue;
    var u := k.pair.access.sub;
    assert Joins(db, u) && HasEmail(db.users[u], k.email);
  }

  /** Login goes on only with an account it found. */
  lemma LoginFindKept(cfg: Config, db: Tables, now: Time, k: Pc, c: Choice)
    requires Sound(db) && k.LoginFind?
    ensures Kept(cfg, db, now, SignInStep(cfg, db, now, k, c))
  {
    hide ParseRole, Fold, HasEmail, Catalogue, UniqueEmails;
  }

  /** A reset token is asked for only for an account with a password. */
  lemma ForgotFindKept(cfg: Config, db: Tables, now: Time, k: Pc, c: Choice)
    requires Sound(db) && k.ForgotFind?
    ensures Kept(cfg, db, now, ResetStep(cfg, db, now, k, c))
  {
    hide ParseRole, Fold, HasEmail, Catalogue, UniqueEmails;
  }

  lemma {:induction false} SignInKept(cfg: Config, db: Tables, now: Time, k: Pc, c: Choice)
    requires Sound(db) && ThreadSound(cfg, db, k) && Fresh(db, k, c) && SigningIn(k) && !k.RegisterFind?
              && !k.LoginFind?
    ensures Kept(cfg, db, now, SignInStep(cfg, db, now, k, c))
  {
    hide FindByEmail, FindById, FindByOauth, PermissionIdFor, ResetPasswords;
    hide PermissionName, ParseRole, RoleName, PermissionsFor, Listing, Window, Fold, HasEmail, EmailTaken;
    hide Catalogue, UniqueEmails, RolesExist, IdentityUsers, RefreshUsers, TokenUsers, OverrideKeys;
  }

  lemma RotateKept(cfg: Config, db: Tables, now: Time, k: Pc, c: Choice)
    requires Sound(db) && ThreadSound(cfg, db, k) && Fresh(db, k, c) && Rotating(k)
    ensures Kept(cfg, db, now, RotateStep(cfg, db, now, k, c))
  {
    hide PermissionName, ParseRole, RoleName, PermissionsFor, Listing, Window, Fold, HasEmail, EmailTaken, Coherent;
    hide Catalogue, UniqueEmails, RolesExist, IdentityUsers, RefreshUsers, TokenUsers, OverrideKeys;
  }

  lemma VerifyKept(cfg: Config, db: Tables, now: Time, k: Pc, c: Choice)
    requires Sound(db) && ThreadSound(cfg, db, k) && Fresh(db, k, c) && Verifying(k)
    ensures Kept(cfg, db, now, VerifyStep(cfg, db, now, k, c))
  {
    hide PermissionName, ParseRole, RoleName, PermissionsFor, Listing, Window, Fold, HasEmail, EmailTaken, Coherent;
    hide Catalogue, UniqueEmails, RolesExist, IdentityUsers, RefreshUsers, TokenUsers, OverrideKeys;
  }

  lemma {:induction false} ResetKept(cfg: Config, db: Tables, now: Time, k: Pc, c: Choice)
    requires Sound(db) && ThreadSound(cfg, db, k) && Fresh(db, k, c) && Resetting(k) && !k.ForgotFind?
    ensures Kept(cfg, db, now, ResetStep(cfg, db, now, k, c))
  {
    hide FindByEmail;
    hide PermissionName, ParseRole, RoleName, PermissionsFor, Listing, Window, Fold, HasEmail, EmailTaken, Coherent;
    hide Catalogue, UniqueEmails, RolesExist, IdentityUsers, RefreshUsers, TokenUsers, OverrideKeys, Session, Issue;
    hide FindByOauth;
  }

  lemma LinkKept(cfg: Config, db: Tables, now: Time, k: Pc, c: Choice)
    requires Sound(db) && ThreadSound(cfg, db, k) && Fresh(db, k, c) && Linking(k)
    ensures Kept(cfg, db, now, LinkStep(cfg, db, now, k, c))
  {
    hide PermissionName, ParseRole, RoleName, PermissionsFor, Listing, Window, Fold, HasEmail, EmailTaken, Coherent;
    hide Catalogue, UniqueEmails, RolesExist, IdentityUsers, RefreshUsers, TokenUsers, OverrideKeys;
  }

  lemma AdministerKept(cfg: Config, db: Tables, now: Time, k: Pc, c: Choice)
    requires Sound(db) && ThreadSound(cfg, db, k) && Fresh(db, k, c) && Administering(k)
    ensures Kept(cfg, db, now, AdministerStep(cfg, db, now, k, c))
  {
    hide FindByEmail;
    hide PermissionName, ParseRole, RoleName, PermissionsFor, Listing, Window, Fold, HasEmail, EmailTaken, Coherent;
    hide Catalogue, UniqueEmails, RolesExist, IdentityUsers, RefreshUsers, TokenUsers, OverrideKeys, Session, Issue;
    hide FindByOauth;
  }

  lemma {:induction false} StepKept(cfg: Config, db: Tables, now: Time, k: Pc, c: Choice)
    requires Sound(db) && ThreadSound(cfg, db, k) && Fresh(db, k, c) && !k.Done?
    ensures Kept(cfg, db, now, Step(cfg, db, now, k, c))
  {
    hide Kept, Fresh, ThreadSound, Sound;
    if k.RegisterFind? { RegisterFindKept(cfg, db, now, k, c); }
    else if k.LoginFind? { LoginFindKept(cfg, db, now, k, c); }
    else if k.ForgotFind? { ForgotFindKept(cfg, db, now, k, c); }
    else if SigningIn(k) { SignInKept(cfg, db, now, k, c); }
    else if Rotating(k) { RotateKept(cfg, db, now, k, c); }
    else if Verifying(k) { VerifyKept(cfg, db, now, k, c); }
    else if Resetting(k) { ResetKept(cfg, db, now, k, c); }
    else if Linking(k) { LinkKept(cfg, db, now, k, c); }
    else { AdministerKept(cfg, db, now, k, c); }
  }

  lemma BeginSound(cfg: Config, db: Tables, req: Request, now: Time)
    ensures ThreadSound(cfg, db, Begin(req, now))
  {
  }
}
