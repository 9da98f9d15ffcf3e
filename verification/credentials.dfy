/**
 * Password login against a ledger of credentials kept from the requests; for a reset, also from the
 * account its token was stored for.
 */
module Credentials {
  import opened Basics
  import opened Schema
  import opened Queries
  import opened Handlers
  import opened Runs
  import opened Growth
  import opened Locals
  import opened Origins
  import opened Integrity
  import opened Rbac
  import opened Requests
  import opened Endings
  import opened Answers

  datatype Credential = Credential(id: Uid, password: Option<string>, active: bool)

  /** Account by case-folded e-mail address. */
  type Ledger = map<string, Credential>

  function Open(l: Ledger, email: string, id: Uid, password: Option<string>): Ledger {
    if Fold(email) in l then l else l[Fold(email) := Credential(id, password, true)]
  }

  function SetPassword(l: Ledger, id: Uid, password: string): Ledger {
    map e | e in l :: if l[e].id == id then l[e].(password := Some(password)) else l[e]
  }

  function SetActivity(l: Ledger, id: Uid, active: bool): Ledger {
    map e | e in l :: if l[e].id == id then l[e].(active := active) else l[e]
  }

  /**
   * What a request does to the ledger when its thread runs its statement of that kind. `tokens` says which
   * account a reset token was stored for.
   */
  function Post(l: Ledger, req: Request, k: Pc, tokens: map<Digest, OneTimeRow>, id: Uid): Ledger {
    match req
    case Register(email, _, password, _) => if k.RegisterInsert? then Open(l, email, id, Some(password)) else l
    case CreateAdmin(email, _, password) => if k.AdminInsert? then Open(l, email, id, Some(password)) else l
    case GoogleCallback(p) => if k.OauthInsert? && p.email.Some? then Open(l, p.email.value, id, None) else l
    case ResetPassword(raw, password) =>
      if k.ResetUpdate? && Sha256(raw) in tokens then SetPassword(l, tokens[Sha256(raw)].user, password) else l
    case Administer(_, SetActive(user, active)) => if k.AdminAct? then SetActivity(l, user, active) else l
    case _ => l
  }

  ghost function Posted(r: History, n: nat): Ledger
    requires n <= |r.steps|
  {
    if n == 0 then map[]
    else
      var l := Posted(r, n - 1);
      if r.Acts(n - 1) && RequestOf(r, n - 1, r.steps[n - 1].tid).Some?
      then Post(l, RequestOf(r, n - 1, r.steps[n - 1].tid).value, r.Here(n - 1), r.At(n - 1).db.resetTokens,
                r.steps[n - 1].choice.uid)
      else l
  }

  /** What the statement at `k` does to the ledger, read from what it holds. */
  function PostAt(l: Ledger, k: Pc, id: Uid): Ledger {
    match k
    case RegisterInsert(email, password, _) => Open(l, email, id, Some(password))
    case AdminInsert(email, password) => Open(l, email, id, Some(password))
    case OauthInsert(p) => if p.email.Some? then Open(l, p.email.value, id, None) else l
    case ResetUpdate(_, user, password) => SetPassword(l, user, password)
    case AdminAct(_, SetActive(user, active)) => SetActivity(l, user, active)
    case _ => l
  }

  /** A statement holds what its request asked for. */
  lemma PostAgrees(cfg: Config, db: Tables, l: Ledger, req: Request, k: Pc, id: Uid)
    requires Fits(req, k) && ThreadSound(cfg, db, k)
    ensures Post(l, req, k, db.resetTokens, id) == PostAt(l, k, id)
  {
    hide Open, SetPassword, SetActivity;
  }

  predicate Entered(l: Ledger, u: Uid, row: UserRow) {
    row.email.Some? ==>
      var e := Fold(row.email.value);
      e in l && l[e] == Credential(u, if row.password.Some? then Some(row.password.value.plain) else None, row.active)
  }

  predicate Backed(users: map<Uid, UserRow>, e: string, id: Uid) {
    id in users && users[id].email.Some? && Fold(users[id].email.value) == e
  }

  /** The tables and the ledger say the same. */
  ghost predicate Agrees(users: map<Uid, UserRow>, l: Ledger) {
    && (forall u | u in users :: Entered(l, u, users[u]))
    && (forall e {:trigger Backed(users, e, l[e].id)} | e in l :: Backed(users, e, l[e].id))
  }

  lemma Opened(users: map<Uid, UserRow>, l: Ledger, u: Uid, row: UserRow)
    requires Agrees(users, l) && u !in users && row.active
    requires row.email.Some? ==> forall v | v in users :: !HasEmail(users[v], row.email.value)
    ensures row.email.None? ==> Agrees(users[u := row], l)
    ensures row.email.Some? ==>
              Agrees(users[u := row], Open(l, row.email.value, u,
                if row.password.Some? then Some(row.password.value.plain) else None))
  {
    hide Fold;
    var users' := users[u := row];
    forall e | e in l ensures Backed(users', e, l[e].id) && (row.email.Some? ==> e != Fold(row.email.value)) {
      assert Backed(users, e, l[e].id);
      assert row.email.Some? ==> !HasEmail(users[l[e].id], row.email.value);
    }
  }

  lemma Taken(users: map<Uid, UserRow>, l: Ledger, email: string, u: Uid, password: Option<string>)
    requires Agrees(users, l) && exists v :: v in users && HasEmail(users[v], email)
    ensures Open(l, email, u, password) == l
  {
    hide Fold;
    var v :| v in users && HasEmail(users[v], email);
    assert Entered(l, v, users[v]);
  }

  function Revise(l: Ledger, w: Write): Ledger {
    if w.UpdatePassword? then SetPassword(l, w.id, w.phc.plain)
    else if w.UpdateActive? then SetActivity(l, w.id, w.active)
    else l
  }

  lemma EntryRevised(l: Ledger, u: Uid, row: UserRow, now: Time, w: Write, row': UserRow)
    requires Entered(l, u, row) && UserRewritten(u, row, now, w, row')
    ensures Entered(Revise(l, w), u, row')
  {
    hide Fold;
  }

  lemma Revised(users: map<Uid, UserRow>, now: Time, w: Write, l: Ledger)
    requires !w.InsertUser? && Agrees(users, l)
    ensures Agrees(UsersAfter(users, now, w), Revise(l, w))
  {
    hide Fold, Entered, UsersAfter;
    var users', l' := UsersAfter(users, now, w), Revise(l, w);
    forall u | u in users' ensures Entered(l', u, users'[u]) {
      WriteUsers(users, now, w, u);
      EntryRevised(l, u, users[u], now, w, users'[u]);
    }
    forall e | e in l' ensures Backed(users', e, l'[e].id) {
      assert Backed(users, e, l[e].id);
      WriteUsers(users, now, w, l[e].id);
    }
  }

  lemma Created(cfg: Config, db: Tables, now: Time, k: Pc, c: Choice, l: Ledger)
    requires Agrees(db.users, l) && Fresh(db, k, c) && (k.RegisterInsert? || k.OauthInsert? || k.AdminInsert?)
    requires Catalogue(db)
    ensures Agrees(Commit(db, now, Step(cfg, db, now, k, c).0).users, PostAt(l, k, c.uid))
  {
    hide Agrees, Open, SeedRoles, SeedPermissions, SeedRolePermissions, HasEmail, Fold, RoleName;
    var w := Step(cfg, db, now, k, c).0;
    assert db.roles[3] == RoleName(User) && db.roles[1] == RoleName(Admin) by { Numbers(db); }
    if w.InsertUser? {
      Opened(db.users, l, c.uid, w.user);
    } else {
      var email := if k.OauthInsert? then k.profile.email else Some(k.email);
      assert EmailTaken(db, email);
      Taken(db.users, l, email.value, c.uid, if k.OauthInsert? then None else Some(k.password));
    }
  }

  lemma Numbers(db: Tables)
    requires Catalogue(db)
    ensures 3 in db.roles && db.roles[3] == RoleName(User) && 1 in db.roles && db.roles[1] == RoleName(Admin)
  {
  }

  /** At every moment of every interleaving the tables hold exactly the ledger's credentials. */
  lemma {:induction false} LedgerKept(r: History, n: nat)
    requires r.Valid() && n <= |r.steps|
    ensures Agrees(r.At(n).db.users, Posted(r, n))
  {
    hide Apply, Enabled, Agrees, Commit, Warranted, ThreadSound, CameBy, SetPassword, SetActivity, Open, RoleIdFor;
    if n == 0 {
      Blank(r.start);
    } else {
      LedgerKept(r, n - 1);
      Effect(r, n - 1);
      if r.Acts(n - 1) {
        var s, t := r.At(n - 1), r.steps[n - 1].tid;
        PostedStep(r, n - 1, Posted(r, n - 1));
        AlwaysFits(r, n - 1, t);
        Reachable(r, n - 1);
        PostAgrees(s.cfg, s.db, Posted(r, n - 1), RequestOf(r, n - 1, t).value, r.Here(n - 1),
                   r.steps[n - 1].choice.uid);
      }
    }
  }

  lemma Blank(s: System)
    requires s.db == Seed()
    ensures Agrees(s.db.users, map[])
  {
  }

  lemma PostIsRevise(cfg: Config, db: Tables, now: Time, k: Pc, c: Choice, l: Ledger)
    requires !k.RegisterInsert? && !k.OauthInsert? && !k.AdminInsert? && !k.Done?
    ensures PostAt(l, k, c.uid) == Revise(l, Step(cfg, db, now, k, c).0) && !Step(cfg, db, now, k, c).0.InsertUser?
  {
    hide SignInStep, RotateStep, VerifyStep, LinkStep, CameBy, SetPassword, SetActivity, RoleIdFor, Window;
    Origin(cfg, db, now, k, c);
  }

  lemma {:induction false} PostedStep(r: History, i: nat, l: Ledger)
    requires r.Valid() && r.Acts(i) && Agrees(r.At(i).db.users, l)
    ensures Agrees(r.At(i + 1).db.users, PostAt(l, r.Here(i), r.steps[i].choice.uid))
  {
    hide Apply, Step, Agrees, UsersAfter, Warranted, ThreadSound, CameBy, Presentable, SetPassword, SetActivity, Open;
    hide RoleIdFor, Listing;
    var s, k, c, w := r.At(i), r.Here(i), r.steps[i].choice, r.Wrote(i);
    Issued(r, i);
    assert r.Legal(i);
    if k.RegisterInsert? || k.OauthInsert? || k.AdminInsert? {
      Created(s.cfg, s.db, s.now, k, c, l);
    } else {
      PostIsRevise(s.cfg, s.db, s.now, k, c, l);
      Revised(s.db.users, s.now, w, l);
    }
  }

  // ---- login ----------------------------------------------------------------------------------

  predicate Unlocks(l: Ledger, email: string, password: string) {
    Fold(email) in l && l[Fold(email)].password == Some(password) && l[Fold(email)].active
  }

  /**
   * Login with a password succeeds exactly when the ledger's account for that address is active and
   * the password is the one last set for it, and then for that account; otherwise the error says
   * whether it was the credentials or the inactive account.
   */
  lemma LoginFollowsLedger(r: History, i: nat)
    requires r.Valid() && r.Acts(i) && r.Here(i).LoginFind?
    ensures var l, e := Posted(r, i), Fold(r.Here(i).email);
            && (r.Next(i).IssueStore? <==> Unlocks(l, r.Here(i).email, r.Here(i).password))
            && (r.Next(i).IssueStore? ==> r.Next(i).id == l[e].id && r.Next(i).parent == None)
            && (r.Next(i) == Fail(Forbidden) <==> e in l && l[e].password == Some(r.Here(i).password) && !l[e].active)
            && (r.Next(i).IssueStore? || r.Next(i) == Fail(Forbidden) || r.Next(i) == Fail(Auth))
  {
    hide Apply, Enabled, Posted, Agrees, Step;
    LedgerKept(r, i);
    Reachable(r, i);
    LoginStep(r.At(i).cfg, r.At(i).db, r.At(i).now, r.Here(i), r.steps[i].choice, Posted(r, i));
  }

  /**
   * What a login brings in decides its answer, by the ledger of the moment it is looked up: a pair for the
   * ledger's account, its session stored, in the role last given to it; or which of the two errors.
   */
  ghost predicate Granted(r: History, i: nat, n: nat, email: string, password: string, out: Outcome)
    requires i <= n <= |r.steps|
  {
    var l, e := Posted(r, i), Fold(email);
    if e !in l || l[e].password != Some(password) then out == Failed(Auth)
    else if !l[e].active then out == Failed(Forbidden)
    else && out.Tokens? && out.pair.access.sub == l[e].id && RoleLog(r, i, l[e].id).Some?
         && ParseRole(out.pair.access.role) == RoleLog(r, i, l[e].id)
         && SessionOf(r.At(n).db, Sha256(out.pair.refresh), l[e].id)
  }

  lemma {:induction false} LoginAnswers(r: History, x: nat, n: nat, t: nat, email: string, password: string,
                                        out: Outcome)
    returns (i: nat)
    requires Served(r, x, n, t, Request.Login(email, password), out)
    ensures x < i < n && IsBy(r, i, t) && Granted(r, i, n, email, password, out)
  {
    hide Apply, Enabled, Posted, Step, Begin, Commit, RoleLog, Agrees, Matches, Fold, Sound;
    i := Answers.LoginAnswers(r, x, n, t, email, password, out);
    LedgerKept(r, i);
    Reachable(r, n);
    var l, e := Posted(r, i), Fold(email);
    LedgerMatches(r.At(i).db, l, email, password);
    if e in l && l[e].password == Some(password) {
      assert Matches(r.At(i).db, l[e].id, email, password);
    }
  }

  lemma LedgerMatches(db: Tables, l: Ledger, email: string, password: string)
    requires Agrees(db.users, l)
    ensures var e := Fold(email);
            forall id :: Matches(db, id, email, password) <==>
                         e in l && l[e].password == Some(password) && l[e].id == id
    ensures var e := Fold(email); e in l && l[e].id in db.users ==> db.users[l[e].id].active == l[e].active
  {
    hide Fold;
    var e := Fold(email);
    forall id | id in db.users && HasEmail(db.users[id], email) ensures e in l && l[e].id == id {
      assert Entered(l, id, db.users[id]);
    }
    if e in l {
      assert Backed(db.users, e, l[e].id);
      assert Entered(l, l[e].id, db.users[l[e].id]);
    }
  }

  lemma LoginStep(cfg: Config, db: Tables, now: Time, k: Pc, c: Choice, l: Ledger)
    requires Sound(db) && Agrees(db.users, l) && k.LoginFind?
    ensures var (_, k') := Step(cfg, db, now, k, c); var e := Fold(k.email);
            && (k'.IssueStore? <==> Unlocks(l, k.email, k.password))
            && (k'.IssueStore? ==> k'.id == l[e].id && k'.parent == None)
            && (k' == Fail(Forbidden) <==> e in l && l[e].password == Some(k.password) && !l[e].active)
            && (k'.IssueStore? || k' == Fail(Forbidden) || k' == Fail(Auth))
  {
    hide Fold, SeedRoles, SeedPermissions, SeedRolePermissions, ParseRole, Catalogue, UniqueEmails;
    var e := Fold(k.email);
    var found := FindByEmail(db, k.email);
    if found.Some? {
      assert Entered(l, found.value.id, db.users[found.value.id]);
    }
    if e in l {
      assert Backed(db.users, e, l[e].id);
      assert Joins(db, l[e].id) && HasEmail(db.users[l[e].id], k.email);
    }
  }
}
