/**
 * The walk that loses an account, as a run: accounts created at one moment, and a client that lists them
 * row by row.
 */
module Ties {
  import opened Basics
  import opened Schema
  import opened Queries
  import opened Handlers
  import opened Runs
  import opened Growth
  import opened Locals
  import opened Origins
  import opened Integrity
  import opened Tokens
  import opened Rbac
  import opened Solo
  import opened Races
  import opened Paging
  import opened UserListing

  /** A client that may list: it holds a live access token of a verified account with the permission. */
  ghost predicate Reader(s: System, claims: Claims) {
    && HandedOut(s, claims) && s.now <= claims.exp + JWT_LEEWAY
    && Verified(s.db, claims.sub) && PermissionName(UsersRead) in PermissionsFor(s.db, claims.sub)
  }

  /** Step `i` lists in the given order what `users` holds. */
  ghost predicate Shows(r: History, i: nat, offset: nat, view: View) {
    Serves(r, i, 1, offset) && r.steps[i].choice.order == view.order && r.At(i).db.users == view.users
  }

  lemma ShowsStay(r: History, r': History, i: nat, offset: nat, view: View)
    requires Prefix(r, r') && Shows(r, i, offset, view)
    ensures Shows(r', i, offset, view)
  {
    hide Apply;
    SamePast(r, r', i);
  }

  lemma Opens(s: System, claims: Claims, action: Action)
    requires Reader(s, claims)
    ensures Begin(Administer(Signed(claims), action), s.now) == AdminGate(ActorOf(claims), action)
    ensures Presentable(s, Administer(Signed(claims), action))
  {
    hide PermissionsFor, HandedOut;
  }

  lemma PassesGate(cfg: Config, db: Tables, now: Time, actor: Actor, a: Action, c: Choice)
    requires Constraints(db) && Verified(db, actor.id)
    ensures Step(cfg, db, now, AdminGate(actor, a), c) == (NoWrite, AdminCheck(actor, a))
    ensures Fresh(db, AdminGate(actor, a), c)
  {
    hide PermissionName, ParseRole;
    AllJoin(db);
  }

  lemma PassesCheck(cfg: Config, db: Tables, now: Time, actor: Actor, a: Action, c: Choice)
    requires PermissionName(Required(a)) in PermissionsFor(db, actor.id)
    ensures Step(cfg, db, now, AdminCheck(actor, a), c) == (NoWrite, AdminAct(actor, a))
    ensures Fresh(db, AdminCheck(actor, a), c)
  {
    hide PermissionsFor, PermissionName, Required;
  }

  lemma Lists(cfg: Config, db: Tables, now: Time, actor: Actor, limit: nat, offset: nat, c: Choice)
    requires Constraints(db) && Ordered(db.users, c.order)
    ensures var k := AdminAct(actor, ListUsers(limit, offset)); Step(cfg, db, now, k, c).0 == NoWrite && Fresh(db, k, c)
  {
    hide Step, Ordered, Listing;
    ListStep(cfg, db, now, AdminAct(actor, ListUsers(limit, offset)), c);
    ListingIsOrdered(db, c.order);
  }

  lemma StillReader(s: System, s': System, claims: Claims)
    requires Reader(s, claims) && s'.db == s.db && s'.now == s.now
    requires forall t | t in s.threads && s.threads[t].pc.Done? :: t in s'.threads && s'.threads[t] == s.threads[t]
    ensures Reader(s', claims)
  {
    hide PermissionsFor;
  }

  lemma ListOnce(r: History, t: nat, claims: Claims, offset: nat, order: seq<Uid>) returns (r': History)
    requires r.Valid() && Reader(End(r), claims) && t !in End(r).threads && Ordered(End(r).db.users, order)
    ensures r'.Valid() && Prefix(r, r') && |r.steps| < |r'.steps| && End(r').db == End(r).db && Reader(End(r'), claims)
    ensures Shows(r', |r'.steps| - 1, offset, View(End(r).db.users, order))
    ensures End(r').threads.Keys == End(r).threads.Keys + {t}
  {
    hide Apply, Begin, History.Valid, Ordered, Reader, Step, ActorOf, Shows;
    var action := ListUsers(1, offset);
    Opens(End(r), claims, action);
    Allowed(End(r), claims);
    var a := Spawned(r, t, Administer(Signed(claims), action));
    r' := PastGate(a, t, ActorOf(claims), offset, order);
    StillReader(End(r), End(r'), claims);
  }

  /** The request reads three times and is answered. */
  lemma PastGate(r: History, t: nat, actor: Actor, offset: nat, order: seq<Uid>) returns (r': History)
    requires r.Valid() && Stands(r, t, AdminGate(actor, ListUsers(1, offset))) && Ordered(End(r).db.users, order)
    requires Verified(End(r).db, actor.id) && PermissionName(UsersRead) in PermissionsFor(End(r).db, actor.id)
    ensures r'.Valid() && Prefix(r, r') && |r.steps| < |r'.steps|
    ensures Shows(r', |r'.steps| - 1, offset, View(End(r).db.users, order))
    ensures exists k :: End(r') == End(r).(threads := End(r).threads[t := Running(k)])
  {
    hide Step, Apply, Begin, History.Valid, Fresh, Ordered, PermissionsFor, PermissionName, Verified;
    var c, action, s := Choice(0, 0, "", "", order, false), ListUsers(1, offset), End(r);
    assert Constraints(s.db) by { Reachable(r, |r.steps|); }
    PassesGate(s.cfg, s.db, s.now, actor, action, c);
    PassesCheck(s.cfg, s.db, s.now, actor, action, c);
    Lists(s.cfg, s.db, s.now, actor, 1, offset, c);
    var b := Reads(r, t, AdminGate(actor, action), AdminCheck(actor, action), c);
    var d := Reads(b, t, AdminCheck(actor, action), AdminAct(actor, action), c);
    var done := Step(s.cfg, s.db, s.now, AdminAct(actor, action), c).1;
    r' := Reads(d, t, AdminAct(actor, action), done, c);
    assert End(r') == s.(threads := s.threads[t := Running(done)]);
  }

  lemma Allowed(s: System, claims: Claims)
    requires Reader(s, claims)
    ensures Verified(s.db, ActorOf(claims).id) && PermissionName(UsersRead) in PermissionsFor(s.db, ActorOf(claims).id)
  {
  }

  /** The client asks for row after row, and is shown the given views. */
  lemma {:induction false} ListRows(r: History, claims: Claims, views: seq<View>, n: nat)
    returns (r': History, at: seq<nat>)
    requires r.Valid() && Reader(End(r), claims) && n <= |views|
    requires forall k | 0 <= k < |views| :: views[k].users == End(r).db.users && Ordered(views[k].users, views[k].order)
    ensures r'.Valid() && Prefix(r, r') && End(r').db == End(r).db && Reader(End(r'), claims) && |at| == n
    ensures forall k | 0 <= k < n :: |r.steps| <= at[k] < |r'.steps| && Shows(r', at[k], k, views[k])
    ensures forall k, m | 0 <= k < m < n :: at[k] < at[m]
  {
    hide Step, Apply, Begin, History.Valid, Ordered, Reader, Shows;
    r', at := r, [];
    if n > 0 {
      var q, before := ListRows(r, claims, views, n - 1);
      var t := Above(End(q).threads.Keys);
      r' := ListOnce(q, t, claims, n - 1, views[n - 1].order);
      at := before + [|r'.steps| - 1];
      forall k | 0 <= k < n - 1 ensures Shows(r', at[k], k, views[k]) {
        ShowsStay(q, r', before[k], k, views[k]);
      }
    }
  }

  /** Steps `at` browse to the end, one row a page, and none shows `u`, who was there all along. */
  ghost predicate Misses(r: History, from: nat, at: seq<nat>, u: Uid) {
    && Browses(r, at, 1) && from <= at[0] && r.Acts(at[0]) && u in r.At(at[0]).db.users
    && forall k: nat :: k < |at| ==> r.Acts(at[k]) && u !in Answer(r, at[k])
  }

  /**
   * From any run, a client that may list can browse to the end and miss an account that is tied, though
   * nothing is written meanwhile.
   */
  lemma {:induction false} TieMakesClientMiss(r: History, claims: Claims, u: Uid) returns (r': History, at: seq<nat>)
    requires r.Valid() && Reader(End(r), claims) && u in End(r).db.users && !Untied(End(r).db.users, u)
    ensures r'.Valid() && Prefix(r, r') && End(r').db == End(r).db && Misses(r', |r.steps|, at, u)
  {
    hide Step, Apply, Begin, History.Valid, Ordered, Reader, Untied, Window, Answer;
    var views := TiesLoseAccounts(End(r).db.users, u);
    r', at := ListRows(r, claims, views, |views|);
    forall k: nat | k < |at| ensures r'.Acts(at[k]) && Answer(r', at[k]) == Page(views, 1, k) {
      Answered(r', at[k], 1, k);
    }
    forall k: nat | k < |at| ensures u !in Page(views, 1, k) {
      assert !Seen(views, 1, u);
    }
  }

  // ---- which accounts are safe ---------------------------------------------------------------------

  /** Nobody was created when `u` was, and, that moment being past, nobody ever will be. */
  ghost predicate Settled(s: System, u: Uid) {
    u in s.db.users && Untied(s.db.users, u) && s.db.users[u].createdAt < s.now
  }

  lemma CreatedThen(r: History, j: nat, v: Uid)
    requires r.Valid() && Creates(r, j, v)
    ensures r.Wrote(j).user.createdAt == r.At(j).now && v in r.At(j + 1).db.users
  {
    hide Apply, Enabled, Step, Commit, CameBy, ThreadSound, Warranted;
    Issued(r, j);
    Inserted(r.At(j).db, r.At(j).now, r.Wrote(j));
  }

  /** Accounts bear the time of their creation, so one that is new at `n` is no older than the clock at `i`. */
  lemma {:induction false} NewcomersAreLate(r: History, i: nat, n: nat, v: Uid)
    requires r.Valid() && i <= n <= |r.steps| && v in r.At(n).db.users
    ensures r.At(n).db.users[v].createdAt <= r.At(n).now
    ensures v !in r.At(i).db.users ==> r.At(i).now <= r.At(n).db.users[v].createdAt
  {
    hide Apply, Enabled, Step, Commit, Creates;
    var j := Creation(r, n, v);
    assert j < |r.steps| && Creates(r, j, v);
    CreatedThen(r, j, v);
    ClockMonotone(r, j, n);
    if i <= j {
      ClockMonotone(r, i, j);
    } else {
      UsersPersist(r, j + 1, i);
    }
  }

  lemma {:induction false} SettledStays(r: History, i: nat, n: nat, u: Uid)
    requires r.Valid() && i <= n <= |r.steps| && Settled(r.At(i), u)
    ensures u in r.At(n).db.users && Untied(r.At(n).db.users, u)
  {
    hide Apply, Enabled, Step, Commit;
    UsersPersist(r, i, n);
    var users := r.At(n).db.users;
    forall v | v in users && users[v].createdAt == users[u].createdAt ensures u == v {
      NewcomersAreLate(r, i, n, v);
    }
  }

  /** The clients of `r'`, which goes on from `r`, see `u` when they browse to the end. */
  ghost predicate ClientsSee(r: History, r': History, u: Uid) {
    forall at: seq<nat>, limit: nat | Browses(r', at, limit) && |r.steps| <= at[0] :: Sees(r', at, u)
  }

  ghost predicate Sees(r: History, at: seq<nat>, u: Uid) {
    exists k: nat :: k < |at| && r.Acts(at[k]) && u in Answer(r, at[k])
  }

  /**
   * Once a client may list: in every continuation, whatever runs and whoever is created, browsing shows
   * an account exactly if nobody shares its creation time and that time is past.
   */
  lemma {:induction false} BrowsingIsSafe(r: History, claims: Claims, u: Uid)
    requires r.Valid() && Reader(End(r), claims) && u in End(r).db.users
    ensures Settled(End(r), u) <==> forall r': History | r'.Valid() && Prefix(r, r') :: ClientsSee(r, r', u)
  {
    hide Step, Apply, Begin, History.Valid, Reader, Untied, Browses, Answer;
    if Settled(End(r), u) {
      forall r': History | r'.Valid() && Prefix(r, r') ensures ClientsSee(r, r', u) {
        SettledIsSeen(r, r', u);
      }
    } else {
      var q := MadeTied(r, claims, u);
      var r', at := TieMakesClientMiss(q, claims, u);
      NotSeen(r, q, r', at, u);
    }
  }

  lemma NotSeen(r: History, q: History, r': History, at: seq<nat>, u: Uid)
    requires Prefix(r, q) && Prefix(q, r') && Misses(r', |q.steps|, at, u)
    ensures Prefix(r, r') && !ClientsSee(r, r', u)
  {
    hide Step, Apply, Answer;
    assert !Sees(r', at, u);
  }

  lemma {:induction false} SettledIsSeen(r: History, r': History, u: Uid)
    requires r.Valid() && r'.Valid() && Prefix(r, r') && Settled(End(r), u)
    ensures ClientsSee(r, r', u)
  {
    hide Step, Apply, Begin, History.Valid, Answer, Untied;
    SamePast(r, r', |r.steps|);
    forall at: seq<nat>, limit: nat | Browses(r', at, limit) && |r.steps| <= at[0] ensures Sees(r', at, u) {
      var last := at[|at| - 1];
      assert Serves(r', at[0], limit, 0) && Serves(r', last, limit, (|at| - 1) * Min(limit, PAGE_CAP));
      SettledStays(r', |r.steps|, at[0], u);
      SettledStays(r', |r.steps|, last, u);
      BrowsingMissesNobody(r', at, limit, u);
    }
  }

  /** An account that is not settled is tied, or can be tied at once by a callback. */
  lemma MadeTied(r: History, claims: Claims, u: Uid) returns (q: History)
    requires r.Valid() && Reader(End(r), claims) && u in End(r).db.users && !Settled(End(r), u)
    ensures q.Valid() && Prefix(r, q) && Reader(End(q), claims) && u in End(q).db.users && !Untied(End(q).db.users, u)
  {
    hide Step, Apply, Begin, History.Valid, Reader;
    q := r;
    if Untied(End(r).db.users, u) {
      NewcomersAreLate(r, |r.steps|, |r.steps|, u);
      var v;
      q, v := Newcomer(r, claims);
    }
  }

  lemma UnknownSubject(identities: map<(string, string), IdentityRow>) returns (p: Profile)
    ensures p.Key() !in identities && p.email == None
  {
    var lengths: set<nat> := set key | key in identities :: |key.1|;
    var n := Above(lengths);
    p := Profile("google", seq(n, i => 's'), None, None);
    assert p.Key() in identities ==> n in lengths;
  }

  /** Somebody unknown comes by the callback, now. */
  lemma Newcomer(r: History, claims: Claims) returns (q: History, v: Uid)
    requires r.Valid() && Reader(End(r), claims)
    ensures q.Valid() && Prefix(r, q) && Reader(End(q), claims)
    ensures v !in End(r).db.users && UsersGrow(End(r).db.users, End(q).db.users)
    ensures v in End(q).db.users && End(q).db.users[v].createdAt == End(r).now
  {
    hide Step, Apply, Begin, History.Valid, Reader, EmailTaken, Stands;
    v := Above(End(r).db.users.Keys);
    var t := Above(End(r).threads.Keys);
    var p := UnknownSubject(End(r).db.identities);
    var c := Choice(v, 0, "", "", [], false);
    var a := Miss(r, t, p, c);
    Nameless(End(a).db);
    var row;
    q, row := MakeAccount(a, t, p, c);
    ReaderStays(End(r), End(q), claims, v, row);
  }

  lemma ReaderStays(s: System, s': System, claims: Claims, v: Uid, row: UserRow)
    requires Reader(s, claims) && v !in s.db.users && s'.db == s.db.(users := s.db.users[v := row]) && s'.now == s.now
    requires forall t | t in s.threads :: t in s'.threads && s'.threads[t] == s.threads[t]
    ensures Reader(s', claims)
  {
    hide PermissionsFor, PermissionName;
    SamePermissions(s.db, v, row, claims.sub);
  }

  lemma SamePermissions(db: Tables, v: Uid, row: UserRow, u: Uid)
    requires v != u
    ensures PermissionsFor(db.(users := db.users[v := row]), u) == PermissionsFor(db, u)
  {
  }

  // ---- such moments are reached --------------------------------------------------------------------

  lemma BootstrapStep(cfg: Config, db: Tables, now: Time, email: string, password: string, c: Choice)
    requires Constraints(db) && !EmailTaken(db, Some(email)) && c.uid !in db.users
    ensures var phc := Argon2(c.salt, password);
            var row := UserRow(Some(email), Some(phc), None, RoleNumber(Admin), true, true, now, now);
            Step(cfg, db, now, AdminInsert(email, password), c) == (InsertUser(c.uid, row), Done(AdminCreated(c.uid)))
    ensures Fresh(db, AdminInsert(email, password), c)
  {
    hide Catalogue, RoleIdFor, EmailTaken;
    RoleEncoding(db, Admin);
  }

  /** An administrator who can log in with `password`. */
  ghost predicate IsAdmin(db: Tables, u: Uid, email: string, password: string) {
    && u in db.users && db.users[u].email == Some(email) && db.users[u].verified && db.users[u].active
    && db.users[u].password.Some? && db.users[u].password.value.plain == password
    && db.users[u].roleId == RoleNumber(Admin) && forall p :: (u, p) !in db.overrides
  }

  lemma AdminMayRead(db: Tables, u: Uid, email: string, password: string)
    requires Catalogue(db) && IsAdmin(db, u, email, password)
    ensures Verified(db, u) && PermissionName(UsersRead) in PermissionsFor(db, u)
  {
    hide PermissionName, PermissionsFor;
    var name := PermissionName(UsersRead);
    PermissionEncoding(db, name);
    var p :| p in db.permissions && db.permissions[p] == name;
    RoleMapping(db, Admin, p);
    QueryIsOverrideOrRole(db, u, name);
  }

  lemma AdminLogsIn(cfg: Config, db: Tables, now: Time, u: Uid, email: string, password: string, c: Choice)
    requires Constraints(db) && IsAdmin(db, u, email, password)
    ensures Step(cfg, db, now, LoginFind(email, password), c) == (NoWrite, IssueStore(u, Admin, None))
  {
    hide Catalogue, RolesExist, IdentityUsers, RefreshUsers, TokenUsers, OverrideKeys, Fold;
    RoleEncoding(db, Admin);
    assert Joins(db, u) && HasEmail(db.users[u], email);
  }

  lemma Bootstrapped(r: History, t: nat, email: string, password: string, c: Choice) returns (r': History)
    requires r.Valid() && t !in End(r).threads && |password| >= MIN_PASSWORD
    requires !EmailTaken(End(r).db, Some(email)) && c.uid !in End(r).db.users
    ensures r'.Valid() && Prefix(r, r') && IsAdmin(End(r').db, c.uid, email, password)
    ensures End(r').now == End(r).now && End(r').db.users[c.uid].createdAt == End(r).now
    ensures End(r').db.identities == End(r).db.identities && End(r').db.users.Keys == End(r).db.users.Keys + {c.uid}
    ensures End(r').threads.Keys == End(r).threads.Keys + {t}
  {
    hide Step, Apply, Begin, History.Valid, EmailTaken, Constraints, Commit, IsAdmin, Fresh;
    var s := End(r);
    assert Constraints(s.db) by { Reachable(r, |r.steps|); }
    assert Begin(CreateAdmin(email, true, password), s.now) == AdminInsert(email, password) by {
      BootstrapBegins(email, password, s.now);
    }
    BootstrapStep(s.cfg, s.db, s.now, email, password, c);
    var a := Spawned(r, t, CreateAdmin(email, true, password));
    r' := Advance(a, t, AdminInsert(email, password), c);
    NewAdmin(s.db, s.now, c.uid, email, Argon2(c.salt, password));
  }

  lemma BootstrapBegins(email: string, password: string, now: Time)
    requires |password| >= MIN_PASSWORD
    ensures Begin(CreateAdmin(email, true, password), now) == AdminInsert(email, password)
  {
  }

  lemma NewAdmin(db: Tables, now: Time, u: Uid, email: string, phc: Phc)
    requires Constraints(db) && u !in db.users
    ensures var row := UserRow(Some(email), Some(phc), None, RoleNumber(Admin), true, true, now, now);
            var db' := Commit(db, now, InsertUser(u, row));
            && db'.users == db.users[u := row] && db'.identities == db.identities && IsAdmin(db', u, email, phc.plain)
  {
  }

  lemma LoggedIn(r: History, t: nat, u: Uid, email: string, password: string, c: Choice)
    returns (r': History, claims: Claims)
    requires r.Valid() && t !in End(r).threads && IsAdmin(End(r).db, u, email, password)
    requires Sha256(c.refresh) !in End(r).db.refreshTokens && End(r).cfg.accessTtlMin >= 0
    ensures r'.Valid() && Prefix(r, r') && Reader(End(r'), claims) && End(r').db.users == End(r).db.users
  {
    hide Apply, Begin, History.Valid, Step, Catalogue, Reader, IsAdmin;
    var s := End(r);
    Reachable(r, |r.steps|);
    AdminLogsIn(s.cfg, s.db, s.now, u, email, password, c);
    assert Begin(Request.Login(email, password), s.now) == LoginFind(email, password) by {
      LoginBegins(email, password, s.now);
    }
    var a := Spawned(r, t, Request.Login(email, password));
    var b := Reads(a, t, LoginFind(email, password), IssueStore(u, Admin, None), c);
    r', claims := HandsOut(b, t, u, email, password, c);
  }

  lemma HandsOut(r: History, t: nat, u: Uid, email: string, password: string, c: Choice)
    returns (r': History, claims: Claims)
    requires r.Valid() && Stands(r, t, IssueStore(u, Admin, None)) && IsAdmin(End(r).db, u, email, password)
    requires Sha256(c.refresh) !in End(r).db.refreshTokens && End(r).cfg.accessTtlMin >= 0
    ensures r'.Valid() && Prefix(r, r') && Reader(End(r'), claims) && End(r').db.users == End(r).db.users
  {
    hide Apply, Begin, History.Valid, Step, Catalogue, PermissionName, PermissionsFor;
    var s := End(r);
    TokensIssued(s.cfg, s.db, s.now, u, c);
    r' := Advance(r, t, IssueStore(u, Admin, None), c);
    claims := Issue(s.cfg, s.now, u, Admin);
    Reachable(r', |r'.steps|);
    AdminMayRead(End(r').db, u, email, password);
    assert End(r').threads[t] == Running(Done(Tokens(TokenPair(claims, c.refresh))));
  }

  lemma LoginBegins(email: string, password: string, now: Time)
    ensures Begin(Request.Login(email, password), now) == LoginFind(email, password)
  {
  }

  lemma TokensIssued(cfg: Config, db: Tables, now: Time, u: Uid, c: Choice)
    requires u in db.users && Sha256(c.refresh) !in db.refreshTokens
    ensures Step(cfg, db, now, IssueStore(u, Admin, None), c) ==
            (InsertRefresh(Sha256(c.refresh), Session(cfg, now, u)),
             Done(Tokens(TokenPair(Issue(cfg, now, u, Admin), c.refresh))))
  {
  }

  const EMAIL: string := "admin@example.com"
  const PASSWORD: string := "a password"

  lemma TwoAtOnce() returns (r: History)
    ensures r.Valid() && IsAdmin(End(r).db, 0, EMAIL, PASSWORD) && 2 !in End(r).threads && End(r).cfg.accessTtlMin >= 0
    ensures 0 in End(r).db.users && 1 in End(r).db.users && End(r).db.users[0].createdAt == End(r).db.users[1].createdAt
  {
    hide Step, Apply, Begin, History.Valid, IsAdmin, Stands, EmailTaken;
    var start := History(System(Config(15, 30), 0, Seed(), map[]), []);
    var c, p := Choice(0, 0, "", "", [], false), Profile("google", "subject", None, None);
    EmptyRun(start, EMAIL);
    var a := Bootstrapped(start, 0, EMAIL, PASSWORD, c);
    var b := Miss(a, 1, p, c);
    assert !EmailTaken(End(b).db, p.email) by { Nameless(End(b).db); }
    var row;
    r, row := MakeAccount(b, 1, p, c.(uid := 1));
    StaysAdmin(End(b).db, 0, EMAIL, PASSWORD, 1, row);
    ClockMonotone(r, 0, |r.steps|);
  }

  lemma Nameless(db: Tables)
    ensures !EmailTaken(db, None)
  {
  }

  /**
   * The bootstrap command, a callback and a login, with no time passing between, leave a tie and a client
   * that may list.
   */
  lemma {:induction false} TiesHappen() returns (r: History, claims: Claims)
    ensures r.Valid() && Reader(End(r), claims) && 0 in End(r).db.users && !Untied(End(r).db.users, 0)
  {
    hide Step, Apply, Begin, History.Valid, Reader, IsAdmin;
    var d := TwoAtOnce();
    var n := Unissued(End(d).db.refreshTokens);
    r, claims := LoggedIn(d, 2, 0, EMAIL, PASSWORD, Draw(n));
    assert End(r).db.users[0].createdAt == End(r).db.users[1].createdAt;
  }

  lemma EmptyRun(r: History, email: string)
    requires r.steps == [] && r.start.db == Seed() && r.start.threads == map[]
    ensures r.Valid() && End(r) == r.start && !EmailTaken(End(r).db, Some(email))
  {
  }

  lemma StaysAdmin(db: Tables, u: Uid, email: string, password: string, v: Uid, row: UserRow)
    requires IsAdmin(db, u, email, password) && v != u
    ensures IsAdmin(db.(users := db.users[v := row]), u, email, password)
  {
  }
}
