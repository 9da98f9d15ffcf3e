/** Why one request at a time is assumed where it is: overlapping requests really do break those properties. */
module Races {
  import opened Basics
  import opened Schema
  import opened Queries
  import opened Handlers
  import opened Runs
  import opened Growth
  import opened Locals
  import opened Origins
  import opened Integrity
  import opened Rbac
  import opened Accounts
  import opened Serial
  import opened Sessions
  import opened Rotation
  import opened Solo

  predicate Prefix(r: History, r': History) { r'.start == r.start && r.steps <= r'.steps }

  ghost predicate Stands(r: History, t: nat, k: Pc) { t in End(r).threads && End(r).threads[t] == Running(k) }

  /** One more step of thread `t`. */
  lemma Advance(r: History, t: nat, k: Pc, c: Choice) returns (r': History)
    requires r.Valid() && Stands(r, t, k) && !k.Done? && Fresh(End(r).db, k, c)
    ensures r'.Valid() && Prefix(r, r') && r' == Extend(r, Exec(t, c))
    ensures r'.Acts(|r.steps|) && r'.Here(|r.steps|) == k
    ensures var s, s' := End(r), End(r'); var (w, k') := Step(s.cfg, s.db, s.now, k, c);
            && r'.Wrote(|r.steps|) == w && Stands(r', t, k')
            && s'.db == Commit(s.db, s.now, w) && s'.now == s.now && s'.cfg == s.cfg
            && s'.threads.Keys == s.threads.Keys && forall u | u != t && u in s.threads :: s'.threads[u] == s.threads[u]
  {
    hide Step, Commit, Fresh, Begin, History.Valid;
    r' := Extend(r, Exec(t, c));
    Extended(r, Exec(t, c));
    SamePast(r, r', |r.steps|);
  }

  /** A step that only reads. */
  lemma Reads(r: History, t: nat, k: Pc, k': Pc, c: Choice) returns (r': History)
    requires r.Valid() && Stands(r, t, k) && !k.Done? && Fresh(End(r).db, k, c)
    requires Step(End(r).cfg, End(r).db, End(r).now, k, c) == (NoWrite, k')
    ensures r'.Valid() && Prefix(r, r') && r' == Extend(r, Exec(t, c)) && r'.Ran(|r.steps|, t, k)
    ensures r'.At(|r.steps|) == End(r)
    ensures End(r') == End(r).(threads := End(r).threads[t := Running(k')])
  {
    hide Step, Commit, Fresh, Begin, History.Valid;
    NoWriteNoChange(End(r).db, End(r).now);
    r' := Extend(r, Exec(t, c));
    Extended(r, Exec(t, c));
    SamePast(r, r', |r.steps|);
  }

  lemma Spawned(r: History, t: nat, req: Request) returns (r': History)
    requires r.Valid() && t !in End(r).threads && Presentable(End(r), req)
    ensures r'.Valid() && Prefix(r, r') && r' == Extend(r, Spawn(t, req)) && Stands(r', t, Begin(req, End(r).now))
    ensures var s, s' := End(r), End(r');
            && s'.db == s.db && s'.now == s.now && s'.cfg == s.cfg && s'.threads.Keys == s.threads.Keys + {t}
            && forall u | u in s.threads :: s'.threads[u] == s.threads[u]
  {
    hide Step, Commit, Fresh, Begin, History.Valid, Presentable;
    r' := Extend(r, Spawn(t, req));
    Extended(r, Spawn(t, req));
  }

  /** A live token of `id`. */
  predicate LiveOwn(db: Tables, h: Digest, id: Uid) { SessionOf(db, h, id) && Live(db, h) }

  lemma MintsStay(r: History, r': History, i: nat, h: Digest, p: Option<Digest>)
    requires Prefix(r, r') && Mints(r, i, h, p)
    ensures Mints(r', i, h, p)
  {
    hide Apply, Step;
    SamePast(r, r', i);
  }

  /** A request that has looked `p` up goes on to store a successor, whatever has happened to `p` since. */
  lemma RotateRest(r: History, t: nat, p: Digest, id: Uid, c: Choice) returns (r': History, i: nat)
    requires r.Valid() && Stands(r, t, RefreshRevoke(p, id)) && SessionOf(End(r).db, p, id)
    requires Sha256(c.refresh) !in End(r).db.refreshTokens
    ensures r'.Valid() && Prefix(r, r') && |r.steps| <= i && Mints(r', i, Sha256(c.refresh), Some(p))
    ensures SessionOf(End(r').db, p, id) && LiveOwn(End(r').db, Sha256(c.refresh), id)
    ensures End(r').db.refreshTokens.Keys == End(r).db.refreshTokens.Keys + {Sha256(c.refresh)}
    ensures forall u | u != t && u in End(r).threads :: u in End(r').threads && End(r').threads[u] == End(r).threads[u]
  {
    hide SignInStep, VerifyStep, ResetStep, LinkStep, AdministerStep, History.Valid, Apply, UsersAfter, Record, Sound;
    var a := Advance(r, t, RefreshRevoke(p, id), c);
    var b, role := FindStep(a, t, p, id, c);
    i := |b.steps|;
    r' := StoreRest(b, t, p, id, role, c);
  }

  lemma FindStep(r: History, t: nat, p: Digest, id: Uid, c: Choice) returns (r': History, role: Role)
    requires r.Valid() && Stands(r, t, RefreshFind(p, id)) && SessionOf(End(r).db, p, id)
    ensures r'.Valid() && Prefix(r, r') && Stands(r', t, IssueStore(id, role, Some(p))) && End(r').db == End(r).db
    ensures id in End(r).db.users
    ensures forall u | u != t && u in End(r).threads :: u in End(r').threads && End(r').threads[u] == End(r).threads[u]
  {
    hide SignInStep, VerifyStep, ResetStep, LinkStep, AdministerStep, History.Valid, Apply, Record;
    var user := FindsOwner(r, p, id);
    role := user.role;
    r' := Advance(r, t, RefreshFind(p, id), c);
    NoWriteNoChange(End(r).db, End(r).now);
  }

  lemma FindsOwner(r: History, p: Digest, id: Uid) returns (user: UserRecord)
    requires r.Valid() && SessionOf(End(r).db, p, id)
    ensures FindById(End(r).db, id) == Some(user) && user.id == id && id in End(r).db.users
  {
    hide Step, Apply, History.Valid, ParseRole;
    Reachable(r, |r.steps|);
    user := Record(End(r).db, id);
  }

  lemma StoreRest(b: History, t: nat, p: Digest, id: Uid, role: Role, c: Choice) returns (r': History)
    requires b.Valid() && Stands(b, t, IssueStore(id, role, Some(p))) && id in End(b).db.users
    requires SessionOf(End(b).db, p, id) && Sha256(c.refresh) !in End(b).db.refreshTokens
    ensures r'.Valid() && Prefix(b, r') && Mints(r', |b.steps|, Sha256(c.refresh), Some(p))
    ensures SessionOf(End(r').db, p, id) && LiveOwn(End(r').db, Sha256(c.refresh), id)
    ensures End(r').db.refreshTokens.Keys == End(b).db.refreshTokens.Keys + {Sha256(c.refresh)}
    ensures forall u | u != t && u in End(b).threads :: u in End(r').threads && End(r').threads[u] == End(b).threads[u]
  {
    hide RotateStep, VerifyStep, ResetStep, LinkStep, AdministerStep, History.Valid, Apply, UsersAfter;
    r' := Advance(b, t, IssueStore(id, role, Some(p)), c);
  }

  lemma LookUp(r: History, t: nat, raw: string, id: Uid, c: Choice) returns (r': History)
    requires r.Valid() && t !in End(r).threads && Usable(End(r).db, End(r).now, Sha256(raw), id)
    ensures r'.Valid() && Prefix(r, r') && Stands(r', t, RefreshRevoke(Sha256(raw), id))
    ensures var s, s' := End(r), End(r');
            && s'.db == s.db && s'.now == s.now && s'.threads.Keys == s.threads.Keys + {t}
            && forall u | u in s.threads :: s'.threads[u] == s.threads[u]
  {
    hide SignInStep, VerifyStep, ResetStep, LinkStep, AdministerStep, History.Valid, Apply;
    var a := Spawned(r, t, Request.Refresh(raw));
    r' := Advance(a, t, RefreshLookup(Sha256(raw)), c);
    NoWriteNoChange(End(a).db, End(a).now);
  }

  /** From any state of any run, two overlapping refreshes with one usable token can each store a successor to it. */
  lemma {:induction false} OverlappingRefreshes(r: History, raw: string, id: Uid, t: nat, t': nat, c: Choice,
    c': Choice)
    returns (r': History, i: nat, j: nat)
    requires r.Valid() && Usable(End(r).db, End(r).now, Sha256(raw), id)
    requires t != t' && t !in End(r).threads && t' !in End(r).threads
    requires c.refresh != c'.refresh && Sha256(c.refresh) !in End(r).db.refreshTokens
    requires Sha256(c'.refresh) !in End(r).db.refreshTokens
    ensures r'.Valid() && Prefix(r, r') && |r.steps| <= i < j
    ensures Mints(r', i, Sha256(c.refresh), Some(Sha256(raw))) && Mints(r', j, Sha256(c'.refresh), Some(Sha256(raw)))
  {
    hide Step, Apply, Begin, History.Valid, Mints;
    var a := LookUp(r, t, raw, id, c);
    var b := LookUp(a, t', raw, id, c');
    var d, i' := RotateRest(b, t, Sha256(raw), id, c);
    var e, j' := RotateRest(d, t', Sha256(raw), id, c');
    r', i, j := e, i', j';
    MintsStay(d, e, i, Sha256(c.refresh), Some(Sha256(raw)));
    MintsWithin(d, i, Sha256(c.refresh), Some(Sha256(raw)));
  }

  lemma MintsWithin(r: History, i: nat, h: Digest, p: Option<Digest>)
    requires Mints(r, i, h, p)
    ensures i < |r.steps|
  {
    hide Step, Apply;
  }

  /** Longer strings than any token handed out. */
  lemma Unissued(tokens: map<Digest, RefreshRow>) returns (n: nat)
    ensures forall raw | n <= |raw| :: Sha256(raw) !in tokens
  {
    var lengths := set h | h in tokens :: |h.raw|;
    n := Above(lengths);
    forall h | h in tokens ensures |h.raw| < n {
      assert |h.raw| in lengths;
    }
  }

  function Draw(n: nat): Choice { Choice(0, 0, seq(n, i => 'a'), "", [], false) }

  /** Step `i` or a later one stores a successor to `h`. */
  ghost predicate Succeeds(r: History, n: nat, i: nat, h: Digest) {
    n <= i && r.Acts(i) && r.Wrote(i).InsertRefresh? && Mints(r, i, r.Wrote(i).hash, Some(h))
  }

  ghost predicate TwoSuccessors(r: History, n: nat, h: Digest) {
    exists i: nat, j: nat :: i < j && Succeeds(r, n, i, h) && Succeeds(r, n, j, h)
  }

  /**
   * Whatever ran before: when no request is under way, a stored token can yet get two successors exactly if
   * it is usable.
   */
  lemma {:induction false} TwiceExactlyIfUsable(r: History, h: Digest)
    requires r.Valid() && Quiet(End(r)) && h in End(r).db.refreshTokens
    ensures Usable(End(r).db, End(r).now, h, End(r).db.refreshTokens[h].user) <==>
            exists r': History :: r'.Valid() && Prefix(r, r') && TwoSuccessors(r', |r.steps|, h)
  {
    hide Step, Apply, Begin, History.Valid, Mints, Usable, TwoSuccessors, Quiet, Enabled;
    if Usable(End(r).db, End(r).now, h, End(r).db.refreshTokens[h].user) {
      var r' := RefreshTwice(r, h);
    } else if r': History :| r'.Valid() && Prefix(r, r') && TwoSuccessors(r', |r.steps|, h) {
      NotTwice(r, r', h);
    }
  }

  lemma RefreshTwice(r: History, h: Digest) returns (r': History)
    requires r.Valid() && h in End(r).db.refreshTokens
    requires Usable(End(r).db, End(r).now, h, End(r).db.refreshTokens[h].user)
    ensures r'.Valid() && Prefix(r, r') && TwoSuccessors(r', |r.steps|, h)
  {
    hide Step, Apply, Begin, History.Valid, Usable, Enabled;
    var t := Above(End(r).threads.Keys);
    var n := Unissued(End(r).db.refreshTokens);
    var i, j;
    r', i, j := OverlappingRefreshes(r, h.raw, End(r).db.refreshTokens[h].user, t, t + 1, Draw(n), Draw(n + 1));
    assert Succeeds(r', |r.steps|, i, h) && Succeeds(r', |r.steps|, j, h);
  }

  lemma NotTwice(r: History, r': History, h: Digest)
    requires r.Valid() && Quiet(End(r)) && h in End(r).db.refreshTokens
    requires !Usable(End(r).db, End(r).now, h, End(r).db.refreshTokens[h].user)
    requires r'.Valid() && Prefix(r, r')
    ensures !TwoSuccessors(r', |r.steps|, h)
  {
    hide Step, Apply, Begin, History.Valid, Quiet, Mints, Enabled;
    var m := |r.steps|;
    SamePast(r, r', m);
    forall i: nat ensures !Succeeds(r', m, i, h) {
      if m <= i && r'.Acts(i) && r'.Wrote(i).InsertRefresh? {
        DeadIsBarren(r', m, i, r'.Wrote(i).hash, h);
      }
    }
  }

  // ---- resets ------------------------------------------------------------------------------------

  /** `r'` goes on from `r` with thread `t`'s statement. */
  ghost predicate Resumes(r: History, r': History, t: nat) {
    r'.Valid() && Prefix(r, r') && |r.steps| < |r'.steps| && r'.steps[|r.steps|].Exec? && r'.steps[|r.steps|].tid == t
  }

  /**
   * A reset of `u` at its last step closes every session of `u` begun before, whatever follows,
   * exactly if no refresh of `u` is past its look-up at that moment.
   */
  lemma {:induction false} ResetClosesExactly(r: History, t: nat, h: Digest, u: Uid)
    requires r.Valid() && Stands(r, t, ResetRevoke(h, u))
    ensures NoneInFlight(End(r), u) <==>
            forall r', l | Resumes(r, r', t) :: !Survives(r', |r.steps|, |r'.steps|, u, l)
  {
    hide Step, Apply, Begin, History.Valid, Survives, NoneInFlight, Enabled;
    if NoneInFlight(End(r), u) {
      forall r', l | Resumes(r, r', t) ensures !Survives(r', |r.steps|, |r'.steps|, u, l) {
        SamePast(r, r', |r.steps|);
        ResetClosesSessions(r', |r.steps|, |r'.steps|, u, l);
      }
    } else {
      var r', l := Outlives(r, t, h, u);
    }
  }

  lemma Outlives(r: History, t: nat, h: Digest, u: Uid) returns (r': History, l: seq<Digest>)
    requires r.Valid() && Stands(r, t, ResetRevoke(h, u)) && !NoneInFlight(End(r), u)
    ensures Resumes(r, r', t) && Survives(r', |r.steps|, |r'.steps|, u, l)
  {
    hide Step, Apply, Begin, History.Valid, Survives, Enabled, ThreadSound, Mints;
    var t' :| t' in End(r).threads && End(r).threads[t'].Active() && InFlight(End(r).threads[t'].pc, u);
    var k := End(r).threads[t'].pc;
    Reachable(r, |r.steps|);
    var p := ParentInFlight(r, t', u);
    var n := Unissued(End(r).db.refreshTokens);
    var a := CloseReset(r, t, h, u, p, Draw(n));
    var i: nat;
    r', i := Finish(a, t', p, u, Draw(n));
    l := Continued(r, r', i, p, u, Sha256(Draw(n).refresh));
  }

  lemma ParentInFlight(r: History, t: nat, u: Uid) returns (p: Digest)
    requires r.Valid() && t in End(r).threads && InFlight(End(r).threads[t].pc, u)
    ensures SessionOf(End(r).db, p, u) && Holding(End(r).threads[t].pc, p, u)
  {
    hide Step, Apply, Begin, History.Valid, Enabled, Coherent, Sound;
    Reachable(r, |r.steps|);
    var k := End(r).threads[t].pc;
    p := if k.IssueStore? then k.parent.value else k.hash;
  }

  /** A request at `k` is rotating `p` of `u`. */
  predicate Holding(k: Pc, p: Digest, u: Uid) {
    k == RefreshRevoke(p, u) || k == RefreshFind(p, u) || (k.IssueStore? && k.id == u && k.parent == Some(p))
  }

  lemma CloseReset(r: History, t: nat, h: Digest, u: Uid, p: Digest, c: Choice) returns (r': History)
    requires r.Valid() && Stands(r, t, ResetRevoke(h, u)) && SessionOf(End(r).db, p, u)
    ensures r'.Valid() && r' == Extend(r, Exec(t, c)) && SessionOf(End(r').db, p, u)
    ensures End(r').db.refreshTokens.Keys == End(r).db.refreshTokens.Keys
    ensures forall v | v != t && v in End(r).threads :: v in End(r').threads && End(r').threads[v] == End(r).threads[v]
  {
    hide SignInStep, RotateStep, VerifyStep, LinkStep, AdministerStep, History.Valid, Apply, UsersAfter;
    r' := Advance(r, t, ResetRevoke(h, u), c);
    assert r'.Wrote(|r.steps|) == RevokeAllRefresh(u);
  }

  /** Wherever it is past its look-up, a rotation can be finished. */
  lemma Finish(r: History, t: nat, p: Digest, u: Uid, c: Choice) returns (r': History, i: nat)
    requires r.Valid() && t in End(r).threads && End(r).threads[t].Active() && Holding(End(r).threads[t].pc, p, u)
    requires SessionOf(End(r).db, p, u) && Sha256(c.refresh) !in End(r).db.refreshTokens
    ensures r'.Valid() && Prefix(r, r') && |r.steps| <= i < |r'.steps| && Mints(r', i, Sha256(c.refresh), Some(p))
    ensures LiveOwn(End(r').db, Sha256(c.refresh), u)
  {
    hide Step, Apply, Begin, History.Valid, Enabled, Mints, Live, Commit;
    var k := End(r).threads[t].pc;
    if k.RefreshRevoke? {
      r', i := RotateRest(r, t, p, u, c);
    } else if k.RefreshFind? {
      var b, role := FindStep(r, t, p, u, c);
      i := |b.steps|;
      r' := StoreRest(b, t, p, u, role, c);
    } else {
      Reachable(r, |r.steps|);
      OwnerExists(End(r).db, p);
      i := |r.steps|;
      r' := StoreRest(r, t, p, u, k.role, c);
    }
    MintsWithin(r', i, Sha256(c.refresh), Some(p));
  }

  /** The session of `p` goes on with `h`. */
  lemma Continued(r: History, r': History, i: nat, p: Digest, u: Uid, h: Digest) returns (l: seq<Digest>)
    requires r.Valid() && r'.Valid() && Prefix(r, r') && SessionOf(End(r).db, p, u)
    requires i < |r'.steps| && Mints(r', i, h, Some(p)) && LiveOwn(End(r').db, h, u)
    ensures Survives(r', |r.steps|, |r'.steps|, u, l)
  {
    hide Step, Apply, Begin, History.Valid, Enabled, Mints;
    HasLineage(r, |r.steps|, p);
    var front :| Lineage(r, |r.steps|, front) && front[|front| - 1] == p;
    LineageUser(r, |r.steps|, front, 0);
    SamePast(r, r', |r.steps|);
    l := front + [h];
    forall x, q | Born(r, |r.steps|, x, q) ensures Born(r', |r'.steps|, x, q) {
      var m: nat :| m < |r.steps| && Mints(r, m, x, q);
      MintsStay(r, r', m, x, q);
    }
    assert Born(r', |r'.steps|, h, Some(p));
  }

  // ---- callbacks -------------------------------------------------------------------------------

  lemma Miss(r: History, t: nat, p: Profile, c: Choice) returns (r': History)
    requires r.Valid() && t !in End(r).threads && p.Key() !in End(r).db.identities
    ensures r'.Valid() && Prefix(r, r') && r'.steps == r.steps + [Spawn(t, Request.GoogleCallback(p)), Exec(t, c)]
    ensures Stands(r', t, OauthInsert(p))
    ensures var s, s' := End(r), End(r');
            && s'.db == s.db && s'.now == s.now && s'.threads.Keys == s.threads.Keys + {t}
            && forall u | u in s.threads :: s'.threads[u] == s.threads[u]
  {
    hide Step, History.Valid, Apply;
    var a := Spawned(r, t, Request.GoogleCallback(p));
    MissStep(End(a).cfg, End(a).db, End(a).now, p, c);
    r' := Reads(a, t, OauthFind(p), OauthInsert(p), c);
  }

  lemma MissStep(cfg: Config, db: Tables, now: Time, p: Profile, c: Choice)
    requires p.Key() !in db.identities
    ensures Step(cfg, db, now, OauthFind(p), c) == (NoWrite, OauthInsert(p))
  {
  }

  /** A free address, or none, cannot collide. */
  lemma FreeInsert(cfg: Config, db: Tables, now: Time, p: Profile, c: Choice)
    requires Catalogue(db) && !EmailTaken(db, p.email) && c.uid !in db.users
    ensures Fresh(db, OauthInsert(p), c)
    ensures var (w, k') := Step(cfg, db, now, OauthInsert(p), c);
            && w.InsertUser? && w.id == c.uid && w.user.email == p.email && w.user.createdAt == now
            && k' == OauthBind(p, c.uid, User)
  {
    hide Catalogue, RoleIdFor, EmailTaken;
    RoleEncoding(db, User);
  }

  lemma MakeAccount(r: History, t: nat, p: Profile, c: Choice) returns (r': History, row: UserRow)
    requires r.Valid() && Stands(r, t, OauthInsert(p)) && !EmailTaken(End(r).db, p.email) && c.uid !in End(r).db.users
    ensures r'.Valid() && Prefix(r, r') && r' == Extend(r, Exec(t, c)) && Stands(r', t, OauthBind(p, c.uid, User))
    ensures End(r').db == End(r).db.(users := End(r).db.users[c.uid := row]) && row.email == p.email
    ensures row.createdAt == End(r).now
    ensures End(r').now == End(r).now && End(r').threads.Keys == End(r).threads.Keys
    ensures forall u | u != t && u in End(r).threads :: u in End(r').threads && End(r').threads[u] == End(r).threads[u]
  {
    hide Step, History.Valid, Apply, Catalogue, Fresh, EmailTaken;
    Reachable(r, |r.steps|);
    var s := End(r);
    FreeInsert(s.cfg, s.db, s.now, p, c);
    r' := Advance(r, t, OauthInsert(p), c);
    row := r'.Wrote(|r.steps|).user;
  }

  /** Two profiles the table of accounts can tell apart: without an address, or with different ones. */
  predicate Distinct(p: Profile, p': Profile) {
    p.email.Some? && p'.email.Some? ==> Fold(p.email.value) != Fold(p'.email.value)
  }

  lemma StillFree(db: Tables, id: Uid, row: UserRow, p: Profile, p': Profile)
    requires !EmailTaken(db, p'.email) && row.email == p.email && Distinct(p, p')
    ensures !EmailTaken(db.(users := db.users[id := row]), p'.email)
  {
    hide Fold;
  }

  /** Both callbacks look the subject up before either creates an account. */
  function Overlap(p: Profile, p': Profile, t: nat, t': nat, c: Choice, c': Choice): seq<Label> {
    [Spawn(t, Request.GoogleCallback(p)), Exec(t, c), Spawn(t', Request.GoogleCallback(p')), Exec(t', c'),
     Exec(t, c), Exec(t', c')]
  }

  /** Two overlapping callbacks for one unknown subject can each make an account, */
  lemma TwoAccounts(r: History, p: Profile, p': Profile, t: nat, t': nat, c: Choice, c': Choice) returns (r': History)
    requires r.Valid() && Racing(r, p, p', t, t', c, c')
    ensures r'.Valid() && Prefix(r, r')
    ensures r'.steps == r.steps + Overlap(p, p', t, t', c, c')
    ensures Stands(r', t, OauthBind(p, c.uid, User)) && Stands(r', t', OauthBind(p', c'.uid, User))
    ensures c.uid in End(r').db.users && c'.uid in End(r').db.users && t != t'
  {
    hide Step, Apply, Begin, History.Valid, Fresh, End, EmailTaken, Distinct;
    var a := Miss(r, t, p, c);
    var b := Miss(a, t', p', c');
    var d, row := MakeAccount(b, t, p, c);
    StillFree(End(b).db, c.uid, row, p, p');
    var row';
    r', row' := MakeAccount(d, t', p', c');
  }

  /** Two fresh callbacks for one subject nobody is bound to, with addresses nobody has, and not one and the same. */
  ghost predicate Racing(r: History, p: Profile, p': Profile, t: nat, t': nat, c: Choice, c': Choice) {
    && p.Key() == p'.Key() && p.Key() !in End(r).db.identities
    && !EmailTaken(End(r).db, p.email) && !EmailTaken(End(r).db, p'.email) && Distinct(p, p')
    && t != t' && t !in End(r).threads && t' !in End(r).threads
    && c.uid != c'.uid && c.uid !in End(r).db.users && c'.uid !in End(r).db.users
  }

  /**
   * Step `i` binds, or tries to bind, the subject of `p` to account `id`, and the request goes on to sign
   * that account in.
   */
  ghost predicate SignsIn(r: History, i: nat, p: Profile, id: Uid) {
    r.Acts(i) && r.Here(i) == OauthBind(p, id, User) && r.Next(i) == IssueStore(id, User, None)
  }

  /** and each go on to sign in to its own account, though the subject is bound to only one. */
  lemma {:induction false} OverlappingCallbacks(r: History, p: Profile, p': Profile, t: nat, t': nat, c: Choice,
    c': Choice)
    returns (r': History)
    requires r.Valid() && Racing(r, p, p', t, t', c, c')
    ensures r'.Valid() && Prefix(r, r')
    ensures r'.steps == r.steps + Overlap(p, p', t, t', c, c') + [Exec(t, c), Exec(t', c')]
    ensures SignsIn(r', |r.steps| + 6, p, c.uid) && SignsIn(r', |r.steps| + 7, p', c'.uid)
  {
    hide Step, Apply, Begin, History.Valid, Racing, SignsIn, End;
    var e := TwoAccounts(r, p, p', t, t', c, c');
    var f := SignIn(e, t, p, c);
    r' := SignIn(f, t', p', c');
    SignedInStays(f, r', |r.steps| + 6, p, c.uid);
  }

  lemma SignedInStays(r: History, r': History, i: nat, p: Profile, id: Uid)
    requires Prefix(r, r') && SignsIn(r, i, p, id)
    ensures SignsIn(r', i, p, id)
  {
    hide Apply, Step;
    SamePast(r, r', i);
  }

  lemma SignIn(r: History, t: nat, p: Profile, c: Choice) returns (r': History)
    requires r.Valid() && Stands(r, t, OauthBind(p, c.uid, User)) && c.uid in End(r).db.users
    ensures r'.Valid() && Prefix(r, r') && r' == Extend(r, Exec(t, c)) && SignsIn(r', |r.steps|, p, c.uid)
    ensures End(r').db.users == End(r).db.users
    ensures forall u | u != t && u in End(r).threads :: u in End(r').threads && End(r').threads[u] == End(r).threads[u]
  {
    hide SignInStep, RotateStep, VerifyStep, ResetStep, AdministerStep, History.Valid, Apply;
    r' := Advance(r, t, OauthBind(p, c.uid, User), c);
  }

  // ---- exactly which profiles are safe -----------------------------------------------------------

  /** All the profiles have an address, and it is one, whatever its case. */
  predicate OneAddress(profiles: set<Profile>) {
    forall p, p' | p in profiles && p' in profiles :: !Distinct(p, p')
  }

  ghost predicate CallbacksFrom(r: History, key: (string, string), profiles: set<Profile>) {
    forall y {:trigger r.steps[y]} | 0 <= y < |r.steps| && r.steps[y].Spawn? && Calls(r.steps[y].req, key) ::
      r.steps[y].req.profile in profiles
  }

  ghost predicate Binds(r: History, i: nat, key: (string, string)) {
    r.Acts(i) && r.Here(i).OauthBind? && Calling(r.Here(i), key)
  }

  /** All callbacks for the subject sign in one account. */
  ghost predicate OneAccount(r: History, key: (string, string)) {
    forall i: nat, i': nat | Binds(r, i, key) && Binds(r, i', key) :: r.Here(i).id == r.Here(i').id
  }

  lemma OneAddressIsSafe(r: History, key: (string, string), profiles: set<Profile>, i: nat, i': nat)
    requires OneAddress(profiles) && r.Valid() && CallbacksFrom(r, key, profiles) && Binds(r, i, key)
    requires Binds(r, i', key)
    ensures r.Here(i).id == r.Here(i').id
  {
    hide Apply, Step, Fold, History.Valid;
    var x := CalledAt(r, i, i, r.steps[i].tid, key);
    var p := r.Here(i).profile;
    assert p in profiles && !Distinct(p, p);
    forall m: nat | r.Acts(m) && r.Here(m).OauthInsert? && Calling(r.Here(m), key)
      ensures Carries(r.Here(m).profile, p.email.value)
    {
      var y := CalledAt(r, m, m, r.steps[m].tid, key);
      assert r.Here(m).profile in profiles && !Distinct(r.Here(m).profile, p);
    }
    OneAddressOneAccount(r, i, i', key, p.email.value);
  }

  /** From the migrated database. */
  lemma TwoAddressesAreNot(key: (string, string), p: Profile, p': Profile) returns (r: History)
    requires Distinct(p, p') && p.Key() == p'.Key() == key
    ensures r.Valid() && CallbacksFrom(r, key, {p, p'}) && !OneAccount(r, key)
  {
    hide Apply, Step, Fold, Begin, Distinct, Commit;
    var start := History(System(Config(0, 0), 0, Seed(), map[]), []);
    var c := Choice(0, 0, "", "", [], false);
    r := OverlappingCallbacks(start, p, p', 0, 1, c, c.(uid := 1));
    assert Binds(r, 6, key) && Binds(r, 7, key);
  }

  /**
   * Callbacks for a subject sign in one account in every interleaving exactly if the profiles they
   * bring all carry one address.
   */
  lemma {:induction false} SubjectIsSafe(key: (string, string), profiles: set<Profile>)
    requires forall p | p in profiles :: p.Key() == key
    ensures OneAddress(profiles) <==>
            forall r: History | r.Valid() && CallbacksFrom(r, key, profiles) :: OneAccount(r, key)
  {
    hide History.Valid, CallbacksFrom, Apply, Step, Distinct;
    if OneAddress(profiles) {
      forall r: History, i: nat, i': nat | r.Valid() && CallbacksFrom(r, key, profiles) && Binds(r, i, key)
        && Binds(r, i', key)
        ensures r.Here(i).id == r.Here(i').id
      {
        OneAddressIsSafe(r, key, profiles, i, i');
      }
    } else {
      var p, p' :| p in profiles && p' in profiles && Distinct(p, p');
      var r := TwoAddressesAreNot(key, p, p');
      FewerCallbacks(r, key, {p, p'}, profiles);
    }
  }

  lemma FewerCallbacks(r: History, key: (string, string), few: set<Profile>, many: set<Profile>)
    requires CallbacksFrom(r, key, few) && few <= many
    ensures CallbacksFrom(r, key, many)
  {
  }
}
