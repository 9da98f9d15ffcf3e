/** A request served alone, from its first statement to its result, and why that is a run like any other. */
module Solo {
  import opened Schema
  import opened Queries
  import opened Handlers
  import opened Runs
  import opened Origins
  import opened Serial

  /** How many statements are left at most; no handler has more than four. */
  function Rank(k: Pc): (n: nat)
    ensures n <= 4 && (n == 0 <==> k.Done?)
  {
    if k.Done? then 0
    else if k.RegisterInsert? || k.RefreshLookup? || k.OauthFind? then 4
    else if k.RegisterStore? || k.RefreshRevoke? || k.OauthInsert? || k.ResetConsume? || k.AdminGate? then 3
    else if k.RegisterFind? || k.RefreshFind? || k.OauthBind? || k.ResetUpdate? || k.AdminCheck?
            || k.LoginFind? || k.VerifyConsume? || k.ResendFind? || k.ForgotFind? then 2
    else 1
  }

  lemma Descends(cfg: Config, db: Tables, now: Time, k: Pc, c: Choice)
    requires !k.Done?
    ensures Rank(Step(cfg, db, now, k, c).1) < Rank(k)
  {
    hide Step, PermissionsFor, PermissionName, Fold, Accepts, Session, Issue, Usable, HasEmail, IssuedBy;
    Origin(cfg, db, now, k, c);
  }

  /** The tables and the result when a request at `k` runs to its end with nobody else about. */
  ghost function Alone(cfg: Config, db: Tables, now: Time, k: Pc, c: Choice): (Tables, Outcome)
    decreases Rank(k)
  {
    if k.Done? then (db, k.outcome)
    else
      Descends(cfg, db, now, k, c);
      var (w, k') := Step(cfg, db, now, k, c);
      Alone(cfg, Commit(db, now, w), now, k', c)
  }

  predicate MayOpenSession(k: Pc) {
    || k.RegisterInsert? || k.RegisterStore? || k.LoginFind? || k.IssueStore?
    || k.RefreshLookup? || k.RefreshRevoke? || k.RefreshFind? || k.OauthFind? || k.OauthInsert? || k.OauthBind?
  }

  predicate MayMail(k: Pc) {
    k.RegisterInsert? || k.RegisterStore? || k.RegisterFind? || k.RegisterMail? || k.ResendFind? || k.ResendStore?
  }

  predicate MayCreate(k: Pc) { k.RegisterInsert? || k.OauthFind? || k.OauthInsert? || k.AdminInsert? }

  predicate MayReset(k: Pc) { k.ForgotFind? || k.ForgotStore? }

  predicate MayList(k: Pc) { (k.AdminGate? || k.AdminCheck? || k.AdminAct?) && k.action.ListUsers? }

  /** The random values of `c` are unused where a request at `k` may still come to need them. */
  ghost predicate Unused(db: Tables, k: Pc, c: Choice) {
    && (MayCreate(k) ==> c.uid !in db.users)
    && (MayOpenSession(k) ==> Sha256(c.refresh) !in db.refreshTokens)
    && (MayMail(k) ==> Sha256(c.mail) !in db.verificationTokens)
    && (MayReset(k) ==> Sha256(c.mail) !in db.resetTokens)
    && (MayList(k) ==> Listing(db, c.order))
  }

  lemma UnusedIsFresh(db: Tables, k: Pc, c: Choice)
    requires Unused(db, k, c)
    ensures Fresh(db, k, c)
  {
    hide Listing;
  }

  /** What a step leaves ahead of it, it left ahead before, and has not used up. */
  lemma SparesInserts(cfg: Config, db: Tables, now: Time, k: Pc, c: Choice)
    requires !k.Done?
    ensures var (w, k') := Step(cfg, db, now, k, c);
            && (MayCreate(k') ==> MayCreate(k) && w == NoWrite)
            && (MayReset(k') ==> MayReset(k) && w == NoWrite)
            && (MayList(k') ==> MayList(k) && w == NoWrite)
  {
    hide Step, PermissionsFor, PermissionName, Fold, RoleIdFor, PermissionIdFor, FindByEmail, Consumable, Usable;
    hide Session, FindByOauth, Issue, HasEmail;
    Origin(cfg, db, now, k, c);
  }

  lemma SparesTokens(cfg: Config, db: Tables, now: Time, k: Pc, c: Choice)
    requires !k.Done?
    ensures var (w, k') := Step(cfg, db, now, k, c);
            && (MayOpenSession(k') ==> MayOpenSession(k) && !w.InsertRefresh?)
            && (MayMail(k') ==> MayMail(k) && !w.InsertVerification?)
  {
    hide Step, PermissionsFor, PermissionName, Fold, RoleIdFor, PermissionIdFor, FindByEmail, Consumable, Usable;
    hide Session, FindByOauth, Issue, HasEmail;
    Origin(cfg, db, now, k, c);
  }

  lemma NoWriteNoChange(db: Tables, now: Time)
    ensures Commit(db, now, NoWrite) == db
  {
  }

  lemma NoInsert(db: Tables, now: Time, w: Write, h: Digest)
    ensures !w.InsertRefresh? && h !in db.refreshTokens ==> h !in Commit(db, now, w).refreshTokens
    ensures !w.InsertVerification? && h !in db.verificationTokens ==> h !in Commit(db, now, w).verificationTokens
  {
  }

  lemma {:induction false} UnusedAfter(cfg: Config, db: Tables, now: Time, k: Pc, c: Choice)
    requires Unused(db, k, c) && !k.Done?
    ensures var (w, k') := Step(cfg, db, now, k, c); Unused(Commit(db, now, w), k', c)
  {
    hide Step, Commit, Listing, MayCreate, MayOpenSession, MayMail, MayReset, MayList;
    SparesInserts(cfg, db, now, k, c);
    SparesTokens(cfg, db, now, k, c);
    NoWriteNoChange(db, now);
    NoInsert(db, now, Step(cfg, db, now, k, c).0, Sha256(c.refresh));
    NoInsert(db, now, Step(cfg, db, now, k, c).0, Sha256(c.mail));
  }

  // ---- extending a run -----------------------------------------------------------------------

  function Extend(r: History, l: Label): History { History(r.start, r.steps + [l]) }

  lemma {:induction false} SamePast(r: History, r': History, i: nat)
    requires r'.start == r.start && i <= |r.steps| && i <= |r'.steps|
    requires forall j | 0 <= j < i :: r'.steps[j] == r.steps[j]
    ensures r'.At(i) == r.At(i)
  {
    hide Apply;
    if i > 0 {
      SamePast(r, r', i - 1);
    }
  }

  ghost function End(r: History): System { r.At(|r.steps|) }

  lemma Extended(r: History, l: Label)
    requires r.Valid() && Enabled(End(r), l)
    ensures Extend(r, l).Valid() && End(Extend(r, l)) == Apply(End(r), l)
  {
    hide Apply, Enabled, Seed;
    var r', n := Extend(r, l), |r.steps|;
    SamePast(r, r', n);
    forall i {:trigger r'.Legal(i)} | 0 <= i < n + 1 ensures r'.Legal(i) {
      SamePast(r, r', i);
      assert i < n ==> r.Legal(i);
    }
  }

  /** `r'` is `r` with steps of thread `t` alone added at the end. */
  predicate Continues(r: History, r': History, t: nat) {
    && r'.start == r.start && |r.steps| <= |r'.steps| && r'.steps[..|r.steps|] == r.steps
    && forall i | |r.steps| <= i < |r'.steps| :: (r'.steps[i].Spawn? || r'.steps[i].Exec?) && r'.steps[i].tid == t
  }

  lemma {:induction false} FinishAlone(r: History, t: nat, c: Choice) returns (r': History)
    requires r.Valid() && t in End(r).threads && End(r).threads[t].Running?
    requires Unused(End(r).db, End(r).threads[t].pc, c)
    ensures r'.Valid() && Continues(r, r', t)
    ensures var s, s' := End(r), End(r'); var (db, out) := Alone(s.cfg, s.db, s.now, s.threads[t].pc, c);
            s'.db == db && s'.threads == s.threads[t := Running(Done(out))] && s'.now == s.now && s'.cfg == s.cfg
    decreases Rank(End(r).threads[t].pc)
  {
    hide Step, Commit, Unused, Fresh, Rank, Listing, Begin, History.Valid;
    var s := End(r);
    var k := s.threads[t].pc;
    if k.Done? {
      r' := r;
      assert s.threads[t := Running(k)] == s.threads;
    } else {
      UnusedIsFresh(s.db, k, c);
      Extended(r, Exec(t, c));
      Descends(s.cfg, s.db, s.now, k, c);
      UnusedAfter(s.cfg, s.db, s.now, k, c);
      r' := FinishAlone(Extend(r, Exec(t, c)), t, c);
    }
  }

  /** Serving a request alone extends any run by a run; and from a quiet moment it keeps a one-at-a-time run one. */
  lemma {:induction false} ServeAlone(r: History, t: nat, req: Request, c: Choice) returns (r': History)
    requires r.Valid() && t !in End(r).threads && Presentable(End(r), req)
    requires Unused(End(r).db, Begin(req, End(r).now), c)
    ensures r'.Valid() && Continues(r, r', t) && |r.steps| < |r'.steps| && r'.steps[|r.steps|] == Spawn(t, req)
    ensures var s, s' := End(r), End(r'); var (db, out) := Alone(s.cfg, s.db, s.now, Begin(req, s.now), c);
            s'.db == db && s'.threads == s.threads[t := Running(Done(out))] && s'.now == s.now && s'.cfg == s.cfg
    ensures OneAtATime(r) && Quiet(End(r)) ==> OneAtATime(r') && Quiet(End(r'))
    ensures SteadyClock(r) ==> SteadyClock(r')
  {
    hide Step, Commit, Unused, Fresh, Begin, Presentable, Alone, History.Valid, Quiet, OneAtATime, SteadyClock;
    var spawned := Extend(r, Spawn(t, req));
    Extended(r, Spawn(t, req));
    r' := FinishAlone(spawned, t, c);
    if SteadyClock(r) {
      StillSteady(r, r', t);
    }
    if OneAtATime(r) && Quiet(End(r)) {
      StillOneAtATime(r, spawned, r', t);
      StillQuiet(End(r), End(r'), t);
    }
  }

  lemma StillQuiet(s: System, s': System, t: nat)
    requires Quiet(s) && t in s'.threads && s'.threads == s.threads[t := s'.threads[t]] && s'.threads[t].pc.Done?
    ensures Quiet(s')
  {
  }

  lemma StillOneAtATime(r: History, spawned: History, r': History, t: nat)
    requires OneAtATime(r) && Quiet(End(r)) && r'.Valid() && Continues(spawned, r', t)
    requires spawned.start == r.start && |spawned.steps| == |r.steps| + 1 && spawned.steps[..|r.steps|] == r.steps
    requires t in End(spawned).threads
    ensures OneAtATime(r')
  {
    hide Apply, Enabled, Quiet;
    var n := |r.steps|;
    SamePast(spawned, r', n + 1);
    SamePast(r, r', n);
    forall i {:trigger r'.steps[i]} | 0 <= i < |r'.steps| && r'.steps[i].Spawn? ensures Quiet(r'.At(i)) {
      if i < n {
        SamePast(r, r', i);
      } else if i > n {
        Respawned(r', n + 1, i, t);
      }
    }
  }

  lemma {:induction false} StillSteady(r: History, r': History, t: nat)
    requires SteadyClock(r) && Continues(r, r', t)
    ensures SteadyClock(r')
  {
    hide Apply, Quiet;
    forall i {:trigger r'.steps[i]} | 0 <= i < |r'.steps| && r'.steps[i].Tick? ensures Quiet(r'.At(i)) {
      assert i < |r.steps| ==> r'.steps[..|r.steps|][i] == r.steps[i];
      SamePast(r, r', i);
    }
  }

  lemma Respawned(r: History, n: nat, i: nat, t: nat)
    requires r.Valid() && n <= i < |r.steps| && t in r.At(n).threads
    ensures !(r.steps[i].Spawn? && r.steps[i].tid == t)
  {
    hide Apply, Fresh, Presentable;
    Stopped(r, n, i, t);
    assert r.Legal(i);
  }
}
