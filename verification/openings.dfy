/**
 * By what a session was opened. A password reset closes the sessions stored before it; a login that has
 * checked the old password may still store one after.
 */
module Openings {
  import opened Basics
  import opened Schema
  import opened Queries
  import opened Handlers
  import opened Runs
  import opened Growth
  import opened Locals
  import opened Origins
  import opened Integrity
  import opened Rotation
  import opened Serial
  import opened Solo
  import opened Tokens
  import opened Accounts
  import opened Sessions
  import opened Races

  /** Step `s` stores the first token of a session of `u`. */
  ghost predicate Starts(r: History, s: nat, u: Uid) {
    r.Acts(s) && r.Wrote(s).InsertRefresh? && r.Wrote(s).refresh.user == u && Parent(r.Here(s)).None?
  }

  /** Step `c` is a login that presents the password `u` has at that moment. */
  ghost predicate PasswordChecked(r: History, c: nat, u: Uid) {
    r.Acts(c) && r.Here(c).LoginFind? && Accepts(r.At(c).db, r.Here(c), u)
  }

  /** About to store the first token of a session of `u`, with nothing more to check. */
  predicate Opening(k: Pc, u: Uid) { (k.RegisterStore? && k.id == u) || (k.IssueStore? && k.id == u && k.parent.None?) }

  ghost predicate NoneOpening(s: System, u: Uid) {
    forall t | t in s.threads && s.threads[t].Active() :: !Opening(s.threads[t].pc, u)
  }

  lemma StartsFrom(r: History, s: nat, u: Uid)
    requires r.Valid() && Starts(r, s, u)
    ensures Opening(r.Here(s), u)
  {
    hide Apply, Step, Commit, CameBy, ThreadSound, Warranted, Inv;
    Issued(r, s);
  }

  /** What opens a session, just before it is stored: a password, the creation of the account, or a bind of it. */
  ghost predicate OpenedBy(r: History, c: nat, u: Uid) {
    PasswordChecked(r, c, u) || Creates(r, c, u) || (r.Acts(c) && r.Here(c).OauthBind? && r.Here(c).id == u)
  }

  lemma {:induction false} Opener(r: History, s: nat, u: Uid) returns (c: nat)
    requires r.Valid() && Starts(r, s, u)
    ensures c < s && r.Acts(c) && r.steps[c].tid == r.steps[s].tid && r.Next(c) == r.Here(s) && OpenedBy(r, c, u)
    ensures r.Here(s).RegisterStore? ==> Creates(r, c, u) && r.Here(c).RegisterInsert?
    ensures forall m | c < m < s :: !r.Moves(m, r.steps[s].tid)
  {
    hide Apply, Enabled, Step, Begin, Commit, Warranted, ThreadSound, Inv, Accepts;
    StartsFrom(r, s, u);
    c := Came(r, s, r.steps[s].tid);
  }

  /** Between its opener and its store a thread is about to open a session. */
  lemma {:induction false} OpeningBetween(r: History, c: nat, i: nat, s: nat, u: Uid)
    requires r.Valid() && Starts(r, s, u) && c < i < s && r.Acts(c) && r.steps[c].tid == r.steps[s].tid
    requires r.Next(c) == r.Here(s) && forall m | c < m < s :: !r.Moves(m, r.steps[s].tid)
    ensures !NoneOpening(r.At(i), u)
  {
    hide Apply, Enabled, Step, Begin, Commit, Opening, Presentable;
    var t := r.steps[s].tid;
    StartsFrom(r, s, u);
    Effect(r, c);
    Unmoved(r, c + 1, i, t);
    Alive(r, i, s, t);
  }

  /** An account that a reset is about to change has a password, so no callback made it and none signs in to it. */
  lemma {:induction false} ResetIsNotOauth(r: History, i: nat, c: nat, u: Uid)
    requires r.Valid() && r.Acts(i) && r.Here(i).ResetUpdate? && r.Here(i).id == u
    ensures !(r.Acts(c) && r.Here(c).OauthBind? && r.Here(c).id == u)
  {
    hide Apply, Enabled, Step, Begin, Commit, Warranted, IssuedBy, CameBy;
    Issued(r, i);
    HasOne(r.At(i).db, r.Here(i).hash, u);
    if r.Acts(c) && r.Here(c).OauthBind? && r.Here(c).id == u {
      var j := BinderMade(r, c);
      var n := if i < c then c else i;
      SamePresence(r, i, n, u);
      OauthOnly(r, n, j, u);
    }
  }

  lemma HasOne(db: Tables, h: Digest, u: Uid)
    requires Sound(db) && UsedBy(db.resetTokens, h, u)
    ensures HasPassword(db, u)
  {
    hide Constraints;
  }

  lemma {:induction false} SamePresence(r: History, i: nat, n: nat, u: Uid)
    requires r.Valid() && i <= n <= |r.steps| && HasPassword(r.At(i).db, u)
    ensures HasPassword(r.At(n).db, u)
  {
    hide Apply, Enabled, IdentitiesGrow, RefreshGrow, TokensGrow;
    Persist(r, i, n);
  }

  /** A login after step `i` presented the password in force then and goes on to store at step `s`. */
  ghost predicate CheckedSince(r: History, i: nat, s: nat, u: Uid) {
    exists c: nat :: i < c < s && r.Acts(s) && PasswordChecked(r, c, u) && r.steps[c].tid == r.steps[s].tid
  }

  /**
   * If nobody is about to open a session of `u` when a reset changes its password, each later one is opened
   * by a later check.
   */
  lemma {:induction false} OpenedSince(r: History, i: nat, s: nat, u: Uid)
    requires r.Valid() && r.Acts(i) && r.Here(i).ResetUpdate? && r.Here(i).id == u && NoneOpening(r.At(i), u)
    requires i < s && Starts(r, s, u)
    ensures CheckedSince(r, i, s, u)
  {
    hide Apply, Enabled, Step, Begin, Commit, NoneOpening, PasswordChecked;
    var c := Opener(r, s, u);
    if c < i {
      OpeningBetween(r, c, i, s, u);
    }
    ResetIsNotOauth(r, i, c, u);
    NotCreatedAfter(r, i, c, u);
    Elsewhere(r, i, c, u);
  }

  lemma Elsewhere(r: History, i: nat, c: nat, u: Uid)
    requires r.Acts(i) && r.Here(i).ResetUpdate? && OpenedBy(r, c, u) && !Creates(r, c, u)
    ensures c != i
  {
    hide Apply, Step;
  }

  lemma {:induction false} NotCreatedAfter(r: History, i: nat, c: nat, u: Uid)
    requires r.Valid() && r.Acts(i) && r.Here(i).ResetUpdate? && r.Here(i).id == u && i <= c
    ensures !Creates(r, c, u)
  {
    hide Apply, Enabled, Step, Begin, Commit, IssuedBy, CameBy;
    Issued(r, i);
    HasOne(r.At(i).db, r.Here(i).hash, u);
    if Creates(r, c, u) {
      SamePresence(r, i, c, u);
      Issued(r, c);
    }
  }

  /** Step `v` closes the reset whose password step was the first after `r`. */
  ghost predicate Completes(r: History, r': History, t: nat, h: Digest, u: Uid, v: nat) {
    Resumes(r, r', t) && |r.steps| < v && r'.Ran(v, t, ResetRevoke(h, u))
  }

  /**
   * A reset about to change the password of `u`: every session begun after it closes was opened by a
   * check made after the change, whatever runs, exactly if nobody is about to open one at that moment.
   */
  lemma {:induction false} OldPasswordsExactly(r: History, t: nat, h: Digest, u: Uid, password: string)
    requires r.Valid() && Stands(r, t, ResetUpdate(h, u, password))
    ensures NoneOpening(End(r), u) <==>
            forall r', v: nat, s: nat | Completes(r, r', t, h, u, v) && v < s && Starts(r', s, u) ::
              CheckedSince(r', |r.steps|, s, u)
  {
    hide Step, Apply, Begin, History.Valid, NoneOpening, Starts, CheckedSince, Enabled;
    if NoneOpening(End(r), u) {
      forall r', v: nat, s: nat | Completes(r, r', t, h, u, v) && v < s && Starts(r', s, u)
        ensures CheckedSince(r', |r.steps|, s, u)
      {
        ResumesThere(r, r', t, ResetUpdate(h, u, password));
        OpenedSince(r', |r.steps|, s, u);
      }
    } else {
      var r', v, s := OpensLate(r, t, h, u, password);
    }
  }

  lemma ResumesThere(r: History, r': History, t: nat, k: Pc)
    requires r.Valid() && Stands(r, t, k) && Resumes(r, r', t)
    ensures r'.At(|r.steps|) == End(r) && r'.Acts(|r.steps|) && r'.Here(|r.steps|) == k
  {
    hide Apply, History.Valid;
    SamePast(r, r', |r.steps|);
  }

  lemma OpensLate(r: History, t: nat, h: Digest, u: Uid, password: string) returns (r': History, v: nat, s: nat)
    requires r.Valid() && Stands(r, t, ResetUpdate(h, u, password)) && !NoneOpening(End(r), u)
    ensures Completes(r, r', t, h, u, v) && v < s && Starts(r', s, u) && !CheckedSince(r', |r.steps|, s, u)
  {
    hide Step, Apply, Begin, History.Valid, Enabled, Starts, CheckedSince;
    var t' :| t' in End(r).threads && End(r).threads[t'].Active() && Opening(End(r).threads[t'].pc, u);
    var n := Unissued(End(r).db.refreshTokens);
    var a := ResetPassword(r, t, h, u, password, Draw(n));
    var b := RevokeSessions(a, t, h, u, Draw(n));
    r' := Open(b, t', End(r).threads[t'].pc, u, Draw(n));
    v, s := |a.steps|, |b.steps|;
    SamePast(b, r', v);
    NothingBetween(r', v, t, t', u);
  }

  lemma NothingBetween(r: History, v: nat, t: nat, t': nat, u: Uid)
    requires v > 0 && v + 1 < |r.steps| && r.steps[v].Exec? && r.steps[v].tid == t && t != t'
    requires r.steps[v + 1].Exec? && r.steps[v + 1].tid == t'
    ensures !CheckedSince(r, v - 1, v + 1, u)
  {
    hide Apply, PasswordChecked;
  }

  lemma ResetPassword(r: History, t: nat, h: Digest, u: Uid, password: string, c: Choice) returns (r': History)
    requires r.Valid() && Stands(r, t, ResetUpdate(h, u, password))
    ensures r'.Valid() && r' == Extend(r, Exec(t, c)) && Stands(r', t, ResetRevoke(h, u))
    ensures End(r').db.refreshTokens == End(r).db.refreshTokens
    ensures forall v | v != t && v in End(r).threads :: v in End(r').threads && End(r').threads[v] == End(r).threads[v]
  {
    hide SignInStep, RotateStep, VerifyStep, LinkStep, AdministerStep, History.Valid, Apply, UsersAfter;
    r' := Advance(r, t, ResetUpdate(h, u, password), c);
  }

  lemma RevokeSessions(r: History, t: nat, h: Digest, u: Uid, c: Choice) returns (r': History)
    requires r.Valid() && Stands(r, t, ResetRevoke(h, u))
    ensures r'.Valid() && r' == Extend(r, Exec(t, c)) && r'.Ran(|r.steps|, t, ResetRevoke(h, u))
    ensures End(r').db.refreshTokens.Keys == End(r).db.refreshTokens.Keys
    ensures forall v | v != t && v in End(r).threads :: v in End(r').threads && End(r').threads[v] == End(r).threads[v]
  {
    hide SignInStep, RotateStep, VerifyStep, LinkStep, AdministerStep, History.Valid, Apply, UsersAfter;
    r' := Advance(r, t, ResetRevoke(h, u), c);
    assert r'.Wrote(|r.steps|) == RevokeAllRefresh(u);
  }

  lemma Open(r: History, t: nat, k: Pc, u: Uid, c: Choice) returns (r': History)
    requires r.Valid() && Stands(r, t, k) && Opening(k, u) && Sha256(c.refresh) !in End(r).db.refreshTokens
    ensures r'.Valid() && r' == Extend(r, Exec(t, c)) && Starts(r', |r.steps|, u)
  {
    hide Step, History.Valid, Apply, Commit, Fresh, Inv;
    assert u in End(r).db.users by { Owner(r, t, u); }
    OpenStep(End(r).cfg, End(r).db, End(r).now, k, u, c);
    r' := Advance(r, t, k, c);
  }

  lemma Owner(r: History, t: nat, u: Uid)
    requires r.Valid() && t in End(r).threads && Opening(End(r).threads[t].pc, u)
    ensures u in End(r).db.users
  {
    hide Apply, History.Valid, Coherent, Sound;
    Reachable(r, |r.steps|);
  }

  lemma OpenStep(cfg: Config, db: Tables, now: Time, k: Pc, u: Uid, c: Choice)
    requires Opening(k, u) && Sha256(c.refresh) !in db.refreshTokens && u in db.users
    ensures Fresh(db, k, c) && Step(cfg, db, now, k, c).0 == InsertRefresh(Sha256(c.refresh), Session(cfg, now, u))
  {
  }

  /** A reset of `u`: step `i` changes the password and step `v`, of the same thread, closes the sessions. */
  ghost predicate Resets(r: History, i: nat, v: nat, u: Uid) {
    && i < v && r.Acts(i) && r.Here(i).ResetUpdate? && r.Here(i).id == u && Closes(r, v, u)
    && r.steps[i].tid == r.steps[v].tid
  }

  /**
   * With nobody about to open a session at the change and no refresh past its look-up at the close,
   * every token live afterwards goes back to a password checked after the change.
   */
  lemma {:induction false} LiveMeansNewPassword(r: History, i: nat, v: nat, n: nat, u: Uid, l: seq<Digest>)
    returns (s: nat)
    requires r.Valid() && Resets(r, i, v, u) && v < n <= |r.steps|
    requires NoneOpening(r.At(i), u) && NoneInFlight(r.At(v), u)
    requires Lineage(r, n, l) && SessionOf(r.At(n).db, l[|l| - 1], u) && Live(r.At(n).db, l[|l| - 1])
    ensures v < s < n && Mints(r, s, l[0], None) && CheckedSince(r, i, s, u)
  {
    hide Apply, Enabled, Step, Begin, Commit, NoneOpening, NoneInFlight, CheckedSince;
    ResetClosesSessions(r, v, n, u, l);
    LineageUser(r, n, l, |l| - 1);
    s :| 0 <= s < n && Mints(r, s, l[0], None);
    Stored(r, s, l[0], None);
    StoredFor(r, s, n, l[0], u);
    if s < v {
      Persist(r, s + 1, v);
    }
    OpenedSince(r, i, s, u);
  }

  lemma {:induction false} StoredFor(r: History, s: nat, n: nat, h: Digest, u: Uid)
    requires r.Valid() && s < n <= |r.steps| && Mints(r, s, h, None) && SessionOf(r.At(n).db, h, u)
    ensures Starts(r, s, u) && !r.Here(s).ResetRevoke?
  {
    hide Apply, Enabled, Step, Begin, Commit, UsersGrow, IdentitiesGrow, TokensGrow;
    Issued(r, s);
    NewRefresh(r.At(s).db, r.At(s).now, r.Wrote(s), h);
    Persist(r, s + 1, n);
  }

  lemma NewRefresh(db: Tables, now: Time, w: Write, h: Digest)
    requires w.InsertRefresh? && w.hash == h
    ensures h in Commit(db, now, w).refreshTokens && Commit(db, now, w).refreshTokens[h] == w.refresh
  {
  }
}
