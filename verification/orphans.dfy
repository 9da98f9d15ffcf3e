/**
 * What a Google callback leaves behind when it is abandoned between creating an account and binding it:
 * an account nobody can ever sign in to, and an address nobody can ever use again.
 */
module Orphans {
  import opened Basics
  import opened Schema
  import opened Queries
  import opened Handlers
  import opened Runs
  import opened Growth
  import opened Locals
  import opened Integrity
  import opened Rbac
  import opened Rotation
  import opened Solo
  import opened Tokens
  import opened Accounts
  import opened Sessions
  import opened Races
  import opened Openings

  /** Thread `t` was abandoned before a bind that its account still lacks; the account is `u`. */
  ghost predicate Orphaned(s: System, t: nat, u: Uid) {
    Stranded(s, t) && s.threads[t].Aborted? && s.threads[t].pc.id == u
  }

  /** The thread never moved after it created the account, and never will. */
  lemma {:induction false} StillSince(r: History, n: nat, t: nat, u: Uid) returns (j: nat)
    requires r.Valid() && n <= |r.steps| && Orphaned(r.At(n), t, u)
    ensures Creates(r, j, u) && r.steps[j].tid == t && r.Here(j) == OauthInsert(r.At(n).threads[t].pc.profile)
    ensures j < n && forall m | j < m < |r.steps| :: !r.Moves(m, t)
  {
    hide Apply, Enabled, Step, Begin, Commit;
    j := StrandedCreator(r, n, t);
    Stopped(r, n, |r.steps|, t);
  }

  lemma {:induction false} OrphanHasNothing(r: History, n: nat, t: nat, u: Uid, m: nat)
    requires r.Valid() && n <= |r.steps| && m <= |r.steps| && Orphaned(r.At(n), t, u)
    ensures !HasPassword(r.At(m).db, u) && !OwnsIdentity(r.At(m).db, u)
  {
    hide Apply, Enabled, Step, Begin, Commit;
    var j := StillSince(r, n, t, u);
    if HasPassword(r.At(m).db, u) {
      SamePresence(r, m, |r.steps|, u);
      OauthOnly(r, |r.steps|, j, u);
    }
    if key :| BoundTo(r.At(m).db, key, u) {
      var j', i' := FirstBind(r, m, key);
      CreatedOnce(r, j, j', u);
    }
  }

  /** No callback ever binds the account or signs in to it. */
  lemma {:induction false} OrphanNotBound(r: History, n: nat, t: nat, u: Uid, c: nat)
    requires r.Valid() && n <= |r.steps| && Orphaned(r.At(n), t, u)
    ensures !(r.Acts(c) && r.Here(c).OauthBind? && r.Here(c).id == u)
  {
    hide Apply, Enabled, Step, Begin, Commit, ThreadSound, Orphaned;
    if r.Acts(c) && r.Here(c).OauthBind? && r.Here(c).id == u {
      var j := StillSince(r, n, t, u);
      var f := Came(r, c, r.steps[c].tid);
      if r.Here(f).OauthFind? {
        OrphanHasNothing(r, n, t, u, f);
        OwnsWhatIsBound(r.At(f).db, r.Here(f).profile.Key(), u);
      } else {
        CreatedOnce(r, j, f, u);
        MovesThen(r, c);
      }
    }
  }

  lemma OwnsWhatIsBound(db: Tables, key: (string, string), u: Uid)
    ensures BoundTo(db, key, u) ==> OwnsIdentity(db, u)
  {
  }

  lemma MovesThen(r: History, c: nat)
    requires r.Acts(c)
    ensures r.Moves(c, r.steps[c].tid)
  {
    hide Apply;
  }

  /** No session of the account is ever started, before or after. */
  lemma {:induction false} OrphanNeverStarts(r: History, n: nat, t: nat, u: Uid, s: nat)
    requires r.Valid() && n <= |r.steps| && Orphaned(r.At(n), t, u)
    ensures !Starts(r, s, u)
  {
    hide Apply, Enabled, Step, Begin, Commit, Orphaned, OwnsIdentity;
    if Starts(r, s, u) {
      var j := StillSince(r, n, t, u);
      var c := Opener(r, s, u);
      OrphanHasNothing(r, n, t, u, c);
      OrphanNotBound(r, n, t, u, c);
      if Creates(r, c, u) {
        CreatedOnce(r, j, c, u);
        MovesThen(r, s);
      }
    }
  }

  /** So the account never has a refresh token: nobody ever signs in to it. */
  lemma {:induction false} OrphanNeverSignsIn(r: History, n: nat, t: nat, u: Uid, m: nat, h: Digest)
    requires r.Valid() && n <= |r.steps| && m <= |r.steps| && Orphaned(r.At(n), t, u)
    ensures !SessionOf(r.At(m).db, h, u)
  {
    hide Apply, Enabled, Step, Begin, Commit, Orphaned, Starts, Mints;
    if SessionOf(r.At(m).db, h, u) {
      HasLineage(r, m, h);
      var l :| Lineage(r, m, l) && l[|l| - 1] == h;
      LineageUser(r, m, l, |l| - 1);
      var s: nat :| s < m && Mints(r, s, l[0], None);
      StoredFor(r, s, m, l[0], u);
      OrphanNeverStarts(r, n, t, u, s);
    }
  }

  /** The address a request would create an account under. */
  function AddressOf(k: Pc): Option<string>
    requires Creating(k)
  {
    if k.OauthInsert? then k.profile.email else Some(k.email)
  }

  /**
   * Every later registration, bootstrap or callback with the orphan's address fails, and so does every
   * password login.
   */
  lemma {:induction false} AddressLost(r: History, n: nat, t: nat, u: Uid, i: nat, address: string)
    requires r.Valid() && r.Acts(i) && n <= i && Orphaned(r.At(n), t, u)
    requires Carries(r.At(n).threads[t].pc.profile, address)
    ensures Creating(r.Here(i)) && AddressOf(r.Here(i)).Some? && Fold(AddressOf(r.Here(i)).value) == Fold(address) ==>
            r.Next(i) == Fail(Database) && r.Wrote(i) == NoWrite
    ensures r.Here(i).LoginFind? && Fold(r.Here(i).email) == Fold(address) ==> r.Next(i) == Fail(Auth)
  {
    hide Apply, Enabled, Step, Begin, Commit, Fold, Stranded, OwnsIdentity;
    var j := StillSince(r, n, t, u);
    AddressKept(r, j, i, u, address);
    if Creating(r.Here(i)) {
      TakenFails(r, i, u, address);
    } else if r.Here(i).LoginFind? && Fold(r.Here(i).email) == Fold(address) {
      OrphanHasNothing(r, n, t, u, i);
      EmailFindsOne(r, i, u, r.Here(i).email);
      Refused(r.At(i).cfg, r.At(i).db, r.At(i).now, r.Here(i), r.steps[i].choice);
    }
  }

  lemma {:induction false} TakenFails(r: History, i: nat, u: Uid, address: string)
    requires r.Valid() && r.Acts(i) && Creating(r.Here(i)) && u in r.At(i).db.users
              && HasEmail(r.At(i).db.users[u], address)
    ensures AddressOf(r.Here(i)).Some? && Fold(AddressOf(r.Here(i)).value) == Fold(address) ==>
            r.Next(i) == Fail(Database) && r.Wrote(i) == NoWrite
  {
    hide Apply, Fold, RoleIdFor, Presentable, Fresh, Begin, Catalogue, Enabled, Inv;
    assert Catalogue(r.At(i).db) by { CatalogueAt(r, i); }
    RoleEncoding(r.At(i).db, User);
    RoleEncoding(r.At(i).db, Admin);
  }

  lemma Refused(cfg: Config, db: Tables, now: Time, k: Pc, c: Choice)
    requires k.LoginFind? && FindByEmail(db, k.email).Some? && !HasPassword(db, FindByEmail(db, k.email).value.id)
    ensures Step(cfg, db, now, k, c).1 == Fail(Auth)
  {
    hide Fold, ParseRole, HasEmail;
  }

  /** From any run, an unknown subject's callback with a free address can end so. */
  lemma {:induction false} OrphansHappen(r: History, p: Profile, t: nat, c: Choice) returns (r': History)
    requires r.Valid() && t !in End(r).threads && p.Key() !in End(r).db.identities
    requires !EmailTaken(End(r).db, p.email) && c.uid !in End(r).db.users
    ensures r'.Valid() && Prefix(r, r') && Orphaned(End(r'), t, c.uid) && End(r').threads[t].pc.profile == p
  {
    hide Step, Begin, History.Valid, EmailTaken, Apply, Orphaned, Stands;
    var a := Miss(r, t, p, c);
    var b, row := MakeAccount(a, t, p, c);
    r' := Abandon(b, t, p, c.uid);
  }

  lemma Abandon(r: History, t: nat, p: Profile, u: Uid) returns (r': History)
    requires r.Valid() && Stands(r, t, OauthBind(p, u, User)) && p.Key() !in End(r).db.identities
    ensures r'.Valid() && Prefix(r, r') && Orphaned(End(r'), t, u) && End(r').threads[t].pc.profile == p
  {
    hide Step, Begin, Fresh, History.Valid, Presentable, Commit;
    Extended(r, Abort(t));
    r' := Extend(r, Abort(t));
  }
}
