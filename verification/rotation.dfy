/**
 * Refresh-token rotation. `refresh` looks a token up, revokes it, finds its user and stores a
 * successor in four separate statements, so two requests may overlap anywhere in between. What is
 * here holds of every interleaving.
 */
module Rotation {
  import opened Basics
  import opened Schema
  import opened Queries
  import opened Handlers
  import opened Runs
  import opened Growth
  import opened Locals
  import opened Origins
  import opened Integrity

  /** The token that the session a thread is about to store replaces. */
  function Parent(k: Pc): Option<Digest> { if k.IssueStore? then k.parent else None }

  /** Step `i` stores refresh token `h`, as the successor of `parent` or as the first of a session. */
  ghost predicate Mints(r: History, i: nat, h: Digest, parent: Option<Digest>) {
    r.Acts(i) && r.Wrote(i).InsertRefresh? && r.Wrote(i).hash == h && parent == Parent(r.Here(i))
  }

  predicate Live(db: Tables, h: Digest) { h in db.refreshTokens && !db.refreshTokens[h].Revoked() }

  predicate Revoked(db: Tables, h: Digest) { h in db.refreshTokens && db.refreshTokens[h].Revoked() }

  lemma Stored(r: History, i: nat, h: Digest, parent: Option<Digest>)
    requires r.Valid() && Mints(r, i, h, parent)
    ensures h !in r.At(i).db.refreshTokens && h in r.At(i + 1).db.refreshTokens
    ensures r.At(i + 1).db.refreshTokens ==
            r.At(i).db.refreshTokens[h := Session(r.At(i).cfg, r.At(i).now, r.Here(i).id)]
    ensures r.Here(i).IssueStore? ==> r.Next(i).Done?
  {
    hide Apply, Fresh, Step, Commit, IssuedBy, CameBy, ThreadSound, Session;
    Issued(r, i);
    MintWrites(r, i, h);
    if r.Here(i).IssueStore? {
      IssueEnds(r.At(i).cfg, r.At(i).db, r.At(i).now, r.Here(i), r.steps[i].choice);
    }
  }

  lemma MintWrites(r: History, i: nat, h: Digest)
    requires r.Valid() && r.Acts(i) && r.Wrote(i).InsertRefresh? && r.Wrote(i).hash == h
    ensures r.At(i + 1).db.refreshTokens ==
            r.At(i).db.refreshTokens[h := Session(r.At(i).cfg, r.At(i).now, r.Here(i).id)]
  {
    hide Apply, Fresh, Step, CameBy, ThreadSound, Session, Warranted, UsersAfter;
    Issued(r, i);
  }

  lemma IssueEnds(cfg: Config, db: Tables, now: Time, k: Pc, c: Choice)
    requires k.IssueStore?
    ensures Step(cfg, db, now, k, c).1.Done?
  {
    hide Session, Issue;
  }

  lemma RevokeEffect(db: Tables, now: Time, h: Digest)
    requires h in db.refreshTokens
    ensures Revoked(Commit(db, now, RevokeRefresh(h)), h)
  {
  }

  /** A rotation is one thread looking its parent up while usable, revoking it, and only then storing the child. */
  lemma RotationSteps(r: History, i: nat, h: Digest, p: Digest) returns (t: nat, a: nat, b: nat, f: nat)
    requires r.Valid() && Mints(r, i, h, Some(p))
    ensures a < b < f < i && t == r.steps[i].tid
    ensures r.Ran(a, t, RefreshLookup(p)) && r.Ran(b, t, RefreshRevoke(p, r.Here(i).id))
    ensures r.Ran(f, t, RefreshFind(p, r.Here(i).id))
    ensures Usable(r.At(a).db, r.At(a).now, p, r.Here(i).id)
    ensures r.Wrote(a) == NoWrite && r.Wrote(b) == RevokeRefresh(p) && r.Wrote(f) == NoWrite
    ensures r.Next(a) == r.Here(b) && r.Next(b) == r.Here(f) && r.Next(f) == r.Here(i)
    ensures Revoked(r.At(b + 1).db, p)
    ensures forall m | a < m < i && r.Moves(m, t) :: m == b || m == f
  {
    hide Apply, Fresh, Step, Begin, Commit, Warranted, Coherent, Enabled;
    t := r.steps[i].tid;
    MintIsIssue(r, i, h, p);
    f := Came(r, i, t);
    b := Came(r, f, t);
    a := Came(r, b, t);
    Persist(r, a, b);
    RevokeEffect(r.At(b).db, r.At(b).now, p);
  }

  lemma MintIsIssue(r: History, i: nat, h: Digest, p: Digest)
    requires r.Valid() && Mints(r, i, h, Some(p))
    ensures r.Acts(i) && r.Here(i).IssueStore? && r.Here(i) == IssueStore(r.Here(i).id, r.Here(i).role, Some(p))
  {
    hide Apply, Fresh, Step;
  }

  lemma MintedFor(r: History, n: nat, i: nat, h: Digest, p: Digest)
    requires r.Valid() && i < n <= |r.steps| && Mints(r, i, h, Some(p))
    ensures h !in r.At(i).db.refreshTokens && SessionOf(r.At(n).db, h, r.Here(i).id)
  {
    hide Apply, Enabled, Step, Mints, Usable, TokensGrow, UsersGrow, IdentitiesGrow;
    MintIsIssue(r, i, h, p);
    Stored(r, i, h, Some(p));
    Persist(r, i + 1, n);
  }

  lemma ParentRow(r: History, n: nat, i: nat, h: Digest, p: Digest)
    requires r.Valid() && i <= n <= |r.steps| && Mints(r, i, h, Some(p))
    ensures Revoked(r.At(n).db, p) && r.Here(i).IssueStore? && SessionOf(r.At(n).db, p, r.Here(i).id)
  {
    hide Apply, Enabled, Step, Mints, TokensGrow, UsersGrow, IdentitiesGrow, Begin, Commit;
    MintIsIssue(r, i, h, p);
    var t, a, b, f := RotationSteps(r, i, h, p);
    Persist(r, a, n);
    Persist(r, b + 1, n);
  }

  /**
   * Whoever else ran: a token with a successor is revoked for good, belongs to the same user, and is
   * strictly older.
   */
  lemma {:induction false} ParentRevoked(r: History, n: nat, i: nat, h: Digest, p: Digest)
    requires r.Valid() && i < n <= |r.steps| && Mints(r, i, h, Some(p))
    ensures Revoked(r.At(n).db, p) && h in r.At(n).db.refreshTokens
    ensures r.At(n).db.refreshTokens[p].user == r.At(n).db.refreshTokens[h].user
    ensures p in r.At(i).db.refreshTokens && h !in r.At(i).db.refreshTokens
  {
    hide Apply, Enabled, Step, Mints;
    MintIsIssue(r, i, h, p);
    MintedFor(r, n, i, h, p);
    ParentRow(r, i, i, h, p);
    ParentRow(r, n, i, h, p);
  }

  /** So an unrevoked token is a leaf. */
  lemma LiveIsLeaf(r: History, n: nat, h: Digest, i: nat, c: Digest)
    requires r.Valid() && i < n <= |r.steps| && Live(r.At(n).db, h)
    ensures !Mints(r, i, c, Some(h))
  {
    hide Apply, Fresh;
    if Mints(r, i, c, Some(h)) {
      ParentRevoked(r, n, i, c, h);
    }
  }

  /** Every successor of `p` comes from a look-up made before `p` was first revoked, whoever revoked it. */
  lemma LookupBeforeRevocation(r: History, i: nat, h: Digest, p: Digest, v: nat)
    requires r.Valid() && Mints(r, i, h, Some(p)) && v <= |r.steps| && Revoked(r.At(v).db, p)
    ensures exists a: nat :: a < v && a < i && r.Ran(a, r.steps[i].tid, RefreshLookup(p))
  {
    hide Apply, Fresh, Step, Begin, Commit;
    var t, a, b, f := RotationSteps(r, i, h, p);
    if v <= a {
      Persist(r, v, a);
    }
  }

  /** Once a token is revoked every later refresh with it is refused. */
  lemma RevokedIsRefused(r: History, v: nat, a: nat, t: nat, h: Digest)
    requires r.Valid() && v <= a && r.Ran(a, t, RefreshLookup(h)) && Revoked(r.At(v).db, h)
    ensures r.Next(a) == Fail(Unauthorized) && r.Wrote(a) == NoWrite
  {
    hide Apply, Fresh, Begin, Commit;
    Persist(r, v, a);
  }

  /** Logging out ends that session for good and touches no other token. */
  lemma LogoutEnds(r: History, i: nat, n: nat, t: nat, h: Digest)
    requires r.Valid() && i < n <= |r.steps| && r.Ran(i, t, LogoutRevoke(h)) && h in r.At(i).db.refreshTokens
    ensures Revoked(r.At(n).db, h)
    ensures forall h' | h' in r.At(i).db.refreshTokens && h' != h ::
              h' in r.At(i + 1).db.refreshTokens && r.At(i + 1).db.refreshTokens[h'] == r.At(i).db.refreshTokens[h']
  {
    hide Apply, Enabled, UsersGrow, IdentitiesGrow, TokensGrow;
    Effect(r, i);
    Persist(r, i + 1, n);
  }

  /** Logging out needs no account and succeeds whatever is presented; a token nobody has changes nothing. */
  lemma {:induction false} LogoutSucceeds(r: History, i: nat, t: nat, h: Digest)
    requires r.Valid() && r.Ran(i, t, LogoutRevoke(h))
    ensures r.Next(i) == Done(NoContent)
    ensures h !in r.At(i).db.refreshTokens ==> r.At(i + 1).db == r.At(i).db
  {
    hide Apply, Enabled, Begin;
    Effect(r, i);
  }

  /** Nothing but a logout with the token, a refresh with it, or a reset of its user's password ever revokes it. */
  lemma RevokedBy(r: History, n: nat, h: Digest) returns (i: nat)
    requires r.Valid() && n <= |r.steps| && Revoked(r.At(n).db, h)
    ensures i < n && r.Acts(i) && Live(r.At(i).db, h) && Revoked(r.At(i + 1).db, h)
    ensures var k := r.Here(i);
            || k == LogoutRevoke(h)
            || k == RefreshRevoke(h, r.At(n).db.refreshTokens[h].user)
            || (k.ResetRevoke? && k.id == r.At(n).db.refreshTokens[h].user)
  {
    hide Apply, Enabled, Step, UsersGrow, IdentitiesGrow, TokensGrow, Commit, CameBy, Inv;
    i := Crossing(r, 0, n, (s: System) => Revoked(s.db, h));
    Changed(r, i, 0, h);
    Effect(r, i);
    Issued(r, i);
    Revoking(r.At(i).db, r.At(i).now, r.Wrote(i), h);
    Persist(r, i, n);
  }

  lemma Revoking(db: Tables, now: Time, w: Write, h: Digest)
    requires Warranted(db, w) && !Revoked(db, h) && Revoked(Commit(db, now, w), h)
    ensures Live(db, h) && (w == RevokeRefresh(h) || w == RevokeAllRefresh(db.refreshTokens[h].user))
  {
  }

  /** Every stored token was minted by some step, once. */
  lemma {:induction false} Minted(r: History, n: nat, h: Digest) returns (i: nat)
    requires r.Valid() && n <= |r.steps| && h in r.At(n).db.refreshTokens
    ensures i < n && r.Acts(i) && Mints(r, i, h, Parent(r.Here(i)))
  {
    hide Apply, Fresh, Step, Begin;
    i := Crossing(r, 0, n, (s: System) => h in s.db.refreshTokens);
    Changed(r, i, 0, h);
  }

  lemma MintedOnce(r: History, i: nat, j: nat, h: Digest, p: Option<Digest>, q: Option<Digest>)
    requires r.Valid() && Mints(r, i, h, p) && Mints(r, j, h, q)
    ensures i == j
  {
    hide Apply, Fresh;
    Stored(r, i, h, p);
    Stored(r, j, h, q);
    if i < j { Persist(r, i + 1, j); }
    if j < i { Persist(r, j + 1, i); }
  }
}
