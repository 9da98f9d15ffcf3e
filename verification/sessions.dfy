/**
 * Families of refresh tokens: what rotation conserves when requests are served one at a time, and when a
 * family is dead.
 */
module Sessions {
  import opened Basics
  import opened Schema
  import opened Queries
  import opened Handlers
  import opened Runs
  import opened Locals
  import opened Origins
  import opened Integrity
  import opened Rotation
  import opened Serial
  import opened Tokens

  /** By state `n`, some step has stored `h` as a successor of `parent`. */
  ghost predicate Born(r: History, n: nat, h: Digest, parent: Option<Digest>) {
    exists i: nat :: i < n && Mints(r, i, h, parent)
  }

  /** A token's ancestry, from the token its session started with. */
  ghost predicate Lineage(r: History, n: nat, l: seq<Digest>) {
    && l != []
    && Born(r, n, l[0], None)
    && forall k {:trigger l[k]} | 0 < k < |l| :: Born(r, n, l[k], Some(l[k - 1]))
  }

  lemma {:induction false} HasLineage(r: History, n: nat, h: Digest)
    requires r.Valid() && n <= |r.steps| && h in r.At(n).db.refreshTokens
    ensures exists l :: Lineage(r, n, l) && l[|l| - 1] == h
    decreases n
  {
    hide Apply, Enabled, Mints;
    var i := Minted(r, n, h);
    var parent := Parent(r.Here(i));
    assert Born(r, n, h, parent);
    if parent.None? {
      assert Lineage(r, n, [h]);
    } else {
      ParentRevoked(r, n, i, h, parent.value);
      HasLineage(r, i, parent.value);
      var l :| Lineage(r, i, l) && l[|l| - 1] == parent.value;
      assert Lineage(r, n, l + [h]) by {
        Later(r, i, n, l);
      }
    }
  }

  lemma Later(r: History, m: nat, n: nat, l: seq<Digest>)
    requires m <= n && Lineage(r, m, l)
    ensures Lineage(r, n, l)
  {
    hide Mints;
  }

  // ---- refreshes with one token that do not overlap ------------------------------------

  /** A refresh that presents `p` and has not revoked it yet. */
  predicate Presents(k: Pc, p: Digest) { k == RefreshLookup(p) || (k.RefreshRevoke? && k.hash == p) }

  ghost predicate NobodyPresents(s: System, p: Digest) {
    forall t | t in s.threads && s.threads[t].Active() :: !Presents(s.threads[t].pc, p)
  }

  /**
   * A refresh with `p` starts only when every earlier one has revoked `p`, ended or been abandoned;
   * whatever else overlaps.
   */
  ghost predicate RefreshesApart(r: History, p: Digest) {
    && r.Valid()
    && forall y {:trigger r.steps[y]} | 0 <= y < |r.steps| && r.steps[y].Spawn? && RefreshesWith(r.steps[y].req, p) ::
         NobodyPresents(r.At(y), p)
  }

  predicate RefreshesWith(req: Request, p: Digest) { req.Refresh? && Sha256(req.raw) == p }

  ghost predicate AllRefreshesApart(r: History) {
    r.Valid() && forall p {:trigger RefreshesApart(r, p)} :: RefreshesApart(r, p)
  }

  /** One request at a time is more than enough. */
  lemma SerialRefreshesApart(r: History)
    requires OneAtATime(r)
    ensures AllRefreshesApart(r)
  {
    hide Apply, History.Valid;
  }

  lemma ApartIsValid(r: History, p: Digest)
    requires RefreshesApart(r, p)
    ensures r.Valid()
  {
    hide History.Valid;
  }

  lemma {:induction false} PresentsSince(r: History, n: nat, b: nat, t: nat, p: Digest)
    requires r.Valid() && n <= b && r.Acts(b) && r.steps[b].tid == t && Presents(r.Here(b), p) && t in r.At(n).threads
    ensures Presents(r.At(n).threads[t].pc, p)
    decreases b - n
  {
    hide Step, Begin, Commit, Presentable, Fresh, ThreadSound, IssuedBy, Inv;
    if n < b {
      Effect(r, n);
      assert r.Legal(n);
      PresentsSince(r, n + 1, b, t, p);
      if r.Acts(n) && r.steps[n].tid == t {
        Issued(r, n);
      }
    }
  }

  /** How a refresh began. */
  lemma PresentedAt(r: History, b: nat, p: Digest) returns (x: nat)
    requires r.Valid() && r.Acts(b) && Presents(r.Here(b), p)
    ensures x < b && r.steps[x].Spawn? && r.steps[x].tid == r.steps[b].tid && RefreshesWith(r.steps[x].req, p)
    ensures r.steps[b].tid in r.At(x + 1).threads
  {
    hide Step, Commit, Presentable, Fresh;
    x := SpawnedAt(r, b, r.steps[b].tid);
    PresentsSince(r, x + 1, b, r.steps[b].tid, p);
  }

  /** A refresh that has started and will still revoke `p` is in the way of the next. */
  lemma NotPresentedAt(r: History, x: nat, y: nat, b: nat, t: nat, p: Digest)
    requires RefreshesApart(r, p) && x < y < b && r.Acts(b) && r.steps[b].tid == t && Presents(r.Here(b), p)
    requires t in r.At(x + 1).threads
    ensures !(r.steps[y].Spawn? && RefreshesWith(r.steps[y].req, p))
  {
    hide Apply, Enabled, Presentable, History.Valid;
    Stopped(r, x + 1, y, t);
    PresentsSince(r, y, b, t, p);
    Alive(r, y, b, t);
  }

  /** No token has two successors if refreshes with it do not overlap before they revoke it. */
  lemma {:induction false} OneSuccessor(r: History, i: nat, j: nat, h: Digest, h': Digest, p: Digest)
    requires RefreshesApart(r, p) && Mints(r, i, h, Some(p)) && Mints(r, j, h', Some(p))
    ensures i == j
  {
    hide Apply, Enabled, Mints, RefreshesApart;
    assert r.Valid() by { ApartIsValid(r, p); }
    MintIsIssue(r, i, h, p);
    MintIsIssue(r, j, h', p);
    if r.steps[i].tid == r.steps[j].tid {
      OneMintEach(r, i, j, h, h', p);
    } else {
      var a, b := Bracket(r, i, h, p);
      var a', b' := Bracket(r, j, h', p);
      EarlyLookUp(r, j, h', p, a', b);
      EarlyLookUp(r, i, h, p, a, b');
      var x := PresentedAt(r, a, p);
      var x' := PresentedAt(r, a', p);
      if x < x' {
        NotPresentedAt(r, x, x', b, r.steps[b].tid, p);
      } else {
        NotPresentedAt(r, x', x, b', r.steps[b'].tid, p);
      }
    }
  }

  /** The look-up and the revocation of one rotation. */
  lemma Bracket(r: History, i: nat, h: Digest, p: Digest) returns (a: nat, b: nat)
    requires r.Valid() && Mints(r, i, h, Some(p))
    ensures a < b < i && r.Ran(a, r.steps[i].tid, RefreshLookup(p)) && r.Acts(b) && r.steps[b].tid == r.steps[i].tid
    ensures Presents(r.Here(b), p) && r.Here(b).RefreshRevoke? && Revoked(r.At(b + 1).db, p)
  {
    hide Apply, Enabled, Step, Usable, Revoked;
    var t, a', b', f := RotationSteps(r, i, h, p);
    a, b := a', b';
  }

  /** A rotation looks its token up before any other revokes it. */
  lemma EarlyLookUp(r: History, j: nat, h: Digest, p: Digest, a: nat, b: nat)
    requires r.Valid() && Mints(r, j, h, Some(p)) && r.Ran(a, r.steps[j].tid, RefreshLookup(p))
    requires b < |r.steps| && r.Acts(b) && r.Here(b).RefreshRevoke? && Revoked(r.At(b + 1).db, p)
    ensures a < b
  {
    hide Apply, Enabled, Step, Mints, Revoked;
    MintIsIssue(r, j, h, p);
    LookupBeforeRevocation(r, j, h, p, b + 1);
    var a' :| 0 <= a' < b + 1 && a' < j && r.Ran(a', r.steps[j].tid, RefreshLookup(p));
    OneLookUp(r, a, a');
  }

  lemma OneMintEach(r: History, i: nat, j: nat, h: Digest, h': Digest, p: Digest)
    requires r.Valid() && Mints(r, i, h, Some(p)) && Mints(r, j, h', Some(p)) && r.steps[i].tid == r.steps[j].tid
    ensures i == j
  {
    hide Apply, Enabled, Step;
    Stored(r, i, h, Some(p));
    Stored(r, j, h', Some(p));
    if i < j { Finished(r, i, j); }
    if j < i { Finished(r, j, i); }
  }

  lemma Finished(r: History, i: nat, j: nat)
    requires r.Valid() && i < j && r.Acts(i) && r.Acts(j) && r.Next(i).Done?
    ensures r.steps[i].tid != r.steps[j].tid
  {
    hide Step, Begin, Commit, Fresh, Presentable;
    Effect(r, i);
    if r.steps[i].tid == r.steps[j].tid {
      Alive(r, i + 1, j, r.steps[i].tid);
    }
  }

  lemma {:induction false} SameAncestors(r: History, n: nat, l: seq<Digest>, m: seq<Digest>, k: nat)
    requires AllRefreshesApart(r) && Lineage(r, n, l) && Lineage(r, n, m) && l[0] == m[0] && k < |l| && k < |m|
    ensures l[k] == m[k]
  {
    hide Apply, Enabled, Mints, RefreshesApart;
    if k > 0 {
      SameAncestors(r, n, l, m, k - 1);
      var i: nat :| i < n && Mints(r, i, l[k], Some(l[k - 1]));
      var j: nat :| j < n && Mints(r, j, m[k], Some(m[k - 1]));
      OneSuccessor(r, i, j, l[k], m[k], l[k - 1]);
      OneMint(r, i, l[k], m[k], Some(l[k - 1]));
    }
  }

  lemma OneMint(r: History, i: nat, h: Digest, h': Digest, p: Option<Digest>)
    requires Mints(r, i, h, p) && Mints(r, i, h', p)
    ensures h == h'
  {
    hide Step, Apply;
  }

  /** Each session is a single path of successors with at most one unrevoked token, its end. */
  lemma {:induction false} OneLivePerFamily(r: History, n: nat, l: seq<Digest>, m: seq<Digest>)
    requires AllRefreshesApart(r) && n <= |r.steps| && Lineage(r, n, l) && Lineage(r, n, m) && l[0] == m[0]
    requires Live(r.At(n).db, l[|l| - 1]) && Live(r.At(n).db, m[|m| - 1])
    ensures l == m
  {
    hide Apply, Enabled, Mints, RefreshesApart, Live, History.Valid;
    if |l| < |m| {
      NotExtended(r, n, l, m);
    } else if |m| < |l| {
      NotExtended(r, n, m, l);
    } else {
      forall k | 0 <= k < |l| ensures l[k] == m[k] { SameAncestors(r, n, l, m, k); }
    }
  }

  lemma NotExtended(r: History, n: nat, l: seq<Digest>, m: seq<Digest>)
    requires AllRefreshesApart(r) && n <= |r.steps| && Lineage(r, n, l) && Lineage(r, n, m) && l[0] == m[0]
    requires Live(r.At(n).db, l[|l| - 1])
    ensures |m| <= |l|
  {
    hide Apply, Enabled, Mints, Live;
    if |l| < |m| {
      SameAncestors(r, n, l, m, |l| - 1);
      var c := m[|l|];
      var i: nat :| i < n && Mints(r, i, c, Some(m[|l| - 1]));
      LiveIsLeaf(r, n, l[|l| - 1], i, c);
    }
  }

  ghost function LiveOf(db: Tables, u: Uid): set<Digest> {
    set h | h in db.refreshTokens && db.refreshTokens[h].user == u && !db.refreshTokens[h].Revoked()
  }

  /** The tokens with which sessions of `u` were started, by registration, login or callback. */
  ghost function StartsOf(r: History, n: nat, u: Uid): set<Digest>
    requires n <= |r.steps|
  {
    set h | h in r.At(n).db.refreshTokens && r.At(n).db.refreshTokens[h].user == u && Born(r, n, h, None)
  }

  ghost function StartOf(r: History, n: nat, h: Digest): Digest
    requires r.Valid() && n <= |r.steps| && h in r.At(n).db.refreshTokens
  {
    HasLineage(r, n, h);
    var l :| Lineage(r, n, l) && l[|l| - 1] == h;
    l[0]
  }

  lemma {:induction false} LineageUser(r: History, n: nat, l: seq<Digest>, k: nat)
    requires r.Valid() && n <= |r.steps| && Lineage(r, n, l) && k < |l|
    ensures l[0] in r.At(n).db.refreshTokens && l[k] in r.At(n).db.refreshTokens
    ensures r.At(n).db.refreshTokens[l[k]].user == r.At(n).db.refreshTokens[l[0]].user
  {
    hide Apply, Enabled, Mints;
    if k > 0 {
      LineageUser(r, n, l, k - 1);
      var i: nat :| i < n && Mints(r, i, l[k], Some(l[k - 1]));
      ParentRevoked(r, n, i, l[k], l[k - 1]);
    } else {
      var i: nat :| i < n && Mints(r, i, l[0], None);
      Stored(r, i, l[0], None);
      Persist(r, i + 1, n);
    }
  }

  /** A user never has more unrevoked tokens than sessions started. */
  lemma {:induction false} SessionsBounded(r: History, n: nat, u: Uid)
    requires AllRefreshesApart(r) && n <= |r.steps|
    ensures |LiveOf(r.At(n).db, u)| <= |StartsOf(r, n, u)|
  {
    hide Apply, Enabled, Lineage, StartOf, History.Valid, RefreshesApart;
    var live := LiveOf(r.At(n).db, u);
    var f := (h: Digest) => if h in live then StartOf(r, n, h) else h;
    forall h | h in live ensures f(h) in StartsOf(r, n, u) { StartIsStart(r, n, h); }
    forall h, h' | h in live && h' in live && f(h) == f(h') ensures h == h' { SameStart(r, n, h, h'); }
    InjectionBound(live, StartsOf(r, n, u), f);
  }

  lemma SameStart(r: History, n: nat, h: Digest, h': Digest)
    requires AllRefreshesApart(r) && n <= |r.steps| && Live(r.At(n).db, h) && Live(r.At(n).db, h')
    requires StartOf(r, n, h) == StartOf(r, n, h')
    ensures h == h'
  {
    hide Apply, Enabled, Mints, StartOf;
    StartIsStart(r, n, h);
    StartIsStart(r, n, h');
    var l :| Lineage(r, n, l) && l[|l| - 1] == h && l[0] == StartOf(r, n, h);
    var m :| Lineage(r, n, m) && m[|m| - 1] == h' && m[0] == StartOf(r, n, h');
    OneLivePerFamily(r, n, l, m);
  }

  lemma {:induction false} StartIsStart(r: History, n: nat, h: Digest)
    requires r.Valid() && n <= |r.steps| && h in r.At(n).db.refreshTokens
    ensures StartOf(r, n, h) in StartsOf(r, n, r.At(n).db.refreshTokens[h].user)
    ensures exists l :: Lineage(r, n, l) && l[|l| - 1] == h && l[0] == StartOf(r, n, h)
  {
    hide Apply, Enabled, Mints;
    HasLineage(r, n, h);
    var l :| Lineage(r, n, l) && l[|l| - 1] == h && l[0] == StartOf(r, n, h);
    LineageUser(r, n, l, |l| - 1);
  }

  // ---- one request at a time -------------------------------------------------------

  /** One request at a time, only the revocation comes between a rotation's look-up and its store. */
  lemma {:induction false} OnlyRevokes(r: History, i: nat, h: Digest, p: Digest) returns (a: nat, b: nat)
    requires OneAtATime(r) && Mints(r, i, h, Some(p))
    ensures a < b < i && r.Ran(a, r.steps[i].tid, RefreshLookup(p)) && r.Acts(b) && r.Wrote(b) == RevokeRefresh(p)
    ensures Usable(r.At(a).db, r.At(a).now, p, r.Here(i).id)
    ensures r.At(b).db == r.At(a).db && r.At(i).db == r.At(b + 1).db
  {
    hide Apply, Enabled, Step, Commit, Usable, Revoked;
    var t, a', b', f := RotationSteps(r, i, h, p);
    a, b := a', b';
    forall m | a < m < i && r.Acts(m) ensures m == b || m == f { OnlyMover(r, a, m, i, t); }
    Undisturbed(r, a, b);
    Undisturbed(r, b + 1, i);
  }

  /** The rows a rotation leaves are those its look-up saw, with the parent revoked and one child added. */
  lemma {:induction false} RotationRows(r: History, i: nat, h: Digest, p: Digest) returns (a: nat)
    requires OneAtATime(r) && Mints(r, i, h, Some(p))
    ensures a < i && r.Ran(a, r.steps[i].tid, RefreshLookup(p)) && Usable(r.At(a).db, r.At(a).now, p, r.Here(i).id)
    ensures exists now :: r.At(i + 1).db.refreshTokens ==
              r.At(a).db.refreshTokens[p := r.At(a).db.refreshTokens[p].(revokedAt := Some(now))]
                                      [h := Session(r.At(i).cfg, r.At(i).now, r.Here(i).id)]
    ensures h !in r.At(a).db.refreshTokens
  {
    hide Apply, Enabled, Step, Session, Commit;
    MintIsIssue(r, i, h, p);
    var a', b := OnlyRevokes(r, i, h, p);
    a := a';
    Stored(r, i, h, Some(p));
    Effect(r, b);
    OneRevoked(r.At(b).db, r.At(b).now, p);
  }

  lemma OneRevoked(db: Tables, now: Time, h: Digest)
    requires h in db.refreshTokens
    ensures Commit(db, now, RevokeRefresh(h)).refreshTokens ==
            db.refreshTokens[h := db.refreshTokens[h].(revokedAt := Some(now))]
  {
  }

  /** A refresh that succeeds trades one live token for another; nobody's number of live tokens changes. */
  lemma {:induction false} RefreshConserves(r: History, i: nat, h: Digest, p: Digest, u: Uid) returns (a: nat)
    requires OneAtATime(r) && Mints(r, i, h, Some(p))
    ensures a < i && r.Ran(a, r.steps[i].tid, RefreshLookup(p))
    ensures LiveOf(r.At(i + 1).db, u) ==
            if u == r.Here(i).id then LiveOf(r.At(a).db, u) - {p} + {h} else LiveOf(r.At(a).db, u)
    ensures |LiveOf(r.At(i + 1).db, u)| == |LiveOf(r.At(a).db, u)|
  {
    hide Apply, Enabled, Step, Mints;
    MintIsIssue(r, i, h, p);
    a := RotationRows(r, i, h, p);
    var before, after := LiveOf(r.At(a).db, u), LiveOf(r.At(i + 1).db, u);
    assert after == if u == r.Here(i).id then before - {p} + {h} else before;
  }

  /** Every token expires its configured number of days after it was stored. */
  lemma {:induction false} Lifetime(r: History, n: nat, i: nat, h: Digest, parent: Option<Digest>)
    requires r.Valid() && i < n <= |r.steps| && Mints(r, i, h, parent)
    ensures h in r.At(n).db.refreshTokens
    ensures var row := r.At(n).db.refreshTokens[h];
            row.issuedAt == r.At(i).now && row.expiresAt == r.At(i).now + r.At(i).cfg.refreshTtlDays * 86400
  {
    hide Apply, Enabled, Mints;
    Stored(r, i, h, parent);
    Persist(r, i + 1, n);
  }

  /** With the clock steady inside handlers, a token is only ever rotated before it expires. */
  lemma {:induction false} RotatedInTime(r: History, i: nat, h: Digest, p: Digest)
    requires OneAtATime(r) && SteadyClock(r) && Mints(r, i, h, Some(p))
    ensures p in r.At(i).db.refreshTokens && r.At(i).now < r.At(i).db.refreshTokens[p].expiresAt
  {
    hide Apply, Enabled, Mints, Quiet;
    MintIsIssue(r, i, h, p);
    var t, a, b, f := RotationSteps(r, i, h, p);
    SameInstant(r, a, i, i, t);
    Persist(r, a, i);
  }

  // ---- dead families, in every interleaving -------------------------------------------

  predicate Dead(s: System, h: Digest) {
    h in s.db.refreshTokens && (s.db.refreshTokens[h].Revoked() || s.db.refreshTokens[h].expiresAt <= s.now)
  }

  /**
   * If, while no request is under way, a whole family is revoked or expired, no later request, however
   * interleaved, adds to it.
   */
  lemma {:induction false} DeadStaysDead(r: History, m: nat, n: nat, l: seq<Digest>)
    requires r.Valid() && m <= n <= |r.steps| && Quiet(r.At(m)) && Lineage(r, n, l)
    requires forall l' | Lineage(r, m, l') && l'[0] == l[0] :: Dead(r.At(m), l'[|l'| - 1])
    requires Born(r, m, l[0], None)
    ensures Lineage(r, m, l)
    decreases |l|
  {
    hide Apply, Enabled, Mints, Quiet, Dead, History.Valid;
    if |l| > 1 {
      var k := |l| - 1;
      var l', p := l[..k], l[k - 1];
      DeadStaysDead(r, m, n, l');
      assert Dead(r.At(m), p);
      var i: nat :| i < n && Mints(r, i, l[k], Some(p));
      if m <= i {
        MintIsIssue(r, i, l[k], p);
        DeadIsBarren(r, m, i, l[k], p);
      }
      LineageExtended(r, m, l);
    }
  }

  lemma {:induction false} LineageExtended(r: History, m: nat, l: seq<Digest>)
    requires |l| > 1 && Lineage(r, m, l[..|l| - 1]) && Born(r, m, l[|l| - 1], Some(l[|l| - 2]))
    ensures Lineage(r, m, l)
  {
    hide Mints, Born;
    forall k | 0 < k < |l| ensures Born(r, m, l[k], Some(l[k - 1])) {
      assert k < |l| - 1 ==> l[..|l| - 1][k] == l[k];
    }
  }

  lemma DeadIsBarren(r: History, m: nat, i: nat, h: Digest, p: Digest)
    requires r.Valid() && m <= i < |r.steps| && Quiet(r.At(m)) && Dead(r.At(m), p)
    ensures !Mints(r, i, h, Some(p))
  {
    hide Apply, Enabled, Mints;
    if Mints(r, i, h, Some(p)) {
      MintIsIssue(r, i, h, p);
      var t, a, b, f := RotationSteps(r, i, h, p);
      if m <= a {
        Persist(r, m, a);
        ClockMonotone(r, m, a);
      } else {
        Stopped(r, a, m, t);
        Alive(r, m, i, t);
      }
    }
  }

  // ---- a reset closes earlier sessions ---------------------------------------------------------

  /** A refresh for `u` that is past its look-up. */
  predicate InFlight(k: Pc, u: Uid) {
    || ((k.RefreshRevoke? || k.RefreshFind?) && k.id == u)
    || (k.IssueStore? && k.id == u && k.parent.Some?)
  }

  ghost predicate NoneInFlight(s: System, u: Uid) {
    forall t | t in s.threads && s.threads[t].Active() :: !InFlight(s.threads[t].pc, u)
  }

  /** Between its look-up and its store a rotation is in flight. */
  lemma {:induction false} RotationInFlight(r: History, i: nat, h: Digest, p: Digest, a: nat, n: nat)
    requires r.Valid() && Mints(r, i, h, Some(p)) && a < n <= i && r.Ran(a, r.steps[i].tid, RefreshLookup(p))
    ensures var t := r.steps[i].tid;
            t in r.At(n).threads && r.At(n).threads[t].Active() && InFlight(r.At(n).threads[t].pc, r.Here(i).id)
  {
    hide Apply, Enabled, Step, Mints, Usable, Presentable, Begin, Commit;
    MintIsIssue(r, i, h, p);
    var t, a', b, f := RotationSteps(r, i, h, p);
    OneLookUp(r, a, a');
    Stopped(r, a, n, t);
    Alive(r, n, i, t);
    var j := LastStep(r, n, t);
    assert r.Moves(a, t) && r.Moves(b, t) && r.Moves(f, t);
    assert j == a || j == b || j == f;
  }

  lemma {:induction false} OneLookUp(r: History, a: nat, a': nat)
    requires r.Valid() && r.Acts(a) && r.Acts(a') && r.steps[a].tid == r.steps[a'].tid && Entry(r.Here(a))
    requires Entry(r.Here(a'))
    ensures a == a'
  {
    hide Apply, Enabled, Step, Begin;
    if a < a' { EntryFirst(r, a, a'); }
    if a' < a { EntryFirst(r, a', a); }
  }

  /** Rotation `k` of lineage `l` looked its parent up before step `i` and stored its child after. */
  ghost predicate Straddles(r: History, i: nat, l: seq<Digest>, k: nat, a: nat, s: nat) {
    && 0 < k < |l| && a < i < s && Mints(r, s, l[k], Some(l[k - 1]))
    && r.Ran(a, r.steps[s].tid, RefreshLookup(l[k - 1]))
  }

  /** Step `i` is the last of a reset of `u`. */
  ghost predicate Closes(r: History, i: nat, u: Uid) { r.Acts(i) && r.Here(i).ResetRevoke? && r.Here(i).id == u }

  /** A live token of `u`, at the end of a lineage that began before step `i`. */
  ghost predicate Survives(r: History, i: nat, n: nat, u: Uid, l: seq<Digest>)
    requires i <= |r.steps| && n <= |r.steps|
  {
    && Lineage(r, n, l) && l[0] in r.At(i).db.refreshTokens
    && SessionOf(r.At(n).db, l[|l| - 1], u) && Live(r.At(n).db, l[|l| - 1])
  }

  /** Under any interleaving, a session outlives a reset only by a rotation under way when the reset closed. */
  lemma {:induction false} SurvivesByRotation(r: History, i: nat, n: nat, u: Uid, l: seq<Digest>)
    returns (k: nat, a: nat, s: nat)
    requires r.Valid() && i < n <= |r.steps| && Closes(r, i, u) && Survives(r, i, n, u, l)
    ensures Straddles(r, i, l, k, a, s) && s < n && r.Here(s).IssueStore? && r.Here(s).id == u
  {
    hide Apply, Enabled, Step, Mints, Usable, Presentable, Begin, Commit;
    k := FirstNew(r, i, n, u, l);
    LineageUser(r, n, l, |l| - 1);
    LineageUser(r, n, l, k);
    LineageUser(r, n, l, k - 1);
    s :| 0 <= s < n && Mints(r, s, l[k], Some(l[k - 1]));
    MintIsIssue(r, s, l[k], l[k - 1]);
    Late(r, i, s, l[k], l[k - 1]);
    Persist(r, i, n);
    ResetCloses(r, i, i + 1, u, l[k - 1]);
    LookupBeforeRevocation(r, s, l[k], l[k - 1], i + 1);
    a :| 0 <= a < i + 1 && a < s && r.Ran(a, r.steps[s].tid, RefreshLookup(l[k - 1]));
    MintedFor(r, n, s, l[k], l[k - 1]);
  }

  lemma Late(r: History, i: nat, s: nat, h: Digest, p: Digest)
    requires r.Valid() && r.Acts(i) && r.Here(i).ResetRevoke? && Mints(r, s, h, Some(p))
    requires h !in r.At(i).db.refreshTokens
    ensures i < s
  {
    hide Apply, Enabled, Step, Presentable, Begin, Commit;
    MintIsIssue(r, s, h, p);
    Stored(r, s, h, Some(p));
    if s < i {
      Persist(r, s + 1, i);
    }
  }

  /** The first token of the lineage stored after the reset closed: there is one, since those before are revoked. */
  lemma FirstNew(r: History, i: nat, n: nat, u: Uid, l: seq<Digest>) returns (k: nat)
    requires r.Valid() && i < n <= |r.steps| && Closes(r, i, u) && Survives(r, i, n, u, l)
    ensures 0 < k < |l| && l[k] !in r.At(i).db.refreshTokens && l[k - 1] in r.At(i).db.refreshTokens
  {
    hide Apply, Enabled, Step, Born;
    Persist(r, i, n);
    if l[|l| - 1] in r.At(i).db.refreshTokens {
      ResetCloses(r, i, n, u, l[|l| - 1]);
    }
    k := FirstMissing(r.At(i).db.refreshTokens, l);
  }

  lemma {:induction false} FirstMissing(tokens: map<Digest, RefreshRow>, l: seq<Digest>) returns (k: nat)
    requires |l| > 0 && l[0] in tokens && l[|l| - 1] !in tokens
    ensures 0 < k < |l| && l[k] !in tokens && l[k - 1] in tokens
  {
    k := |l| - 1;
    if l[k - 1] !in tokens {
      k := FirstMissing(tokens, l[..k]);
    }
  }

  /** If no refresh of `u` is past its look-up when the reset closes, every session begun before is closed for good. */
  lemma {:induction false} ResetClosesSessions(r: History, i: nat, n: nat, u: Uid, l: seq<Digest>)
    requires r.Valid() && i < n <= |r.steps| && Closes(r, i, u) && NoneInFlight(r.At(i), u)
    ensures !Survives(r, i, n, u, l)
  {
    hide Apply, Enabled, Step, Mints, InFlight;
    if Survives(r, i, n, u, l) {
      var k, a, s := SurvivesByRotation(r, i, n, u, l);
      RotationInFlight(r, s, l[k], l[k - 1], a, i);
    }
  }

  /** One request at a time that is always so. */
  lemma {:induction false} ResetClosesSerially(r: History, i: nat, n: nat, u: Uid, l: seq<Digest>)
    requires OneAtATime(r) && i < n <= |r.steps| && Closes(r, i, u)
    ensures !Survives(r, i, n, u, l)
  {
    hide Apply, Enabled, Step, Survives, OneAtATime, History.Valid;
    assert r.Valid() by { Served(r); }
    forall t | t in r.At(i).threads && r.At(i).threads[t].Active() ensures !InFlight(r.At(i).threads[t].pc, u) {
      if t != r.steps[i].tid {
        SoleActive(r, i, t);
      }
    }
    ResetClosesSessions(r, i, n, u, l);
  }
}
