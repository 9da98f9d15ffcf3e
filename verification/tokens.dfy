/**
 * One-time tokens. Consuming a token is one atomic statement, its effect is one or two later ones,
 * and the thread may be abandoned in between; everything here holds of every interleaving.
 */
module Tokens {
  import opened Basics
  import opened Schema
  import opened Queries
  import opened Handlers
  import opened Runs
  import opened Growth
  import opened Locals
  import opened Origins
  import opened Integrity

  // ---- password reset ---------------------------------------------------------------

  /** Thread `t` has, before state `n`, consumed reset token `h`. */
  ghost predicate Redeemed(r: History, n: nat, t: nat, h: Digest) {
    exists j: nat :: j < n && Redeems(r, j, t, h)
  }

  ghost predicate Redeems(r: History, j: nat, t: nat, h: Digest) {
    r.Acts(j) && r.steps[j].tid == t && r.Wrote(j) == UseReset(h)
  }

  lemma {:induction false} RedeemStep(r: History, j: nat, t: nat, h: Digest)
    requires r.Valid() && Redeems(r, j, t, h)
    ensures r.Here(j).ResetConsume? && r.Here(j).hash == h
    ensures Consumable(r.At(j).db.resetTokens, h, r.At(j).now) && Used(r.At(j + 1).db.resetTokens, h)
    ensures r.Next(j) == ResetUpdate(h, r.At(j).db.resetTokens[h].user, r.Here(j).password)
  {
    hide Apply, Enabled;
    Issued(r, j);
  }

  lemma Redeemer(r: History, n: nat, h: Digest) returns (j: nat)
    requires r.Valid() && n <= |r.steps| && Used(r.At(n).db.resetTokens, h)
    ensures j < n && r.Acts(j) && Redeems(r, j, r.steps[j].tid, h)
  {
    hide Apply, Enabled, Step, Commit;
    j := Crossing(r, 0, n, (s: System) => Used(s.db.resetTokens, h));
    Changed(r, j, 0, h);
  }

  /** No token is consumed twice, and no request consumes two. */
  lemma RedeemedOnce(r: History, i: nat, j: nat, t: nat, t': nat, h: Digest, h': Digest)
    requires r.Valid() && Redeems(r, i, t, h) && Redeems(r, j, t', h')
    ensures h == h' || t == t' ==> i == j
    ensures i == j ==> h == h' && t == t'
  {
    hide Apply, Enabled, Step;
    if i < j {
      RedeemedEarlier(r, i, j, t, t', h, h');
    } else if j < i {
      RedeemedEarlier(r, j, i, t', t, h', h);
    }
  }

  lemma RedeemedEarlier(r: History, i: nat, j: nat, t: nat, t': nat, h: Digest, h': Digest)
    requires r.Valid() && i < j && Redeems(r, i, t, h) && Redeems(r, j, t', h')
    ensures h != h' && t != t'
  {
    hide Apply, Enabled, Step;
    RedeemStep(r, i, t, h);
    RedeemStep(r, j, t', h');
    if t == t' {
      EntryFirst(r, i, j);
    }
    Persist(r, i + 1, j);
  }

  /** Used reset tokens and the threads past the consuming step correspond one to one, abandoned threads included. */
  lemma {:induction false} UsedIsRedeemed(r: History, n: nat, t: nat, t': nat, h: Digest, h': Digest)
    requires r.Valid() && n <= |r.steps|
    ensures Used(r.At(n).db.resetTokens, h) <==> exists x :: Redeemed(r, n, x, h)
    ensures Redeemed(r, n, t, h) && Redeemed(r, n, t', h') ==> (t == t' <==> h == h')
  {
    hide Apply, Enabled, Redeems;
    if Used(r.At(n).db.resetTokens, h) {
      var j := Redeemer(r, n, h);
      assert Redeemed(r, n, r.steps[j].tid, h);
    }
    if x :| Redeemed(r, n, x, h) {
      var j: nat :| j < n && Redeems(r, j, x, h);
      RedeemStep(r, j, x, h);
      Persist(r, j + 1, n);
    }
    if Redeemed(r, n, t, h) && Redeemed(r, n, t', h') {
      var i: nat :| i < n && Redeems(r, i, t, h);
      var j: nat :| j < n && Redeems(r, j, t', h');
      RedeemedOnce(r, i, j, t, t', h, h');
    }
  }

  /** Step `i` sets a password. */
  ghost predicate SetsPassword(r: History, i: nat) { r.Acts(i) && r.Wrote(i).UpdatePassword? }

  /** A password changes only at the second step of a reset: the same request consumed a token just before. */
  lemma PasswordStep(r: History, i: nat) returns (j: nat, h: Digest)
    requires r.Valid() && SetsPassword(r, i)
    ensures r.Here(i).ResetUpdate? && h == r.Here(i).hash
    ensures j < i && Redeems(r, j, r.steps[i].tid, h) && r.Here(j) == ResetConsume(h, r.Wrote(i).phc.plain)
    ensures r.At(j).db.resetTokens[h].user == r.Wrote(i).id
    ensures forall m | j < m < i :: !r.Moves(m, r.steps[i].tid)
  {
    hide Apply, Enabled, Step, Commit;
    Issued(r, i);
    h := r.Here(i).hash;
    j := Came(r, i, r.steps[i].tid);
  }

  /** Step `m` stores reset token `h` for `u`, good for an hour. */
  ghost predicate StoresReset(r: History, m: nat, h: Digest, u: Uid) {
    r.Acts(m) && r.Wrote(m) == InsertReset(h, OneTimeRow(u, r.At(m).now + HOUR, None))
  }

  lemma {:induction false} ResetStored(r: History, n: nat, h: Digest) returns (m: nat)
    requires r.Valid() && n <= |r.steps| && h in r.At(n).db.resetTokens
    ensures m < n && r.Acts(m) && r.Wrote(m).InsertReset? && r.Wrote(m).hash == h
    ensures SameToken(r.Wrote(m).token, r.At(n).db.resetTokens[h])
  {
    hide Apply, Enabled, Step, Commit, UsersGrow, IdentitiesGrow, RefreshGrow;
    m := Crossing(r, 0, n, (s: System) => h in s.db.resetTokens);
    Changed(r, m, 0, h);
    Persist(r, m + 1, n);
  }

  /** A reset token is stored only on a request that named the account's own address, and only if it has a password. */
  lemma ResetRequested(r: History, m: nat) returns (f: nat)
    requires r.Valid() && r.Acts(m) && r.Wrote(m).InsertReset?
    ensures StoresReset(r, m, r.Wrote(m).hash, r.Wrote(m).token.user)
    ensures f < m && r.Acts(f) && r.steps[f].tid == r.steps[m].tid && r.Here(f).ForgotFind?
    ensures var u, db := r.Wrote(m).token.user, r.At(f).db; HasPassword(db, u) && HasEmail(db.users[u], r.Here(f).email)
  {
    hide Apply, Enabled, Step, Commit, HasEmail, ThreadSound, Warranted, Inv, Session, Issue, RoleIdFor;
    hide PermissionIdFor, Consumable, Usable, PermissionsFor, FindByOauth;
    Issued(r, m);
    f := Came(r, m, r.steps[m].tid);
  }

  /**
   * In order: request step `f` names the address of `u`; `m`, of the same thread, stores a token for `u`;
   * `j` consumes it within the hour, with the new password; `i`, of that thread, sets it for `u`.
   */
  ghost predicate Recovery(r: History, f: nat, m: nat, j: nat, i: nat, h: Digest, u: Uid) {
    && f < m < j < i
    && r.Acts(f) && r.Here(f).ForgotFind? && u in r.At(f).db.users && HasEmail(r.At(f).db.users[u], r.Here(f).email)
    && StoresReset(r, m, h, u) && r.steps[m].tid == r.steps[f].tid
    && SetsPassword(r, i) && r.Wrote(i).id == u
    && Redeems(r, j, r.steps[i].tid, h) && r.Here(j) == ResetConsume(h, r.Wrote(i).phc.plain)
    && r.At(j).now < r.At(m).now + HOUR
  }

  /** Behind every password change is a whole recovery, of that very account. */
  lemma ResetChain(r: History, i: nat) returns (f: nat, m: nat, j: nat, h: Digest)
    requires r.Valid() && SetsPassword(r, i)
    ensures Recovery(r, f, m, j, i, h, r.Wrote(i).id)
  {
    hide Apply, Enabled, Step, Commit, HasEmail, Redeems;
    j, h := PasswordStep(r, i);
    RedeemStep(r, j, r.steps[i].tid, h);
    m := ResetStored(r, j, h);
    f := ResetRequested(r, m);
  }

  /** One consumption allows one password change. */
  lemma OneChange(r: History, i: nat, i': nat)
    requires r.Valid() && SetsPassword(r, i) && SetsPassword(r, i')
    ensures r.Here(i).ResetUpdate? && r.Here(i').ResetUpdate?
    ensures r.Here(i).hash == r.Here(i').hash ==> i == i'
  {
    hide Apply, Enabled, Step, Redeems;
    var j, h := PasswordStep(r, i);
    var j', h' := PasswordStep(r, i');
    if h == h' {
      RedeemedOnce(r, j, j', r.steps[i].tid, r.steps[i'].tid, h, h');
      assert r.Moves(i, r.steps[i].tid) && r.Moves(i', r.steps[i'].tid);
    }
  }

  lemma ChangeUses(r: History, n: nat, i: nat)
    requires r.Valid() && i < n <= |r.steps| && SetsPassword(r, i)
    ensures r.Acts(i) && r.Here(i).ResetUpdate? && Used(r.At(n).db.resetTokens, r.Here(i).hash)
  {
    hide Apply, Enabled, Step;
    var j, h := PasswordStep(r, i);
    UsedIsRedeemed(r, n, 0, 0, h, h);
    assert Redeemed(r, n, r.steps[i].tid, h);
  }

  /** So resets never change passwords more often than tokens were used. */
  lemma {:induction false} ChangesBounded(r: History, n: nat)
    requires r.Valid() && n <= |r.steps|
    ensures |set i: nat | i < n && SetsPassword(r, i)| <=
            |set h | h in r.At(n).db.resetTokens && Used(r.At(n).db.resetTokens, h)|
  {
    hide Apply, Enabled, Step, Redeems, SetsPassword;
    var changes := set i: nat | i < n && SetsPassword(r, i);
    var used := set h | h in r.At(n).db.resetTokens && Used(r.At(n).db.resetTokens, h);
    var token := (i: nat) =>
      if i < n && SetsPassword(r, i) && r.Acts(i) && r.Here(i).ResetUpdate? then r.Here(i).hash else Sha256("");
    forall i | i in changes ensures r.Acts(i) && r.Here(i).ResetUpdate? && token(i) in used {
      ChangeUses(r, n, i);
    }
    forall i, i' | i in changes && i' in changes && token(i) == token(i') ensures i == i' {
      OneChange(r, i, i');
    }
    InjectionBound(changes, used, token);
  }

  /** The length check at the door holds for good: no account ever has a password shorter than eight characters. */
  lemma PasswordsLong(r: History, n: nat, u: Uid)
    requires r.Valid() && n <= |r.steps| && HasPassword(r.At(n).db, u)
    ensures |r.At(n).db.users[u].password.value.plain| >= 8
  {
    hide Apply, Enabled, Step, Commit, Begin;
    if |r.At(n).db.users[u].password.value.plain| < 8 {
      var i := Crossing(r, 0, n, (s: System) => ShortPassword(s.db, u));
      Effect(r, i);
      NewPassword(r.At(i).db, r.At(i).now, r.Wrote(i), u);
      SetLong(r, i);
    }
  }

  predicate ShortPassword(db: Tables, u: Uid) {
    HasPassword(db, u) && |db.users[u].password.value.plain| < MIN_PASSWORD
  }

  lemma NewPassword(db: Tables, now: Time, w: Write, u: Uid)
    ensures ShortPassword(Commit(db, now, w), u) && !ShortPassword(db, u) ==>
              || (w.UpdatePassword? && |w.phc.plain| < MIN_PASSWORD)
              || (w.InsertUser? && w.user.password.Some? && |w.user.password.value.plain| < MIN_PASSWORD)
  {
  }

  lemma SetLong(r: History, i: nat)
    requires r.Valid() && i < |r.steps|
    ensures r.Wrote(i).UpdatePassword? ==> |r.Wrote(i).phc.plain| >= MIN_PASSWORD
    ensures r.Wrote(i).InsertUser? && r.Wrote(i).user.password.Some? ==>
            |r.Wrote(i).user.password.value.plain| >= MIN_PASSWORD
  {
    hide Apply, Enabled, Step, Commit, Begin, ThreadSound, Warranted, CameBy;
    if r.Wrote(i).UpdatePassword? {
      var j, h := PasswordStep(r, i);
      RedeemStep(r, j, r.steps[i].tid, h);
      var x := EntryBySpawn(r, j);
      LongEnough(r.steps[x].req, r.At(x).now);
    } else if r.Wrote(i).InsertUser? && r.Wrote(i).user.password.Some? {
      Issued(r, i);
      assert Entry(r.Here(i));
      var x := EntryBySpawn(r, i);
      LongEnough(r.steps[x].req, r.At(x).now);
    }
  }

  /** A reset with a short password is refused by validation before any token is looked at. */
  lemma ShortRefused(raw: string, password: string, now: Time)
    ensures Begin(ResetPassword(raw, password), now) == Fail(Validation) <==> |password| < 8
    ensures |password| >= 8 ==> Begin(ResetPassword(raw, password), now) == ResetConsume(Sha256(raw), password)
  {
  }

  lemma LongEnough(req: Request, now: Time)
    ensures var k := Begin(req, now);
            k.RegisterInsert? || k.AdminInsert? || k.ResetConsume? ==> |k.password| >= MIN_PASSWORD
  {
  }

  // ---- accounts without a password ------------------------------------------------------

  /** Step `i` creates account `u`. */
  ghost predicate Creates(r: History, i: nat, u: Uid) { r.Acts(i) && r.Wrote(i).InsertUser? && r.Wrote(i).id == u }

  lemma {:induction false} Creation(r: History, n: nat, u: Uid) returns (i: nat)
    requires r.Valid() && n <= |r.steps| && u in r.At(n).db.users
    ensures i < n && Creates(r, i, u)
    ensures SameAccount(r.Wrote(i).user, r.At(n).db.users[u])
  {
    hide Apply, Enabled, Step, Commit;
    i := Crossing(r, 0, n, (s: System) => u in s.db.users);
    Changed(r, i, u, Sha256(""));
    Persist(r, i + 1, n);
  }

  /**
   * An account has a password exactly if it was registered or bootstrapped with one. An account made
   * by the Google callback has none, at any moment of any run, and no reset token or request past
   * its consumption ever names it.
   */
  lemma OauthOnly(r: History, n: nat, i: nat, u: Uid)
    requires r.Valid() && i < n <= |r.steps| && Creates(r, i, u)
    ensures u in r.At(n).db.users
    ensures HasPassword(r.At(n).db, u) <==> r.Here(i).RegisterInsert? || r.Here(i).AdminInsert?
    ensures !HasPassword(r.At(n).db, u) <==> r.Here(i).OauthInsert?
    ensures r.Here(i).OauthInsert? ==>
              && (forall h | h in r.At(n).db.resetTokens :: r.At(n).db.resetTokens[h].user != u)
              && (forall t | t in r.At(n).threads
                             && (r.At(n).threads[t].pc.ResetUpdate? || r.At(n).threads[t].pc.ResetRevoke?) ::
                    r.At(n).threads[t].pc.id != u)
  {
    hide Apply, Enabled, Step, Commit, ThreadSound, Sound, Warranted, CameBy, IdentitiesGrow, RefreshGrow, TokensGrow;
    hide ResetPasswords;
    Issued(r, i);
    Effect(r, i);
    Inserted(r.At(i).db, r.At(i).now, r.Wrote(i));
    Persist(r, i + 1, n);
    Reachable(r, n);
    if !HasPassword(r.At(n).db, u) {
      NeverNamed(r.At(n), u);
    }
  }

  lemma Inserted(db: Tables, now: Time, w: Write)
    requires w.InsertUser?
    ensures w.id in Commit(db, now, w).users && Commit(db, now, w).users[w.id] == w.user
  {
  }

  lemma NeverNamed(s: System, u: Uid)
    requires Inv(s) && !HasPassword(s.db, u)
    ensures forall h | h in s.db.resetTokens :: s.db.resetTokens[h].user != u
    ensures forall t | t in s.threads && (s.threads[t].pc.ResetUpdate? || s.threads[t].pc.ResetRevoke?) ::
            s.threads[t].pc.id != u
  {
    hide Constraints, Coherent;
  }

  // ---- e-mail verification ----------------------------------------------------------------

  /**
   * Both steps of a verification of `u`: `j` consumes one of `u`'s tokens, `i` marks the account, one
   * thread does both.
   */
  ghost predicate Verifies(r: History, j: nat, i: nat, h: Digest, u: Uid) {
    && j < i && r.Acts(j) && r.Acts(i) && r.steps[j].tid == r.steps[i].tid
    && r.Wrote(j) == UseVerification(h) && r.Here(i) == VerifyMark(h, u) && r.Wrote(i) == UpdateVerified(u)
    && h in r.At(j).db.verificationTokens && r.At(j).db.verificationTokens[h].user == u
  }

  /** An account is verified exactly if it was created so or some request completed both steps on a token of its own. */
  lemma {:induction false} VerifiedExactly(r: History, n: nat, u: Uid)
    requires r.Valid() && n <= |r.steps| && u in r.At(n).db.users
    ensures r.At(n).db.users[u].verified <==>
              || (exists i: nat :: i < n && Creates(r, i, u) && r.Wrote(i).user.verified)
              || (exists j: nat, i: nat, h :: i < n && Verifies(r, j, i, h, u))
  {
    hide Apply, Enabled, Step, Commit;
    if r.At(n).db.users[u].verified {
      BecameVerified(r, n, u);
    }
    if i: nat :| i < n && Creates(r, i, u) && r.Wrote(i).user.verified {
      VerifiedAfter(r, i, n, u);
    }
    if j: nat, i: nat, h :| i < n && Verifies(r, j, i, h, u) {
      MarkStep(r, i);
      VerifiedAfter(r, i, n, u);
    }
  }

  lemma MarkStep(r: History, i: nat)
    requires r.Valid() && r.Acts(i) && r.Here(i).VerifyMark?
    ensures r.Wrote(i) == UpdateVerified(r.Here(i).id) && r.Here(i).id in r.At(i).db.users
  {
    hide Apply, Enabled, UniqueEmails, RolesExist, IdentityUsers, RefreshUsers, OverrideKeys, Coherent;
    Issued(r, i);
  }

  lemma VerifiedAfter(r: History, i: nat, n: nat, u: Uid)
    requires r.Valid() && i < n <= |r.steps|
    requires || (r.Wrote(i).InsertUser? && r.Wrote(i).id == u && r.Wrote(i).user.verified)
             || (r.Wrote(i) == UpdateVerified(u) && u in r.At(i).db.users)
    ensures Verified(r.At(n).db, u)
  {
    hide Apply, Enabled, Step;
    Effect(r, i);
    Persist(r, i + 1, n);
  }

  lemma BecameVerified(r: History, n: nat, u: Uid)
    requires r.Valid() && n <= |r.steps| && u in r.At(n).db.users && r.At(n).db.users[u].verified
    ensures || (exists i: nat :: i < n && Creates(r, i, u) && r.Wrote(i).user.verified)
            || (exists j: nat, i: nat, h :: i < n && Verifies(r, j, i, h, u))
  {
    hide Apply, Enabled, Step, Commit;
    var i := Crossing(r, 0, n, (s: System) => u in s.db.users && s.db.users[u].verified);
    Changed(r, i, u, Sha256(""));
    if r.Wrote(i).InsertUser? {
      assert Creates(r, i, u);
    } else {
      assert r.Wrote(i) == UpdateVerified(u);
      MarkIsVerification(r, i, u);
    }
  }

  lemma MarkIsVerification(r: History, i: nat, u: Uid)
    requires r.Valid() && r.Acts(i) && r.Wrote(i) == UpdateVerified(u)
    ensures exists j: nat, h :: Verifies(r, j, i, h, u)
  {
    hide Apply, Enabled, Step, Commit;
    Issued(r, i);
    var j := Came(r, i, r.steps[i].tid);
    assert Verifies(r, j, i, r.Here(i).hash, u);
  }

  lemma ConsumeStep(r: History, j: nat, h: Digest)
    requires r.Valid() && r.Acts(j) && r.Wrote(j) == UseVerification(h)
    ensures Consumable(r.At(j).db.verificationTokens, h, r.At(j).now)
    ensures r.Next(j) == VerifyMark(h, r.At(j).db.verificationTokens[h].user)
  {
    hide Apply, Enabled, Warranted, Sound, ThreadSound, Commit;
    Issued(r, j);
  }

  /**
   * A used verification token's user is verified, or the request that used it stands, running or abandoned,
   * just before the marking step.
   */
  lemma UsedVerification(r: History, n: nat, h: Digest)
    requires r.Valid() && n <= |r.steps| && Used(r.At(n).db.verificationTokens, h)
    ensures var u := r.At(n).db.verificationTokens[h].user;
            || Verified(r.At(n).db, u)
            || (exists t :: t in r.At(n).threads && r.At(n).threads[t].pc == VerifyMark(h, u))
  {
    hide Apply, Enabled, Step, Commit, UsersGrow, IdentitiesGrow, RefreshGrow, Verified;
    var j := Crossing(r, 0, n, (s: System) => Used(s.db.verificationTokens, h));
    Changed(r, j, 0, h);
    ConsumeStep(r, j, h);
    Persist(r, j, n);
    MarkPending(r, j, n, h);
  }

  lemma {:induction false} MarkPending(r: History, j: nat, n: nat, h: Digest)
    requires r.Valid() && j < n <= |r.steps| && r.Acts(j) && r.Wrote(j) == UseVerification(h)
    requires h in r.At(j).db.verificationTokens
    ensures var u, t := r.At(j).db.verificationTokens[h].user, r.steps[j].tid;
            || Verified(r.At(n).db, u)
            || (t in r.At(n).threads && r.At(n).threads[t].pc == VerifyMark(h, u))
  {
    hide Apply, Enabled, Step, Commit;
    ConsumeStep(r, j, h);
    var u, t := r.At(j).db.verificationTokens[h].user, r.steps[j].tid;
    Effect(r, j);
    var m := FirstMove(r, j + 1, n, t);
    Unmoved(r, j + 1, m, t);
    if m < n {
      Stopped(r, j + 1, n, t);
      MarkStep(r, m);
      VerifiedAfter(r, m, n, u);
    }
  }

  /**
   * A verification token is consumed within a day of being stored, for the account it was stored for;
   * and that account asked for it, by registering or, while unverified, by asking again as itself.
   */
  lemma VerificationChain(r: History, j: nat, h: Digest) returns (m: nat)
    requires r.Valid() && r.Acts(j) && r.Wrote(j) == UseVerification(h)
    ensures Consumable(r.At(j).db.verificationTokens, h, r.At(j).now)
    ensures m < j && r.Acts(m) && r.Wrote(m).InsertVerification? && r.Wrote(m).hash == h
    ensures r.Wrote(m).token.user == r.At(j).db.verificationTokens[h].user
    ensures r.At(j).now < r.At(m).now + 24 * HOUR
    ensures r.Here(m).RegisterMail? ||
            (exists f: nat :: f < m && r.Acts(f) && r.steps[f].tid == r.steps[m].tid
                              && Asks(r, f, r.Wrote(m).token.user))
  {
    hide Apply, Enabled, Step, Commit, UsersGrow, IdentitiesGrow, RefreshGrow;
    ConsumeStep(r, j, h);
    m := Crossing(r, 0, j, (s: System) => h in s.db.verificationTokens);
    VerificationStored(r, m, h);
    Persist(r, m + 1, j);
  }

  /** Step `f` finds that `u`, on whose behalf it runs, has an unverified address. */
  ghost predicate Asks(r: History, f: nat, u: Uid) {
    r.Acts(f) && r.Here(f).ResendFind? && r.Here(f).actor.id == u
    && u in r.At(f).db.users && !r.At(f).db.users[u].verified && r.At(f).db.users[u].email.Some?
  }

  lemma NewVerification(db: Tables, now: Time, w: Write, h: Digest)
    requires h !in db.verificationTokens && h in Commit(db, now, w).verificationTokens
    ensures w == InsertVerification(h, Commit(db, now, w).verificationTokens[h])
  {
  }

  lemma VerificationStored(r: History, m: nat, h: Digest)
    requires r.Valid() && m < |r.steps| && h !in r.At(m).db.verificationTokens && h in r.At(m + 1).db.verificationTokens
    ensures r.Acts(m) && r.Wrote(m).InsertVerification?
    ensures r.Wrote(m) == InsertVerification(h, r.At(m + 1).db.verificationTokens[h])
    ensures r.Wrote(m).token.expiresAt == r.At(m).now + 24 * HOUR
    ensures r.Here(m).RegisterMail? ||
            (exists f: nat :: f < m && r.Acts(f) && r.steps[f].tid == r.steps[m].tid
                              && Asks(r, f, r.Wrote(m).token.user))
  {
    hide Apply, Enabled, Step, Inv, ThreadSound, Warranted, Commit, Session, Issue, RoleIdFor, PermissionIdFor;
    hide Consumable, Usable, PermissionsFor, FindByOauth;
    Effect(r, m);
    Issued(r, m);
    NewVerification(r.At(m).db, r.At(m).now, r.Wrote(m), h);
    if !r.Here(m).RegisterMail? {
      var f := Came(r, m, r.steps[m].tid);
      assert Asks(r, f, r.Wrote(m).token.user);
    }
  }

  // ---- a reset closes earlier sessions ---------------------------------------------------------

  lemma ClosingWrite(r: History, i: nat)
    requires r.Valid() && r.Acts(i) && r.Here(i).ResetRevoke?
    ensures r.Wrote(i) == RevokeAllRefresh(r.Here(i).id)
  {
    hide Apply, Enabled;
  }

  /**
   * Once a reset of `u` reaches its last step, every token of `u` stored before it is revoked for good, and
   * nobody else's changed.
   */
  lemma ResetCloses(r: History, i: nat, n: nat, u: Uid, h: Digest)
    requires r.Valid() && i < n <= |r.steps| && r.Acts(i) && r.Here(i).ResetRevoke? && r.Here(i).id == u
    requires h in r.At(i).db.refreshTokens
    ensures h in r.At(n).db.refreshTokens
    ensures r.At(i).db.refreshTokens[h].user == u ==> r.At(n).db.refreshTokens[h].Revoked()
    ensures r.At(i).db.refreshTokens[h].user != u ==>
              h in r.At(i + 1).db.refreshTokens && r.At(i + 1).db.refreshTokens[h] == r.At(i).db.refreshTokens[h]
  {
    hide Apply, Enabled, Step, UsersGrow, IdentitiesGrow, TokensGrow, Warranted, Sound, CameBy;
    ClosingWrite(r, i);
    Effect(r, i);
    Persist(r, i + 1, n);
  }

  /** So a token of `u` still live at `n` was stored after that step. */
  lemma {:induction false} LiveSinceReset(r: History, i: nat, n: nat, u: Uid, h: Digest) returns (m: nat)
    requires r.Valid() && i < n <= |r.steps| && r.Acts(i) && r.Here(i).ResetRevoke? && r.Here(i).id == u
    requires h in r.At(n).db.refreshTokens && r.At(n).db.refreshTokens[h].user == u
    requires !r.At(n).db.refreshTokens[h].Revoked()
    ensures i < m < n && r.Acts(m) && r.Wrote(m).InsertRefresh? && r.Wrote(m).hash == h
  {
    hide Apply, Enabled, Step, Commit, UsersGrow, IdentitiesGrow, TokensGrow;
    if h in r.At(i).db.refreshTokens {
      Persist(r, i, n);
      ResetCloses(r, i, n, u, h);
    }
    m := Crossing(r, i, n, (s: System) => h in s.db.refreshTokens);
    Changed(r, m, 0, h);
    ClosingWrite(r, i);
  }
}
