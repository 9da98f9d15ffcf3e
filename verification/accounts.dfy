/** Which account a request is about: the one just registered, and the one an OAuth subject is bound to. */
module Accounts {
  import opened Basics
  import opened Schema
  import opened Queries
  import opened Handlers
  import opened Runs
  import opened Growth
  import opened Locals
  import opened Origins
  import opened Integrity
  import opened Serial
  import opened Rbac
  import opened Tokens

  // ---- registration -----------------------------------------------------------------------

  /** At every moment at most one account answers to an address, whatever its case, and looking it up finds that one. */
  lemma {:induction false} EmailFindsOne(r: History, n: nat, u: Uid, email: string)
    requires r.Valid() && n <= |r.steps| && u in r.At(n).db.users && HasEmail(r.At(n).db.users[u], email)
    ensures forall v | v in r.At(n).db.users && HasEmail(r.At(n).db.users[v], email) :: v == u
    ensures FindByEmail(r.At(n).db, email).Some? && FindByEmail(r.At(n).db, email).value.id == u
  {
    hide Apply, Enabled, Fold, ParseRole;
    Reachable(r, n);
    assert Joins(r.At(n).db, u);
  }

  /** A registration that gets past validation fails, with the database's own error, exactly if the address is taken. */
  lemma {:induction false} RegistrationFails(r: History, t: nat, n: nat, i: nat)
    requires r.Valid() && i < n <= |r.steps| && r.Acts(i) && r.steps[i].tid == t && r.Here(i).RegisterInsert?
    requires t in r.At(n).threads && r.At(n).threads[t].pc.Done?
    ensures EmailTaken(r.At(i).db, Some(r.Here(i).email)) ==>
            r.At(n).threads[t].pc == Fail(Database) && r.Wrote(i) == NoWrite
    ensures !EmailTaken(r.At(i).db, Some(r.Here(i).email)) ==> r.At(n).threads[t].pc.outcome.Tokens?
  {
    hide Apply, Enabled, Step, EmailTaken, Commit;
    InsertFails(r, i);
    Effect(r, i);
    if EmailTaken(r.At(i).db, Some(r.Here(i).email)) {
      Stopped(r, i + 1, n, t);
    } else {
      StaysRegistering(r, i + 1, n, t);
    }
  }

  lemma InsertFails(r: History, i: nat)
    requires r.Valid() && r.Acts(i) && r.Here(i).RegisterInsert?
    ensures EmailTaken(r.At(i).db, Some(r.Here(i).email)) ==> r.Next(i) == Fail(Database) && r.Wrote(i) == NoWrite
    ensures !EmailTaken(r.At(i).db, Some(r.Here(i).email)) ==> r.Next(i).RegisterStore?
  {
    hide Apply, EmailTaken, RoleIdFor, Presentable, Fresh, Begin, Catalogue;
    Reachable(r, i);
    RoleEncoding(r.At(i).db, User);
  }

  predicate Registering(k: Pc) {
    k.RegisterStore? || k.RegisterFind? || k.RegisterMail? || (k.Done? && k.outcome.Tokens?)
  }

  /** Once the account is there nothing in the rest of the registration can refuse it. */
  lemma {:induction false} StaysRegistering(r: History, i: nat, n: nat, t: nat)
    requires r.Valid() && i <= n <= |r.steps| && t in r.At(i).threads && Registering(r.At(i).threads[t].pc)
    ensures t in r.At(n).threads && Registering(r.At(n).threads[t].pc)
  {
    hide Step, Begin, Commit, Fresh, Presentable;
    if i < n {
      StaysRegistering(r, i, n - 1, t);
      assert r.Legal(n - 1);
      if r.Acts(n - 1) && r.steps[n - 1].tid == t {
        RegistersOn(r, n - 1);
      }
    }
  }

  lemma RegistersOn(r: History, i: nat)
    requires r.Valid() && r.Acts(i) && Registering(r.Here(i))
    ensures Registering(r.Next(i))
  {
    hide Apply, Begin, Presentable, FindByEmail, MailVerification, Commit;
    Issued(r, i);
    assert r.Legal(i);
  }

  /**
   * After a registration stores its session, the look-up by address finds the account that registration
   * created, under any interleaving.
   */
  lemma RegistrationFindsItself(r: History, i: nat) returns (j: nat)
    requires r.Valid() && r.Acts(i) && r.Here(i).RegisterFind?
    ensures var pair := r.Here(i).pair;
            r.Next(i) == if r.steps[i].choice.lost then Done(Tokens(pair)) else RegisterMail(pair.access.sub, pair)
    ensures j < i && Creates(r, j, r.Here(i).pair.access.sub) && r.steps[j].tid == r.steps[i].tid
    ensures r.Here(j).RegisterInsert? && r.Here(j).email == r.Here(i).email
  {
    hide Apply, Enabled, Step, Sound, Warranted, IssuedBy, Fold, UsersAfter;
    var u, t := r.Here(i).pair.access.sub, r.steps[i].tid;
    Issued(r, i);
    EmailFindsOne(r, i, u, r.Here(i).email);
    FoundMails(r.At(i).cfg, r.At(i).db, r.At(i).now, r.Here(i), r.steps[i].choice);
    var s := Came(r, i, t);
    j := Came(r, s, t);
  }

  lemma FoundMails(cfg: Config, db: Tables, now: Time, k: Pc, c: Choice)
    requires k.RegisterFind? && FindByEmail(db, k.email).Some?
    ensures Step(cfg, db, now, k, c).1 ==
            if c.lost then Done(Tokens(k.pair)) else RegisterMail(FindByEmail(db, k.email).value.id, k.pair)
  {
    hide FindByEmail;
  }

  /** So the verification token goes to the account just created. */
  lemma RegistrationMailsItself(r: History, i: nat) returns (j: nat)
    requires r.Valid() && r.Acts(i) && r.Here(i).RegisterMail?
    ensures j < i && Creates(r, j, r.Here(i).id) && r.steps[j].tid == r.steps[i].tid && r.Here(j).RegisterInsert?
    ensures r.Here(i).id == r.Here(i).pair.access.sub
    ensures if r.steps[i].choice.lost then r.Wrote(i) == NoWrite
            else r.Wrote(i).InsertVerification?
                 && r.Wrote(i).token == OneTimeRow(r.Here(i).id, r.At(i).now + 24 * 3600, None)
  {
    hide Apply, Enabled, Step, Sound, Warranted, CameBy, UsersAfter;
    var f := MailedAfterFind(r, i);
    j := RegistrationFindsItself(r, f);
    Issued(r, i);
    assert r.Legal(i);
    MailStores(r, i);
  }

  lemma MailedAfterFind(r: History, i: nat) returns (f: nat)
    requires r.Valid() && r.Acts(i) && r.Here(i).RegisterMail?
    ensures f < i && r.Acts(f) && r.steps[f].tid == r.steps[i].tid && r.Here(f).RegisterFind?
    ensures r.Here(f).pair == r.Here(i).pair
  {
    hide Apply, Enabled, Step, UsersAfter;
    f := Came(r, i, r.steps[i].tid);
  }

  lemma MailStores(r: History, i: nat)
    requires r.Valid() && r.Acts(i) && r.Here(i).RegisterMail?
    ensures if r.steps[i].choice.lost then r.Wrote(i) == NoWrite else r.Wrote(i).InsertVerification?
  {
    hide Apply, Presentable;
    Issued(r, i);
    assert r.Legal(i);
  }

  // ---- OAuth identities: every interleaving ---------------------------------------------------

  /** Whoever a (provider, subject) pair was bound to first, it stays bound to. */
  lemma {:induction false} OwnerFixed(r: History, i: nat, n: nat, key: (string, string))
    requires r.Valid() && i <= n <= |r.steps| && key in r.At(i).db.identities
    ensures key in r.At(n).db.identities && r.At(n).db.identities[key].user == r.At(i).db.identities[key].user
  {
    hide Apply, Enabled, UsersGrow, RefreshGrow, TokensGrow;
    Persist(r, i, n);
  }

  lemma BindEffect(r: History, i: nat)
    requires r.Valid() && r.Acts(i) && r.Here(i).OauthBind?
    ensures var key := r.Here(i).profile.Key();
            && key in r.At(i + 1).db.identities
            && r.At(i + 1).db.identities[key].user ==
               (if key in r.At(i).db.identities then r.At(i).db.identities[key].user else r.Here(i).id)
            && r.At(i + 1).db.identities[key].email == r.Here(i).profile.email
  {
    hide Apply, Enabled, UniqueEmails, RolesExist, RefreshUsers, TokenUsers, OverrideKeys;
    Issued(r, i);
  }

  lemma NewIdentity(identities: map<(string, string), IdentityRow>, w: Write, key: (string, string))
    requires key !in identities && key in IdentitiesAfter(identities, w)
    ensures w.UpsertIdentity? && w.key == key && IdentitiesAfter(identities, w)[key] == w.identity
  {
  }

  /** The step that first bound `key`. */
  lemma BindStep(r: History, n: nat, key: (string, string)) returns (i: nat)
    requires r.Valid() && n <= |r.steps| && key in r.At(n).db.identities
    ensures i < n && r.Acts(i) && r.Here(i).OauthBind? && r.Here(i).profile.Key() == key
    ensures key !in r.At(i).db.identities
    ensures r.At(n).db.identities[key].user == r.Here(i).id
  {
    hide Apply, Enabled, Step, Sound, Warranted, UsersAfter, RefreshAfter, ThreadSound, CameBy;
    i := Crossing(r, 0, n, (s: System) => key in s.db.identities);
    Changed(r, i, 0, Sha256(""));
    Issued(r, i);
    NewIdentity(r.At(i).db.identities, r.Wrote(i), key);
    OwnerFixed(r, i + 1, n, key);
  }

  /** A thread binding a subject that is still unknown has just created the account it binds. */
  lemma BindAfterInsert(r: History, i: nat) returns (j: nat)
    requires r.Valid() && r.Acts(i) && r.Here(i).OauthBind? && r.Here(i).profile.Key() !in r.At(i).db.identities
    ensures j < i && Creates(r, j, r.Here(i).id) && r.Here(j) == OauthInsert(r.Here(i).profile)
    ensures r.steps[j].tid == r.steps[i].tid
    ensures forall m | j < m < i :: !r.Moves(m, r.steps[i].tid)
  {
    hide Apply, Enabled, Step, UsersAfter, RefreshAfter, ThreadSound, IdentitiesAfter;
    j := Came(r, i, r.steps[i].tid);
    if r.Here(j).OauthFind? {
      OwnerFixed(r, j, i, r.Here(i).profile.Key());
    }
  }

  /** An identity is first bound by the very request that created its owner. */
  lemma {:induction false} FirstBind(r: History, n: nat, key: (string, string)) returns (j: nat, i: nat)
    requires r.Valid() && n <= |r.steps| && key in r.At(n).db.identities
    ensures j < i < n && r.Acts(i) && r.Here(i).OauthBind? && r.Here(i).profile.Key() == key
    ensures Creates(r, j, r.At(n).db.identities[key].user) && r.steps[j].tid == r.steps[i].tid
    ensures r.Here(j) == OauthInsert(r.Here(i).profile) && r.Moves(i, r.steps[i].tid)
    ensures forall m | j < m < i :: !r.Moves(m, r.steps[i].tid)
  {
    hide Apply, Enabled, Step;
    i := BindStep(r, n, key);
    j := BindAfterInsert(r, i);
  }

  lemma CreatedOnce(r: History, i: nat, j: nat, u: Uid)
    requires r.Valid() && Creates(r, i, u) && Creates(r, j, u)
    ensures i == j
  {
    hide Apply, Enabled, Step;
    if i < j {
      CreatedEarlier(r, i, j, u);
    } else if j < i {
      CreatedEarlier(r, j, i, u);
    }
  }

  lemma CreatedEarlier(r: History, i: nat, j: nat, u: Uid)
    requires r.Valid() && i < j && r.Acts(j) && Creates(r, i, u)
    ensures !Creates(r, j, u)
  {
    hide Apply, Enabled, Step, IdentitiesGrow, RefreshGrow, TokensGrow, IssuedBy, CameBy, ThreadSound;
    Effect(r, i);
    Persist(r, i + 1, j);
    Issued(r, j);
  }

  ghost function OauthMade(r: History, n: nat): set<Uid>
    requires n <= |r.steps|
  {
    set u | u in r.At(n).db.users && exists j: nat :: j < n && Creates(r, j, u) && r.Here(j).OauthInsert?
  }

  function OwnerOf(db: Tables, key: (string, string)): Uid {
    if key in db.identities then db.identities[key].user else 0
  }

  /** No two identities share an owner. */
  lemma OwnersDiffer(r: History, n: nat, key: (string, string), key': (string, string))
    requires r.Valid() && n <= |r.steps| && key in r.At(n).db.identities && key' in r.At(n).db.identities
    requires r.At(n).db.identities[key].user == r.At(n).db.identities[key'].user
    ensures key == key'
  {
    hide Apply, Enabled, Step;
    var j, i := FirstBind(r, n, key);
    var j', i' := FirstBind(r, n, key');
    CreatedOnce(r, j, j', r.At(n).db.identities[key].user);
    assert r.Moves(i, r.steps[i].tid) && r.Moves(i', r.steps[i'].tid);
  }

  /** There are never more identities than accounts made for them. */
  lemma {:induction false} IdentitiesBounded(r: History, n: nat)
    requires r.Valid() && n <= |r.steps|
    ensures |r.At(n).db.identities.Keys| <= |OauthMade(r, n)|
  {
    hide Apply, Enabled, Step;
    var db := r.At(n).db;
    var owner := (key: (string, string)) => OwnerOf(db, key);
    forall key | key in db.identities.Keys ensures owner(key) in OauthMade(r, n) {
      var j, i := FirstBind(r, n, key);
      Reachable(r, n);
    }
    forall key, key' | key in db.identities.Keys && key' in db.identities.Keys && owner(key) == owner(key')
      ensures key == key'
    {
      OwnersDiffer(r, n, key, key');
    }
    InjectionBound(db.identities.Keys, OauthMade(r, n), owner);
  }

  // ---- OAuth identities: callbacks for one subject that do not overlap -----------------------------

  predicate Calls(req: Request, key: (string, string)) { req.GoogleCallback? && req.profile.Key() == key }

  /** A callback for `key` that has not bound its subject yet. */
  predicate Calling(k: Pc, key: (string, string)) {
    (k.OauthFind? || k.OauthInsert? || k.OauthBind?) && k.profile.Key() == key
  }

  ghost predicate NobodyCalling(s: System, key: (string, string)) {
    forall t | t in s.threads && s.threads[t].Active() :: !Calling(s.threads[t].pc, key)
  }

  /**
   * A callback for `key` starts only when every earlier one has bound its subject or been abandoned;
   * whatever else overlaps.
   */
  ghost predicate Apart(r: History, key: (string, string)) {
    && r.Valid()
    && forall y {:trigger r.steps[y]} | 0 <= y < |r.steps| && r.steps[y].Spawn? && Calls(r.steps[y].req, key) ::
         NobodyCalling(r.At(y), key)
  }

  lemma IsValid(r: History, key: (string, string))
    requires Apart(r, key)
    ensures r.Valid()
  {
    hide History.Valid;
  }

  /** One request at a time is more than enough. */
  lemma OneAtATimeIsApart(r: History, key: (string, string))
    requires OneAtATime(r)
    ensures Apart(r, key)
  {
    hide Apply, History.Valid;
  }

  lemma {:induction false} CallingSince(r: History, n: nat, i: nat, t: nat, key: (string, string))
    requires r.Valid() && n <= i && r.Acts(i) && r.steps[i].tid == t && Calling(r.Here(i), key) && t in r.At(n).threads
    ensures Calling(r.At(n).threads[t].pc, key) && r.At(n).threads[t].pc.profile == r.Here(i).profile
    decreases i - n
  {
    hide Step, Begin, Commit, Presentable, Fresh, Warranted, ThreadSound, IssuedBy, Inv;
    if n < i {
      Effect(r, n);
      assert r.Legal(n);
      CallingSince(r, n + 1, i, t, key);
      if r.Acts(n) && r.steps[n].tid == t {
        Issued(r, n);
      }
    }
  }

  /** How a callback began. */
  lemma CalledAt(r: History, n: nat, i: nat, t: nat, key: (string, string)) returns (x: nat)
    requires r.Valid() && n <= i && r.Acts(i) && r.steps[i].tid == t && Calling(r.Here(i), key) && t in r.At(n).threads
    ensures x < n && r.steps[x] == Spawn(t, Request.GoogleCallback(r.Here(i).profile)) && t in r.At(x + 1).threads
  {
    hide Step, Begin, Commit, Presentable, Fresh;
    x := SpawnedAt(r, n, t);
    CallingSince(r, x + 1, i, t, key);
    BeganCalling(r.steps[x].req, r.At(x).now, key);
  }

  lemma BeganCalling(req: Request, now: Time, key: (string, string))
    requires Calling(Begin(req, now), key)
    ensures req == Request.GoogleCallback(Begin(req, now).profile)
  {
  }

  /** While a callback that will act again has not bound its subject no other callback for that subject is alive. */
  lemma NoOtherCallback(r: History, m: nat, i: nat, t: nat, key: (string, string))
    requires Apart(r, key) && m < i && r.Acts(i) && r.steps[i].tid == t && Calling(r.Here(i), key)
    requires t in r.At(m).threads
    ensures r.Acts(m) && Calling(r.Here(m), key) ==> r.Moves(m, t)
  {
    hide Apply, Enabled, Presentable, History.Valid, Apart;
    assert r.Valid() by { IsValid(r, key); }
    if r.Acts(m) && Calling(r.Here(m), key) && r.steps[m].tid != t {
      var u := r.steps[m].tid;
      var x := CalledAt(r, m, i, t, key);
      var y := CalledAt(r, m, m, u, key);
      if x < y {
        NotAtSpawn(r, x, y, i, t, key);
      } else {
        NotAtSpawn(r, y, x, m, u, key);
      }
    }
  }

  /** A callback that has started and will still bind is in the way of the next. */
  lemma NotAtSpawn(r: History, x: nat, y: nat, i: nat, t: nat, key: (string, string))
    requires Apart(r, key) && x < y < i && r.Acts(i) && r.steps[i].tid == t && Calling(r.Here(i), key)
    requires t in r.At(x + 1).threads
    ensures !(r.steps[y].Spawn? && Calls(r.steps[y].req, key))
  {
    hide Apply, Enabled, Presentable, History.Valid;
    Stopped(r, x + 1, y, t);
    CallingSince(r, y, i, t, key);
    Alive(r, y, i, t);
  }

  /** Then a callback always ends with the subject bound to the account it signs in. */
  lemma {:induction false} BindsOwn(r: History, i: nat)
    requires r.Acts(i) && r.Here(i).OauthBind? && Apart(r, r.Here(i).profile.Key())
    ensures r.Here(i).profile.Key() in r.At(i + 1).db.identities
    ensures r.At(i + 1).db.identities[r.Here(i).profile.Key()].user == r.Here(i).id
  {
    hide Apply, Enabled, Step, NobodyCalling, UsersAfter, RefreshAfter, IdentitiesAfter;
    var key, t := r.Here(i).profile.Key(), r.steps[i].tid;
    BindEffect(r, i);
    if key in r.At(i).db.identities {
      var j := Came(r, i, t);
      if r.Here(j).OauthFind? {
        OwnerFixed(r, j, i, key);
      } else {
        UnknownUntil(r, j, i, t, key);
      }
    }
  }

  /** Between the look-up that misses and the bind nobody else can bind the subject. */
  lemma UnknownUntil(r: History, j: nat, i: nat, t: nat, key: (string, string))
    requires Apart(r, key) && j < i && r.Acts(i) && r.steps[i].tid == t && r.Acts(j) && r.steps[j].tid == t
    requires r.Here(j).OauthInsert? && r.Here(j).profile.Key() == key && Calling(r.Here(i), key)
    requires forall m | j < m < i :: !r.Moves(m, t)
    ensures key !in r.At(i).db.identities
  {
    hide Apply, Enabled, Step, Commit, Apart, History.Valid, Calling;
    assert r.Valid() by { IsValid(r, key); }
    var f := MissedAt(r, j);
    if key in r.At(i).db.identities {
      var m := Crossing(r, f, i, (s: System) => key in s.db.identities);
      BoundAt(r, m, key);
      Stopped(r, f, m, t);
      NoOtherCallback(r, m, i, t, key);
      NotMine(r, f, j, i, m, t);
    }
  }

  lemma NotMine(r: History, f: nat, j: nat, i: nat, m: nat, t: nat)
    requires f <= m < i <= |r.steps| && r.Acts(f) && r.Acts(j) && r.Here(f).OauthFind? && r.Here(j).OauthInsert?
    requires forall x | f < x < i && r.Moves(x, t) :: x == j
    ensures !(r.Acts(m) && r.Here(m).OauthBind? && r.Moves(m, t))
  {
    hide Apply, Step;
  }

  lemma MissedAt(r: History, j: nat) returns (f: nat)
    requires r.Valid() && r.Acts(j) && r.Here(j).OauthInsert?
    ensures f < j && r.Ran(f, r.steps[j].tid, OauthFind(r.Here(j).profile))
    ensures r.Here(j).profile.Key() !in r.At(f).db.identities
    ensures forall m | f < m < j :: !r.Moves(m, r.steps[j].tid)
  {
    hide Apply, Enabled, Step, UsersAfter, RefreshAfter, IdentitiesAfter, Record, UniqueEmails;
    f := Came(r, j, r.steps[j].tid);
    Reachable(r, f);
  }

  lemma BoundAt(r: History, m: nat, key: (string, string))
    requires r.Valid() && m < |r.steps| && key !in r.At(m).db.identities && key in r.At(m + 1).db.identities
    ensures r.Acts(m) && r.Here(m).OauthBind? && Calling(r.Here(m), key)
  {
    hide Apply, Enabled, Step, UsersAfter, RefreshAfter, Sound, Warranted, ThreadSound, CameBy;
    Changed(r, m, 0, Sha256(""));
    Issued(r, m);
    NewIdentity(r.At(m).db.identities, r.Wrote(m), key);
  }

  /** So all callbacks for a subject sign in the same account. */
  lemma {:induction false} SameAccountAgain(r: History, i: nat, i': nat)
    requires r.Acts(i) && r.Acts(i') && r.Here(i).OauthBind? && r.Here(i').OauthBind?
    requires r.Here(i).profile.Key() == r.Here(i').profile.Key() && Apart(r, r.Here(i).profile.Key())
    ensures r.Here(i).id == r.Here(i').id
  {
    hide Apply, Enabled, Step, NobodyCalling;
    BindsOwn(r, i);
    BindsOwn(r, i');
    if i < i' {
      OwnerFixed(r, i + 1, i' + 1, r.Here(i).profile.Key());
    } else {
      OwnerFixed(r, i' + 1, i + 1, r.Here(i).profile.Key());
    }
  }

  // ---- OAuth identities: callbacks that carry one address ------------------------------------------

  /** Every account signed in for a subject was created by a callback for that subject. */
  lemma BinderMade(r: History, i: nat) returns (j: nat)
    requires r.Valid() && r.Acts(i) && r.Here(i).OauthBind?
    ensures j < i && Creates(r, j, r.Here(i).id) && r.Here(j).OauthInsert?
    ensures Calling(r.Here(j), r.Here(i).profile.Key())
  {
    hide Apply, Enabled, Step, UsersAfter, RefreshAfter, ThreadSound, IdentitiesAfter;
    j := Came(r, i, r.steps[i].tid);
    if r.Here(j).OauthFind? {
      var j', b := FirstBind(r, j, r.Here(i).profile.Key());
      j := j';
    }
  }

  predicate Carries(p: Profile, address: string) { p.email.Some? && Fold(p.email.value) == Fold(address) }

  /** An account a callback made keeps the address the callback brought. */
  lemma {:induction false} AddressKept(r: History, j: nat, n: nat, u: Uid, address: string)
    requires r.Valid() && j < n <= |r.steps| && Creates(r, j, u) && r.Here(j).OauthInsert?
    requires Carries(r.Here(j).profile, address)
    ensures u in r.At(n).db.users && HasEmail(r.At(n).db.users[u], address)
  {
    hide Apply, Enabled, Step, Commit, Fold, CameBy, ThreadSound, Warranted, IdentitiesGrow, RefreshGrow, TokensGrow;
    Issued(r, j);
    Inserted(r.At(j).db, r.At(j).now, r.Wrote(j));
    Persist(r, j + 1, n);
  }

  /**
   * However they overlap, callbacks for a subject sign in one account if those that would create it all
   * carry one address.
   */
  lemma {:induction false} OneAddressOneAccount(r: History, i: nat, i': nat, key: (string, string), address: string)
    requires r.Valid() && r.Acts(i) && r.Acts(i') && r.Here(i).OauthBind? && r.Here(i').OauthBind?
    requires Calling(r.Here(i), key) && Calling(r.Here(i'), key)
    requires forall m: nat | r.Acts(m) && r.Here(m).OauthInsert? && Calling(r.Here(m), key) ::
              Carries(r.Here(m).profile, address)
    ensures r.Here(i).id == r.Here(i').id
  {
    hide Apply, Enabled, Step, Commit, Carries;
    var j := BinderMade(r, i);
    var j' := BinderMade(r, i');
    AddressKept(r, j, |r.steps|, r.Here(i).id, address);
    AddressKept(r, j', |r.steps|, r.Here(i').id, address);
    EmailFindsOne(r, |r.steps|, r.Here(i).id, address);
  }

  predicate BoundTo(db: Tables, key: (string, string), id: Uid) {
    key in db.identities && db.identities[key].user == id
  }

  /** Every thread before a bind, running or abandoned, finds its subject bound to its account already. */
  ghost predicate NothingUnbound(s: System) {
    forall t | t in s.threads && s.threads[t].pc.OauthBind? ::
      BoundTo(s.db, s.threads[t].pc.profile.Key(), s.threads[t].pc.id)
  }

  ghost predicate AllApart(r: History) { r.Valid() && forall key {:trigger Apart(r, key)} :: Apart(r, key) }

  ghost predicate OwnsIdentity(db: Tables, u: Uid) { exists key :: BoundTo(db, key, u) }

  /**
   * If callbacks for one subject never overlap, the accounts made for subjects and the identities are
   * equal in number exactly if no callback stands, or was abandoned, before a first bind.
   */
  lemma IdentitiesMatch(r: History, n: nat)
    requires AllApart(r) && n <= |r.steps|
    ensures |r.At(n).db.identities.Keys| == |OauthMade(r, n)| <==> NothingUnbound(r.At(n))
  {
    hide Apply, Enabled, Step, Apart, NothingUnbound, OauthMade, OwnsIdentity;
    IdentitiesBounded(r, n);
    if NothingUnbound(r.At(n)) {
      forall u | u in OauthMade(r, n) ensures OwnsIdentity(r.At(n).db, u) { MadeIsBound(r, n, u); }
      AllOwn(r.At(n).db, OauthMade(r, n));
    } else {
      var t := Unbound(r, n);
      NeverOwns(r, n, t);
      FewerIdentities(r, n, r.At(n).threads[t].pc.id);
    }
  }

  lemma AllOwn(db: Tables, made: set<Uid>)
    requires forall u | u in made :: OwnsIdentity(db, u)
    ensures |made| <= |db.identities.Keys|
  {
    var identity := (u: Uid) => if OwnsIdentity(db, u) then var key :| BoundTo(db, key, u); key else ("", "");
    InjectionBound(made, db.identities.Keys, identity);
  }

  lemma {:induction false} Unbound(r: History, n: nat) returns (t: nat)
    requires n <= |r.steps| && !NothingUnbound(r.At(n))
    ensures t in r.At(n).threads && Stranded(r.At(n), t)
  {
    hide Apply;
    t :| t in r.At(n).threads && r.At(n).threads[t].pc.OauthBind?
         && !BoundTo(r.At(n).db, r.At(n).threads[t].pc.profile.Key(), r.At(n).threads[t].pc.id);
  }

  /** Thread `t` stands, or was abandoned, before a bind that its account still lacks. */
  ghost predicate Stranded(s: System, t: nat) {
    && t in s.threads && s.threads[t].pc.OauthBind?
    && !BoundTo(s.db, s.threads[t].pc.profile.Key(), s.threads[t].pc.id)
  }

  /** Such a thread has just created its account, */
  lemma {:induction false} StrandedCreator(r: History, n: nat, t: nat) returns (j: nat)
    requires r.Valid() && n <= |r.steps| && Stranded(r.At(n), t)
    ensures j < n && Creates(r, j, r.At(n).threads[t].pc.id) && r.steps[j].tid == t
    ensures r.Here(j) == OauthInsert(r.At(n).threads[t].pc.profile) && forall m | j < m < n :: !r.Moves(m, t)
  {
    hide Apply, Enabled, Step, UsersAfter, RefreshAfter, ThreadSound, IdentitiesAfter;
    j := Came(r, n, t);
    if r.Here(j).OauthFind? {
      OwnerFixed(r, j, n, r.At(n).threads[t].pc.profile.Key());
    }
  }

  /** and the account owns no identity at all. */
  lemma {:induction false} NeverOwns(r: History, n: nat, t: nat)
    requires r.Valid() && n <= |r.steps| && Stranded(r.At(n), t)
    ensures r.At(n).threads[t].pc.id in OauthMade(r, n) && !OwnsIdentity(r.At(n).db, r.At(n).threads[t].pc.id)
  {
    hide Apply, Enabled, Step, Commit;
    var u := r.At(n).threads[t].pc.id;
    var j := StrandedCreator(r, n, t);
    CreatedStays(r, j, n, u);
    if key :| BoundTo(r.At(n).db, key, u) {
      var j', i' := FirstBind(r, n, key);
      CreatedOnce(r, j, j', u);
    }
  }

  lemma {:induction false} CreatedStays(r: History, j: nat, n: nat, u: Uid)
    requires r.Valid() && j < n <= |r.steps| && Creates(r, j, u)
    ensures u in r.At(n).db.users
  {
    hide Apply, Enabled, Step, Commit, IdentitiesGrow, RefreshGrow, TokensGrow;
    Effect(r, j);
    Inserted(r.At(j).db, r.At(j).now, r.Wrote(j));
    Persist(r, j + 1, n);
  }

  lemma {:induction false} FewerIdentities(r: History, n: nat, u: Uid)
    requires r.Valid() && n <= |r.steps| && u in OauthMade(r, n) && !OwnsIdentity(r.At(n).db, u)
    ensures |r.At(n).db.identities.Keys| < |OauthMade(r, n)|
  {
    hide Apply, Enabled, Step;
    var db, others := r.At(n).db, OauthMade(r, n) - {u};
    var owner := (key: (string, string)) => OwnerOf(db, key);
    forall key | key in db.identities.Keys
      ensures owner(key) in others
    {
      var j, i := FirstBind(r, n, key);
      Reachable(r, n);
      assert BoundTo(db, key, owner(key));
    }
    forall key, key' | key in db.identities.Keys && key' in db.identities.Keys && owner(key) == owner(key')
      ensures key == key'
    {
      OwnersDiffer(r, n, key, key');
    }
    InjectionBound(db.identities.Keys, others, owner);
  }

  lemma {:induction false} MadeIsBound(r: History, n: nat, u: Uid)
    requires AllApart(r) && n <= |r.steps| && NothingUnbound(r.At(n)) && u in OauthMade(r, n)
    ensures OwnsIdentity(r.At(n).db, u)
  {
    hide Apply, Enabled, Step, Apart, NothingUnbound;
    var j: nat :| j < n && Creates(r, j, u) && r.Here(j).OauthInsert?;
    var m := NextIsBind(r, j, n);
    if m < n {
      BindsOwn(r, m);
      OwnerFixed(r, m + 1, n, r.Here(m).profile.Key());
      assert BoundTo(r.At(n).db, r.Here(m).profile.Key(), u);
    } else {
      StandsBound(r.At(n), r.steps[j].tid);
    }
  }

  lemma StandsBound(s: System, t: nat)
    requires NothingUnbound(s) && t in s.threads && s.threads[t].pc.OauthBind?
    ensures OwnsIdentity(s.db, s.threads[t].pc.id)
  {
    assert BoundTo(s.db, s.threads[t].pc.profile.Key(), s.threads[t].pc.id);
  }

  /** After creating an account a callback binds it next, or still stands before that. */
  lemma {:induction false} NextIsBind(r: History, j: nat, n: nat) returns (m: nat)
    requires r.Valid() && j < n <= |r.steps| && r.Acts(j) && r.Here(j).OauthInsert? && r.Wrote(j).InsertUser?
    ensures m <= n
    ensures m < n ==> r.Acts(m) && r.Here(m).OauthBind? && r.Here(m).id == r.Wrote(j).id
    ensures m == n ==> r.steps[j].tid in r.At(n).threads
    ensures m == n ==> var k := r.At(n).threads[r.steps[j].tid].pc; k.OauthBind? && k.id == r.Wrote(j).id
  {
    hide Apply, Enabled, Step, Commit;
    var t := r.steps[j].tid;
    InsertLeads(r, j);
    Effect(r, j);
    m := FirstMove(r, j + 1, n, t);
    Unmoved(r, j + 1, m, t);
    Stopped(r, j + 1, n, t);
  }

  lemma InsertLeads(r: History, j: nat)
    requires r.Valid() && r.Acts(j) && r.Here(j).OauthInsert? && r.Wrote(j).InsertUser?
    ensures r.Next(j) == OauthBind(r.Here(j).profile, r.Wrote(j).id, User)
  {
    hide Apply, Enabled;
  }
}
