/**
 * The request behind every thread: what it asks for reaches its statements unchanged, and what refuses it
 * at the door.
 */
module Requests {
  import opened Basics
  import opened Schema
  import opened Queries
  import opened Handlers
  import opened Runs
  import opened Growth
  import opened Locals
  import opened Origins
  import opened Integrity

  /** The request that thread `t` was spawned with, if it was by state `n`. */
  ghost function RequestOf(r: History, n: nat, t: nat): Option<Request>
    requires n <= |r.steps|
  {
    if n == 0 then None
    else if r.steps[n - 1].Spawn? && r.steps[n - 1].tid == t then Some(r.steps[n - 1].req)
    else RequestOf(r, n - 1, t)
  }

  /** Step `x` spawns thread `t` with `req`. */
  predicate Sent(r: History, x: nat, t: nat, req: Request) { x < |r.steps| && r.steps[x] == Spawn(t, req) }

  lemma {:induction false} RequestStays(r: History, x: nat, n: nat, t: nat, req: Request)
    requires r.Valid() && Sent(r, x, t, req) && x < n <= |r.steps|
    ensures RequestOf(r, n, t) == Some(req) && t in r.At(n).threads
  {
    hide Step, Begin, Commit, Fresh, Presentable;
    assert r.Legal(x);
    if n > x + 1 {
      RequestStays(r, x, n - 1, t, req);
      assert r.Legal(n - 1);
    }
  }

  lemma {:induction false} SentAt(r: History, n: nat, t: nat) returns (x: nat)
    requires n <= |r.steps| && RequestOf(r, n, t).Some?
    ensures x < n && Sent(r, x, t, RequestOf(r, n, t).value)
  {
    x := n - 1;
    if !(r.steps[x].Spawn? && r.steps[x].tid == t) {
      x := SentAt(r, x, t);
    }
  }

  // ---- at the door ---------------------------------------------------------------------------------

  /** The password rule, and the verdict on the address, of registration and bootstrap; the password rule of a reset. */
  predicate BadForm(req: Request) {
    || ((req.Register? || req.CreateAdmin?) && (!req.emailOk || |req.password| < 8))
    || (req.ResetPassword? && |req.password| < 8)
  }

  /** A bearer this service did not sign, or whose expiry is more than a minute past. */
  predicate BadBearer(req: Request, now: Time) {
    (req.ResendVerification? || req.Administer?) && (req.bearer.Unsigned? || now > req.bearer.claims.exp + 60)
  }

  /** What a thread serving `req` may stand at, and what it holds there of what was asked. */
  predicate Fits(req: Request, k: Pc) {
    match req
    case Register(email, _, password, name) =>
      || k == RegisterInsert(email, password, name) || (k.RegisterStore? && k.email == email)
      || (k.RegisterFind? && k.email == email) || k.RegisterMail? || k.Done?
    case Login(email, password) => k == LoginFind(email, password) || (k.IssueStore? && k.parent == None) || k.Done?
    case Refresh(raw) =>
      || k == RefreshLookup(Sha256(raw)) || (k.RefreshRevoke? && k.hash == Sha256(raw))
      || (k.RefreshFind? && k.hash == Sha256(raw)) || (k.IssueStore? && k.parent == Some(Sha256(raw))) || k.Done?
    case Logout(raw) => k == LogoutRevoke(Sha256(raw)) || k.Done?
    case VerifyEmail(raw) => k == VerifyConsume(Sha256(raw)) || (k.VerifyMark? && k.hash == Sha256(raw)) || k.Done?
    case ResendVerification(bearer) =>
      || (bearer.Signed? && ((k.ResendFind? && k.actor.id == bearer.claims.sub) || k == ResendStore(bearer.claims.sub)))
      || k.Done?
    case ForgotPassword(email) => k == ForgotFind(email) || k.ForgotStore? || k.Done?
    case ResetPassword(raw, password) =>
      || k == ResetConsume(Sha256(raw), password) || (k.ResetUpdate? && k.hash == Sha256(raw) && k.password == password)
      || (k.ResetRevoke? && k.hash == Sha256(raw)) || k.Done?
    case GoogleCallback(p) =>
      || k == OauthFind(p) || k == OauthInsert(p) || (k.OauthBind? && k.profile == p)
      || (k.IssueStore? && k.parent == None) || k.Done?
    case Administer(bearer, action) =>
      || (bearer.Signed? && (k.AdminGate? || k.AdminCheck? || k.AdminAct?)
          && k.actor.id == bearer.claims.sub && k.action == action)
      || k.Done?
    case CreateAdmin(email, _, password) => k == AdminInsert(email, password) || k.Done?
  }

  lemma BeginFits(req: Request, now: Time)
    ensures Fits(req, Begin(req, now))
    ensures if BadForm(req) then Begin(req, now) == Fail(Validation)
            else if BadBearer(req, now) then Begin(req, now) == Fail(Unauthorized)
            else Entry(Begin(req, now))
  {
  }

  /** A request is refused at its spawn, before any statement, exactly for its form or its bearer. */
  lemma {:induction false} AtTheDoor(r: History, x: nat, t: nat, req: Request)
    requires r.Valid() && Sent(r, x, t, req)
    ensures t in r.At(x + 1).threads && r.At(x + 1).threads[t].Running?
    ensures r.At(x + 1).threads[t].pc.Done? <==> BadForm(req) || BadBearer(req, r.At(x).now)
    ensures BadForm(req) <==> r.At(x + 1).threads[t].pc == Fail(Validation)
    ensures BadBearer(req, r.At(x).now) <==> r.At(x + 1).threads[t].pc == Fail(Unauthorized)
    ensures r.At(x + 1).db == r.At(x).db
  {
    hide Step, Begin, Commit, Fresh, Presentable, Fits;
    assert r.Legal(x);
    BeginFits(req, r.At(x).now);
  }

  /** What one program point hands on to the next of what was asked. */
  predicate Handed(k: Pc, k': Pc) {
    match k'
    case RegisterStore(_, email) => k.RegisterInsert? && k.email == email
    case RegisterFind(email, _) => k.RegisterStore? && k.email == email
    case RegisterMail(_, _) => k.RegisterFind?
    case IssueStore(_, _, Some(p)) => k.RefreshFind? && k.hash == p
    case IssueStore(_, _, None) => k.LoginFind? || k.OauthBind?
    case RefreshRevoke(h, _) => k == RefreshLookup(h)
    case RefreshFind(h, _) => k.RefreshRevoke? && k.hash == h
    case VerifyMark(h, _) => k == VerifyConsume(h)
    case ResendStore(id) => k.ResendFind? && k.actor.id == id
    case ForgotStore(_) => k.ForgotFind?
    case ResetUpdate(h, _, password) => k == ResetConsume(h, password)
    case ResetRevoke(h, _) => k.ResetUpdate? && k.hash == h
    case OauthInsert(p) => k == OauthFind(p)
    case OauthBind(p, _, _) => k == OauthFind(p) || k == OauthInsert(p)
    case AdminCheck(actor, action) => k == AdminGate(actor, action)
    case AdminAct(actor, action) => k == AdminCheck(actor, action)
    case _ => k'.Done?
  }

  lemma Leads(cfg: Config, db: Tables, now: Time, k: Pc, w: Write, k': Pc)
    requires CameBy(cfg, db, now, k, w, k')
    ensures Handed(k, k')
  {
    hide Accepts, Usable, HasEmail, PermissionsFor, FindByOauth, Session, HasRole, Names, Consumable, Required;
  }

  lemma HandedFits(req: Request, k: Pc, k': Pc)
    requires Fits(req, k) && Handed(k, k')
    ensures Fits(req, k')
  {
  }

  /** In every interleaving, a thread's program point carries what its request asked for. */
  lemma {:induction false} AlwaysFits(r: History, n: nat, t: nat)
    requires r.Valid() && n <= |r.steps| && t in r.At(n).threads
    ensures RequestOf(r, n, t).Some? && Fits(RequestOf(r, n, t).value, r.At(n).threads[t].pc)
  {
    hide Step, Begin, Commit, Fresh, Presentable, Fits, Handed, CameBy, IssuedBy, Warranted, ThreadSound, Inv;
    if n > 0 {
      assert r.Legal(n - 1);
      var s, l := r.At(n - 1), r.steps[n - 1];
      if l.Spawn? && l.tid == t {
        BeginFits(l.req, s.now);
      } else {
        AlwaysFits(r, n - 1, t);
        if l.Exec? && l.tid == t {
          Issued(r, n - 1);
          Leads(s.cfg, s.db, s.now, r.Here(n - 1), r.Wrote(n - 1), r.Next(n - 1));
          HandedFits(RequestOf(r, n - 1, t).value, r.Here(n - 1), r.Next(n - 1));
        }
      }
    }
  }

  // ---- following a thread ----------------------------------------------------------------------------

  /** Thread `t` has finished by state `n`, with `out`. */
  ghost predicate EndsWith(r: History, n: nat, t: nat, out: Outcome)
    requires n <= |r.steps|
  {
    t in r.At(n).threads && r.At(n).threads[t].pc == Done(out)
  }

  /** Step `i` is a statement of thread `t`. */
  ghost predicate IsBy(r: History, i: nat, t: nat) { r.Acts(i) && r.steps[i].tid == t }

  /** A thread that finishes went on from every point that was not the last. */
  lemma {:induction false} Continue(r: History, m: nat, n: nat, t: nat, out: Outcome) returns (i: nat)
    requires r.Valid() && m <= n <= |r.steps| && t in r.At(m).threads && EndsWith(r, n, t, out)
    ensures if r.At(m).threads[t].pc.Done? then i == n && r.At(m).threads[t].pc == Done(out)
            else m <= i < n && IsBy(r, i, t) && r.Here(i) == r.At(m).threads[t].pc
    ensures forall x | m <= x < i && x < |r.steps| :: !r.Moves(x, t)
  {
    hide Step, Begin, Commit, Fresh, Presentable;
    if r.At(m).threads[t].pc.Done? {
      Stopped(r, m, n, t);
      i := n;
    } else {
      i := FirstMove(r, m, n, t);
      Stopped(r, m, n, t);
      Unmoved(r, m, i, t);
    }
  }

  /** The first statement of a finished request that was not refused at the door. */
  lemma {:induction false} FirstStatement(r: History, x: nat, n: nat, t: nat, req: Request, out: Outcome)
    returns (i: nat)
    requires r.Valid() && Sent(r, x, t, req) && x < n <= |r.steps| && EndsWith(r, n, t, out)
    requires !BadForm(req) && !BadBearer(req, r.At(x).now)
    ensures x < i < n && IsBy(r, i, t) && Entry(r.Here(i)) && Fits(req, r.Here(i))
    ensures forall m | x < m < i :: !r.Moves(m, t)
  {
    hide Step, Begin, Commit, Fresh, Presentable, Fits, Entry, Apply;
    AtTheDoor(r, x, t, req);
    i := Continue(r, x + 1, n, t, out);
    EntryThere(r, x, t, req);
    Effect(r, x);
  }

  lemma EntryThere(r: History, x: nat, t: nat, req: Request)
    requires r.Valid() && Sent(r, x, t, req) && !BadForm(req) && !BadBearer(req, r.At(x).now)
    ensures t in r.At(x + 1).threads && Entry(r.At(x + 1).threads[t].pc) && Fits(req, r.At(x + 1).threads[t].pc)
  {
    hide Step, Begin, Commit, Fresh, Presentable, Fits, Entry;
    assert r.Legal(x);
    BeginFits(req, r.At(x).now);
  }

  /** The statement after statement `i` of a finished request, if `i` was not the last. */
  lemma {:induction false} NextStatement(r: History, i: nat, n: nat, t: nat, out: Outcome) returns (j: nat)
    requires r.Valid() && i < n <= |r.steps| && IsBy(r, i, t) && EndsWith(r, n, t, out)
    ensures if r.Next(i).Done? then r.Next(i) == Done(out)
            else i < j < n && IsBy(r, j, t) && r.Here(j) == r.Next(i)
    ensures j <= n && forall m | i < m < j :: !r.Moves(m, t)
  {
    hide Step, Begin, Commit, Fresh, Presentable, Apply;
    Effect(r, i);
    j := Continue(r, i + 1, n, t, out);
  }
}
