/**
 * Who may hand out privilege, and where every privilege in a run comes from. Permission is checked in one
 * statement and used in a later one.
 */
module Delegation {
  import opened Basics
  import opened Schema
  import opened Queries
  import opened Handlers
  import opened Runs
  import opened Growth
  import opened Locals
  import opened Origins
  import opened Integrity
  import opened Rbac

  ghost predicate Holds(r: History, n: nat, u: Uid, p: Permission)
    requires n <= |r.steps|
  {
    PermissionName(p) in PermissionsFor(r.At(n).db, u)
  }

  // ---- the checks behind a privileged step --------------------------------------------------

  /** A privileged step was checked, earlier and by the same thread, against the tables as they were then. */
  lemma CheckedFirst(r: History, i: nat) returns (c: nat)
    requires r.Valid() && r.Acts(i) && r.Here(i).AdminAct?
    ensures c < i && r.Ran(c, r.steps[i].tid, AdminCheck(r.Here(i).actor, r.Here(i).action))
    ensures Holds(r, c, r.Here(i).actor.id, Required(r.Here(i).action))
  {
    hide Apply, Enabled, Step, Commit, Begin, PermissionsFor, PermissionName, Required;
    c := Came(r, i, r.steps[i].tid);
  }

  /**
   * Before the check came the gate: the actor's e-mail was verified then, is when the action lands, and is
   * ever after.
   */
  lemma GatedFirst(r: History, i: nat, n: nat) returns (g: nat, c: nat)
    requires r.Valid() && r.Acts(i) && r.Here(i).AdminAct? && i <= n <= |r.steps|
    ensures g < c < i && r.Ran(c, r.steps[i].tid, AdminCheck(r.Here(i).actor, r.Here(i).action))
    ensures r.Ran(g, r.steps[i].tid, AdminGate(r.Here(i).actor, r.Here(i).action))
    ensures Holds(r, c, r.Here(i).actor.id, Required(r.Here(i).action))
    ensures forall m | g <= m <= n :: Verified(r.At(m).db, r.Here(i).actor.id)
  {
    hide Apply, Enabled, Step, Commit, Begin, PermissionsFor, PermissionName, Required, IdentitiesGrow, RefreshGrow;
    hide TokensGrow;
    c := CheckedFirst(r, i);
    g := Came(r, c, r.steps[i].tid);
    forall m | g <= m <= n ensures Verified(r.At(m).db, r.Here(i).actor.id) {
      Persist(r, g, m);
    }
  }

  /** A role, an active flag or an override is only ever changed by the request that asks for just that. */
  lemma ChangeIsAction(r: History, i: nat)
    requires r.Valid() && i < |r.steps|
    requires (r.Wrote(i).UpdateRole? || r.Wrote(i).UpdateActive? || r.Wrote(i).UpsertOverride?)
    ensures r.Acts(i) && r.Here(i).AdminAct?
    ensures match r.Here(i).action
            case SetRole(u, role) => r.Wrote(i) == UpdateRole(u, RoleNumber(role))
            case SetActive(u, active) => r.Wrote(i) == UpdateActive(u, active)
            case Grant(u, name, granted) =>
              exists p :: p in SeedPermissions() && SeedPermissions()[p] == name
                          && r.Wrote(i) == UpsertOverride(u, p, granted)
            case _ => false
  {
    hide Apply, Enabled, Step, Commit, SeedPermissions, SeedRoles, SeedRolePermissions, Warranted, CameBy;
    hide ThreadSound, RoleIdFor, PermissionName;
    Issued(r, i);
    if r.Here(i).action.SetRole? {
      RoleEncoding(r.At(i).db, r.Here(i).action.role);
    }
  }

  /** So behind each such change stand the gate and the check, and its author is verified from the gate on, for good. */
  lemma ChangesAreGated(r: History, i: nat, n: nat) returns (g: nat, c: nat)
    requires r.Valid() && i <= n <= |r.steps| && i < |r.steps|
    requires r.Wrote(i).UpdateRole? || r.Wrote(i).UpdateActive? || r.Wrote(i).UpsertOverride?
    ensures r.Acts(i) && r.Here(i).AdminAct? && g < c < i
    ensures r.Ran(g, r.steps[i].tid, AdminGate(r.Here(i).actor, r.Here(i).action))
    ensures r.Ran(c, r.steps[i].tid, AdminCheck(r.Here(i).actor, r.Here(i).action))
    ensures Holds(r, c, r.Here(i).actor.id, Required(r.Here(i).action))
    ensures forall m | g <= m <= n :: Verified(r.At(m).db, r.Here(i).actor.id)
  {
    hide Apply, Enabled, Step, PermissionsFor, PermissionName, Required;
    ChangeIsAction(r, i);
    g, c := GatedFirst(r, i, n);
  }

  // ---- provenance ---------------------------------------------------------------------------

  /**
   * By step `write` `holder` came to hold the right to assign roles, not having held it just before;
   * `actor`, who asked for the step, had it when step `check` looked.
   */
  datatype Link = Link(holder: Uid, write: nat, check: nat, actor: Uid)

  ghost predicate Confers(action: Action, u: Uid) {
    action == SetRole(u, Admin) || action == Grant(u, PermissionName(UsersAssignRoles), true)
  }

  ghost predicate Acquires(r: History, i: nat, u: Uid) {
    i < |r.steps| && !Holds(r, i, u, UsersAssignRoles) && Holds(r, i + 1, u, UsersAssignRoles)
  }

  ghost predicate Delegates(r: History, l: Link) {
    && l.check < l.write && r.Acts(l.write) && r.Acts(l.check)
    && r.steps[l.write].tid == r.steps[l.check].tid
    && r.Here(l.write).AdminAct? && r.Here(l.check).AdminCheck?
    && r.Here(l.write).actor == r.Here(l.check).actor && r.Here(l.write).action == r.Here(l.check).action
    && r.Here(l.write).actor.id == l.actor
    && Confers(r.Here(l.write).action, l.holder)
    && Acquires(r, l.write, l.holder)
    && Holds(r, l.check, l.actor, UsersAssignRoles)
  }

  /** A chain of delegations from `u`, ever earlier in the run, down to an account the bootstrap command created. */
  ghost predicate Chain(r: History, n: nat, u: Uid, links: seq<Link>) {
    if links == [] then
      exists i: nat :: i < n && CreatedAs(r, i, u, Admin)
    else
      && links[0].holder == u && links[0].write < n
      && Delegates(r, links[0])
      && Chain(r, links[0].check, links[0].actor, links[1..])
  }

  /**
   * Whoever may assign roles, at any moment of any interleaving, does so by a finite chain of checked
   * delegations from a bootstrapped admin.
   */
  lemma {:induction false} Provenance(r: History, n: nat, u: Uid)
    requires r.Valid() && n <= |r.steps| && Holds(r, n, u, UsersAssignRoles)
    ensures exists links :: Chain(r, n, u, links)
    decreases n
  {
    hide Apply, Enabled, PermissionsFor, PermissionName, Step, Delegates, CreatedAs;
    var i := Conferred(r, n, u);
    if CreatedAs(r, i, u, Admin) {
      assert Chain(r, n, u, []);
    } else {
      var c := CheckedFirst(r, i);
      var l := Link(u, i, c, r.Here(i).actor.id);
      Linked(r, l);
      Provenance(r, c, l.actor);
      var rest :| Chain(r, c, l.actor, rest);
      assert ([l] + rest)[1..] == rest;
      assert Chain(r, n, u, [l] + rest);
    }
  }

  lemma Linked(r: History, l: Link)
    requires r.Valid() && l.check < l.write && r.Acts(l.write) && r.Here(l.write).AdminAct?
    requires r.Ran(l.check, r.steps[l.write].tid, AdminCheck(r.Here(l.write).actor, r.Here(l.write).action))
    requires l.actor == r.Here(l.write).actor.id && Confers(r.Here(l.write).action, l.holder)
    requires Acquires(r, l.write, l.holder)
    requires Holds(r, l.check, l.actor, Required(r.Here(l.write).action))
    ensures Delegates(r, l)
  {
    hide Apply, Enabled, PermissionsFor, PermissionName, Step;
  }

  /** The step by which `u` came to hold the right: the bootstrap command, or a request that asks for just that. */
  lemma {:induction false} Conferred(r: History, n: nat, u: Uid) returns (i: nat)
    requires r.Valid() && n <= |r.steps| && Holds(r, n, u, UsersAssignRoles)
    ensures i < n && r.Acts(i) && Acquires(r, i, u)
    ensures CreatedAs(r, i, u, Admin) || (r.Here(i).AdminAct? && Confers(r.Here(i).action, u))
  {
    hide Apply, Enabled, PermissionsFor, PermissionName, Step, RoleLog, OverrideLog, RoleGives, Seeded;
    var name := PermissionName(UsersAssignRoles);
    NobodyAtFirst(r, u);
    i := Crossing(r, 0, n, (s: System) => name in PermissionsFor(s.db, u));
    PermissionsRefineLog(r, i, u, name);
    PermissionsRefineLog(r, i + 1, u, name);
    NotAdmin(name);
    LogChanged(r, i, u, name);
  }

  lemma NobodyAtFirst(r: History, u: Uid)
    requires r.Valid()
    ensures PermissionsFor(r.At(0).db, u) == {}
  {
    hide Apply, Enabled;
  }

  /** What one step can add to the logs. */
  lemma LogChanged(r: History, i: nat, u: Uid, name: string)
    requires i < |r.steps|
    ensures OverrideLog(r, i + 1, u, name) == OverrideLog(r, i, u, name)
            || (OverrideLog(r, i + 1, u, name) == Some(true) && Performs(r, i, Grant(u, name, true)))
            || OverrideLog(r, i + 1, u, name) == Some(false)
    ensures RoleLog(r, i + 1, u) == RoleLog(r, i, u)
            || RoleLog(r, i + 1, u) != Some(Admin)
            || CreatedAs(r, i, u, Admin)
            || Performs(r, i, SetRole(u, Admin))
  {
    hide Apply, Step, CreatedAs, Seeded;
  }

  lemma NotAdmin(name: string)
    requires name == PermissionName(UsersAssignRoles)
    ensures forall role :: RoleGives(role, name) <==> role == Admin
  {
  }

  // ---- no escalation from the seed ------------------------------------------------------------

  ghost predicate NoBootstrap(r: History) {
    forall i {:trigger r.steps[i]} | 0 <= i < |r.steps| && r.steps[i].Spawn? :: !r.steps[i].req.CreateAdmin?
  }

  /**
   * Without the bootstrap command nobody ever gets past a permission check: every role stays `user`, no
   * override exists, no permission is effective.
   */
  lemma {:induction false} NoEscalation(r: History, n: nat, u: Uid)
    requires r.Valid() && NoBootstrap(r) && n <= |r.steps|
    ensures forall i | 0 <= i < n && r.Acts(i) :: !r.Here(i).AdminAct?
    ensures forall t | t in r.At(n).threads :: !r.At(n).threads[t].pc.AdminAct?
    ensures RoleLog(r, n, u).None? || RoleLog(r, n, u) == Some(User)
    ensures forall name :: OverrideLog(r, n, u, name).None?
    ensures PermissionsFor(r.At(n).db, u) == {}
    decreases n, 1
  {
    hide Apply, Enabled, PermissionsFor, Step, RoleLog, OverrideLog, CameBy, NoBootstrap;
    forall i | 0 <= i < n && r.Acts(i) ensures !r.Here(i).AdminAct? {
      if r.Here(i).AdminAct? {
        var c := CheckedFirst(r, i);
        NoEscalation(r, c, r.Here(i).actor.id);
      }
    }
    forall t | t in r.At(n).threads ensures !r.At(n).threads[t].pc.AdminAct? { NeverPast(r, n, t); }
    forall name ensures OverrideLog(r, n, u, name).None? { QuietLog(r, n, u, name); }
    QuietLog(r, n, u, "");
    forall name ensures name !in PermissionsFor(r.At(n).db, u) { PermissionsRefineLog(r, n, u, name); }
  }

  /** In the tables: nobody has any role but `user`, and the override table stays empty. */
  lemma NoPrivilegeStored(r: History, n: nat, u: Uid)
    requires r.Valid() && NoBootstrap(r) && n <= |r.steps|
    ensures r.At(n).db.overrides == map[]
    ensures u in r.At(n).db.users ==> FindById(r.At(n).db, u).Some? && FindById(r.At(n).db, u).value.role == User
  {
    hide Apply, Enabled, PermissionsFor, Step, RoleLog, OverrideLog, NoBootstrap, SeedPermissions, SeedRoles;
    hide SeedRolePermissions, FindById;
    Reachable(r, n);
    NoEscalation(r, n, u);
    RoleRoundTrip(r, n, u);
    forall v: Uid, p: nat | p in SeedPermissions() ensures (v, p) !in r.At(n).db.overrides {
      NoEscalation(r, n, v);
      OverrideStored(r, n, v, p);
    }
    assert forall k: (Uid, nat) :: (k.0, k.1) == k;
  }

  lemma {:induction false} NeverPast(r: History, n: nat, t: nat)
    requires r.Valid() && NoBootstrap(r) && n <= |r.steps| && t in r.At(n).threads
    ensures !r.At(n).threads[t].pc.AdminAct?
    decreases n, 0
  {
    hide Apply, Enabled, PermissionsFor, Step, RoleLog, OverrideLog, NoBootstrap, PermissionName;
    if r.At(n).threads[t].pc.AdminAct? {
      var c := Came(r, n, t);
      NoEscalation(r, c, r.Here(c).actor.id);
    }
  }

  lemma {:induction false} QuietLog(r: History, n: nat, u: Uid, name: string)
    requires r.Valid() && NoBootstrap(r) && n <= |r.steps|
    requires forall i | 0 <= i < n && r.Acts(i) :: !r.Here(i).AdminAct?
    ensures (RoleLog(r, n, u).None? || RoleLog(r, n, u) == Some(User)) && OverrideLog(r, n, u, name).None?
  {
    hide Apply, Enabled, Step, Begin, Seeded;
    if n > 0 {
      QuietLog(r, n - 1, u, name);
      if CreatedAs(r, n - 1, u, Admin) {
        var x := EntryBySpawn(r, n - 1);
        BootstrapOnly(r.steps[x].req, r.At(x).now);
      }
    }
  }

  lemma BootstrapOnly(req: Request, now: Time)
    ensures Begin(req, now).AdminInsert? ==> req.CreateAdmin?
  {
  }

  // ---- who the actor is --------------------------------------------------------------------------

  /**
   * Behind every privileged step stands an access token this service handed out: the actor owns a
   * session stored at its issue time, and the request began within the token's lifetime.
   */
  lemma Authenticated(r: History, i: nat) returns (x: nat, session: Digest)
    requires r.Valid() && r.Acts(i) && r.Here(i).AdminAct?
    ensures x < i && r.steps[x].Spawn? && r.steps[x].tid == r.steps[i].tid && r.steps[x].req.Administer?
    ensures r.steps[x].req.action == r.Here(i).action
    ensures r.steps[x].req.bearer.Signed? && HandedOut(r.At(x), r.steps[x].req.bearer.claims)
    ensures r.steps[x].req.bearer.claims.sub == r.Here(i).actor.id
    ensures r.At(x).now <= r.steps[x].req.bearer.claims.exp + JWT_LEEWAY
    ensures SessionOf(r.At(x).db, session, r.Here(i).actor.id)
    ensures r.At(x).now <= r.At(x).db.refreshTokens[session].issuedAt + r.At(x).cfg.accessTtlMin * 60 + JWT_LEEWAY
  {
    hide Apply, Enabled, Step, Commit, Inv, IssuedBy, Begin, HandedOut, Required, PermissionName, PermissionsFor;
    var g, c := GatedFirst(r, i, i);
    x := EntryBySpawn(r, g);
    GateOpened(r.steps[x].req, r.At(x).now);
    Reachable(r, x);
    session := SessionBehind(r.At(x), r.steps[x].req.bearer.claims);
  }

  lemma GateOpened(req: Request, now: Time)
    requires Begin(req, now).AdminGate?
    ensures req.Administer? && req.bearer.Signed? && now <= req.bearer.claims.exp + JWT_LEEWAY
    ensures Begin(req, now).actor.id == req.bearer.claims.sub && Begin(req, now).action == req.action
  {
  }

  lemma SessionBehind(s: System, claims: Claims) returns (session: Digest)
    requires Inv(s) && HandedOut(s, claims)
    ensures SessionOf(s.db, session, claims.sub)
    ensures s.db.refreshTokens[session].issuedAt == claims.iat && claims.exp == claims.iat + s.cfg.accessTtlMin * 60
  {
    hide Sound;
    var t :| t in s.threads && s.threads[t].pc.Done? && s.threads[t].pc.outcome.Tokens?
      && s.threads[t].pc.outcome.pair.access == claims;
    session := Sha256(s.threads[t].pc.outcome.pair.refresh);
  }

  // ---- role claims do not matter ------------------------------------------------------------------

  function EraseBearer(b: Bearer): Bearer { if b.Signed? then Signed(b.claims.(role := "")) else b }

  function EraseRequest(req: Request): Request {
    if req.ResendVerification? || req.Administer? then req.(bearer := EraseBearer(req.bearer)) else req
  }

  function ErasePc(k: Pc): Pc {
    if k.ResendFind? || k.AdminGate? || k.AdminCheck? || k.AdminAct? then k.(actor := Actor(k.actor.id, User)) else k
  }

  predicate AlikeLabels(l: Label, m: Label) {
    if l.Spawn? && m.Spawn? then l.tid == m.tid && EraseRequest(l.req) == EraseRequest(m.req) else l == m
  }

  /** Equal but for the roles that bearer tokens claim. */
  ghost predicate Alike(s: System, s': System) {
    && s.cfg == s'.cfg && s.now == s'.now && s.db == s'.db && s.threads.Keys == s'.threads.Keys
    && forall t | t in s.threads ::
         s.threads[t].Running? == s'.threads[t].Running? && ErasePc(s.threads[t].pc) == ErasePc(s'.threads[t].pc)
  }

  lemma StepErased(cfg: Config, db: Tables, now: Time, k: Pc, c: Choice)
    ensures var (w, k') := Step(cfg, db, now, k, c); var (w', k'') := Step(cfg, db, now, ErasePc(k), c);
            w == w' && ErasePc(k') == ErasePc(k'')
  {
    hide SignInStep, RotateStep, ResetStep, LinkStep, Act, PermissionsFor, PermissionName, RoleName, ParseRole;
  }

  lemma BeginErased(req: Request, req': Request, now: Time)
    requires EraseRequest(req) == EraseRequest(req')
    ensures ErasePc(Begin(req, now)) == ErasePc(Begin(req', now))
  {
  }

  lemma {:induction false} ApplyAlike(s: System, s': System, l: Label, m: Label)
    requires Alike(s, s') && AlikeLabels(l, m)
    ensures Alike(Apply(s, l), Apply(s', m))
  {
    hide Step, Commit, Begin, EraseRequest, ErasePc;
    if l.Spawn? {
      assert EraseRequest(l.req) == EraseRequest(m.req);
      BeginErased(l.req, m.req, s.now);
    } else if l.Exec? && l.tid in s.threads {
      StepErased(s.cfg, s.db, s.now, s.threads[l.tid].pc, l.choice);
      StepErased(s.cfg, s.db, s.now, s'.threads[l.tid].pc, l.choice);
    }
  }

  /** Two runs that differ only in the roles their bearer tokens claim keep the same tables throughout. */
  lemma {:induction false} RoleClaimsIrrelevant(r: History, r': History, n: nat)
    requires r.start == r'.start && n <= |r.steps| && |r.steps| == |r'.steps|
    requires forall i | 0 <= i < |r.steps| :: AlikeLabels(r.steps[i], r'.steps[i])
    ensures Alike(r.At(n), r'.At(n))
  {
    hide Apply, Alike;
    if n == 0 {
      AlikeSelf(r.start);
    } else {
      RoleClaimsIrrelevant(r, r', n - 1);
      ApplyAlike(r.At(n - 1), r'.At(n - 1), r.steps[n - 1], r'.steps[n - 1]);
    }
  }

  lemma AlikeSelf(s: System)
    ensures Alike(s, s)
  {
  }
}
