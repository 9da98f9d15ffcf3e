/**
 * Unboundedly many handler threads over one database. A `History` is a start state and the steps
 * taken from it; nothing but the steps records the past, so a claim about who did what when is a
 * claim about indices into the run.
 */
module Runs {
  import opened Schema
  import opened Queries
  import opened Handlers

  /** An aborted thread (dropped connection, failed query) keeps the point it had reached. */
  datatype Thread = Running(pc: Pc) | Aborted(pc: Pc) {
    predicate Active() { Running? && !pc.Done? }
  }

  datatype System = System(cfg: Config, now: Time, db: Tables, threads: map<nat, Thread>)

  datatype Label = Spawn(tid: nat, req: Request) | Exec(tid: nat, choice: Choice) | Abort(tid: nat) | Tick(elapsed: nat)

  /** An access token exists outside the service only once a finished request has returned it. */
  ghost predicate HandedOut(s: System, claims: Claims) {
    exists t :: t in s.threads && s.threads[t].pc.Done? && s.threads[t].pc.outcome.Tokens?
      && s.threads[t].pc.outcome.pair.access == claims
  }

  ghost predicate Presentable(s: System, req: Request) {
    (req.ResendVerification? || req.Administer?) && req.bearer.Signed? ==> HandedOut(s, req.bearer.claims)
  }

  ghost predicate Enabled(s: System, l: Label) {
    match l
    case Spawn(t, req) => t !in s.threads && Presentable(s, req)
    case Exec(t, c) => t in s.threads && s.threads[t].Active() && Fresh(s.db, s.threads[t].pc, c)
    case Abort(t) => t in s.threads && s.threads[t].Active()
    case Tick(_) => true
  }

  ghost function Apply(s: System, l: Label): System {
    match l
    case Spawn(t, req) => s.(threads := s.threads[t := Running(Begin(req, s.now))])
    case Exec(t, c) =>
      if t !in s.threads then s
      else
        var (w, k) := Step(s.cfg, s.db, s.now, s.threads[t].pc, c);
        s.(db := Commit(s.db, s.now, w), threads := s.threads[t := Running(k)])
    case Abort(t) => if t !in s.threads then s else s.(threads := s.threads[t := Aborted(s.threads[t].pc)])
    case Tick(d) => s.(now := s.now + d)
  }

  datatype History = History(start: System, steps: seq<Label>) {

    /** The state before step `i`. */
    ghost function At(i: nat): System
      requires i <= |steps|
    {
      if i == 0 then start else Apply(At(i - 1), steps[i - 1])
    }

    ghost predicate Valid() {
      && start.db == Seed()
      && start.threads == map[]
      && forall i {:trigger Legal(i)} | 0 <= i < |steps| :: Legal(i)
    }

    ghost predicate Legal(i: nat)
      requires i < |steps|
    {
      Enabled(At(i), steps[i])
    }

    /** The write step `i` commits. */
    ghost function Wrote(i: nat): Write
      requires i < |steps|
    {
      if Acts(i) then Step(At(i).cfg, At(i).db, At(i).now, Here(i), steps[i].choice).0 else NoWrite
    }

    /** Step `i` is a statement of some thread. */
    ghost predicate Acts(i: nat) { i < |steps| && steps[i].Exec? && steps[i].tid in At(i).threads }

    /** The program point step `i` runs, and the one it leads to. */
    ghost function Here(i: nat): Pc
      requires Acts(i)
    {
      At(i).threads[steps[i].tid].pc
    }

    ghost function Next(i: nat): Pc
      requires Acts(i)
    {
      Step(At(i).cfg, At(i).db, At(i).now, Here(i), steps[i].choice).1
    }

    /** Step `i` runs thread `t`'s statement at program point `k`. */
    ghost predicate Ran(i: nat, t: nat, k: Pc) { Acts(i) && steps[i].tid == t && Here(i) == k }

    /** Step `i` gives thread `t` a program point. */
    predicate Moves(i: nat, t: nat)
      requires i < |steps|
    {
      (steps[i].Spawn? || steps[i].Exec?) && steps[i].tid == t
    }
  }

  // ---- reading a run backwards --------------------------------------------------

  /** The step that put thread `t` where it is. Every fact about a thread's past goes through here. */
  lemma {:induction false} LastStep(r: History, n: nat, t: nat) returns (j: nat)
    requires r.Valid() && n <= |r.steps| && t in r.At(n).threads
    ensures j < n && r.Moves(j, t)
    ensures forall m | j < m < n :: !r.Moves(m, t)
    ensures r.steps[j].Spawn? ==> r.At(n).threads[t].pc == Begin(r.steps[j].req, r.At(j).now) && t !in r.At(j).threads
    ensures r.steps[j].Exec? ==>
              r.Acts(j) && r.At(j).threads[t].Active() && r.Next(j) == r.At(n).threads[t].pc
  {
    hide Step, Begin, Commit, Fresh, Presentable;
    assert n > 0;
    assert r.Legal(n - 1);
    if r.Moves(n - 1, t) {
      j := n - 1;
    } else {
      j := LastStep(r, n - 1, t);
    }
  }

  /** A thread that has not moved since is still where it was. */
  lemma {:induction false} Unmoved(r: History, i: nat, n: nat, t: nat)
    requires r.Valid() && i <= n <= |r.steps| && t in r.At(i).threads
    requires forall m | i <= m < n :: !r.Moves(m, t)
    ensures t in r.At(n).threads && r.At(n).threads[t].pc == r.At(i).threads[t].pc
  {
    if i < n {
      Unmoved(r, i, n - 1, t);
      assert !r.Moves(n - 1, t);
    }
  }

  /** The next step a thread takes, if it takes one. */
  lemma {:induction false} FirstMove(r: History, i: nat, n: nat, t: nat) returns (m: nat)
    requires i <= n <= |r.steps|
    ensures i <= m <= n && (m < n ==> r.Moves(m, t)) && forall x | i <= x < m :: !r.Moves(x, t)
    decreases n - i
  {
    m := i;
    if i < n && !r.Moves(i, t) {
      m := FirstMove(r, i + 1, n, t);
    }
  }

  /** Threads are never forgotten; a finished or aborted one never runs again. */
  lemma {:induction false} Stopped(r: History, i: nat, n: nat, t: nat)
    requires r.Valid() && i <= n <= |r.steps| && t in r.At(i).threads
    ensures t in r.At(n).threads
    ensures !r.At(i).threads[t].Active() ==> r.At(n).threads[t] == r.At(i).threads[t]
    ensures forall m | i <= m < n && r.Moves(m, t) :: r.steps[m].Exec? && r.At(i).threads[t].Active()
  {
    if i < n {
      Stopped(r, i, n - 1, t);
      assert r.Legal(n - 1);
    }
  }

  /** A condition false at `i` and true at `n` becomes true at some step between. */
  lemma {:induction false} Crossing(r: History, i: nat, n: nat, q: System -> bool) returns (m: nat)
    requires i <= n <= |r.steps| && !q(r.At(i)) && q(r.At(n))
    ensures i <= m < n && !q(r.At(m)) && q(r.At(m + 1))
  {
    m := n - 1;
    if q(r.At(m)) {
      m := Crossing(r, i, m, q);
    }
  }

  /** Only time passes without a write. */
  lemma Effect(r: History, i: nat)
    requires r.Valid() && i < |r.steps|
    ensures r.At(i + 1).db == Commit(r.At(i).db, r.At(i).now, r.Wrote(i))
    ensures r.At(i + 1).cfg == r.At(i).cfg && r.At(i).now <= r.At(i + 1).now
    ensures !r.steps[i].Exec? ==> r.At(i + 1).db == r.At(i).db
    ensures !r.steps[i].Tick? ==> r.At(i + 1).now == r.At(i).now
    ensures r.steps[i].Exec? ==> r.Acts(i) && r.At(i).threads[r.steps[i].tid].Active()
    ensures r.Acts(i) ==> r.At(i + 1).threads == r.At(i).threads[r.steps[i].tid := Running(r.Next(i))]
  {
    assert r.Legal(i);
  }

  lemma {:induction false} ClockMonotone(r: History, i: nat, n: nat)
    requires r.Valid() && i <= n <= |r.steps|
    ensures r.At(i).now <= r.At(n).now && r.At(i).cfg == r.At(n).cfg
  {
    hide Step, Begin;
    if i < n {
      ClockMonotone(r, i, n - 1);
    }
  }
}
