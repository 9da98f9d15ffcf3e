/** The invariant of every interleaving, and what any moment of a run guarantees to every later one. */
module Integrity {
  import opened Schema
  import opened Queries
  import opened Handlers
  import opened Runs
  import opened Growth
  import opened Locals
  import opened Origins

  ghost predicate Inv(s: System) {
    Sound(s.db) && forall t | t in s.threads :: ThreadSound(s.cfg, s.db, s.threads[t].pc)
  }

  /**
   * One step of any thread keeps the tables sound, lets them only grow, and leaves its own and every other
   * thread's locals true.
   */
  lemma {:induction false} StepInv(s: System, l: Label)
    requires Inv(s) && Enabled(s, l)
    ensures Inv(Apply(s, l)) && Grows(s.db, Apply(s, l).db)
  {
    hide Fresh, Commit, Step, Begin, Constraints;
    match l
    case Exec(t, c) =>
      var k := s.threads[t].pc;
      StepKept(s.cfg, s.db, s.now, k, c);
      var w := Step(s.cfg, s.db, s.now, k, c).0;
      WriteSound(s.db, s.now, w);
      WriteGrows(s.db, s.now, w);
      forall u | u in s.threads ensures ThreadSound(s.cfg, Apply(s, l).db, s.threads[u].pc) {
        SoundGrows(s.cfg, s.db, Apply(s, l).db, s.threads[u].pc);
      }
    case Spawn(t, req) => BeginSound(s.cfg, s.db, req, s.now);
    case _ =>
  }

  lemma StartSound(s: System)
    requires s.db == Seed() && s.threads == map[]
    ensures Inv(s)
  {
  }

  lemma {:induction false} Reachable(r: History, n: nat)
    requires r.Valid() && n <= |r.steps|
    ensures Inv(r.At(n))
  {
    hide Inv, Apply, Enabled;
    if n == 0 {
      StartSound(r.start);
    } else {
      Reachable(r, n - 1);
      assert r.Legal(n - 1);
      StepInv(r.At(n - 1), r.steps[n - 1]);
    }
  }

  lemma CatalogueAt(r: History, n: nat)
    requires r.Valid() && n <= |r.steps|
    ensures Catalogue(r.At(n).db)
  {
    hide Apply, Enabled, Catalogue;
    Reachable(r, n);
  }

  /** Rows, once written, keep their meaning from any moment of a run to any later one. */
  lemma {:induction false} Persist(r: History, i: nat, n: nat)
    requires r.Valid() && i <= n <= |r.steps|
    ensures Grows(r.At(i).db, r.At(n).db)
  {
    hide Inv, Apply, Enabled;
    if i < n {
      Persist(r, i, n - 1);
      Reachable(r, n - 1);
      assert r.Legal(n - 1);
      StepInv(r.At(n - 1), r.steps[n - 1]);
    }
  }

  // ---- what a run says about one step of it ----------------------------------------

  /** A statement is issued from the point that owns it, is warranted, and leads on as the program says. */
  lemma Issued(r: History, i: nat)
    requires r.Valid() && r.Acts(i)
    ensures Inv(r.At(i)) && !r.Here(i).Done? && r.At(i).threads[r.steps[i].tid].Active()
    ensures ThreadSound(r.At(i).cfg, r.At(i).db, r.Here(i))
    ensures Warranted(r.At(i).db, r.Wrote(i))
    ensures IssuedBy(r.At(i).cfg, r.At(i).db, r.At(i).now, r.Here(i), r.Wrote(i))
    ensures CameBy(r.At(i).cfg, r.At(i).db, r.At(i).now, r.Here(i), r.Wrote(i), r.Next(i))
    ensures r.At(i + 1).db == Commit(r.At(i).db, r.At(i).now, r.Wrote(i))
  {
    hide Step, Begin, Commit, ThreadSound, Warranted, IssuedBy, CameBy, Fresh, Sound, Presentable;
    var s := r.At(i);
    assert r.Legal(i);
    Reachable(r, i);
    StepKept(s.cfg, s.db, s.now, r.Here(i), r.steps[i].choice);
    Origin(s.cfg, s.db, s.now, r.Here(i), r.steps[i].choice);
    Effect(r, i);
  }

  /** How a thread past its first statement got where it is. */
  lemma Came(r: History, n: nat, t: nat) returns (j: nat)
    requires r.Valid() && n <= |r.steps| && t in r.At(n).threads
    requires var k := r.At(n).threads[t].pc; !Entry(k) && !(k.Done? && k.outcome.Failed?)
    ensures j < n && r.Acts(j) && r.steps[j].tid == t && r.Next(j) == r.At(n).threads[t].pc
    ensures forall m | j < m < n :: !r.Moves(m, t)
    ensures CameBy(r.At(j).cfg, r.At(j).db, r.At(j).now, r.Here(j), r.Wrote(j), r.At(n).threads[t].pc)
    ensures r.At(j + 1).db == Commit(r.At(j).db, r.At(j).now, r.Wrote(j))
  {
    hide Step, Begin, Commit, CameBy, IssuedBy, Warranted, ThreadSound, Apply;
    j := LastStep(r, n, t);
    if r.steps[j].Spawn? {
      StartsAtEntry(r.steps[j].req, r.At(j).now);
    }
    Issued(r, j);
  }

  /** A thread executes an entry point only as its first statement. */
  lemma EntryFirst(r: History, i: nat, j: nat)
    requires r.Valid() && i < j && r.Acts(i) && r.Acts(j) && r.steps[i].tid == r.steps[j].tid
    ensures !Entry(r.Here(j))
  {
    hide Step, Begin, Commit, IssuedBy, Warranted, ThreadSound, Apply, Enabled, CameBy, Entry, Inv;
    var t := r.steps[i].tid;
    var x := LastStep(r, j, t);
    assert r.Moves(i, t);
    if r.steps[x].Spawn? {
      Stopped(r, i, x, t);
    } else {
      Issued(r, x);
      NeverReenters(r.At(x).cfg, r.At(x).db, r.At(x).now, r.Here(x), r.Wrote(x), r.Next(x));
    }
  }

  /** What is new after a step, the step's write put there. */
  lemma {:induction false} Changed(r: History, i: nat, u: Uid, h: Digest)
    requires r.Valid() && i < |r.steps|
    ensures AccountedFor(r.At(i).db, r.At(i + 1).db, r.Wrote(i), u, h)
    ensures r.At(i + 1).db != r.At(i).db ==> r.Acts(i)
  {
    hide Step, Begin, Commit, IssuedBy, CameBy, Sound, Apply, Enabled, Warranted, ThreadSound;
    Effect(r, i);
    if r.Acts(i) {
      Issued(r, i);
      WriteAccounts(r.At(i).db, r.At(i).now, r.Wrote(i), u, h);
    }
  }

  /** A thread at an entry point has just been spawned there. */
  lemma EntryBySpawn(r: History, i: nat) returns (x: nat)
    requires r.Valid() && r.Acts(i) && Entry(r.Here(i))
    ensures x < i && r.steps[x].Spawn? && r.steps[x].tid == r.steps[i].tid
    ensures r.Here(i) == Begin(r.steps[x].req, r.At(x).now) && Presentable(r.At(x), r.steps[x].req)
  {
    hide Step, Begin, Commit, IssuedBy, Warranted, ThreadSound, Apply, Fresh, Presentable;
    x := LastStep(r, i, r.steps[i].tid);
    assert r.Legal(x);
    if r.steps[x].Exec? {
      Issued(r, x);
    }
  }
}
