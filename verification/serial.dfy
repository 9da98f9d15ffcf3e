/** Runs that serve one request at a time: a request starts only when every other has finished or been abandoned. */
module Serial {
  import opened Queries
  import opened Handlers
  import opened Runs

  ghost predicate Quiet(s: System) { forall t | t in s.threads :: !s.threads[t].Active() }

  ghost predicate OneAtATime(r: History) {
    r.Valid() && forall i {:trigger r.steps[i]} | 0 <= i < |r.steps| && r.steps[i].Spawn? :: Quiet(r.At(i))
  }

  lemma Served(r: History)
    requires OneAtATime(r)
    ensures r.Valid()
  {
    hide History.Valid;
  }

  /** The clock does not advance inside a handler. */
  ghost predicate SteadyClock(r: History) {
    forall i {:trigger r.steps[i]} | 0 <= i < |r.steps| && r.steps[i].Tick? :: Quiet(r.At(i))
  }

  /** Where a thread was spawned. */
  lemma {:induction false} SpawnedAt(r: History, n: nat, t: nat) returns (x: nat)
    requires r.Valid() && n <= |r.steps| && t in r.At(n).threads
    ensures x < n && r.steps[x].Spawn? && r.steps[x].tid == t && t !in r.At(x).threads && t in r.At(x + 1).threads
  {
    hide Step, Begin, Fresh, Commit;
    x := LastStep(r, n, t);
    if r.steps[x].Exec? {
      x := SpawnedAt(r, x, t);
    }
  }

  lemma Alive(r: History, b: nat, c: nat, t: nat)
    requires r.Valid() && b <= c && r.Acts(c) && r.steps[c].tid == t && t in r.At(b).threads
    ensures r.At(b).threads[t].Active()
  {
    hide Apply, Enabled, Presentable;
    Stopped(r, b, |r.steps|, t);
    assert r.Moves(c, t);
  }

  /** A thread spawned before another cannot act once that other has been. */
  lemma {:induction false} NoOverlap(r: History, x: nat, y: nat, c: nat, t: nat)
    requires OneAtATime(r) && x < y < c < |r.steps| && t in r.At(x + 1).threads && r.steps[y].Spawn?
    ensures !(r.Acts(c) && r.steps[c].tid == t)
  {
    hide Apply, Enabled, Presentable;
    Stopped(r, x + 1, y, t);
    if r.Acts(c) && r.steps[c].tid == t {
      Alive(r, y, c, t);
    }
  }

  /** While a thread that will act again is alive, nobody else acts. */
  lemma {:induction false} Exclusive(r: History, b: nat, c: nat, t: nat)
    requires OneAtATime(r) && b < c && r.Acts(c) && r.steps[c].tid == t && t in r.At(b).threads
    ensures r.Acts(b) ==> r.steps[b].tid == t
    ensures !r.steps[b].Spawn? && (SteadyClock(r) ==> !r.steps[b].Tick?)
  {
    hide Apply, Enabled, Presentable;
    Alive(r, b, c, t);
    if r.Acts(b) && r.steps[b].tid != t {
      var u := r.steps[b].tid;
      var x := SpawnedAt(r, b, t);
      var y := SpawnedAt(r, b, u);
      if x < y {
        NoOverlap(r, x, y, c, t);
      } else {
        NoOverlap(r, y, x, b, u);
      }
    }
  }

  /** Between two statements of one thread every statement is that thread's. */
  lemma OnlyMover(r: History, a: nat, m: nat, i: nat, t: nat)
    requires OneAtATime(r) && a <= m < i && r.Acts(a) && r.Acts(i) && r.steps[a].tid == t && r.steps[i].tid == t
    requires r.Acts(m)
    ensures r.Moves(m, t)
  {
    hide Apply, Enabled, Quiet, Presentable;
    Stopped(r, a, m, t);
    Exclusive(r, m, i, t);
  }

  /** The tables stand still through a stretch of reads. */
  lemma {:induction false} Undisturbed(r: History, i: nat, n: nat)
    requires r.Valid() && i <= n <= |r.steps|
    requires forall m | i <= m < n && r.Acts(m) :: r.Wrote(m) == NoWrite
    ensures r.At(n).db == r.At(i).db
  {
    hide Step, Begin, Fresh;
    if i < n {
      Undisturbed(r, i, n - 1);
      Effect(r, n - 1);
    }
  }

  /** Under a steady clock a handler runs at one instant. */
  lemma {:induction false} SameInstant(r: History, a: nat, n: nat, c: nat, t: nat)
    requires OneAtATime(r) && SteadyClock(r) && a <= n <= c && r.Acts(c) && r.steps[c].tid == t && t in r.At(a).threads
    ensures r.At(n).now == r.At(a).now
  {
    hide Apply, Enabled, Quiet, Step, Commit, SteadyClock;
    if a < n {
      assert r.Valid() by { Served(r); }
      SameInstant(r, a, n - 1, c, t);
      Stopped(r, a, n - 1, t);
      Exclusive(r, n - 1, c, t);
      Effect(r, n - 1);
    }
  }

  /** While one thread acts no other is alive. */
  lemma SoleActive(r: History, i: nat, u: nat)
    requires OneAtATime(r) && r.Acts(i) && u in r.At(i).threads && u != r.steps[i].tid
    ensures !r.At(i).threads[u].Active()
  {
    hide Apply, Enabled, Presentable;
    var t := r.steps[i].tid;
    var x := SpawnedAt(r, i, t);
    var y := SpawnedAt(r, i, u);
    if x < y {
      Stopped(r, x + 1, y, t);
      Alive(r, y, i, t);
    } else {
      Stopped(r, y + 1, x, u);
      Stopped(r, x, i, u);
    }
  }
}
