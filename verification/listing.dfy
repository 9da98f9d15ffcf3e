/**
 * The admin listing in a run: a client that steps its offset by the page size, with every other request
 * interleaved.
 */
module UserListing {
  import opened Schema
  import opened Queries
  import opened Handlers
  import opened Runs
  import opened Growth
  import opened Locals
  import opened Integrity
  import opened Paging

  /** Step `i` answers a listing request. */
  ghost predicate Serves(r: History, i: nat, limit: int, offset: int) {
    r.Acts(i) && r.Here(i).AdminAct? && r.Here(i).action == ListUsers(limit, offset)
  }

  ghost function Answer(r: History, i: nat): seq<Uid>
    requires r.Acts(i)
  {
    if r.Next(i).Done? && r.Next(i).outcome.Listed? then r.Next(i).outcome.page else []
  }

  lemma ListStep(cfg: Config, db: Tables, now: Time, k: Pc, c: Choice)
    requires k.AdminAct? && k.action.ListUsers? && k.action.limit >= 0 && k.action.offset >= 0
    ensures Step(cfg, db, now, k, c) ==
            (NoWrite, Done(Listed(Window(c.order, Min(k.action.limit, PAGE_CAP), k.action.offset))))
    ensures Fresh(db, k, c) ==> Listing(db, c.order)
  {
    hide Window, Listing;
  }

  lemma ListingIsOrdered(db: Tables, order: seq<Uid>)
    requires Constraints(db)
    ensures Listing(db, order) <==> Ordered(db.users, order)
  {
    AllJoin(db);
    if Ordered(db.users, order) {
      forall i | 0 <= i < |order| ensures order[i] in db.users { assert order[i] in order; }
    }
  }

  /** The page a listing request gets. */
  lemma {:induction false} Answered(r: History, i: nat, limit: nat, offset: nat)
    requires r.Valid() && Serves(r, i, limit, offset)
    ensures Ordered(r.At(i).db.users, r.steps[i].choice.order)
    ensures Answer(r, i) == Window(r.steps[i].choice.order, Min(limit, PAGE_CAP), offset)
  {
    hide Apply, Step, Fresh, Window, Listing, Ordered, Presentable, Constraints, ThreadSound, Begin;
    assert r.Legal(i);
    Reachable(r, i);
    ListStep(r.At(i).cfg, r.At(i).db, r.At(i).now, r.Here(i), r.steps[i].choice);
    ListingIsOrdered(r.At(i).db, r.steps[i].choice.order);
  }

  /** Whatever limit was asked for, an answer never has more than two hundred rows. */
  lemma {:induction false} PageCapped(r: History, i: nat, limit: nat, offset: nat)
    requires r.Valid() && Serves(r, i, limit, offset)
    ensures |Answer(r, i)| <= 200
  {
    hide Apply, Enabled, Ordered, Answer;
    Answered(r, i, limit, offset);
  }

  lemma AllJoin(db: Tables)
    requires Constraints(db)
    ensures forall u :: Joins(db, u) <==> u in db.users
  {
  }

  /** A page size below zero is the database's error, and writes nothing. */
  lemma {:induction false} NegativeRefused(r: History, i: nat, limit: int, offset: int)
    requires r.Valid() && Serves(r, i, limit, offset) && (limit < 0 || offset < 0)
    ensures r.Next(i) == Fail(Database) && r.Wrote(i) == NoWrite
  {
    hide Apply, Enabled, Window;
  }

  /** Ever later steps serve successive pages for one `limit`, up to one shorter than the server would allow. */
  ghost predicate Browses(r: History, at: seq<nat>, limit: nat) {
    && at != [] && limit > 0
    && (forall k {:trigger at[k]} | 0 <= k < |at| :: Serves(r, at[k], limit, k * Min(limit, PAGE_CAP)))
    && (forall k, m | 0 <= k < m < |at| :: at[k] < at[m])
    && |Answer(r, at[|at| - 1])| < Min(limit, PAGE_CAP)
  }

  ghost function ViewAt(r: History, i: nat): View
    requires r.Acts(i)
  {
    View(r.At(i).db.users, r.steps[i].choice.order)
  }

  ghost function Views(r: History, at: seq<nat>, limit: nat): (views: seq<View>)
    requires Browses(r, at, limit)
    ensures |views| == |at| && forall k | 0 <= k < |at| :: r.Acts(at[k]) && views[k] == ViewAt(r, at[k])
  {
    seq(|at|, k requires 0 <= k < |at| => var i := at[k]; ViewAt(r, i))
  }

  lemma {:induction false} PageIsAnswer(r: History, at: seq<nat>, limit: nat, k: nat)
    requires r.Valid() && Browses(r, at, limit) && k < |at|
    ensures var views := Views(r, at, limit);
            Ordered(views[k].users, views[k].order) && Page(views, Min(limit, PAGE_CAP), k) == Answer(r, at[k])
  {
    hide Apply, Enabled, Window, Answer, Ordered;
    assert Serves(r, at[k], limit, k * Min(limit, PAGE_CAP));
    Answered(r, at[k], limit, k * Min(limit, PAGE_CAP));
  }

  lemma {:induction false} UsersPersist(r: History, i: nat, n: nat)
    requires r.Valid() && i <= n <= |r.steps|
    ensures UsersGrow(r.At(i).db.users, r.At(n).db.users)
  {
    hide Apply, Enabled, IdentitiesGrow, RefreshGrow, TokensGrow;
    Persist(r, i, n);
  }

  lemma {:induction false} BrowsingWalks(r: History, at: seq<nat>, limit: nat)
    requires r.Valid() && Browses(r, at, limit)
    ensures Walk(Views(r, at, limit), Min(limit, PAGE_CAP))
  {
    hide Apply, Enabled, Window, Answer, Ordered, UsersGrow, Page, Serves;
    var views, last := Views(r, at, limit), |at| - 1;
    forall k | 0 <= k < |at| ensures Ordered(views[k].users, views[k].order) {
      PageIsAnswer(r, at, limit, k);
    }
    forall k | 0 < k < |at| ensures UsersGrow(views[k - 1].users, views[k].users) {
      UsersPersist(r, at[k - 1], at[k]);
    }
    PageIsAnswer(r, at, limit, last);
  }

  /**
   * A client that browses to the end sees every account there was when it began and that, by then,
   * shares its creation time with nobody; whatever else ran and whoever else was created meanwhile.
   */
  lemma {:induction false} BrowsingMissesNobody(r: History, at: seq<nat>, limit: nat, u: Uid)
    requires r.Valid() && Browses(r, at, limit) && r.Acts(at[0]) && u in r.At(at[0]).db.users
    requires r.Acts(at[|at| - 1]) && Untied(r.At(at[|at| - 1]).db.users, u)
    ensures exists k: nat :: k < |at| && r.Acts(at[k]) && u in Answer(r, at[k])
  {
    hide Apply, Enabled, Window, Answer, Ordered, Untied, Page, Serves;
    var views := Views(r, at, limit);
    BrowsingWalks(r, at, limit);
    WalkMissesNobody(views, Min(limit, PAGE_CAP), u);
    var k: nat :| k < |views| && u in Page(views, Min(limit, PAGE_CAP), k);
    PageIsAnswer(r, at, limit, k);
  }
}
