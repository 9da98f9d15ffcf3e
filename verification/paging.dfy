/** Walking a newest-first list page by page, by offset, while accounts are created in between. */
module Paging {
  import opened Basics
  import opened Schema
  import opened Queries
  import opened Growth

  ghost predicate DistinctTimes(users: map<Uid, UserRow>) {
    forall u, v | u in users && v in users && users[u].createdAt == users[v].createdAt :: u == v
  }

  /** Nobody else was created when `u` was. */
  ghost predicate Untied(users: map<Uid, UserRow>, u: Uid) {
    forall v | v in users && u in users && users[v].createdAt == users[u].createdAt :: u == v
  }

  ghost predicate Ordered(users: map<Uid, UserRow>, order: seq<Uid>) {
    && (forall u :: u in order <==> u in users)
    && (forall i, j | 0 <= i < j < |order| :: order[i] != order[j])
    && (forall i, j | 0 <= i < j < |order| ::
      order[i] in users && order[j] in users && users[order[i]].createdAt >= users[order[j]].createdAt)
  }

  function Newer(users: map<Uid, UserRow>, u: Uid): set<Uid>
    requires u in users
  {
    set v | v in users && users[v].createdAt > users[u].createdAt
  }

  lemma {:induction false} NoDuplicates(s: seq<Uid>, n: nat)
    requires n <= |s| && forall i, j | 0 <= i < j < |s| :: s[i] != s[j]
    ensures |set i | 0 <= i < n :: s[i]| == n
  {
    var all := set i | 0 <= i < n :: s[i];
    if n > 0 {
      NoDuplicates(s, n - 1);
      var front := set i | 0 <= i < n - 1 :: s[i];
      assert s[n - 1] !in front;
      assert all == front + {s[n - 1]};
    }
  }

  /** In a listing an account that shares its creation time with nobody stands behind exactly those created later. */
  lemma PositionIsRank(users: map<Uid, UserRow>, order: seq<Uid>, p: nat)
    requires Ordered(users, order) && p < |order| && order[p] in users && Untied(users, order[p])
    ensures p == |Newer(users, order[p])|
  {
    assert order[p] in order;
    NoDuplicates(order, p);
    assert (set i | 0 <= i < p :: order[i]) == Newer(users, order[p]) by {
      forall v | v in Newer(users, order[p]) ensures exists i :: 0 <= i < p && order[i] == v {
        assert v in order;
        var i :| 0 <= i < |order| && order[i] == v;
      }
    }
  }

  /** Distinct creation times leave the database only one order. */
  lemma OneOrder(users: map<Uid, UserRow>, users': map<Uid, UserRow>, order: seq<Uid>, order': seq<Uid>)
    requires Ordered(users, order) && Ordered(users', order') && DistinctTimes(users) && DistinctTimes(users')
    requires UsersGrow(users, users') && users'.Keys == users.Keys
    ensures order == order'
  {
    forall p | 0 <= p < |order|
      ensures p < |order'| && order'[p] == order[p]
    {
      SamePlace(users, users', order, order', p);
    }
    if |order| < |order'| {
      SamePlace(users', users, order', order, |order|);
    } else if |order'| < |order| {
      SamePlace(users, users', order, order', |order'|);
    }
  }

  lemma SamePlace(users: map<Uid, UserRow>, users': map<Uid, UserRow>, order: seq<Uid>, order': seq<Uid>, p: nat)
    requires Ordered(users, order) && Ordered(users', order') && DistinctTimes(users) && DistinctTimes(users')
    requires users'.Keys == users.Keys && (forall u | u in users :: users[u].createdAt == users'[u].createdAt)
    requires p < |order|
    ensures p < |order'| && order'[p] == order[p]
  {
    assert order[p] in order && order[p] in users && order[p] in users';
    assert Untied(users, order[p]) && Untied(users', order[p]);
    var q :| 0 <= q < |order'| && order'[q] == order[p];
    PositionIsRank(users, order, p);
    PositionIsRank(users', order', q);
    assert Newer(users, order[p]) == Newer(users', order[p]);
  }

  // ---- a walk ------------------------------------------------------------------------------

  /** What the database holds, and the order it lists in, when a page is served. */
  datatype View = View(users: map<Uid, UserRow>, order: seq<Uid>)

  /**
   * Successive pages of `size`, the last one short; between pages accounts may be created and changed but
   * not removed.
   */
  ghost predicate Walk(views: seq<View>, size: nat) {
    && views != [] && size > 0
    && (forall k | 0 <= k < |views| :: Ordered(views[k].users, views[k].order))
    && (forall k | 0 < k < |views| :: UsersGrow(views[k - 1].users, views[k].users))
    && |Page(views, size, |views| - 1)| < size
  }

  ghost predicate LastUntied(views: seq<View>, u: Uid)
    requires views != []
  {
    Untied(views[|views| - 1].users, u)
  }

  /** Newcomers can make a tie, never break one. */
  lemma {:induction false} UntiedBefore(views: seq<View>, size: nat, k: nat, u: Uid)
    requires Walk(views, size) && k < |views| && u in views[0].users && LastUntied(views, u)
    ensures u in views[k].users && Untied(views[k].users, u)
    decreases |views| - k
  {
    hide Ordered, Page;
    StaysListed(views, size, k, u);
    if k < |views| - 1 {
      UntiedBefore(views, size, k + 1, u);
    }
  }

  lemma {:induction false} StaysListed(views: seq<View>, size: nat, k: nat, u: Uid)
    requires Walk(views, size) && k < |views| && u in views[0].users
    ensures u in views[k].users
  {
    hide Ordered, Page;
    if k > 0 {
      StaysListed(views, size, k - 1, u);
    }
  }

  ghost predicate NoTies(views: seq<View>) { forall k | 0 <= k < |views| :: DistinctTimes(views[k].users) }

  predicate StandStill(views: seq<View>, users: map<Uid, UserRow>) {
    forall k | 0 <= k < |views| :: views[k].users == users
  }

  function Page(views: seq<View>, size: nat, k: nat): seq<Uid>
    requires k < |views|
  {
    Window(views[k].order, size, k * size)
  }

  lemma InWindow(order: seq<Uid>, limit: nat, offset: nat, p: nat)
    requires offset <= p < offset + limit && p < |order|
    ensures order[p] in Window(order, limit, offset)
  {
    assert Window(order, limit, offset)[p - offset] == order[p];
  }

  lemma RankGrows(users: map<Uid, UserRow>, users': map<Uid, UserRow>, u: Uid)
    requires UsersGrow(users, users') && u in users
    ensures u in users' && |Newer(users, u)| <= |Newer(users', u)|
  {
    InjectionBound(Newer(users, u), Newer(users', u), (v: Uid) => v);
  }

  /** New accounts push an account further back, never forward, so the walk cannot step over it. */
  lemma {:induction false} Reached(views: seq<View>, size: nat, k: nat, u: Uid)
    requires Walk(views, size) && k < |views| && u in views[0].users && LastUntied(views, u)
    ensures u in views[k].users && u in views[k].order
    ensures (exists j: nat :: j <= k && u in Page(views, size, j)) || |Newer(views[k].users, u)| >= k * size + size
  {
    hide Newer, Page, Untied, UsersGrow;
    UntiedBefore(views, size, k, u);
    if k > 0 {
      UntiedBefore(views, size, k - 1, u);
      Reached(views, size, k - 1, u);
      RankGrows(views[k - 1].users, views[k].users, u);
      assert (k - 1) * size + size == k * size;
    }
    var order := views[k].order;
    var p :| 0 <= p < |order| && order[p] == u;
    PositionIsRank(views[k].users, order, p);
    if k * size <= p < k * size + size {
      OnPage(views, size, k, p);
    }
  }

  lemma OnPage(views: seq<View>, size: nat, k: nat, p: nat)
    requires k < |views| && k * size <= p < k * size + size && p < |views[k].order|
    ensures views[k].order[p] in Page(views, size, k)
  {
    InWindow(views[k].order, size, k * size, p);
  }

  ghost predicate Seen(views: seq<View>, size: nat, u: Uid) {
    exists k: nat :: k < |views| && u in Page(views, size, k)
  }

  /** Every account that existed when the walk began is on some page. */
  lemma WalkMissesNobody(views: seq<View>, size: nat, u: Uid)
    requires Walk(views, size) && u in views[0].users && LastUntied(views, u)
    ensures Seen(views, size, u)
  {
    hide Newer, Untied;
    var k := |views| - 1;
    Reached(views, size, k, u);
    var p :| 0 <= p < |views[k].order| && views[k].order[p] == u;
    PositionIsRank(views[k].users, views[k].order, p);
  }

  function Pages(views: seq<View>, size: nat, n: nat): seq<Uid>
    requires n <= |views|
  {
    if n == 0 then [] else Pages(views, size, n - 1) + Page(views, size, n - 1)
  }

  lemma {:induction false} PagesArePrefix(views: seq<View>, size: nat, n: nat, order: seq<Uid>)
    requires n <= |views| && forall k | 0 <= k < |views| :: views[k].order == order
    ensures Pages(views, size, n) == order[..Min(n * size, |order|)]
  {
    hide Window;
    if n > 0 {
      PagesArePrefix(views, size, n - 1, order);
      assert (n - 1) * size + size == n * size;
      PrefixGrows(order, size, (n - 1) * size);
    }
  }

  lemma PrefixGrows(order: seq<Uid>, limit: nat, offset: nat)
    ensures order[..Min(offset, |order|)] + Window(order, limit, offset) == order[..Min(offset + limit, |order|)]
  {
  }

  lemma {:induction false} OrderKept(views: seq<View>, size: nat, k: nat)
    requires Walk(views, size) && NoTies(views) && k < |views|
    requires forall m | 0 <= m < |views| :: views[m].users.Keys == views[0].users.Keys
    ensures views[k].order == views[0].order
  {
    if k > 0 {
      OrderKept(views, size, k - 1);
      OneOrder(views[k - 1].users, views[k].users, views[k - 1].order, views[k].order);
    }
  }

  /** If nobody is created meanwhile, the pages put together are the whole list. */
  lemma WalkIsList(views: seq<View>, size: nat)
    requires Walk(views, size) && NoTies(views)
    requires forall m | 0 <= m < |views| :: views[m].users.Keys == views[0].users.Keys
    ensures Pages(views, size, |views|) == views[0].order
  {
    hide DistinctTimes;
    var n := |views|;
    forall k | 0 <= k < n ensures views[k].order == views[0].order { OrderKept(views, size, k); }
    PagesArePrefix(views, size, n, views[0].order);
    assert (n - 1) * size + size == n * size;
  }

  // ---- ties -----------------------------------------------------------------------------------

  lemma {:induction false} Oldest(users: map<Uid, UserRow>) returns (u: Uid)
    requires users != map[]
    ensures u in users && forall v | v in users :: users[v].createdAt >= users[u].createdAt
  {
    u :| u in users;
    var rest := users - {u};
    assert forall v | v in users :: v == u || (v in rest && rest[v] == users[v]);
    if rest != map[] {
      var w := Oldest(rest);
      u := if users[w].createdAt < users[u].createdAt then w else u;
    }
  }

  lemma {:induction false} HasOrder(users: map<Uid, UserRow>) returns (order: seq<Uid>)
    ensures Ordered(users, order)
  {
    order := [];
    if users != map[] {
      var u := Oldest(users);
      var rest := users - {u};
      var front := HasOrder(rest);
      order := front + [u];
      forall v ensures v in order <==> v in users { assert v in front <==> v in rest; }
      forall i, j | 0 <= i < j < |order|
        ensures order[i] != order[j] && order[i] in users && order[j] in users
        ensures users[order[i]].createdAt >= users[order[j]].createdAt
      {
        assert order[i] == front[i] && front[i] in front && (j < |front| ==> order[j] == front[j] && front[j] in front);
      }
    }
  }

  /** Neighbours `i` and `i + 1` change places. */
  function Flip(i: nat, j: nat): nat { if j == i then i + 1 else if j == i + 1 then i else j }

  lemma SwappedPair(users: map<Uid, UserRow>, order: seq<Uid>, i: nat, j: nat, k: nat)
    requires Ordered(users, order) && i + 1 < |order| && j < k < |order| && order[i] in users && order[i + 1] in users
    requires users[order[i]].createdAt == users[order[i + 1]].createdAt
    ensures var u, v := order[Flip(i, j)], order[Flip(i, k)];
            u != v && u in users && v in users && users[u].createdAt >= users[v].createdAt
  {
    assert order[Flip(i, j)] in order && order[Flip(i, k)] in order;
  }

  /** Two tied neighbours may as well be listed the other way round. */
  lemma Swapped(users: map<Uid, UserRow>, order: seq<Uid>, i: nat) returns (order': seq<Uid>)
    requires Ordered(users, order) && i + 1 < |order| && order[i] in users && order[i + 1] in users
    requires users[order[i]].createdAt == users[order[i + 1]].createdAt
    ensures Ordered(users, order') && |order'| == |order| && order'[i] == order[i + 1] && order'[i + 1] == order[i]
  {
    order' := seq(|order|, j requires 0 <= j < |order| => order[Flip(i, j)]);
    forall v ensures v in order' <==> v in users { Relisted(order, order', i, v); }
    forall j, k | 0 <= j < k < |order'|
      ensures order'[j] != order'[k] && order'[j] in users && order'[k] in users
      ensures users[order'[j]].createdAt >= users[order'[k]].createdAt
    {
      SwappedPair(users, order, i, j, k);
    }
  }

  lemma Relisted(order: seq<Uid>, order': seq<Uid>, i: nat, v: Uid)
    requires i + 1 < |order| == |order'| && forall j: nat | j < |order| :: order'[j] == order[Flip(i, j)]
    ensures v in order' <==> v in order
  {
    if v in order {
      var j: nat :| j < |order| && order[j] == v;
      assert order'[Flip(i, j)] == v;
    }
  }

  lemma TiedNeighbours(users: map<Uid, UserRow>, order: seq<Uid>, u: Uid) returns (i: nat)
    requires Ordered(users, order) && u in users && !Untied(users, u)
    ensures i + 1 < |order| && order[i] in users && order[i + 1] in users && (order[i] == u || order[i + 1] == u)
    ensures users[order[i]].createdAt == users[order[i + 1]].createdAt
  {
    var v :| v in users && users[u].createdAt == users[v].createdAt && u != v;
    assert u in order && v in order;
    var p :| 0 <= p < |order| && order[p] == u;
    var q :| 0 <= q < |order| && order[q] == v;
    i := if p < q then p else p - 1;
  }

  lemma SingleRow(order: seq<Uid>, k: nat)
    ensures Window(order, 1, k) == if k < |order| then [order[k]] else []
  {
  }

  /** Single-row pages over tables that never change, the database changing its mind about ties after page `i`. */
  function Fickle(users: map<Uid, UserRow>, order: seq<Uid>, order': seq<Uid>, i: nat): (views: seq<View>)
    ensures |views| == |order| + 1
    ensures forall k | 0 <= k < |views| :: views[k] == View(users, if k <= i then order else order')
  {
    seq(|order| + 1, k requires 0 <= k < |order| + 1 => View(users, if k <= i then order else order'))
  }

  lemma FickleWalk(users: map<Uid, UserRow>, order: seq<Uid>, order': seq<Uid>, i: nat)
    requires Ordered(users, order) && Ordered(users, order') && i < |order| == |order'|
    ensures Walk(Fickle(users, order, order', i), 1)
  {
    hide Ordered;
    SingleRow(order', |order|);
  }

  lemma FickleMisses(users: map<Uid, UserRow>, order: seq<Uid>, order': seq<Uid>, i: nat, k: nat)
    requires Ordered(users, order) && Ordered(users, order') && i + 1 < |order| == |order'| && order'[i] == order[i + 1]
    requires k <= |order|
    ensures order[i + 1] !in Page(Fickle(users, order, order', i), 1, k)
  {
    SingleRow(if k <= i then order else order', k);
  }

  /** Any account that is tied can be missed. */
  lemma TiesLoseAccounts(users: map<Uid, UserRow>, u: Uid) returns (views: seq<View>)
    requires u in users && !Untied(users, u)
    ensures Walk(views, 1) && StandStill(views, users) && !Seen(views, 1, u)
  {
    hide Ordered, Walk, Page, Untied;
    var order := HasOrder(users);
    var i := TiedNeighbours(users, order, u);
    var order' := Swapped(users, order, i);
    if order[i] == u {
      order, order' := order', order;
    }
    views := Fickle(users, order, order', i);
    FickleWalk(users, order, order', i);
    forall k: nat | k < |views| ensures u !in Page(views, 1, k) {
      FickleMisses(users, order, order', i, k);
    }
  }

  /**
   * Walks over tables that stand still see an account, at every page size, exactly if nobody was created
   * when it was.
   */
  lemma WalksAreSafe(users: map<Uid, UserRow>, u: Uid)
    requires u in users
    ensures Untied(users, u) <==>
            forall views, size: nat | Walk(views, size) && StandStill(views, users) :: Seen(views, size, u)
  {
    hide Walk, Seen, Untied;
    if Untied(users, u) {
      forall views, size: nat | Walk(views, size) && StandStill(views, users) ensures Seen(views, size, u) {
        assert views != [] by { NotEmpty(views, size); }
        WalkMissesNobody(views, size, u);
      }
    } else {
      var views := TiesLoseAccounts(users, u);
    }
  }

  lemma NotEmpty(views: seq<View>, size: nat)
    requires Walk(views, size)
    ensures views != []
  {
  }
}
