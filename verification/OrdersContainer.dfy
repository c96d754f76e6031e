/** The cache of live orders by user, and what it says about the history that filled it. */
module OrdersContainers {
  import opened History
  import opened Identifiers
  import opened Orders
  import opened Wrappers

  type Book = map<ClientOrderId, OrderModel>

  type Cache = map<UserId, Book>

  function Lookup(cache: Cache, user: UserId, k: ClientOrderId): Option<OrderModel> {
    if user in cache && k in cache[user] then Some(cache[user][k]) else None
  }

  // What the container's operations do to the cache.

  function BookOf(orders: seq<OrderModel>): Book {
    if orders == [] then map[]
    else
      var last := orders[|orders| - 1];
      BookOf(orders[..|orders| - 1])[last.clientOrderID := last]
  }

  function ReportedBook(book: Book, r: OrderReport): Book {
    var kept := if r.reportType.TypeReplaced? then book - {r.originalClientOrderID} else book;
    if Live(r.order.orderStatus) then kept[r.Id() := r.order] else kept - {r.Id()}
  }

  function Reported(cache: Cache, user: UserId, r: OrderReport): Cache {
    if Fills(r.reportType) && user in cache then cache[user := ReportedBook(cache[user], r)] else cache
  }

  /** Every order sits under its own id. */
  predicate WellFiled(cache: Cache) {
    forall user, k | user in cache && k in cache[user] :: cache[user][k].clientOrderID == k
  }

  predicate AllLive(cache: Cache) {
    forall user, k | user in cache && k in cache[user] ::
      var status := cache[user][k].orderStatus;
      status.StatusNew? || status.StatusPartiallyFilled? || status.StatusSuspended?
  }

  /** Every snapshot in the history holds orders only that are new, partially filled or suspended. */
  predicate LiveSnapshots(h: seq<Entry>) {
    forall i, o | 0 <= i < |h| && h[i].Stored? && o in h[i].orders ::
      o.orderStatus.StatusNew? || o.orderStatus.StatusPartiallyFilled? || o.orderStatus.StatusSuspended?
  }

  /**
    What a report does to the orders of its user: its own order is kept as reported if it is new, partially filled or
    suspended, and is gone otherwise; the order that it replaced is gone; and nothing else changes. A report of a
    user who is not cached, or of type Status or Rejected, changes nothing at all.
   */
  ghost predicate TakesReport(before: Cache, after: Cache, user: UserId, r: OrderReport) {
    if user !in before || r.reportType.TypeStatus? || r.reportType.TypeRejected? then after == before
    else
      && after.Keys == before.Keys
      && (forall u | u in before && u != user :: after[u] == before[u])
      && (match r.order.orderStatus
          case StatusNew => Lookup(after, user, r.order.clientOrderID) == Some(r.order)
          case StatusPartiallyFilled => Lookup(after, user, r.order.clientOrderID) == Some(r.order)
          case StatusSuspended => Lookup(after, user, r.order.clientOrderID) == Some(r.order)
          case _ => Lookup(after, user, r.order.clientOrderID) == None)
      && (r.reportType.TypeReplaced? && r.originalClientOrderID != r.order.clientOrderID ==>
            Lookup(after, user, r.originalClientOrderID) == None)
      && (forall k | k != r.order.clientOrderID && (r.reportType.TypeReplaced? ==> k != r.originalClientOrderID) ::
            Lookup(after, user, k) == Lookup(before, user, k))
  }

  lemma ReportedTakesReport(cache: Cache, user: UserId, r: OrderReport)
    ensures TakesReport(cache, Reported(cache, user, r), user, r)
  {
  }

  lemma {:induction false} BookOfIsWellFiled(orders: seq<OrderModel>)
    ensures forall k | k in BookOf(orders) :: BookOf(orders)[k].clientOrderID == k && BookOf(orders)[k] in orders
  {
    if orders != [] {
      BookOfIsWellFiled(orders[..|orders| - 1]);
    }
  }

  class OrdersContainer {
    var locks: set<UserId>
    var users: Cache

    ghost predicate Valid()
      reads this
    {
      locks == users.Keys && WellFiled(users)
    }

    constructor ()
      ensures Valid() && users == map[]
    {
      locks := {};
      users := map[];
    }

    method SetOrders(userID: UserId, orders: seq<OrderModel>)
      requires Valid()
      modifies this
      ensures Valid() && users == old(users)[userID := BookOf(orders)]
    {
      if userID !in locks {
        locks := locks + {userID};
      }
      var userOrders: Book := map[];
      for i := 0 to |orders|
        invariant userOrders == BookOf(orders[..i])
      {
        assert orders[..i + 1][..i] == orders[..i];
        userOrders := userOrders[orders[i].clientOrderID := orders[i]];
      }
      assert orders[..|orders|] == orders;
      users := users[userID := userOrders];
      BookOfIsWellFiled(orders);
    }

    method HasOrders(userID: UserId) returns (ok: bool)
      requires Valid()
      ensures ok == (userID in users)
    {
      ok := userID in locks;
    }

    /** The list holds each cached order once, in some order: storing it again would change nothing. */
    method GetOrders(userID: UserId) returns (result: seq<OrderModel>, ok: bool)
      requires Valid()
      ensures ok == (userID in users)
      ensures ok ==> BookOf(result) == users[userID] && |result| == |users[userID]|
      ensures !ok ==> result == []
    {
      if userID !in locks {
        return [], false;
      }
      var ordersData := users[userID];
      result := [];
      var todo := ordersData.Keys;
      while todo != {}
        invariant todo <= ordersData.Keys
        invariant BookOf(result) == ordersData - todo
        invariant |result| + |todo| == |ordersData.Keys|
      {
        var k :| k in todo;
        assert (result + [ordersData[k]])[..|result|] == result;
        assert ordersData - (todo - {k}) == (ordersData - todo)[k := ordersData[k]];
        result := result + [ordersData[k]];
        todo := todo - {k};
      }
      assert ordersData - {} == ordersData;
      ok := true;
    }

    method GetOrder(userID: UserId, id: ClientOrderId) returns (order: Option<OrderModel>)
      requires Valid()
      ensures order == Lookup(users, userID, id)
    {
      if userID !in locks {
        return None;
      }
      order := if id in users[userID] then Some(users[userID][id]) else None;
    }

    method HandleReport(userID: UserId, report: OrderReport)
      requires Valid()
      modifies this
      ensures Valid() && users == Reported(old(users), userID, report)
      ensures TakesReport(old(users), users, userID, report)
    {
      ReportedTakesReport(users, userID, report);
      if !report.reportType.TypeNew? && !report.reportType.TypeSuspended? && !report.reportType.TypeCanceled?
        && !report.reportType.TypeExpired? && !report.reportType.TypeTrade? && !report.reportType.TypeReplaced?
      {
        return;
      }
      if userID !in locks {
        return;
      }
      if report.reportType.TypeReplaced? {
        users := users[userID := users[userID] - {report.originalClientOrderID}];
      }
      var status := report.order.orderStatus;
      if status.StatusNew? || status.StatusPartiallyFilled? || status.StatusSuspended? {
        var userOrders: Book := users[userID][report.Id() := report.order];
        users := users[userID := userOrders];
      } else {
        users := users[userID := users[userID] - {report.Id()}];
      }
    }

    method Delete(userID: UserId)
      requires Valid()
      modifies this
      ensures Valid() && users == old(users) - {userID}
    {
      if userID !in locks {
        assert users - {userID} == users;
        return;
      }
      users := users - {userID};
      locks := locks - {userID};
    }
  }

  // The cache after a history, one operation at a time.

  function Apply(cache: Cache, e: Entry): Cache {
    match e
    case Stored(user, orders) => cache[user := BookOf(orders)]
    case Cached(user, r) => Reported(cache, user, r)
    case Dropped(user) => cache - {user}
    case _ => cache
  }

  function Replay(h: seq<Entry>): Cache {
    if h == [] then map[] else Apply(Replay(h[..|h| - 1]), h[|h| - 1])
  }

  lemma ReplayAppend(h: seq<Entry>, e: Entry)
    ensures Replay(h + [e]) == Apply(Replay(h), e)
  {
    assert (h + [e])[..|h|] == h;
  }

  // The cache after a history, read off the history.

  /** Some snapshot of the user was stored and the user was not dropped after it. */
  ghost predicate Initialised(h: seq<Entry>, user: UserId) {
    exists i | 0 <= i < |h| :: h[i].Stored? && h[i].user == user && NotDropped(h, user, i + 1)
  }

  ghost predicate NotDropped(h: seq<Entry>, user: UserId, since: nat) {
    forall j | since <= j < |h| :: h[j] != Dropped(user)
  }

  /** The entry says something about this order of this user. */
  predicate Touches(e: Entry, user: UserId, k: ClientOrderId) {
    match e
    case Stored(u, _) => u == user
    case Dropped(u) => u == user
    case Cached(u, r) =>
      u == user && !r.reportType.TypeStatus? && !r.reportType.TypeRejected?
      && (r.Id() == k || (r.reportType.TypeReplaced? && r.originalClientOrderID == k))
    case _ => false
  }

  /** The last order in a snapshot that has this id. */
  function LastWith(orders: seq<OrderModel>, k: ClientOrderId): Option<OrderModel> {
    if orders == [] then None
    else if orders[|orders| - 1].clientOrderID == k then Some(orders[|orders| - 1])
    else LastWith(orders[..|orders| - 1], k)
  }

  /** What an entry that touches an order leaves of it. */
  function Verdict(e: Entry, k: ClientOrderId): Option<OrderModel> {
    match e
    case Stored(_, orders) => LastWith(orders, k)
    case Cached(_, r) =>
      if r.Id() != k then None
      else
        (match r.order.orderStatus
         case StatusNew => Some(r.order)
         case StatusPartiallyFilled => Some(r.order)
         case StatusSuspended => Some(r.order)
         case _ => None)
    case _ => None
  }

  ghost predicate LastTouch(h: seq<Entry>, user: UserId, k: ClientOrderId, i: nat) {
    i < |h| && Touches(h[i], user, k) && forall j | i < j < |h| :: !Touches(h[j], user, k)
  }

  lemma {:induction false} ReplayDomain(h: seq<Entry>, user: UserId)
    ensures user in Replay(h) <==> Initialised(h, user)
  {
    if h != [] {
      var n := |h| - 1;
      var t, e := h[..n], h[n];
      ReplayDomain(t, user);
      if e == Dropped(user) {
        assert h[n] == Dropped(user);
      } else if e.Stored? && e.user == user {
        assert NotDropped(h, user, n + 1);
      } else {
        assert user in Replay(h) <==> user in Replay(t);
        if Initialised(t, user) {
          var i :| 0 <= i < |t| && t[i].Stored? && t[i].user == user && NotDropped(t, user, i + 1);
          assert h[i] == t[i];
          assert forall j | i + 1 <= j < |t| :: h[j] == t[j];
          assert NotDropped(h, user, i + 1);
        }
        if Initialised(h, user) {
          var i :| 0 <= i < |h| && h[i].Stored? && h[i].user == user && NotDropped(h, user, i + 1);
          assert t[i] == h[i];
          assert forall j | i + 1 <= j < |t| :: t[j] == h[j];
          assert NotDropped(t, user, i + 1);
        }
      }
    }
  }

  lemma {:induction false} LookupInBookOf(orders: seq<OrderModel>, k: ClientOrderId)
    ensures LastWith(orders, k) == if k in BookOf(orders) then Some(BookOf(orders)[k]) else None
  {
    if orders != [] {
      LookupInBookOf(orders[..|orders| - 1], k);
    }
  }

  lemma {:induction false} LastTouchWins(h: seq<Entry>, user: UserId, k: ClientOrderId, i: nat)
    requires LastTouch(h, user, k, i) && user in Replay(h)
    ensures Lookup(Replay(h), user, k) == Verdict(h[i], k)
  {
    var n := |h| - 1;
    var t, e := h[..n], h[n];
    if i == n {
      if e.Stored? {
        LookupInBookOf(e.orders, k);
      }
    } else {
      assert !Touches(h[n], user, k);
      assert user in Replay(t) && Lookup(Replay(h), user, k) == Lookup(Replay(t), user, k);
      assert forall j | i < j < |t| :: t[j] == h[j];
      LastTouchWins(t, user, k, i);
    }
  }

  lemma {:induction false} LastTouchExists(h: seq<Entry>, user: UserId, k: ClientOrderId, from: nat) returns (i: nat)
    requires from < |h| && Touches(h[from], user, k)
    ensures LastTouch(h, user, k, i) && i >= from
    decreases |h| - from
  {
    if j :| from < j < |h| && Touches(h[j], user, k) {
      i := LastTouchExists(h, user, k, j);
    } else {
      i := from;
    }
  }

  /**
    For every history, user and order: the cache holds the order with this value exactly when the user
    was initialised and not dropped since, and the last entry that touched the order left this value.
   */
  lemma CacheIsLastTouch(h: seq<Entry>, user: UserId, k: ClientOrderId, order: OrderModel)
    ensures Lookup(Replay(h), user, k) == Some(order)
      <==> Initialised(h, user) && exists i: nat | LastTouch(h, user, k, i) :: Verdict(h[i], k) == Some(order)
  {
    ReplayDomain(h, user);
    if user in Replay(h) {
      var s :| 0 <= s < |h| && h[s].Stored? && h[s].user == user && NotDropped(h, user, s + 1);
      var i := LastTouchExists(h, user, k, s);
      LastTouchWins(h, user, k, i);
      forall j: nat | LastTouch(h, user, k, j)
        ensures j == i
      {
        assert !(i < j) && !(j < i);
      }
    }
  }

  /** Every history files orders under their own ids and, from snapshots of live orders, keeps live orders only. */
  lemma {:induction false} CacheInvariant(h: seq<Entry>)
    ensures WellFiled(Replay(h))
    ensures LiveSnapshots(h) ==> AllLive(Replay(h))
  {
    if h != [] {
      var t, e := h[..|h| - 1], h[|h| - 1];
      CacheInvariant(t);
      assert forall i | 0 <= i < |t| :: t[i] == h[i];
      if e.Stored? {
        BookOfIsWellFiled(e.orders);
      }
    }
  }
}
