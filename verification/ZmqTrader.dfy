/**
  The gate client itself: its pending maps of call objects, its critical sections and its handlers. Each method
  is one critical section of the program, and is proved to do to the heap what the value model of it says.
 */
module ZmqTraders {
  import opened Gates
  import opened Identifiers
  import opened Orders
  import opened OrdersContainers
  import opened Wrappers

  class RequestCall {
    const id: CallId
    const cancelRequest: ClientOrderId
    const waitComplete: bool
    var reply: Option<OrderReport>
    var error: Option<ErrorResponse>
    var trades: seq<Trade>
    var full: bool

    constructor (id: CallId, cancelRequest: ClientOrderId, waitComplete: bool)
      ensures this.id == id && View() == CreateCall(cancelRequest, waitComplete)
    {
      this.id, this.cancelRequest, this.waitComplete := id, cancelRequest, waitComplete;
      reply, error, trades, full := None, None, [], false;
    }

    ghost function View(): Call
      reads this
    {
      Call(cancelRequest, waitComplete, reply, error, trades, full)
    }

    /** Puts the call into the one-slot Done channel; if the slot is taken, the signal is dropped. */
    method SignalDone()
      modifies this
      ensures View() == old(View()).(full := true)
    {
      if !full {
        full := true;
      }
    }
  }

  class CallSnapshot {
    const id: CallId
    var full: bool

    constructor (id: CallId)
      ensures this.id == id && !full
    {
      this.id, full := id, false;
    }

    method SignalDone()
      modifies this
      ensures full
    {
      if !full {
        full := true;
      }
    }
  }

  // Pending maps of objects, seen as maps of ids.

  function IdsOf(m: map<Identifier, RequestCall>): map<Identifier, CallId> {
    map id | id in m :: m[id].id
  }

  function KeysOf<K, V>(m: map<K, map<CallId, V>>): map<K, set<CallId>> {
    map key | key in m :: m[key].Keys
  }

  function Inner<K, V>(m: map<K, map<CallId, V>>, key: K): map<CallId, V> {
    if key in m then m[key] else map[]
  }

  /** Every pending call is a call that was created, under its own id. */
  predicate FilledKnown(m: map<Identifier, RequestCall>, calls: map<CallId, RequestCall>) {
    forall id | id in m :: m[id].id in calls && calls[m[id].id] == m[id]
  }

  predicate WaitingKnown<K, V(==)>(m: map<K, map<CallId, V>>, calls: map<CallId, V>) {
    forall key, k | key in m && k in m[key] :: k in calls && calls[k] == m[key][k]
  }

  predicate CallsFiled(calls: map<CallId, RequestCall>, next: CallId) {
    forall k | k in calls :: calls[k].id == k && k < next
  }

  predicate SnapsFiled(snaps: map<CallId, CallSnapshot>, next: CallId) {
    forall k | k in snaps :: snaps[k].id == k && k < next
  }

  lemma FilledChanged(m: map<Identifier, RequestCall>, id: Identifier, call: RequestCall, calls: map<CallId, RequestCall>)
    requires FilledKnown(m, calls) && call.id in calls && calls[call.id] == call
    ensures IdsOf(m[id := call]) == IdsOf(m)[id := call.id] && FilledKnown(m[id := call], calls)
  {
  }

  lemma FilledRemoved(m: map<Identifier, RequestCall>, id: Identifier, calls: map<CallId, RequestCall>)
    requires FilledKnown(m, calls)
    ensures IdsOf(m - {id}) == IdsOf(m) - {id} && FilledKnown(m - {id}, calls)
  {
  }

  lemma WaitingEntered<K, V>(m: map<K, map<CallId, V>>, key: K, k: CallId, v: V, calls: map<CallId, V>)
    requires WaitingKnown(m, calls) && k in calls && calls[k] == v
    ensures KeysOf(m[key := Inner(m, key)[k := v]]) == Enter(KeysOf(m), key, k)
    ensures WaitingKnown(m[key := Inner(m, key)[k := v]], calls)
  {
    var waiting := Inner(m, key)[k := v];
    assert waiting.Keys == Inner(m, key).Keys + {k};
    assert Group(KeysOf(m), key) == Inner(m, key).Keys;
    assert KeysOf(m[key := waiting]) == KeysOf(m)[key := waiting.Keys];
  }

  lemma WaitingGrown<K, V>(m: map<K, map<CallId, V>>, k: CallId, v: V, calls: map<CallId, V>)
    requires WaitingKnown(m, calls) && k !in calls
    ensures WaitingKnown(m, calls[k := v])
  {
    forall key, k' | key in m && k' in m[key]
      ensures k' in calls && calls[k := v][k'] == m[key][k']
    {
      assert calls[k'] == m[key][k'];
    }
  }

  lemma WaitingLeft<K, V>(m: map<K, map<CallId, V>>, key: K, k: CallId, calls: map<CallId, V>)
    requires WaitingKnown(m, calls)
    ensures var rest := Inner(m, key) - {k};
      var m' := if rest == map[] then m - {key} else m[key := rest];
      KeysOf(m') == Leave(KeysOf(m), key, k) && WaitingKnown(m', calls)
  {
    var rest := Inner(m, key) - {k};
    assert rest.Keys == Group(KeysOf(m), key) - {k};
    assert rest == map[] <==> rest.Keys == {};
  }

  lemma NoGroup<K, V>(m: map<K, map<CallId, V>>, key: K)
    requires key !in m
    ensures Group(KeysOf(m), key) == {}
  {
  }

  lemma SomeAnswered(was: map<CallId, Call>, now: map<CallId, Call>, ids: set<CallId>, r: OrderReport)
    requires now.Keys == was.Keys && forall k | k in was :: now[k] == if k in ids then Answer(was[k], r) else was[k]
    ensures now == AnswerSome(was, ids, r)
  {
  }

  function RefuseIf(c: Call, reject: Reject): Call {
    if c.cancelRequest == reject.cancelRequestClientOrderID then Refuse(c, reject.error) else c
  }

  lemma SomeRefused(was: map<CallId, Call>, now: map<CallId, Call>, ids: set<CallId>, reject: Reject)
    requires now.Keys == was.Keys && forall k | k in was :: now[k] == if k in ids then RefuseIf(was[k], reject) else was[k]
    ensures now == RefuseMatching(was, ids, reject)
  {
  }

  lemma NobodyRefused(calls: map<CallId, Call>, reject: Reject)
    ensures RefuseMatching(calls, {}, reject) == calls
  {
  }

  lemma NobodyAnswered(calls: map<CallId, Call>, r: OrderReport)
    ensures AnswerSome(calls, {}, r) == calls
  {
  }

  class ZmqTrader {
    var pendingFilled: map<Identifier, RequestCall>
    var pendingCancel: map<Identifier, map<CallId, RequestCall>>
    var pendingSnap: map<UserId, map<CallId, CallSnapshot>>
    var acceptedUsers: set<UserId>
    var nextRequestID: CallId
    const orders: OrdersContainer

    // Every call ever created, also those that are no longer pending.
    ghost var calls: map<CallId, RequestCall>
    ghost var snaps: map<CallId, CallSnapshot>

    ghost predicate Valid()
      reads this, orders
    {
      && orders.Valid()
      && CallsFiled(calls, nextRequestID)
      && SnapsFiled(snaps, nextRequestID)
      && FilledKnown(pendingFilled, calls)
      && WaitingKnown(pendingCancel, calls)
      && WaitingKnown(pendingSnap, snaps)
    }

    ghost function CallViews(): map<CallId, Call>
      reads this`calls, calls.Values
    {
      map k | k in calls :: calls[k].View()
    }

    ghost function SnapViews(): map<CallId, bool>
      reads this`snaps, snaps.Values
    {
      map k | k in snaps :: snaps[k].full
    }

    ghost function View(): Gate
      reads this, orders, calls.Values, snaps.Values
    {
      Gate(IdsOf(pendingFilled), KeysOf(pendingCancel), KeysOf(pendingSnap),
           CallViews(), SnapViews(), acceptedUsers, orders.users, nextRequestID)
    }

    constructor ()
      ensures Valid() && View() == EMPTY_GATE
    {
      pendingFilled, pendingCancel, pendingSnap := map[], map[], map[];
      acceptedUsers, nextRequestID := {}, 0;
      calls, snaps := map[], map[];
      orders := new OrdersContainer();
      new;
      assert CallViews() == map[] && SnapViews() == map[];
      assert IdsOf(pendingFilled) == map[] && KeysOf(pendingCancel) == map[] && KeysOf(pendingSnap) == map[];
    }

    // The callers' critical sections.

    /** Makes a request call with the next id; it is not pending yet. */
    method CreateRequestCall(cancelRequest: ClientOrderId, waitComplete: bool) returns (call: RequestCall)
      requires Valid()
      modifies this`calls, this`nextRequestID
      ensures Valid() && fresh(call) && call.id == old(nextRequestID) && call.id in calls && calls[call.id] == call
      ensures nextRequestID == old(nextRequestID) + 1
      ensures CallViews() == old(CallViews())[call.id := CreateCall(cancelRequest, waitComplete)]
      ensures SnapViews() == old(SnapViews())
    {
      call := new RequestCall(nextRequestID, cancelRequest, waitComplete);
      WaitingGrown(pendingCancel, nextRequestID, call, calls);
      calls := calls[nextRequestID := call];
      nextRequestID := nextRequestID + 1;
    }

    method RegisterNew(id: Identifier, waitComplete: bool, none: ClientOrderId) returns (call: RequestCall, duplicate: bool)
      requires Valid()
      modifies this
      ensures Valid() && fresh(call) && call.id == old(nextRequestID)
      ensures duplicate == (id in old(pendingFilled))
      ensures View() == Gates.RegisterNew(old(View()), id, waitComplete, none)
    {
      hide FilledKnown, WaitingKnown, CallsFiled, SnapsFiled, KeysOf;
      call := CreateRequestCall(none, waitComplete);
      duplicate := id in pendingFilled;
      if !duplicate {
        FilledChanged(pendingFilled, id, call, calls);
        pendingFilled := pendingFilled[id := call];
      }
      assert CallViews() == old(CallViews())[call.id := CreateCall(none, waitComplete)] && SnapViews() == old(SnapViews());
    }

    method UnregisterNew(id: Identifier)
      requires Valid()
      modifies this`pendingFilled
      ensures Valid()
      ensures View() == Gates.UnregisterNew(old(View()), id)
    {
      hide FilledKnown, WaitingKnown, CallsFiled, SnapsFiled, IdsOf, KeysOf;
      FilledRemoved(pendingFilled, id, calls);
      pendingFilled := pendingFilled - {id};
    }

    method RegisterCancel(id: Identifier, cancelRequest: ClientOrderId) returns (call: RequestCall)
      requires Valid()
      modifies this
      ensures Valid() && fresh(call) && call.id == old(nextRequestID)
      ensures View() == Gates.RegisterCancel(old(View()), id, cancelRequest)
    {
      hide FilledKnown, WaitingKnown, CallsFiled, SnapsFiled, IdsOf, KeysOf;
      call := CreateRequestCall(cancelRequest, false);
      WaitingEntered(pendingCancel, id, call.id, call, calls);
      pendingCancel := pendingCancel[id := Inner(pendingCancel, id)[call.id := call]];
    }

    method UnregisterCancel(id: Identifier, k: CallId)
      requires Valid()
      modifies this`pendingCancel
      ensures Valid()
      ensures View() == Gates.UnregisterCancel(old(View()), id, k)
    {
      hide FilledKnown, WaitingKnown, CallsFiled, SnapsFiled, IdsOf, KeysOf, Gates.Leave, Group;
      WaitingLeft(pendingCancel, id, k, calls);
      var waiting := Inner(pendingCancel, id) - {k};
      if waiting == map[] {
        pendingCancel := pendingCancel - {id};
      } else {
        pendingCancel := pendingCancel[id := waiting];
      }
    }

    method JoinSnap(userID: UserId) returns (call: CallSnapshot, duplicateRequest: bool)
      requires Valid()
      modifies this
      ensures Valid() && fresh(call) && call.id == old(nextRequestID)
      ensures duplicateRequest == (userID in old(pendingSnap))
      ensures View() == Gates.JoinSnap(old(View()), userID)
    {
      hide FilledKnown, WaitingKnown, CallsFiled, SnapsFiled, IdsOf, KeysOf;
      call := CreateCallSnapshot();
      duplicateRequest := userID in pendingSnap;
      WaitingEntered(pendingSnap, userID, call.id, call, snaps);
      pendingSnap := pendingSnap[userID := Inner(pendingSnap, userID)[call.id := call]];
    }

    method CreateCallSnapshot() returns (call: CallSnapshot)
      requires Valid()
      modifies this`snaps, this`nextRequestID
      ensures Valid() && fresh(call) && call.id == old(nextRequestID) && call.id in snaps && snaps[call.id] == call
      ensures nextRequestID == old(nextRequestID) + 1
      ensures SnapViews() == old(SnapViews())[call.id := false]
      ensures CallViews() == old(CallViews())
    {
      call := new CallSnapshot(nextRequestID);
      WaitingGrown(pendingSnap, nextRequestID, call, snaps);
      snaps := snaps[nextRequestID := call];
      nextRequestID := nextRequestID + 1;
    }

    method LeaveSnap(userID: UserId, k: CallId)
      requires Valid()
      modifies this`pendingSnap
      ensures Valid()
      ensures View() == Gates.LeaveSnap(old(View()), userID, k)
    {
      hide FilledKnown, WaitingKnown, CallsFiled, SnapsFiled, IdsOf, KeysOf, Gates.Leave, Group;
      WaitingLeft(pendingSnap, userID, k, snaps);
      var waiting := Inner(pendingSnap, userID) - {k};
      if waiting == map[] {
        pendingSnap := pendingSnap - {userID};
      } else {
        pendingSnap := pendingSnap[userID := waiting];
      }
    }

    method EnsureUserAccepted(userID: UserId)
      requires Valid()
      modifies this`acceptedUsers
      ensures Valid() && View() == old(View()).(accepted := old(acceptedUsers) + {userID})
    {
      acceptedUsers := acceptedUsers + {userID};
    }

    method Unsubscribe(userID: UserId)
      requires Valid()
      modifies this`acceptedUsers, orders
      ensures Valid() && View() == DropUser(old(View()), userID)
    {
      acceptedUsers := acceptedUsers - {userID};
      orders.Delete(userID);
    }

    // The handlers of the input goroutine.

    /** Gives every waiting call the report as its reply, and completes it. */
    method AnswerAll(waiting: map<CallId, RequestCall>, report: OrderReport)
      requires forall k | k in waiting :: waiting[k].id == k
      modifies waiting.Values
      ensures forall k | k in waiting :: waiting[k].View() == Answer(old(waiting[k].View()), report)
    {
      var todo := waiting.Keys;
      while todo != {}
        invariant todo <= waiting.Keys
        invariant forall k | k in waiting ::
          waiting[k].View() == if k in todo then old(waiting[k].View()) else Answer(old(waiting[k].View()), report)
      {
        var k :| k in todo;
        waiting[k].reply := Some(report);
        waiting[k].SignalDone();
        todo := todo - {k};
      }
    }

    method AnswerPending(pending: RequestCall, report: OrderReport)
      modifies pending
      ensures pending.View() == AnswerNew(old(pending.View()), report)
      ensures pending.trades == old(pending.trades) + if !report.reportType.TypeTrade? then [] else
        [Trade(report.tradeID, report.timestamp, report.order.lastQuantity, report.order.lastPrice, report.feeAmount, "")]
    {
      pending.reply := Some(report);
      if report.reportType.TypeTrade? {
        pending.trades := pending.trades
          + [Trade(report.tradeID, report.timestamp, report.order.lastQuantity, report.order.lastPrice, report.feeAmount, "")];
      }
      if report.order.timeInForce.FOK? || report.order.timeInForce.IOC? {
        if !pending.waitComplete || report.order.orderStatus.StatusFilled? || report.order.orderStatus.StatusExpired? {
          pending.SignalDone();
        }
      } else {
        pending.SignalDone();
      }
    }

    /** The calls of a group are the calls under their ids, and the objects of no other. */
    lemma OwnCalls(id: Identifier)
      requires Valid() && id in pendingCancel
      ensures var waiting := pendingCancel[id];
        && Group(KeysOf(pendingCancel), id) == waiting.Keys <= calls.Keys && waiting.Values <= calls.Values
        && (forall k | k in waiting :: waiting[k].id == k && calls[k] == waiting[k])
        && (forall k | k in calls && k !in waiting :: calls[k] !in waiting.Values)
    {
      assert forall k | k in pendingCancel[id] :: calls[k] == pendingCancel[id][k];
    }

    /** Answers every cancel and replace call that waits under the key, and no other call. */
    method AnswerCancels(id: Identifier, report: OrderReport)
      requires Valid()
      modifies calls.Values
      ensures Valid() && SnapViews() == old(SnapViews())
      ensures CallViews() == AnswerSome(old(CallViews()), Group(KeysOf(pendingCancel), id), report)
    {
      hide FilledKnown, WaitingKnown, CallsFiled, SnapsFiled, IdsOf, KeysOf, Group, AnswerSome;
      if id in pendingCancel {
        var waiting := pendingCancel[id];
        ghost var was := CallViews();
        OwnCalls(id);
        AnswerAll(waiting, report);
        assert forall k | k in calls && k !in waiting :: calls[k].View() == was[k];
        assert forall k | k in waiting :: calls[k].View() == Answer(was[k], report);
        SomeAnswered(was, CallViews(), waiting.Keys, report);
      } else {
        NoGroup(pendingCancel, id);
        NobodyAnswered(CallViews(), report);
      }
    }

    /** Answers the new order that is pending under the key, if there is one, and no other call. */
    method AnswerFilled(id: Identifier, report: OrderReport)
      requires Valid()
      modifies calls.Values
      ensures Valid() && SnapViews() == old(SnapViews())
      ensures CallViews() == AnswerOne(old(CallViews()), IdsOf(pendingFilled), id, report)
    {
      if id in pendingFilled {
        assert calls[pendingFilled[id].id] == pendingFilled[id];
        AnswerPending(pendingFilled[id], report);
      }
    }

    method HandleReportReplyCall(userID: UserId, report: OrderReport)
      requires Valid()
      modifies calls.Values
      ensures Valid() && View() == HandleReply(old(View()), userID, report)
    {
      hide FilledKnown, WaitingKnown, CallsFiled, SnapsFiled, GetIdentifier, HandleReply, AnswerSome, AnswerOne;
      ReplyInGroups(View(), userID, report);
      var id := GetIdentifier(userID, report.Id());
      if report.reportType.TypeCanceled? {
        AnswerCancels(id, report);
      } else if report.reportType.TypeNew? || report.reportType.TypeSuspended? || report.reportType.TypeExpired?
        || report.reportType.TypeTrade? || report.reportType.TypeReplaced?
      {
        AnswerFilled(id, report);
        if report.order.orderStatus.StatusFilled? || report.reportType.TypeReplaced? {
          if report.reportType.TypeReplaced? {
            AnswerCancels(GetIdentifier(userID, report.originalClientOrderID), report);
          } else {
            AnswerCancels(id, report);
          }
        } else {
          NobodyAnswered(CallViews(), report);
        }
      }
    }

    method RejectPending(pending: RequestCall, error: ErrorResponse)
      modifies pending
      ensures pending.View() == Refuse(old(pending.View()), error)
    {
      pending.error := Some(error);
      pending.SignalDone();
    }

    /** Gives the pending new order under the key, if there is one, the error, and completes it. */
    method RejectFilled(id: Identifier, error: ErrorResponse)
      requires Valid()
      modifies calls.Values
      ensures Valid() && SnapViews() == old(SnapViews())
      ensures CallViews() == RefuseOne(old(CallViews()), IdsOf(pendingFilled), id, error)
    {
      if id in pendingFilled {
        assert calls[pendingFilled[id].id] == pendingFilled[id];
        RejectPending(pendingFilled[id], error);
      }
    }

    method RejectMatching(waiting: map<CallId, RequestCall>, reject: Reject)
      requires forall k | k in waiting :: waiting[k].id == k
      modifies waiting.Values
      ensures forall k | k in waiting :: waiting[k].View() == RefuseIf(old(waiting[k].View()), reject)
    {
      var todo := waiting.Keys;
      while todo != {}
        invariant todo <= waiting.Keys
        invariant forall k | k in waiting ::
          waiting[k].View() == if k in todo then old(waiting[k].View()) else RefuseIf(old(waiting[k].View()), reject)
      {
        var k :| k in todo;
        if waiting[k].cancelRequest == reject.cancelRequestClientOrderID {
          waiting[k].error := Some(reject.error);
          waiting[k].SignalDone();
        }
        todo := todo - {k};
      }
    }

    /** Gives every call that waits under the key for this very request the error, and completes it. */
    method RejectCancels(id: Identifier, reject: Reject)
      requires Valid()
      modifies calls.Values
      ensures Valid() && SnapViews() == old(SnapViews())
      ensures CallViews() == RefuseMatching(old(CallViews()), Group(KeysOf(pendingCancel), id), reject)
    {
      hide FilledKnown, WaitingKnown, CallsFiled, SnapsFiled, IdsOf, KeysOf, Group, RefuseMatching;
      if id in pendingCancel {
        var waiting := pendingCancel[id];
        ghost var was := CallViews();
        OwnCalls(id);
        RejectMatching(waiting, reject);
        assert forall k | k in calls && k !in waiting :: calls[k].View() == was[k];
        assert forall k | k in waiting :: calls[k].View() == RefuseIf(was[k], reject);
        SomeRefused(was, CallViews(), waiting.Keys, reject);
      } else {
        NoGroup(pendingCancel, id);
        NobodyRefused(CallViews(), reject);
      }
    }

    method HandleRejectPayload(userID: UserId, reject: Reject)
      requires Valid()
      modifies calls.Values
      ensures Valid() && View() == HandleReject(old(View()), userID, reject)
    {
      hide FilledKnown, WaitingKnown, CallsFiled, SnapsFiled, GetIdentifier, HandleReject, RefuseOne, RefuseMatching;
      RejectInGroups(View(), userID, reject);
      var id := GetIdentifier(userID, reject.clientOrderID);
      RejectFilled(id, reject.error);
      RejectCancels(id, reject);
    }

    method WakeAll(waiting: map<CallId, CallSnapshot>)
      modifies waiting.Values
      ensures forall k | k in waiting :: waiting[k].full
    {
      var todo := waiting.Keys;
      while todo != {}
        invariant todo <= waiting.Keys
        invariant forall k | k in waiting && k !in todo :: waiting[k].full
      {
        var k :| k in todo;
        waiting[k].SignalDone();
        todo := todo - {k};
      }
    }

    /** Wakes everybody who waits for the user's snapshot, and nobody else. */
    method ReleaseWaiters(userID: UserId)
      requires Valid()
      modifies snaps.Values
      ensures Valid() && View() == Gates.ReleaseWaiters(old(View()), userID)
    {
      hide FilledKnown, CallsFiled, IdsOf;
      if userID in pendingSnap {
        var waiting := pendingSnap[userID];
        assert forall k | k in waiting :: snaps[k] == waiting[k];
        assert waiting.Values <= snaps.Values;
        WakeAll(waiting);
        assert forall k | k in snaps && k !in waiting :: snaps[k] !in waiting.Values;
      }
      assert SnapViews() == Gates.ReleaseWaiters(old(View()), userID).snaps;
    }

    /** A snapshot of a user who is not accepted is ignored. */
    method HandleSnapshot(userID: UserId, snapshot: seq<OrderModel>)
      requires Valid()
      modifies orders, snaps.Values
      ensures Valid()
      ensures View() == if userID in acceptedUsers
                        then Gates.ReleaseWaiters(StoreSnapshot(old(View()), userID, snapshot), userID)
                        else old(View())
    {
      if userID !in acceptedUsers {
        return;
      }
      orders.SetOrders(userID, snapshot);
      assert View() == StoreSnapshot(old(View()), userID, snapshot);
      ReleaseWaiters(userID);
    }

    method HandleReportFillSnapshot(userID: UserId, report: OrderReport)
      requires Valid()
      modifies orders
      ensures Valid() && View() == CacheReport(old(View()), userID, report)
    {
      if report.reportType.TypeNew? || report.reportType.TypeSuspended? || report.reportType.TypeCanceled?
        || report.reportType.TypeExpired? || report.reportType.TypeTrade? || report.reportType.TypeReplaced?
      {
        orders.HandleReport(userID, report);
      }
      assert CallViews() == old(CallViews()) && SnapViews() == old(SnapViews());
    }

    /** The cache first, if the user is accepted; then the pending calls, whoever the user is. */
    method HandleReport(userID: UserId, report: OrderReport)
      requires Valid()
      modifies orders, calls.Values
      ensures Valid()
      ensures View() == HandleReply(if userID in acceptedUsers then CacheReport(old(View()), userID, report) else old(View()), userID, report)
    {
      if userID in acceptedUsers {
        HandleReportFillSnapshot(userID, report);
      }
      HandleReportReplyCall(userID, report);
    }
  }
}
