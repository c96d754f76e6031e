/**
  The shared state of one gate client as a value, and what each of its critical sections does to it.
  Calls are heap objects in the program; here a call is its id, and `calls` is the heap they live in.
 */
module Gates {
  import opened History
  import opened Identifiers
  import opened Orders
  import opened OrdersContainers
  import opened Wrappers

  type CallId = nat

  /** A request in flight. `full` says that the one slot of its Done channel is taken. */
  datatype Call = Call(
    cancelRequest: ClientOrderId,
    waitComplete: bool,
    reply: Option<OrderReport>,
    error: Option<ErrorResponse>,
    trades: seq<Trade>,
    full: bool)

  function CreateCall(cancelRequest: ClientOrderId, waitComplete: bool): Call {
    Call(cancelRequest, waitComplete, None, None, [], false)
  }

  datatype Gate = Gate(
    pendingFilled: map<Identifier, CallId>,
    pendingCancel: map<Identifier, set<CallId>>,
    pendingSnap: map<UserId, set<CallId>>,
    calls: map<CallId, Call>,
    snaps: map<CallId, bool>,     // waiting snapshot calls: is the slot taken?
    accepted: set<UserId>,
    users: Cache,
    next: CallId)

  const EMPTY_GATE := Gate(map[], map[], map[], map[], map[], {}, map[], 0)

  // Nested maps of waiting calls.

  function Group<K>(m: map<K, set<CallId>>, key: K): set<CallId> {
    if key in m then m[key] else {}
  }

  function Enter<K>(m: map<K, set<CallId>>, key: K, k: CallId): map<K, set<CallId>> {
    m[key := Group(m, key) + {k}]
  }

  function Leave<K>(m: map<K, set<CallId>>, key: K, k: CallId): map<K, set<CallId>> {
    var rest := Group(m, key) - {k};
    if rest == {} then m - {key} else m[key := rest]
  }

  // Registering, completing and cleaning up by the callers.

  function RegisterNew(g: Gate, id: Identifier, waitComplete: bool, none: ClientOrderId): Gate {
    var made := g.(calls := g.calls[g.next := CreateCall(none, waitComplete)], next := g.next + 1);
    if id in g.pendingFilled then made else made.(pendingFilled := g.pendingFilled[id := g.next])
  }

  function UnregisterNew(g: Gate, id: Identifier): Gate {
    g.(pendingFilled := g.pendingFilled - {id})
  }

  function RegisterCancel(g: Gate, id: Identifier, cancelRequest: ClientOrderId): Gate {
    g.(calls := g.calls[g.next := CreateCall(cancelRequest, false)],
       pendingCancel := Enter(g.pendingCancel, id, g.next),
       next := g.next + 1)
  }

  function UnregisterCancel(g: Gate, id: Identifier, k: CallId): Gate {
    g.(pendingCancel := Leave(g.pendingCancel, id, k))
  }

  function JoinSnap(g: Gate, user: UserId): Gate {
    g.(snaps := g.snaps[g.next := false], pendingSnap := Enter(g.pendingSnap, user, g.next), next := g.next + 1)
  }

  function LeaveSnap(g: Gate, user: UserId, k: CallId): Gate {
    g.(pendingSnap := Leave(g.pendingSnap, user, k))
  }

  function EmptySlot(g: Gate, k: CallId): Gate
    requires k in g.calls
  {
    g.(calls := g.calls[k := g.calls[k].(full := false)])
  }

  function EmptySnapSlot(g: Gate, k: CallId): Gate {
    g.(snaps := g.snaps[k := false])
  }

  // The handlers of the input goroutine.

  function StoreSnapshot(g: Gate, user: UserId, orders: seq<OrderModel>): Gate {
    g.(users := g.users[user := BookOf(orders)])
  }

  function ReleaseWaiters(g: Gate, user: UserId): Gate {
    g.(snaps := map k | k in g.snaps :: g.snaps[k] || k in Group(g.pendingSnap, user))
  }

  function CacheReport(g: Gate, user: UserId, r: OrderReport): Gate {
    g.(users := Reported(g.users, user, r))
  }

  function Answer(c: Call, r: OrderReport): Call {
    c.(reply := Some(r), full := true)
  }

  /** Whether a report for a new order wakes its caller: one that waits for completion skips the partial ones. */
  predicate Resolves(waitComplete: bool, r: OrderReport) {
    if r.order.timeInForce.FOK? || r.order.timeInForce.IOC? then
      !waitComplete || r.order.orderStatus.StatusFilled? || r.order.orderStatus.StatusExpired?
    else true
  }

  function AnswerNew(c: Call, r: OrderReport): Call {
    c.(reply := Some(r),
       trades := if r.reportType.TypeTrade? then c.trades + [TradeOf(r)] else c.trades,
       full := c.full || Resolves(c.waitComplete, r))
  }

  predicate IsFilled(g: Gate, id: Identifier, k: CallId) {
    id in g.pendingFilled && g.pendingFilled[id] == k
  }

  /** The cancel and replace calls that a report of a type that also answers new orders resolves. */
  function Resolved(g: Gate, user: UserId, r: OrderReport): set<CallId> {
    if r.reportType.TypeReplaced? then Group(g.pendingCancel, GetIdentifier(user, r.originalClientOrderID))
    else if r.order.orderStatus.StatusFilled? then Group(g.pendingCancel, GetIdentifier(user, r.Id()))
    else {}
  }

  function ReplyTo(g: Gate, user: UserId, r: OrderReport, k: CallId): Call
    requires k in g.calls
  {
    var id, c := GetIdentifier(user, r.Id()), g.calls[k];
    if r.reportType.TypeCanceled? then
      if k in Group(g.pendingCancel, id) then Answer(c, r) else c
    else if AnswersNew(r.reportType) then
      var c' := if IsFilled(g, id, k) then AnswerNew(c, r) else c;
      if k in Resolved(g, user, r) then Answer(c', r) else c'
    else c
  }

  function HandleReply(g: Gate, user: UserId, r: OrderReport): (g': Gate)
    ensures g' == g.(calls := g'.calls) && g'.calls.Keys == g.calls.Keys
  {
    g.(calls := map k | k in g.calls :: ReplyTo(g, user, r, k))
  }

  function RejectTo(g: Gate, user: UserId, reject: Reject, k: CallId): Call
    requires k in g.calls
  {
    var id, c := GetIdentifier(user, reject.clientOrderID), g.calls[k];
    if IsFilled(g, id, k) || (k in Group(g.pendingCancel, id) && c.cancelRequest == reject.cancelRequestClientOrderID) then
      c.(error := Some(reject.error), full := true)
    else c
  }

  function HandleReject(g: Gate, user: UserId, reject: Reject): (g': Gate)
    ensures g' == g.(calls := g'.calls) && g'.calls.Keys == g.calls.Keys
  {
    g.(calls := map k | k in g.calls :: RejectTo(g, user, reject, k))
  }

  // The same handlers, one group of calls at a time.

  function AnswerSome(calls: map<CallId, Call>, ids: set<CallId>, r: OrderReport): map<CallId, Call> {
    map k | k in calls :: if k in ids then Answer(calls[k], r) else calls[k]
  }

  function AnswerOne(calls: map<CallId, Call>, filled: map<Identifier, CallId>, id: Identifier, r: OrderReport): map<CallId, Call> {
    map k | k in calls :: if id in filled && filled[id] == k then AnswerNew(calls[k], r) else calls[k]
  }

  function Refuse(c: Call, error: ErrorResponse): Call {
    c.(error := Some(error), full := true)
  }

  function RefuseOne(calls: map<CallId, Call>, filled: map<Identifier, CallId>, id: Identifier, error: ErrorResponse): map<CallId, Call> {
    map k | k in calls :: if id in filled && filled[id] == k then Refuse(calls[k], error) else calls[k]
  }

  function RefuseMatching(calls: map<CallId, Call>, ids: set<CallId>, reject: Reject): map<CallId, Call> {
    map k | k in calls ::
      if k in ids && calls[k].cancelRequest == reject.cancelRequestClientOrderID then Refuse(calls[k], reject.error) else calls[k]
  }

  lemma ReplyInGroups(g: Gate, user: UserId, r: OrderReport)
    ensures var id := GetIdentifier(user, r.Id());
      HandleReply(g, user, r).calls ==
        if r.reportType.TypeCanceled? then AnswerSome(g.calls, Group(g.pendingCancel, id), r)
        else if AnswersNew(r.reportType) then
          AnswerSome(AnswerOne(g.calls, g.pendingFilled, id, r), Resolved(g, user, r), r)
        else g.calls
  {
  }

  lemma RejectInGroups(g: Gate, user: UserId, reject: Reject)
    ensures var id := GetIdentifier(user, reject.clientOrderID);
      HandleReject(g, user, reject).calls ==
        RefuseMatching(RefuseOne(g.calls, g.pendingFilled, id, reject.error), Group(g.pendingCancel, id), reject)
  {
  }

  function DropUser(g: Gate, user: UserId): Gate {
    g.(accepted := g.accepted - {user}, users := g.users - {user})
  }

  // What a call waits for, said without the pending maps.

  datatype Kind = New(waitComplete: bool) | Cancel(cancelRequest: ClientOrderId)

  /** The user and order a call is about, and what kind of call it is (a replace waits like a cancel). */
  datatype Ticket = Ticket(user: UserId, order: ClientOrderId, kind: Kind)

  function Key(tk: Ticket): Identifier {
    GetIdentifier(tk.user, tk.order)
  }

  /** The entry is a report that becomes the call's reply. */
  predicate Answers(tk: Ticket, e: Entry) {
    e.Replied? && e.user == tk.user &&
    match tk.kind
    case New(_) =>
      e.report.Id() == tk.order &&
      (match e.report.reportType
       case TypeNew => true
       case TypeSuspended => true
       case TypeExpired => true
       case TypeTrade => true
       case TypeReplaced => true
       case _ => false)
    case Cancel(_) =>
      match e.report.reportType
      case TypeCanceled => e.report.Id() == tk.order
      case TypeReplaced => e.report.originalClientOrderID == tk.order
      case TypeStatus => false
      case TypeRejected => false
      case _ => e.report.order.orderStatus.StatusFilled? && e.report.Id() == tk.order
  }

  /** The entry is a reject that becomes the call's error. */
  predicate Refuses(tk: Ticket, e: Entry) {
    e.Rejected? && e.user == tk.user && e.reject.clientOrderID == tk.order &&
    (tk.kind.Cancel? ==> e.reject.cancelRequestClientOrderID == tk.kind.cancelRequest)
  }

  /** A report of an immediate order that is not complete yet: no answer for a new order that waits for completion. */
  predicate Incomplete(r: OrderReport) {
    && (r.order.timeInForce.FOK? || r.order.timeInForce.IOC?)
    && !r.order.orderStatus.StatusFilled? && !r.order.orderStatus.StatusExpired?
  }

  predicate Wakes(tk: Ticket, e: Entry) {
    Refuses(tk, e) || (Answers(tk, e) && !(tk.kind.New? && tk.kind.waitComplete && Incomplete(e.report)))
  }

  predicate Trades(tk: Ticket, e: Entry) {
    tk.kind.New? && Answers(tk, e) && e.report.reportType.TypeTrade?
  }

  /** What one entry does to a call that is registered under the ticket. */
  function Deliver(tk: Ticket, c: Call, e: Entry): Call {
    c.(reply := if Answers(tk, e) then Some(e.report) else c.reply,
       error := if Refuses(tk, e) then Some(e.reject.error) else c.error,
       trades := if Trades(tk, e) then c.trades + [TradeOf(e.report)] else c.trades,
       full := c.full || Wakes(tk, e))
  }

  predicate Registered(g: Gate, k: CallId, tk: Ticket) {
    match tk.kind
    case New(_) => Key(tk) in g.pendingFilled && g.pendingFilled[Key(tk)] == k
    case Cancel(_) => k in Group(g.pendingCancel, Key(tk))
  }

  /** The call is registered under the ticket, and nowhere else. */
  ghost predicate OnlyRegistered(g: Gate, k: CallId, tk: Ticket) {
    && Registered(g, k, tk)
    && (forall id | id in g.pendingFilled && g.pendingFilled[id] == k :: tk.kind.New? && id == Key(tk))
    && (forall id | id in g.pendingCancel && k in g.pendingCancel[id] :: tk.kind.Cancel? && id == Key(tk))
  }

  ghost predicate Unregistered(g: Gate, k: CallId) {
    && (forall id | id in g.pendingFilled :: g.pendingFilled[id] != k)
    && (forall id | id in g.pendingCancel :: k !in g.pendingCancel[id])
  }

  /** The call was made for the ticket. */
  predicate MadeFor(c: Call, tk: Ticket) {
    match tk.kind
    case New(w) => c.waitComplete == w
    case Cancel(r) => c.cancelRequest == r
  }

  lemma WhereRegistered(g: Gate, k: CallId, tk: Ticket, user: UserId, order: ClientOrderId)
    requires OnlyRegistered(g, k, tk)
    ensures var id := GetIdentifier(user, order);
      && (IsFilled(g, id, k) <==> tk.kind.New? && tk.user == user && tk.order == order)
      && (k in Group(g.pendingCancel, id) <==> tk.kind.Cancel? && tk.user == user && tk.order == order)
  {
    var id := GetIdentifier(user, order);
    assert Key(tk) == id <==> tk.user == user && tk.order == order;
  }

  lemma ReplyToNew(g: Gate, user: UserId, r: OrderReport, at: Prepared, k: CallId, tk: Ticket)
    requires k in g.calls && MadeFor(g.calls[k], tk) && OnlyRegistered(g, k, tk) && tk.kind.New?
    ensures ReplyTo(g, user, r, k) == Deliver(tk, g.calls[k], Replied(user, r, at))
  {
    WhereRegistered(g, k, tk, user, r.Id());
    WhereRegistered(g, k, tk, user, r.originalClientOrderID);
    assert k !in Resolved(g, user, r) && k !in Group(g.pendingCancel, GetIdentifier(user, r.Id()));
  }

  lemma ReplyToCancel(g: Gate, user: UserId, r: OrderReport, at: Prepared, k: CallId, tk: Ticket)
    requires k in g.calls && MadeFor(g.calls[k], tk) && OnlyRegistered(g, k, tk) && tk.kind.Cancel?
    ensures ReplyTo(g, user, r, k) == Deliver(tk, g.calls[k], Replied(user, r, at))
  {
    WhereRegistered(g, k, tk, user, r.Id());
    WhereRegistered(g, k, tk, user, r.originalClientOrderID);
    assert !IsFilled(g, GetIdentifier(user, r.Id()), k);
    assert Answers(tk, Replied(user, r, at)) <==>
      if r.reportType.TypeCanceled? then k in Group(g.pendingCancel, GetIdentifier(user, r.Id()))
      else AnswersNew(r.reportType) && k in Resolved(g, user, r);
  }

  /**
    A handled report reaches exactly the calls whose ticket it answers, as the ticket says, and leaves every
    other call alone. That no other user or order is reached rests on the key being injective.
   */
  lemma ReplyReaches(g: Gate, user: UserId, r: OrderReport, at: Prepared, k: CallId, tk: Ticket)
    requires k in g.calls && MadeFor(g.calls[k], tk) && OnlyRegistered(g, k, tk)
    ensures k in HandleReply(g, user, r).calls
    ensures HandleReply(g, user, r).calls[k] == Deliver(tk, g.calls[k], Replied(user, r, at))
  {
    if tk.kind.New? {
      ReplyToNew(g, user, r, at, k, tk);
    } else {
      ReplyToCancel(g, user, r, at, k, tk);
    }
  }

  lemma ReplySpares(g: Gate, user: UserId, r: OrderReport, k: CallId)
    requires k in g.calls && Unregistered(g, k)
    ensures k in HandleReply(g, user, r).calls && HandleReply(g, user, r).calls[k] == g.calls[k]
  {
  }

  /** A handled reject reaches exactly the calls whose ticket it refuses, and leaves every other call alone. */
  lemma RejectReaches(g: Gate, user: UserId, reject: Reject, k: CallId, tk: Ticket)
    requires k in g.calls && MadeFor(g.calls[k], tk) && OnlyRegistered(g, k, tk)
    ensures HandleReject(g, user, reject).calls[k] == Deliver(tk, g.calls[k], Rejected(user, reject))
  {
    WhereRegistered(g, k, tk, user, reject.clientOrderID);
  }

  lemma RejectSpares(g: Gate, user: UserId, reject: Reject, k: CallId)
    requires k in g.calls && Unregistered(g, k)
    ensures HandleReject(g, user, reject).calls[k] == g.calls[k]
  {
  }
}
