/**
  One gate client under concurrent use, as a state machine. Each API call in progress is a caller with a
  program counter; the input goroutine has one of its own. A step is one critical section, one send, one wake
  or timeout, one cache operation, or one read of a completed call; steps of different callers interleave freely.
 */
module Protocol {
  import opened Bytes
  import opened Gates
  import opened History
  import opened Identifiers
  import opened Orders
  import opened OrdersContainers
  import opened Wrappers

  type Tid = nat

  datatype Op =
    | NewOrder(order: ClientOrderId, waitComplete: bool)
    | CancelOrder(order: ClientOrderId)
    | ReplaceOrder(order: ClientOrderId, request: ClientOrderId, quantity: string, price: string)
    | GetOrder(order: ClientOrderId)
    | GetSnapshot

  datatype Failure = DuplicateOrder | OrderNotFound | OrderNotChanged
                   | SendFailed | SubscribeFailed | ContextDone | NoSnapshot

  datatype Outcome =
    | Failed(why: Failure)
    | Answered(reply: Option<OrderReport>, trades: seq<Trade>, error: Option<ErrorResponse>)
    | Found(found: OrderModel)
    | Listed(book: Book)

  datatype Pc =
    | CheckCache                             // requireSnapshotOrder looks whether the user is cached
    | Accept                                 // requireSnapshot accepts the user
    | Recheck                                // ... and looks again
    | Join                                   // ... and registers a waiting call
    | Subscribing                            // ... and subscribes, if it is the first to wait
    | AwaitSnap                              // ... and waits for the snapshot or the context
    | LeavingSnap(result: Option<Failure>)   // the deferred clean-up of the waiting call
    | Search                                 // the order, or the list of orders, is read from the cache
    | SearchPending                          // a cancel looks for a pending new order instead
    | Register                               // the request call is registered
    | Sending                                // the request is sent
    | Waiting                                // the caller waits for Done or the context
    | Received                               // Done gave the call, its fields are not read yet
    | Leaving(outcome: Outcome)              // the deferred clean-up of the request call
    | Done(outcome: Outcome)

  datatype Caller = Caller(
    user: UserId,
    op: Op,
    pc: Pc,
    snap: CallId,                   // its waiting call, from Join on
    snapSince: nat,                 // how long the history was when it joined
    opener: bool,                   // whether nobody else was waiting then
    call: CallId,                   // its request call, from Register on
    cancelRequest: ClientOrderId,
    since: nat,                     // how long the history was when it registered
    readAt: nat)                    // ... and when it read the completed call

  /** What the input goroutine still has to do for the payload it took. */
  datatype Input =
    | Idle
    | Releasing(user: UserId, storedAt: nat)
    | Replying(user: UserId, report: OrderReport, prepared: Prepared)

  /** `owner` and `log` are there for the proofs: who made a call, and what happened so far. */
  datatype State = State(
    gate: Gate,
    callers: map<Tid, Caller>,
    input: Input,
    owner: map<CallId, Tid>,
    log: seq<Entry>)

  datatype Payload =
    | SnapshotPayload(user: UserId, orders: seq<OrderModel>)
    | ReportPayload(user: UserId, report: OrderReport)
    | RejectPayload(user: UserId, reject: Reject)

  /**
    `Advance` lets one caller take its next step. `ok` chooses between a send that succeeds and one that
    fails, and between waking up and running out of time; `generated` is the id a cancel generates.
   */
  datatype Event =
    | Invoke(t: Tid, user: UserId, op: Op)
    | Advance(t: Tid, ok: bool, generated: ClientOrderId)
    | Receive(payload: Payload)
    | Finish
    | Unsubscribe(user: UserId)

  const NO_ID: ClientOrderId := Zeros(32)

  const INITIAL := State(EMPTY_GATE, map[], Idle, map[], [])

  predicate MakesCall(op: Op) {
    op.NewOrder? || op.CancelOrder? || op.ReplaceOrder?
  }

  /** What the caller waits for; a replace names its own request, a cancel the one that was generated for it. */
  function TicketOf(c: Caller): Ticket
    requires MakesCall(c.op)
  {
    Ticket(c.user, c.op.order,
           match c.op
           case NewOrder(_, waitComplete) => New(waitComplete)
           case ReplaceOrder(_, request, _, _) => Cancel(request)
           case _ => Cancel(c.cancelRequest))
  }

  function Put(s: State, t: Tid, c: Caller): State {
    s.(callers := s.callers[t := c])
  }

  function Goto(s: State, t: Tid, pc: Pc): State
    requires t in s.callers
  {
    Put(s, t, s.callers[t].(pc := pc))
  }

  function Log(s: State, e: Entry): State {
    s.(log := s.log + [e])
  }

  /** The step is not logged and has nothing to do with the cache or the input goroutine. */
  predicate Silent(s: State, s': State) {
    s'.log == s.log && s'.input == s.input && s'.gate.users == s.gate.users && s'.gate.accepted == s.gate.accepted
  }

  function StepInvoke(s: State, t: Tid, user: UserId, op: Op): State {
    Put(s, t, Caller(user, op, if op.GetSnapshot? then Accept else CheckCache, 0, 0, false, 0, NO_ID, 0, 0))
  }

  // requireSnapshot

  function StepAccept(s: State, t: Tid): State
    requires t in s.callers
  {
    var user := s.callers[t].user;
    Log(Goto(s.(gate := s.gate.(accepted := s.gate.accepted + {user})), t, Recheck), Accepted(user))
  }

  function StepJoin(s: State, t: Tid): State
    requires t in s.callers
  {
    var c, k := s.callers[t], s.gate.next;
    var opens := c.user !in s.gate.pendingSnap;
    var joined := s.(gate := JoinSnap(s.gate, c.user), owner := s.owner[k := t]);
    var pc := if opens then Subscribing else AwaitSnap;
    Log(Put(joined, t, c.(pc := pc, snap := k, snapSince := |s.log| + 1, opener := opens)), Joined(c.user, opens))
  }

  function StepSubscribe(s: State, t: Tid, ok: bool): State
    requires t in s.callers
  {
    Log(Goto(s, t, if ok then AwaitSnap else LeavingSnap(Some(SubscribeFailed))), SubscribeTried(s.callers[t].user))
  }

  function StepAwaitSnap(s: State, t: Tid, ok: bool): (s': State)
    requires t in s.callers
    ensures Silent(s, s') && s'.gate.calls == s.gate.calls
  {
    var k := s.callers[t].snap;
    if !ok then Goto(s, t, LeavingSnap(Some(ContextDone)))
    else if k in s.gate.snaps && s.gate.snaps[k] then
      Goto(s.(gate := EmptySnapSlot(s.gate, k)), t, LeavingSnap(None))
    else s
  }

  function StepLeaveSnap(s: State, t: Tid): (s': State)
    requires t in s.callers && s.callers[t].pc.LeavingSnap?
    ensures Silent(s, s') && s'.gate.calls == s.gate.calls
  {
    var c := s.callers[t];
    Goto(s.(gate := LeaveSnap(s.gate, c.user, c.snap)), t,
         match c.pc.result case Some(why) => Done(Failed(why)) case None => Search)
  }

  // requireSnapshotOrder and what each operation does with the order it finds

  predicate Unchanged(op: Op, exist: OrderModel)
    requires op.ReplaceOrder?
  {
    var price := if op.price != "" then op.price else exist.price;
    var quantity := if op.quantity != "" then op.quantity else exist.quantity;
    quantity == exist.quantity && price == exist.price
  }

  function AfterSearch(s: State, c: Caller): (pc: Pc)
    ensures pc.Done? || (MakesCall(c.op) && pc.Register?) || (c.op.CancelOrder? && pc.SearchPending?)
    ensures !pc.Done? || !pc.outcome.Answered?
  {
    match c.op
    case GetSnapshot => if c.user in s.gate.users then Done(Listed(s.gate.users[c.user])) else Done(Failed(NoSnapshot))
    case GetOrder(k) =>
      (match Lookup(s.gate.users, c.user, k) case Some(o) => Done(Found(o)) case None => Done(Failed(OrderNotFound)))
    case NewOrder(k, _) => if Lookup(s.gate.users, c.user, k).Some? then Done(Failed(DuplicateOrder)) else Register
    case CancelOrder(k) => if Lookup(s.gate.users, c.user, k).Some? then Register else SearchPending
    case ReplaceOrder(k, _, _, _) =>
      match Lookup(s.gate.users, c.user, k)
      case None => Done(Failed(OrderNotFound))
      case Some(o) => if Unchanged(c.op, o) then Done(Failed(OrderNotChanged)) else Register
  }

  // NewOrder, CancelOrder, ReplaceOrder

  function AfterSearchPending(s: State, c: Caller): (pc: Pc)
    ensures pc == Register || pc == Done(Failed(OrderNotFound))
  {
    var found := MakesCall(c.op) && GetIdentifier(c.user, c.op.order) in s.gate.pendingFilled;
    if found then Register else Done(Failed(OrderNotFound))
  }

  function StepRegister(s: State, t: Tid, generated: ClientOrderId): (s': State)
    requires t in s.callers && MakesCall(s.callers[t].op)
    ensures t in s'.callers && s'.callers == s.callers[t := s'.callers[t]]
    ensures s'.callers[t].pc == Sending || s'.callers[t].pc == Done(Failed(DuplicateOrder))
    ensures s'.owner == s.owner[s.gate.next := t] && s'.gate.next == s.gate.next + 1
    ensures Silent(s, s') && s'.gate.snaps == s.gate.snaps && s'.gate.pendingSnap == s.gate.pendingSnap
    ensures s.gate.next in s'.gate.calls && !s'.gate.calls[s.gate.next].full
    ensures s'.gate.calls == s.gate.calls[s.gate.next := s'.gate.calls[s.gate.next]]
  {
    var c, k := s.callers[t], s.gate.next;
    var id := GetIdentifier(c.user, c.op.order);
    var c' := c.(pc := Sending, call := k, since := |s.log|);
    var s' := s.(owner := s.owner[k := t]);
    if c.op.NewOrder? then
      var pc := if id in s.gate.pendingFilled then Done(Failed(DuplicateOrder)) else Sending;
      Put(s'.(gate := RegisterNew(s.gate, id, c.op.waitComplete, NO_ID)), t, c'.(pc := pc))
    else
      var request := if c.op.ReplaceOrder? then c.op.request else generated;
      Put(s'.(gate := RegisterCancel(s.gate, id, request)), t, c'.(cancelRequest := request))
  }

  function StepWait(s: State, t: Tid, ok: bool): (s': State)
    requires t in s.callers
    ensures Silent(s, s')
  {
    var k := s.callers[t].call;
    if !ok then Goto(s, t, Leaving(Failed(ContextDone)))
    else if k in s.gate.calls && s.gate.calls[k].full then
      Goto(s.(gate := EmptySlot(s.gate, k)), t, Received)
    else s
  }

  function StepRead(s: State, t: Tid): (s': State)
    requires t in s.callers && s.callers[t].call in s.gate.calls
    ensures Silent(s, s') && s'.gate.calls == s.gate.calls
  {
    var c := s.callers[t];
    var call := s.gate.calls[c.call];
    Put(s, t, c.(pc := Leaving(Answered(call.reply, call.trades, call.error)), readAt := |s.log|))
  }

  function StepLeave(s: State, t: Tid): (s': State)
    requires t in s.callers && s.callers[t].pc.Leaving? && MakesCall(s.callers[t].op)
    ensures Silent(s, s') && s'.gate.calls == s.gate.calls
  {
    var c := s.callers[t];
    var id := GetIdentifier(c.user, c.op.order);
    var gate := if c.op.NewOrder? then UnregisterNew(s.gate, id) else UnregisterCancel(s.gate, id, c.call);
    Goto(s.(gate := gate), t, Done(c.pc.outcome))
  }

  function StepCaller(s: State, t: Tid, ok: bool, generated: ClientOrderId): (s': State)
    requires t in s.callers
    ensures t in s'.callers && s'.callers == s.callers[t := s'.callers[t]]
  {
    var c := s.callers[t];
    match c.pc
    case CheckCache => Goto(s, t, if c.user in s.gate.users then Search else Accept)
    case Accept => StepAccept(s, t)
    case Recheck => Goto(s, t, if c.user in s.gate.users then Search else Join)
    case Join => StepJoin(s, t)
    case Subscribing => StepSubscribe(s, t, ok)
    case AwaitSnap => StepAwaitSnap(s, t, ok)
    case LeavingSnap(_) => StepLeaveSnap(s, t)
    case Search => Goto(s, t, AfterSearch(s, c))
    case SearchPending => Goto(s, t, AfterSearchPending(s, c))
    case Register => if MakesCall(c.op) then StepRegister(s, t, generated) else s
    case Sending => Goto(s, t, if ok then Waiting else Leaving(Failed(SendFailed)))
    case Waiting => StepWait(s, t, ok)
    case Received => if c.call in s.gate.calls then StepRead(s, t) else s
    case Leaving(_) => if MakesCall(c.op) then StepLeave(s, t) else s
    case Done(_) => s
  }

  // The input goroutine

  function StepReceive(s: State, p: Payload): State {
    match p
    case SnapshotPayload(user, orders) =>
      if user !in s.gate.accepted then s
      else Log(s.(gate := StoreSnapshot(s.gate, user, orders), input := Releasing(user, |s.log|)), Stored(user, orders))
    case ReportPayload(user, r) =>
      if user !in s.gate.accepted then s.(input := Replying(user, r, IgnoredAt(|s.log|)))
      else Log(s.(gate := CacheReport(s.gate, user, r), input := Replying(user, r, CachedAt(|s.log|))), Cached(user, r))
    case RejectPayload(user, reject) =>
      Log(s.(gate := HandleReject(s.gate, user, reject)), Rejected(user, reject))
  }

  function StepFinish(s: State): State {
    match s.input
    case Idle => s
    case Releasing(user, at) =>
      Log(s.(gate := ReleaseWaiters(s.gate, user), input := Idle), Released(user, at))
    case Replying(user, r, at) =>
      Log(s.(gate := HandleReply(s.gate, user, r), input := Idle), Replied(user, r, at))
  }

  function StepUnsubscribe(s: State, user: UserId): State {
    Log(s.(gate := DropUser(s.gate, user)), Dropped(user))
  }

  /** One step; an event that is not possible in the state changes nothing. */
  function Step(s: State, e: Event): State {
    match e
    case Invoke(t, user, op) => if t in s.callers then s else StepInvoke(s, t, user, op)
    case Advance(t, ok, generated) => if t in s.callers then StepCaller(s, t, ok, generated) else s
    case Receive(p) => if s.input.Idle? then StepReceive(s, p) else s
    case Finish => StepFinish(s)
    case Unsubscribe(user) => StepUnsubscribe(s, user)
  }

  /** The state after a run of events; every interleaving is such a run. */
  function Run(events: seq<Event>): State {
    if events == [] then INITIAL else Step(Run(events[..|events| - 1]), events[|events| - 1])
  }
}
