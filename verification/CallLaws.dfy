/**
  What one report, one reject and one request do, from any reachable state on: said in terms of what callers asked for
  and of the fields of the message, without the functions that the handlers are written with.
 */
module CallLaws {
  import opened CacheRuns
  import opened Gates
  import opened History
  import opened Identifiers
  import opened Orders
  import opened OrdersContainers
  import opened Outcomes
  import opened Protocol
  import opened Registration
  import opened Theorems
  import opened Windows
  import opened Wrappers

  // Rejects.

  /** The reject is about this caller's order; and for a cancel or a replace, about its very request. */
  predicate IsRefused(c: Caller, user: UserId, reject: Reject) {
    match c.op
    case NewOrder(order, _) => user == c.user && reject.clientOrderID == order
    case ReplaceOrder(order, request, _, _) =>
      user == c.user && reject.clientOrderID == order && reject.cancelRequestClientOrderID == request
    case CancelOrder(order) =>
      user == c.user && reject.clientOrderID == order && reject.cancelRequestClientOrderID == c.cancelRequest
    case _ => false
  }

  /** A reject completes the calls in flight that it is about with its error, and leaves every other one alone. */
  lemma CallAfterReject(events: seq<Event>, user: UserId, reject: Reject, t: Tid)
    requires Run(events).input.Idle? && t in Run(events).callers && InFlight(Run(events).callers[t].pc)
    ensures var s, s' := Run(events), Run(events + [Receive(RejectPayload(user, reject))]); var c := s.callers[t];
      && s'.callers == s.callers && c.call in s.gate.calls && c.call in s'.gate.calls
      && s'.gate.calls[c.call] ==
           if IsRefused(c, user, reject) then s.gate.calls[c.call].(error := Some(reject.error), full := true)
           else s.gate.calls[c.call]
  {
    hide Run, StepReceive, Saw, Woken;
    RunMore(events, Receive(RejectPayload(user, reject)));
    Reachable(events);
    var c := Run(events).callers[t];
    assert CallOk(Run(events), t);
    RejectsAreExact(events, user, reject, c.call);
    assert Held(Run(events), c.call);
    assert Refuses(TicketOf(c), Rejected(user, reject)) <==> IsRefused(c, user, reject);
    ReceiveKeepsCallers(Run(events), RejectPayload(user, reject));
  }

  /** The request id that rejects of a cancel must name is the one that was generated when it registered its call. */
  lemma {:induction false} CancelIsNamed(events: seq<Event>, t: Tid) returns (i: nat)
    requires t in Run(events).callers && Run(events).callers[t].op.CancelOrder?
    requires InFlight(Run(events).callers[t].pc) || HasAnswer(Run(events).callers[t].pc)
    ensures i < |events| && events[i].Advance? && events[i].t == t
    ensures Run(events).callers[t].cancelRequest == events[i].generated
    ensures t in Run(events[..i]).callers && Run(events[..i]).callers[t].pc.Register?
  {
    hide Step;
    var before, e := events[..|events| - 1], events[|events| - 1];
    var s := Run(before);
    NamedByStep(s, e, t);
    if t in s.callers && s.callers[t].op.CancelOrder? && (InFlight(s.callers[t].pc) || HasAnswer(s.callers[t].pc)) {
      i := CancelIsNamed(before, t);
      assert before[..i] == events[..i];
    } else {
      i := |events| - 1;
    }
  }

  lemma NamedByStep(s: State, e: Event, t: Tid)
    requires t in Step(s, e).callers && Step(s, e).callers[t].op.CancelOrder?
    requires InFlight(Step(s, e).callers[t].pc) || HasAnswer(Step(s, e).callers[t].pc)
    ensures t in s.callers && s.callers[t].op == Step(s, e).callers[t].op
    ensures InFlight(s.callers[t].pc) || HasAnswer(s.callers[t].pc) ==>
      Step(s, e).callers[t].cancelRequest == s.callers[t].cancelRequest
    ensures !InFlight(s.callers[t].pc) && !HasAnswer(s.callers[t].pc) ==>
      e.Advance? && e.t == t && s.callers[t].pc.Register? && Step(s, e).callers[t].cancelRequest == e.generated
  {
    hide StepCaller, StepReceive, StepFinish;
    match e
    case Advance(t', ok, generated) =>
      if t' == t && t in s.callers {
        NamedByCaller(s, t, ok, generated);
      }
    case Receive(p) => ReceiveKeepsCallers(s, p);
    case Finish => FinishKeepsCallers(s);
    case _ =>
  }

  lemma NamedByCaller(s: State, t: Tid, ok: bool, generated: ClientOrderId)
    requires t in s.callers && StepCaller(s, t, ok, generated).callers[t].op.CancelOrder?
    ensures var c, c' := s.callers[t], StepCaller(s, t, ok, generated).callers[t];
      && c'.op == c.op
      && (InFlight(c.pc) || HasAnswer(c.pc) ==> c'.cancelRequest == c.cancelRequest)
      && (!InFlight(c.pc) && !HasAnswer(c.pc) && (InFlight(c'.pc) || HasAnswer(c'.pc)) ==>
            c.pc.Register? && c'.cancelRequest == generated)
  {
    hide AfterSearch, AfterSearchPending, GetIdentifier;
    match s.callers[t].pc
    case Register =>
      if s.callers[t].op.NewOrder? {
      } else {
      }
    case Accept =>
    case Join =>
    case Subscribing =>
    case AwaitSnap =>
    case LeavingSnap(_) =>
    case Waiting =>
    case Received =>
    case Leaving(_) =>
    case _ =>
  }

  /** A call in flight carries the request id of its caller: the given one for a replace, the generated one for a cancel. */
  lemma CallsAreNamed(events: seq<Event>, t: Tid)
    requires t in Run(events).callers && InFlight(Run(events).callers[t].pc)
    ensures var s := Run(events); var c := s.callers[t];
      && c.call in s.gate.calls
      && (c.op.ReplaceOrder? ==> s.gate.calls[c.call].cancelRequest == c.op.request)
      && (c.op.CancelOrder? ==> exists i | 0 <= i < |events| ::
            events[i].Advance? && events[i].t == t && s.gate.calls[c.call].cancelRequest == events[i].generated
            && t in Run(events[..i]).callers && Run(events[..i]).callers[t].pc.Register?)
  {
    hide Run, Woken, LastReply, LastError, TradeLog;
    Reachable(events);
    assert CallOk(Run(events), t);
    if Run(events).callers[t].op.CancelOrder? {
      var i := CancelIsNamed(events, t);
    }
  }

  // Reports.

  /** The report is an answer to what this caller asked for. */
  predicate IsAnswered(c: Caller, user: UserId, r: OrderReport) {
    user == c.user &&
    match c.op
    case NewOrder(order, _) =>
      && r.order.clientOrderID == order
      && (r.reportType.TypeNew? || r.reportType.TypeSuspended? || r.reportType.TypeExpired? || r.reportType.TypeTrade?
          || r.reportType.TypeReplaced?)
    case CancelOrder(order) => EndsOrder(order, r)
    case ReplaceOrder(order, _, _, _) => EndsOrder(order, r)
    case _ => false
  }

  /** The order was canceled or replaced, or it was filled. */
  predicate EndsOrder(order: ClientOrderId, r: OrderReport) {
    match r.reportType
    case TypeCanceled => r.order.clientOrderID == order
    case TypeReplaced => r.originalClientOrderID == order
    case TypeStatus => false
    case TypeRejected => false
    case _ => r.order.clientOrderID == order && r.order.orderStatus.StatusFilled?
  }

  /** The caller has to go on waiting: it wants its immediate order completed, and this is only a part. */
  predicate GoesOnWaiting(c: Caller, r: OrderReport) {
    && c.op.NewOrder? && c.op.waitComplete
    && (r.order.timeInForce.FOK? || r.order.timeInForce.IOC?)
    && !r.order.orderStatus.StatusFilled? && !r.order.orderStatus.StatusExpired?
  }

  function TradesIn(c: Caller, r: OrderReport): seq<Trade> {
    if c.op.NewOrder? && r.reportType.TypeTrade? then
      [Trade(r.tradeID, r.timestamp, r.order.lastQuantity, r.order.lastPrice, r.feeAmount, "")]
    else []
  }

  /**
    A report that comes in, once it is handled, is the reply of the calls in flight that it answers, adds its trade to
    a new order's, and completes them unless they have to wait on; every other call in flight is left alone.
   */
  lemma CallAfterReport(events: seq<Event>, user: UserId, r: OrderReport, t: Tid)
    requires Run(events).input.Idle? && t in Run(events).callers && InFlight(Run(events).callers[t].pc)
    ensures var s, s' := Run(events), Run(events + [Receive(ReportPayload(user, r))] + [Finish]); var c := s.callers[t];
      && s'.callers == s.callers && s'.input.Idle? && c.call in s.gate.calls && c.call in s'.gate.calls
      && (var call := s.gate.calls[c.call];
          s'.gate.calls[c.call] ==
            if IsAnswered(c, user, r) then
              call.(reply := Some(r), trades := call.trades + TradesIn(c, r), full := call.full || !GoesOnWaiting(c, r))
            else call)
  {
    hide Run, StepReceive, StepFinish, Saw, Woken;
    var received := events + [Receive(ReportPayload(user, r))];
    RunMore(events, Receive(ReportPayload(user, r)));
    RunMore(received, Finish);
    var s := Run(events);
    ReportIsTaken(s, user, r);
    Reachable(received);
    var c := s.callers[t];
    assert CallOk(Run(received), t);
    RepliesAreExact(received, c.call);
    assert Held(Run(received), c.call);
    FinishKeepsCallers(Run(received));
    DeliveredLiterally(s.gate.calls[c.call], c, user, r, Run(received).input.prepared);
  }

  lemma ReportIsTaken(s: State, user: UserId, r: OrderReport)
    ensures var s' := StepReceive(s, ReportPayload(user, r));
      && s'.callers == s.callers && s'.gate.calls == s.gate.calls && s'.owner == s.owner
      && s'.input.Replying? && s'.input.user == user && s'.input.report == r
  {
  }

  lemma DeliveredLiterally(call: Call, c: Caller, user: UserId, r: OrderReport, at: Prepared)
    requires MakesCall(c.op)
    ensures Deliver(TicketOf(c), call, Replied(user, r, at)) ==
      if IsAnswered(c, user, r) then
        call.(reply := Some(r), trades := call.trades + TradesIn(c, r), full := call.full || !GoesOnWaiting(c, r))
      else call
  {
    assert call.trades + [] == call.trades;
    match c.op
    case NewOrder(_, _) =>
    case CancelOrder(_) =>
    case ReplaceOrder(_, _, _, _) =>
  }

  /** What a report that comes in does to the cache of any reachable state; handing it to the calls does nothing to it. */
  lemma CacheAfterReport(events: seq<Event>, user: UserId, r: OrderReport)
    requires Run(events).input.Idle?
    ensures var received := events + [Receive(ReportPayload(user, r))];
      && TakesReport(Run(events).gate.users, Run(received).gate.users, user, r)
      && Run(received + [Finish]).gate.users == Run(received).gate.users
  {
    hide Run, StepReceive, StepFinish, TakesReport;
    var received := events + [Receive(ReportPayload(user, r))];
    RunMore(events, Receive(ReportPayload(user, r)));
    RunMore(received, Finish);
    Reachable(events);
    CacheTakesReport(Run(events), user, r);
    FinishSparesCache(Run(received));
  }

  lemma CacheTakesReport(s: State, user: UserId, r: OrderReport)
    requires CacheInv(s)
    ensures TakesReport(s.gate.users, StepReceive(s, ReportPayload(user, r)).gate.users, user, r)
  {
    hide Replay, Reported, AcceptedSince;
    ReportedTakesReport(s.gate.users, user, r);
  }

  lemma FinishSparesCache(s: State)
    ensures StepFinish(s).gate.users == s.gate.users
  {
    hide HandleReply;
    match s.input
    case Idle =>
    case Releasing(_, _) =>
    case Replying(_, _, _) =>
  }

  /** Unsubscribing forgets the user's acceptance and orders, and nothing else. */
  lemma UnsubscribeIsExact(events: seq<Event>, user: UserId)
    ensures var s, s' := Run(events), Run(events + [Unsubscribe(user)]);
      && user !in s'.gate.accepted && user !in s'.gate.users
      && s'.gate.accepted + {user} == s.gate.accepted + {user}
      && (forall u | u != user :: u in s'.gate.users <==> u in s.gate.users)
      && (forall u | u in s'.gate.users :: s'.gate.users[u] == s.gate.users[u])
      && s'.callers == s.callers && s'.input == s.input
      && s'.gate == s.gate.(accepted := s'.gate.accepted, users := s'.gate.users)
  {
    hide Run;
    RunMore(events, Unsubscribe(user));
  }
}
