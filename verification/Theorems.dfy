/**
  What every run of the gate client guarantees, for all interleavings of its callers with the input goroutine.
 */
module Theorems {
  import opened CacheRuns
  import opened Epochs
  import opened Gates
  import opened History
  import opened Identifiers
  import opened Orders
  import opened OrdersContainers
  import opened Outcomes
  import opened Protocol
  import opened Registration
  import opened SnapshotReads
  import opened Snapshots
  import opened Windows
  import opened Wrappers

  /** Everything that holds in every reachable state. */
  lemma {:induction false} Reachable(events: seq<Event>)
    ensures var s := Run(events);
      Inv(s) && SnapInv(s) && EpochInv(s) && ResultsOk(s) && CacheInv(s) && LogInv(s) && ReadsOk(s)
  {
    hide Inv, SnapInv, EpochInv, ResultsOk, CacheInv, LogInv, ReadsOk, Step;
    if events == [] {
      Initially();
    } else {
      var before, e := events[..|events| - 1], events[|events| - 1];
      Reachable(before);
      StepKeeps(Run(before), e);
      StepWaits(Run(before), e);
      StepEpoch(Run(before), e);
      StepResults(Run(before), e);
      StepCache(Run(before), e);
      StepLog(Run(before), e);
      assert SnapsOk(Run(before)) by {
        SnapsAreOk(Run(before));
      }
      StepReads(Run(before), e);
    }
  }

  lemma Initially()
    ensures Inv(INITIAL) && SnapInv(INITIAL) && EpochInv(INITIAL) && ResultsOk(INITIAL) && CacheInv(INITIAL) && LogInv(INITIAL)
    ensures ReadsOk(INITIAL)
  {
  }

  lemma SnapsAreOk(s: State)
    requires SnapInv(s)
    ensures SnapsOk(s)
  {
  }

  // What calls see.

  /** The part of the history that a call in flight has been registered for. */
  function WindowOf(s: State, t: Tid): seq<Entry>
    requires t in s.callers && s.callers[t].since <= |s.log|
  {
    s.log[s.callers[t].since..]
  }

  /**
    A call in flight has exactly what was handled for its ticket since it registered: the last reply, the last
    error, its trades in order; and its caller is woken exactly if something that wakes it was handled.
   */
  lemma CallsReadTheHistory(events: seq<Event>, t: Tid)
    requires t in Run(events).callers && InFlight(Run(events).callers[t].pc)
    ensures var s := Run(events); var c := s.callers[t];
      && MakesCall(c.op) && c.call in s.gate.calls && c.since <= |s.log|
      && (var tk, call := TicketOf(c), s.gate.calls[c.call];
          && call.reply == LastReply(tk, WindowOf(s, t))
          && call.error == LastError(tk, WindowOf(s, t))
          && call.trades == TradeLog(tk, WindowOf(s, t))
          && (c.pc.Sending? || c.pc.Waiting? ==> (call.full <==> Woken(tk, WindowOf(s, t))))
          && (c.pc.Received? ==> Woken(tk, WindowOf(s, t))))
  {
    Reachable(events);
    assert CallOk(Run(events), t);
  }

  ghost predicate FullHasResult(calls: map<CallId, Call>) {
    forall k | k in calls && calls[k].full :: calls[k].reply.Some? || calls[k].error.Some?
  }

  /** Whichever call it is, pending or not: a full Done slot means a reply or an error is there to be read. */
  lemma {:induction false} FullMeansResult(events: seq<Event>)
    ensures FullHasResult(Run(events).gate.calls)
  {
    hide Step;
    if events != [] {
      FullMeansResult(events[..|events| - 1]);
      StepKeepsFull(Run(events[..|events| - 1]), events[|events| - 1]);
    }
  }

  lemma StepKeepsFull(s: State, e: Event)
    requires FullHasResult(s.gate.calls)
    ensures FullHasResult(Step(s, e).gate.calls)
  {
    hide StepCaller, StepReceive, StepFinish, FullHasResult;
    match e
    case Advance(t, ok, generated) =>
      if t in s.callers {
        CallerKeepsFull(s, t, ok, generated);
      }
    case Receive(p) => ReceiveKeepsFull(s, p);
    case Finish => FinishKeepsFull(s);
    case _ =>
  }

  lemma ReceiveKeepsFull(s: State, p: Payload)
    requires FullHasResult(s.gate.calls)
    ensures FullHasResult(StepReceive(s, p).gate.calls)
  {
    hide GetIdentifier;
  }

  lemma FinishKeepsFull(s: State)
    requires FullHasResult(s.gate.calls)
    ensures FullHasResult(StepFinish(s).gate.calls)
  {
    hide HandleReply, FullHasResult;
    match s.input
    case Replying(user, r, _) => ReplyKeepsFull(s.gate, user, r);
    case _ =>
  }

  lemma ReplyKeepsFull(g: Gate, user: UserId, r: OrderReport)
    requires FullHasResult(g.calls)
    ensures FullHasResult(HandleReply(g, user, r).calls)
  {
    hide GetIdentifier, Group, IsFilled, Resolved;
  }

  lemma CallerKeepsFull(s: State, t: Tid, ok: bool, generated: ClientOrderId)
    requires FullHasResult(s.gate.calls) && t in s.callers
    ensures FullHasResult(StepCaller(s, t, ok, generated).gate.calls)
  {
    hide FullHasResult, StepRegister, StepWait, StepJoin, StepAwaitSnap, StepLeaveSnap, StepRead, StepLeave;
    if s.callers[t].pc.Register? {
      if MakesCall(s.callers[t].op) {
        RegisterKeepsFull(s, t, generated);
      }
    } else if s.callers[t].pc.Waiting? {
      WaitKeepsFull(s, t, ok);
    } else {
      CallerSparesCalls(s, t, ok, generated);
    }
  }

  lemma RegisterKeepsFull(s: State, t: Tid, generated: ClientOrderId)
    requires FullHasResult(s.gate.calls) && t in s.callers && MakesCall(s.callers[t].op)
    ensures FullHasResult(StepRegister(s, t, generated).gate.calls)
  {
    hide StepRegister;
  }

  lemma WaitKeepsFull(s: State, t: Tid, ok: bool)
    requires FullHasResult(s.gate.calls) && t in s.callers
    ensures FullHasResult(StepWait(s, t, ok).gate.calls)
  {
  }

  lemma CallerSparesCalls(s: State, t: Tid, ok: bool, generated: ClientOrderId)
    requires t in s.callers && !s.callers[t].pc.Register? && !s.callers[t].pc.Waiting?
    ensures StepCaller(s, t, ok, generated).gate.calls == s.gate.calls
  {
    hide StepRegister, StepWait, StepAwaitSnap, StepLeaveSnap, StepRead, StepLeave, AfterSearch, AfterSearchPending;
    match s.callers[t].pc
    case Accept =>
    case Join =>
    case Subscribing =>
    case AwaitSnap =>
    case LeavingSnap(_) =>
    case Received =>
    case Leaving(_) =>
    case _ =>
  }

  /** The report is one that a caller with this operation may be answered with. */
  predicate Attributed(op: Op, r: OrderReport)
    requires MakesCall(op)
  {
    if op.NewOrder? then r.Id() == op.order
    else
      (r.reportType.TypeReplaced? && r.originalClientOrderID == op.order)
      || (r.Id() == op.order && (r.reportType.TypeCanceled? || r.order.orderStatus.StatusFilled?))
  }

  /** The gate sent this report for this user. */
  ghost predicate WasReceived(events: seq<Event>, user: UserId, r: OrderReport) {
    exists i | 0 <= i < |events| :: events[i] == Receive(ReportPayload(user, r))
  }

  /** The gate sent this reject for this user. */
  ghost predicate WasRejected(events: seq<Event>, user: UserId, reject: Reject) {
    exists i | 0 <= i < |events| :: events[i] == Receive(RejectPayload(user, reject))
  }

  /** What the entry hands to the pending calls, if anything, came from the gate. */
  ghost predicate CameIn(events: seq<Event>, x: Entry) {
    && (x.Replied? ==> WasReceived(events, x.user, x.report))
    && (x.Rejected? ==> WasRejected(events, x.user, x.reject))
  }

  lemma WasReceivedBefore(events: seq<Event>, e: Event, user: UserId, r: OrderReport)
    requires WasReceived(events, user, r) || e == Receive(ReportPayload(user, r))
    ensures WasReceived(events + [e], user, r)
  {
    var all := events + [e];
    assert all[|events|] == e;
    assert forall i | 0 <= i < |events| :: all[i] == events[i];
  }

  lemma WasRejectedBefore(events: seq<Event>, e: Event, user: UserId, reject: Reject)
    requires WasRejected(events, user, reject) || e == Receive(RejectPayload(user, reject))
    ensures WasRejected(events + [e], user, reject)
  {
    var all := events + [e];
    assert all[|events|] == e;
    assert forall i | 0 <= i < |events| :: all[i] == events[i];
  }

  /** A step replies only with the report that was waiting to be replied with, and that was taken in by a step. */
  lemma ReplyComesFromInput(s: State, e: Event)
    ensures var s' := Step(s, e);
      && (s'.input.Replying? ==>
            (s.input.Replying? && s'.input == s.input) || e == Receive(ReportPayload(s'.input.user, s'.input.report)))
      && (|s'.log| > |s.log| && s'.log[|s.log|].Replied? ==>
            s.input.Replying? && s'.log[|s.log|].user == s.input.user && s'.log[|s.log|].report == s.input.report)
      && (|s'.log| > |s.log| && s'.log[|s.log|].Rejected? ==>
            e == Receive(RejectPayload(s'.log[|s.log|].user, s'.log[|s.log|].reject)))
  {
    hide StepCaller;
    match e
    case Advance(t, ok, generated) =>
      if t in s.callers {
        CallerLogs(s, t, ok, generated);
      }
    case _ =>
  }

  /** Whatever is handed to the pending calls, report or reject, was received from the gate as such. */
  lemma {:induction false} RepliesWereReceived(events: seq<Event>)
    ensures var s := Run(events);
      && (s.input.Replying? ==> WasReceived(events, s.input.user, s.input.report))
      && (forall p | 0 <= p < |s.log| :: CameIn(events, s.log[p]))
  {
    hide Step, CameIn, WasReceived;
    if events != [] {
      var before, e := events[..|events| - 1], events[|events| - 1];
      assert events == before + [e];
      RepliesWereReceived(before);
      StillReceived(before, e, Run(before), Run(events));
    }
  }

  lemma StillReceived(before: seq<Event>, e: Event, s: State, s': State)
    requires s' == Step(s, e)
    requires s.input.Replying? ==> WasReceived(before, s.input.user, s.input.report)
    requires forall p | 0 <= p < |s.log| :: CameIn(before, s.log[p])
    ensures s'.input.Replying? ==> WasReceived(before + [e], s'.input.user, s'.input.report)
    ensures forall p | 0 <= p < |s'.log| :: CameIn(before + [e], s'.log[p])
  {
    hide Step, WasReceived, WasRejected;
    StepLogs(s, e);
    ReplyComesFromInput(s, e);
    if s'.input.Replying? {
      WasReceivedBefore(before, e, s'.input.user, s'.input.report);
    }
    forall p | 0 <= p < |s'.log|
      ensures CameIn(before + [e], s'.log[p])
    {
      var x := s'.log[p];
      assert p < |s.log| ==> x == s.log[p] && CameIn(before, x);
      if x.Replied? {
        WasReceivedBefore(before, e, x.user, x.report);
      } else if x.Rejected? {
        WasRejectedBefore(before, e, x.user, x.reject);
      }
    }
  }

  /** The history holds a reply at `p` that this caller returned, and no later one before it read. */
  predicate ReplyTakenFrom(s: State, c: Caller, r: OrderReport, p: nat)
    requires MakesCall(c.op) && c.readAt <= |s.log|
  {
    && c.since <= p < c.readAt && s.log[p].Replied? && s.log[p].user == c.user && s.log[p].report == r
    && Attributed(c.op, r)
    && forall i | p < i < c.readAt :: !Answers(TicketOf(c), s.log[i])
  }

  /** The history holds a reject at `x`, of this caller's own request, with the error it returned, and no later one. */
  predicate ErrorTakenFrom(s: State, c: Caller, error: ErrorResponse, x: nat)
    requires MakesCall(c.op) && c.readAt <= |s.log|
  {
    && c.since <= x < c.readAt && s.log[x].Rejected? && s.log[x].user == c.user && s.log[x].reject.error == error
    && s.log[x].reject.clientOrderID == c.op.order
    && (c.op.CancelOrder? ==> s.log[x].reject.cancelRequestClientOrderID == c.cancelRequest)
    && (c.op.ReplaceOrder? ==> s.log[x].reject.cancelRequestClientOrderID == c.op.request)
    && forall i | x < i < c.readAt :: !Refuses(TicketOf(c), s.log[i])
  }

  /**
    What a caller returns was received from the gate for its own user and order, and handled while it was
    registered: the reply is the last such report before the caller read it, the error that of the last such
    reject, for a cancel of its very request. No answer comes without any result.
   */
  lemma ReplyAttribution(events: seq<Event>, t: Tid) returns (p: nat, x: nat)
    requires t in Run(events).callers && HasAnswer(Run(events).callers[t].pc)
    ensures var s := Run(events); var c := s.callers[t]; var answer := c.pc.outcome;
      && MakesCall(c.op) && c.since <= c.readAt <= |s.log|
      && (answer.reply.Some? || answer.error.Some?)
      && (answer.reply.Some? ==>
            ReplyTakenFrom(s, c, answer.reply.value, p) && WasReceived(events, c.user, answer.reply.value))
      && (answer.error.Some? ==>
            ErrorTakenFrom(s, c, answer.error.value, x) && WasRejected(events, c.user, s.log[x].reject))
  {
    hide Run, ResultsOk;
    Reachable(events);
    RepliesWereReceived(events);
    p, x := AttributedResult(Run(events), t);
    assert Run(events).callers[t].pc.outcome.reply.Some? ==> CameIn(events, Run(events).log[p]);
    assert Run(events).callers[t].pc.outcome.error.Some? ==> CameIn(events, Run(events).log[x]);
  }

  lemma AttributedResult(s: State, t: Tid) returns (p: nat, x: nat)
    requires ResultsOk(s) && t in s.callers && HasAnswer(s.callers[t].pc)
    ensures var c := s.callers[t]; var answer := c.pc.outcome;
      && MakesCall(c.op) && c.since <= c.readAt <= |s.log|
      && (answer.reply.Some? || answer.error.Some?)
      && (answer.reply.Some? ==> ReplyTakenFrom(s, c, answer.reply.value, p))
      && (answer.error.Some? ==> ErrorTakenFrom(s, c, answer.error.value, x))
  {
    hide LastReply, LastError, TradeLog, Woken, ReplyTakenFrom, ErrorTakenFrom;
    var c := s.callers[t];
    assert ResultOk(s, t);
    WokenHasResult(TicketOf(c), AnswerWindow(s, c));
    p, x := 0, 0;
    if c.pc.outcome.reply.Some? {
      p := ReplyInWindow(s, c);
    }
    if c.pc.outcome.error.Some? {
      x := ErrorInWindow(s, c);
    }
  }

  lemma ReplyInWindow(s: State, c: Caller) returns (p: nat)
    requires MakesCall(c.op) && c.since <= c.readAt <= |s.log| && LastReply(TicketOf(c), AnswerWindow(s, c)).Some?
    ensures ReplyTakenFrom(s, c, LastReply(TicketOf(c), AnswerWindow(s, c)).value, p)
  {
    hide LastReply;
    var w := AnswerWindow(s, c);
    var i := LastReplyAt(TicketOf(c), w);
    p := c.since + i;
    assert s.log[p] == w[i] && forall j | p < j < c.readAt :: s.log[j] == w[j - c.since];
  }

  lemma ErrorInWindow(s: State, c: Caller) returns (x: nat)
    requires MakesCall(c.op) && c.since <= c.readAt <= |s.log| && LastError(TicketOf(c), AnswerWindow(s, c)).Some?
    ensures ErrorTakenFrom(s, c, LastError(TicketOf(c), AnswerWindow(s, c)).value, x)
  {
    hide LastError;
    var w := AnswerWindow(s, c);
    var i := LastErrorAt(TicketOf(c), w);
    x := c.since + i;
    assert s.log[x] == w[i] && forall j | x < j < c.readAt :: s.log[j] == w[j - c.since];
  }

  /**
    The trades returned with a new order are exactly the trades that were reported for it between registering and
    reading, in order, each with its own id, time, quantity, price and fee; a cancel or replace returns none.
   */
  lemma TradesAreExact(events: seq<Event>, t: Tid) returns (ps: seq<nat>)
    requires t in Run(events).callers && HasAnswer(Run(events).callers[t].pc)
    ensures var s := Run(events); var c := s.callers[t];
      && MakesCall(c.op)
      && (if c.op.NewOrder?
          then ListsTrades(c.pc.outcome.trades, s.log, c.since, c.readAt, c.user, c.op.order, ps)
          else c.pc.outcome.trades == [])
  {
    hide Run, TradeLog, LastReply, LastError, Woken, ListsTrades;
    Reachable(events);
    var s := Run(events);
    var c := s.callers[t];
    assert ResultOk(s, t);
    ps := [];
    if c.op.NewOrder? {
      ps := TradePositions(TicketOf(c), s.log, c.since, c.readAt);
    } else {
      CancelsHaveNoTrades(TicketOf(c), AnswerWindow(s, c));
    }
  }

  /**
    If every report handled for an order that waits for completion is immediate-or-cancel or fill-or-kill, its
    caller is woken exactly by a reject or a terminal report. If nothing follows the terminal report until the
    caller reads, a reply without an error is terminal.
   */
  lemma WaitCompleteIsSafe(events: seq<Event>, t: Tid)
    requires t in Run(events).callers && MakesCall(Run(events).callers[t].op)
    requires TicketOf(Run(events).callers[t]).kind == New(true)
    ensures var s := Run(events); var c := s.callers[t];
      c.pc.Sending? || c.pc.Waiting? ==>
        && c.since <= |s.log| && c.call in s.gate.calls
        && (ImmediateOnly(TicketOf(c), WindowOf(s, t)) ==>
              (s.gate.calls[c.call].full <==> exists i | 0 <= i < |WindowOf(s, t)| ::
                 var e := WindowOf(s, t)[i]; Refuses(TicketOf(c), e) || (Answers(TicketOf(c), e) && Terminal(e.report))))
    ensures var s := Run(events); var c := s.callers[t];
      HasAnswer(c.pc) ==>
        && c.since <= c.readAt <= |s.log|
        && (var w := AnswerWindow(s, c);
            ImmediateOnly(TicketOf(c), w) && c.pc.outcome.error.None?
            && (forall i, j | 0 <= i < j < |w| && Answers(TicketOf(c), w[i]) && Terminal(w[i].report) :: !Answers(TicketOf(c), w[j]))
            ==> c.pc.outcome.reply.Some? && Terminal(c.pc.outcome.reply.value))
  {
    Reachable(events);
    var s := Run(events);
    var c := s.callers[t];
    var tk := TicketOf(c);
    if c.pc.Sending? || c.pc.Waiting? {
      assert CallOk(s, t);
      if ImmediateOnly(tk, WindowOf(s, t)) {
        WaitComplete(tk, WindowOf(s, t));
      }
    }
    if HasAnswer(c.pc) {
      assert ResultOk(s, t);
      if ImmediateOnly(tk, AnswerWindow(s, c)) {
        WaitComplete(tk, AnswerWindow(s, c));
      }
    }
  }

  // Who is reached.

  /** Call `k` is the request call of a caller in flight. */
  predicate Held(s: State, k: CallId) {
    k in s.owner && s.owner[k] in s.callers &&
    var c := s.callers[s.owner[k]]; InFlight(c.pc) && MakesCall(c.op) && c.call == k
  }

  lemma HeldOrUnregistered(s: State, k: CallId)
    requires Inv(s) && k in s.gate.calls
    ensures Held(s, k) ==> CallOk(s, s.owner[k]) && OnlyRegistered(s.gate, k, TicketOf(s.callers[s.owner[k]]))
    ensures !Held(s, k) ==> Unregistered(s.gate, k)
  {
    if Held(s, k) {
      Exclusive(s, s.owner[k]);
    } else {
      assert forall id | id in s.gate.pendingFilled :: FilledBy(s, id, s.gate.pendingFilled[id]);
      assert forall id, k' | id in s.gate.pendingCancel && k' in s.gate.pendingCancel[id] :: CancelledBy(s, id, k');
    }
  }

  /**
    Handling a report changes the calls of callers in flight, each as its own ticket says, and nothing else:
    no other call, no other user, no pending map, no cache.
   */
  lemma RepliesAreExact(events: seq<Event>, k: CallId)
    requires Run(events).input.Replying? && k in Run(events).gate.calls
    ensures var s := Run(events); var s' := StepFinish(s); var e := Replied(s.input.user, s.input.report, s.input.prepared);
      && s' == s.(gate := s.gate.(calls := s'.gate.calls), input := Idle, log := s.log + [e])
      && s'.gate.calls.Keys == s.gate.calls.Keys
      && s'.gate.calls[k] == (if Held(s, k) then Deliver(TicketOf(s.callers[s.owner[k]]), s.gate.calls[k], e) else s.gate.calls[k])
  {
    hide Run;
    Reachable(events);
    var s := Run(events);
    HeldOrUnregistered(s, k);
    if Held(s, k) {
      ReplyReaches(s.gate, s.input.user, s.input.report, s.input.prepared, k, TicketOf(s.callers[s.owner[k]]));
    } else {
      ReplySpares(s.gate, s.input.user, s.input.report, k);
    }
  }

  /** Handling a reject, likewise. */
  lemma RejectsAreExact(events: seq<Event>, user: UserId, reject: Reject, k: CallId)
    requires k in Run(events).gate.calls
    ensures var s := Run(events); var s' := StepReceive(s, RejectPayload(user, reject)); var e := Rejected(user, reject);
      && s' == s.(gate := s.gate.(calls := s'.gate.calls), log := s.log + [e])
      && s'.gate.calls.Keys == s.gate.calls.Keys
      && s'.gate.calls[k] == (if Held(s, k) then Deliver(TicketOf(s.callers[s.owner[k]]), s.gate.calls[k], e) else s.gate.calls[k])
  {
    hide Run;
    Reachable(events);
    var s := Run(events);
    HeldOrUnregistered(s, k);
    if Held(s, k) {
      RejectReaches(s.gate, user, reject, k, TicketOf(s.callers[s.owner[k]]));
    } else {
      RejectSpares(s.gate, user, reject, k);
    }
  }

  // Who is registered.

  /**
    A pending map has an entry, outer or inner, exactly while a caller in flight holds it, and no inner map is
    ever empty: with nobody in flight, nothing is left behind.
   */
  lemma NoLeaks(events: seq<Event>)
    ensures var s := Run(events);
      && (forall id :: id in s.gate.pendingFilled <==>
            exists t | t in s.callers && IsNew(s.callers[t]) :: Key(TicketOf(s.callers[t])) == id)
      && (forall id :: id in s.gate.pendingCancel <==>
            exists t | t in s.callers && IsCancel(s.callers[t]) :: Key(TicketOf(s.callers[t])) == id)
      && (forall user :: user in s.gate.pendingSnap <==>
            exists t | t in s.callers && InSnap(s.callers[t].pc) :: s.callers[t].user == user)
      && (forall id | id in s.gate.pendingCancel :: s.gate.pendingCancel[id] != {})
      && (forall user | user in s.gate.pendingSnap :: s.gate.pendingSnap[user] != {})
      && (forall id, k :: id in s.gate.pendingFilled && s.gate.pendingFilled[id] == k <==> FilledBySomeone(s, id, k))
      && (forall id, k :: k in Group(s.gate.pendingCancel, id) <==> CancelledBySomeone(s, id, k))
      && (forall user, k :: k in Group(s.gate.pendingSnap, user) <==> WaitedBySomeone(s, user, k))
  {
    hide Run;
    Reachable(events);
    var s := Run(events);
    FilledHeld(s);
    CancelHeld(s);
    SnapHeld(s);
    InnerHeld(s);
  }

  ghost predicate FilledBySomeone(s: State, id: Identifier, k: CallId) {
    exists t | t in s.callers && IsNew(s.callers[t]) :: Key(TicketOf(s.callers[t])) == id && s.callers[t].call == k
  }

  ghost predicate CancelledBySomeone(s: State, id: Identifier, k: CallId) {
    exists t | t in s.callers && IsCancel(s.callers[t]) :: Key(TicketOf(s.callers[t])) == id && s.callers[t].call == k
  }

  ghost predicate WaitedBySomeone(s: State, user: UserId, k: CallId) {
    exists t | t in s.callers && InSnap(s.callers[t].pc) :: s.callers[t].user == user && s.callers[t].snap == k
  }

  lemma InnerHeld(s: State)
    requires Inv(s) && SnapInv(s)
    ensures forall id, k :: id in s.gate.pendingFilled && s.gate.pendingFilled[id] == k <==> FilledBySomeone(s, id, k)
    ensures forall id, k :: k in Group(s.gate.pendingCancel, id) <==> CancelledBySomeone(s, id, k)
    ensures forall user, k :: k in Group(s.gate.pendingSnap, user) <==> WaitedBySomeone(s, user, k)
  {
    forall id, k
      ensures id in s.gate.pendingFilled && s.gate.pendingFilled[id] == k <==> FilledBySomeone(s, id, k)
    {
      FilledInner(s, id, k);
    }
    forall id, k
      ensures k in Group(s.gate.pendingCancel, id) <==> CancelledBySomeone(s, id, k)
    {
      CancelInner(s, id, k);
    }
    forall user, k
      ensures k in Group(s.gate.pendingSnap, user) <==> WaitedBySomeone(s, user, k)
    {
      SnapInner(s, user, k);
    }
  }

  lemma FilledInner(s: State, id: Identifier, k: CallId)
    requires Inv(s)
    ensures id in s.gate.pendingFilled && s.gate.pendingFilled[id] == k <==> FilledBySomeone(s, id, k)
  {
    hide Saw, Woken, GetIdentifier;
    if id in s.gate.pendingFilled && s.gate.pendingFilled[id] == k {
      assert FilledBy(s, id, k);
      assert Key(TicketOf(s.callers[s.owner[k]])) == id;
    }
    if FilledBySomeone(s, id, k) {
      var t :| t in s.callers && IsNew(s.callers[t]) && Key(TicketOf(s.callers[t])) == id && s.callers[t].call == k;
      assert CallOk(s, t);
    }
  }

  lemma CancelInner(s: State, id: Identifier, k: CallId)
    requires Inv(s)
    ensures k in Group(s.gate.pendingCancel, id) <==> CancelledBySomeone(s, id, k)
  {
    hide Saw, Woken, GetIdentifier;
    if k in Group(s.gate.pendingCancel, id) {
      assert CancelledBy(s, id, k);
      assert Key(TicketOf(s.callers[s.owner[k]])) == id;
    }
    if CancelledBySomeone(s, id, k) {
      var t :| t in s.callers && IsCancel(s.callers[t]) && Key(TicketOf(s.callers[t])) == id && s.callers[t].call == k;
      assert CallOk(s, t);
    }
  }

  lemma SnapInner(s: State, user: UserId, k: CallId)
    requires SnapInv(s)
    ensures k in Group(s.gate.pendingSnap, user) <==> WaitedBySomeone(s, user, k)
  {
    if k in Group(s.gate.pendingSnap, user) {
      assert WaitedBy(s, user, k);
    }
    if WaitedBySomeone(s, user, k) {
      var t :| t in s.callers && InSnap(s.callers[t].pc) && s.callers[t].user == user && s.callers[t].snap == k;
      assert SnapOk(s, t);
    }
  }

  lemma FilledHeld(s: State)
    requires Inv(s)
    ensures forall id :: id in s.gate.pendingFilled <==>
      exists t | t in s.callers && IsNew(s.callers[t]) :: Key(TicketOf(s.callers[t])) == id
  {
    forall id
      ensures id in s.gate.pendingFilled <==>
        exists t | t in s.callers && IsNew(s.callers[t]) :: Key(TicketOf(s.callers[t])) == id
    {
      if id in s.gate.pendingFilled {
        var k := s.gate.pendingFilled[id];
        assert FilledBy(s, id, k);
        assert Key(TicketOf(s.callers[s.owner[k]])) == id;
      }
      forall t | t in s.callers && IsNew(s.callers[t]) && Key(TicketOf(s.callers[t])) == id
        ensures id in s.gate.pendingFilled
      {
        assert CallOk(s, t);
      }
    }
  }

  lemma CancelHeld(s: State)
    requires Inv(s)
    ensures forall id :: id in s.gate.pendingCancel <==>
      exists t | t in s.callers && IsCancel(s.callers[t]) :: Key(TicketOf(s.callers[t])) == id
  {
    forall id
      ensures id in s.gate.pendingCancel <==>
        exists t | t in s.callers && IsCancel(s.callers[t]) :: Key(TicketOf(s.callers[t])) == id
    {
      if id in s.gate.pendingCancel {
        var k :| k in s.gate.pendingCancel[id];
        assert CancelledBy(s, id, k);
        assert Key(TicketOf(s.callers[s.owner[k]])) == id;
      }
      forall t | t in s.callers && IsCancel(s.callers[t]) && Key(TicketOf(s.callers[t])) == id
        ensures id in s.gate.pendingCancel
      {
        assert CallOk(s, t);
      }
    }
  }

  lemma SnapHeld(s: State)
    requires SnapInv(s)
    ensures forall user :: user in s.gate.pendingSnap <==>
      exists t | t in s.callers && InSnap(s.callers[t].pc) :: s.callers[t].user == user
  {
    forall user
      ensures user in s.gate.pendingSnap <==>
        exists t | t in s.callers && InSnap(s.callers[t].pc) :: s.callers[t].user == user
    {
      if user in s.gate.pendingSnap {
        var k :| k in s.gate.pendingSnap[user];
        assert WaitedBy(s, user, k);
        assert s.callers[s.owner[k]].user == user;
      }
      forall t | t in s.callers && InSnap(s.callers[t].pc) && s.callers[t].user == user
        ensures user in s.gate.pendingSnap
      {
        assert SnapOk(s, t);
      }
    }
  }

  /**
    Two callers that place an order under one id are never both in flight, so they never both send; and the
    entry that a caller's clean-up deletes is that caller's own.
   */
  lemma OneNewOrderPerId(events: seq<Event>, t: Tid, t': Tid)
    requires t in Run(events).callers && IsNew(Run(events).callers[t])
    ensures var s := Run(events); var c := s.callers[t];
      && Key(TicketOf(c)) in s.gate.pendingFilled && s.gate.pendingFilled[Key(TicketOf(c))] == c.call
      && (t' in s.callers && IsNew(s.callers[t']) && s.callers[t'].user == c.user && s.callers[t'].op.order == c.op.order
          ==> t' == t)
  {
    Reachable(events);
    var s := Run(events);
    assert CallOk(s, t);
    if t' in s.callers && IsNew(s.callers[t']) {
      assert CallOk(s, t');
    }
  }

  // The cache.

  /**
    In every reachable state the cache holds exactly what the last entry that touched each order left, each order
    under its own id, for accepted users only; and if snapshots hold live orders only, so does the cache.
   */
  lemma CacheReadsTheHistory(events: seq<Event>, user: UserId, k: ClientOrderId, order: OrderModel)
    ensures var s := Run(events);
      && (user in s.gate.users <==> Initialised(s.log, user))
      && (Lookup(s.gate.users, user, k) == Some(order) <==>
            Initialised(s.log, user) && exists i: nat | LastTouch(s.log, user, k, i) :: Verdict(s.log[i], k) == Some(order))
      && WellFiled(s.gate.users) && s.gate.users.Keys <= s.gate.accepted
      && (LiveSnapshots(s.log) ==> AllLive(s.gate.users))
  {
    Reachable(events);
    ReplayDomain(Run(events).log, user);
    CacheIsLastTouch(Run(events).log, user, k, order);
    CacheInvariant(Run(events).log);
  }

  /**
    A report that was handed to the pending calls had been put into the cache exactly if its user was accepted
    when it came in; in between, users can only have been dropped, never stored or reported.
   */
  lemma CachedUnlessNotAccepted(events: seq<Event>, p: nat)
    requires p < |Run(events).log| && Run(events).log[p].Replied?
    ensures var log := Run(events).log; var at := log[p].prepared;
      && at.position <= p && AllPassive(log, if at.CachedAt? then at.position + 1 else at.position, p)
      && (at.CachedAt? <==> AcceptedSince(log[..at.position], log[p].user))
      && (at.CachedAt? ==> at.position < p && log[at.position] == Cached(log[p].user, log[p].report))
  {
    hide Run;
    Reachable(events);
    assert EntryOk(Run(events).log, p);
  }

  /**
    A lookup of the report's order agrees with the report that went to the cache at `q` and to the calls at `p`,
    unless the user was dropped meanwhile or a later entry touched the order. And the order that the report
    replaced is gone, unless a later entry touched it.
   */
  ghost predicate LookupsAgree(s: State, user: UserId, r: OrderReport, q: nat, p: nat)
    requires p < |s.log|
  {
    && ((forall j | q < j < p :: s.log[j] != Dropped(user)) && (forall j | p < j < |s.log| :: !Touches(s.log[j], user, r.Id()))
        && user in s.gate.users
        ==> Lookup(s.gate.users, user, r.Id()) ==
              if r.order.orderStatus.StatusNew? || r.order.orderStatus.StatusPartiallyFilled? || r.order.orderStatus.StatusSuspended?
              then Some(r.order) else None)
    && (r.reportType.TypeReplaced? && r.originalClientOrderID != r.Id()
        && (forall j | p < j < |s.log| :: !Touches(s.log[j], user, r.originalClientOrderID))
        ==> Lookup(s.gate.users, user, r.originalClientOrderID) == None)
  }

  /** Once a cached report has been handed to the pending calls, lookups agree with it. */
  lemma ReadYourWrites(events: seq<Event>, p: nat)
    requires p < |Run(events).log| && Run(events).log[p].Replied? && Run(events).log[p].prepared.CachedAt?
    requires var r := Run(events).log[p].report; !r.reportType.TypeStatus? && !r.reportType.TypeRejected?
    ensures var s := Run(events); var user, r, q := s.log[p].user, s.log[p].report, s.log[p].prepared.position;
      q < p && s.log[q] == Cached(user, r) && LookupsAgree(s, user, r, q, p)
  {
    hide Run, LookupsAgree;
    Reachable(events);
    CachedBeforeReply(Run(events), p);
  }

  lemma CachedBeforeReply(s: State, p: nat)
    requires CacheInv(s) && LogInv(s) && p < |s.log| && s.log[p].Replied? && s.log[p].prepared.CachedAt?
    requires !s.log[p].report.reportType.TypeStatus? && !s.log[p].report.reportType.TypeRejected?
    ensures var user, r, q := s.log[p].user, s.log[p].report, s.log[p].prepared.position;
      q < p && s.log[q] == Cached(user, r) && LookupsAgree(s, user, r, q, p)
  {
    hide Replay, AcceptedSince;
    var user, r, q := s.log[p].user, s.log[p].report, s.log[p].prepared.position;
    assert EntryOk(s.log, p);
    assert forall j | q < j < p :: Passive(s.log[j]);
    if user in s.gate.users {
      if (forall j | q < j < p :: s.log[j] != Dropped(user)) && (forall j | p < j < |s.log| :: !Touches(s.log[j], user, r.Id())) {
        ReportIsFound(s, user, r, q, p);
      }
      if r.reportType.TypeReplaced? && r.originalClientOrderID != r.Id()
        && (forall j | p < j < |s.log| :: !Touches(s.log[j], user, r.originalClientOrderID))
      {
        ReplacedIsGone(s, user, r, q, p);
      }
    }
  }

  lemma ReportIsFound(s: State, user: UserId, r: OrderReport, q: nat, p: nat)
    requires CacheInv(s) && q < p < |s.log| && s.log[q] == Cached(user, r) && user in s.gate.users
    requires !r.reportType.TypeStatus? && !r.reportType.TypeRejected?
    requires forall j | q < j <= p :: s.log[j] != Dropped(user) && (Passive(s.log[j]) || s.log[j].Replied?)
    requires forall j | p < j < |s.log| :: !Touches(s.log[j], user, r.Id())
    ensures Lookup(s.gate.users, user, r.Id()) == Verdict(s.log[q], r.Id())
  {
    hide Replay;
    assert forall j | q < j <= p :: !Touches(s.log[j], user, r.Id());
    assert LastTouch(s.log, user, r.Id(), q);
    LastTouchWins(s.log, user, r.Id(), q);
  }

  /** Whether dropped in between or not, the last entry that touched the replaced order left nothing of it. */
  lemma ReplacedIsGone(s: State, user: UserId, r: OrderReport, q: nat, p: nat)
    requires CacheInv(s) && q < p < |s.log| && s.log[q] == Cached(user, r) && user in s.gate.users
    requires r.reportType.TypeReplaced? && r.originalClientOrderID != r.Id()
    requires forall j | q < j <= p :: Passive(s.log[j]) || s.log[j].Replied?
    requires forall j | p < j < |s.log| :: !Touches(s.log[j], user, r.originalClientOrderID)
    ensures Lookup(s.gate.users, user, r.originalClientOrderID) == None
  {
    hide Replay;
    var i := LastTouchExists(s.log, user, r.originalClientOrderID, q);
    LastTouchWins(s.log, user, r.originalClientOrderID, i);
  }

  /**
    The same, from the side of a caller that has its answer: what it looks up afterwards agrees with it. For a
    caller of ReplaceOrder the replaced order is the one it asked about.
   */
  lemma LookupAfterReply(events: seq<Event>, t: Tid) returns (p: nat)
    requires t in Run(events).callers && HasAnswer(Run(events).callers[t].pc)
    requires Run(events).callers[t].pc.outcome.reply.Some?
    ensures var s := Run(events); var c := s.callers[t]; var r := c.pc.outcome.reply.value;
      && MakesCall(c.op) && c.since <= p < c.readAt <= |s.log| && ReplyTakenFrom(s, c, r, p)
      && (s.log[p].prepared.CachedAt? ==> LookupsAgree(s, c.user, r, s.log[p].prepared.position, p))
  {
    hide Run, LookupsAgree, LastTouch, Replay;
    var at, _ := ReplyAttribution(events, t);
    p := at;
    Reachable(events);
    var s := Run(events);
    if s.log[p].prepared.CachedAt? {
      AttributedType(s, t);
      CachedBeforeReply(s, p);
    }
  }

  lemma AttributedType(s: State, t: Tid)
    requires ResultsOk(s) && t in s.callers && HasAnswer(s.callers[t].pc) && s.callers[t].pc.outcome.reply.Some?
    ensures var r := s.callers[t].pc.outcome.reply.value; !r.reportType.TypeStatus? && !r.reportType.TypeRejected?
  {
    assert ResultOk(s, t);
    var i := LastReplyAt(TicketOf(s.callers[t]), AnswerWindow(s, s.callers[t]));
  }

  // Snapshots and subscriptions.

  /**
    A caller whose wait succeeded, or that needed none, was served: a snapshot of its user was stored, if it waited
    the one that it was released for, and the user is still cached unless it was dropped after that. This holds from
    the wake-up on to the end of the operation: GetSnapshot lists the orders of a moment after the snapshot was
    stored, and where it finds none the user was dropped after that.
   */
  lemma SnapshotIsCached(events: seq<Event>, t: Tid) returns (i: nat)
    requires t in Run(events).callers
    ensures var s := Run(events); var c := s.callers[t];
      && (c.pc == LeavingSnap(None) || PastWait(c.pc) ==>
            && Served(s.log, c.user, c.snapSince, i)
            && (NotDropped(s.log, c.user, i + 1) ==> c.user in s.gate.users))
      && (c.pc == Done(Failed(NoSnapshot)) ==> LostAgain(s.log, c.user, c.snapSince))
      && (c.pc.Done? && c.pc.outcome.Listed? ==> ReadAfter(s.log, c.user, c.snapSince, c.pc.outcome.book))
  {
    hide Run, Inv, EpochInv, ResultsOk, LostAgain, ReadAfter, Replay;
    Reachable(events);
    var s := Run(events);
    var c := s.callers[t];
    assert ReadOk(s, t);
    i := 0;
    if c.pc == LeavingSnap(None) {
      ReleasedIsServed(s, t);
    }
    if c.pc == LeavingSnap(None) || PastWait(c.pc) {
      i :| Served(s.log, c.user, c.snapSince, i);
      ReplayDomain(s.log, c.user);
    }
  }

  /**
    What operations did by their lookup, they did by what the cache held at a moment after they were served: a new
    order was only ever sent when the order was not cached, a replace when it would change the cached order, and
    what was found, not found or not changed was so.
   */
  lemma LookupsReadTheCache(events: seq<Event>, t: Tid)
    requires t in Run(events).callers
    ensures LookupOk(Run(events).log, Run(events).callers[t])
  {
    hide Run, LookupOk;
    Reachable(events);
    assert ReadOk(Run(events), t);
  }

  /** An order that GetOrder found is what the last entry that touched it, at such a moment, left of it. */
  lemma FoundIsLastTouch(events: seq<Event>, t: Tid) returns (i: nat, j: nat, n: nat)
    requires t in Run(events).callers && Run(events).callers[t].pc.Done? && Run(events).callers[t].pc.outcome.Found?
    ensures var s := Run(events); var c := s.callers[t];
      && c.op.GetOrder? && i <= j < n <= |s.log| && Served(s.log, c.user, c.snapSince, i)
      && LastTouch(s.log[..n], c.user, c.op.order, j) && Verdict(s.log[j], c.op.order) == Some(c.pc.outcome.found)
  {
    hide Run, Replay, Verdict, Inv, SnapInv, EpochInv, ResultsOk, CacheInv, LogInv;
    LookupsReadTheCache(events, t);
    var s := Run(events);
    var c := s.callers[t];
    i, n :| i < n <= |s.log| && Served(s.log, c.user, c.snapSince, i)
      && FoundThen(s.log, c.user, n, c.op.order, Some(c.pc.outcome.found));
    CacheIsLastTouch(s.log[..n], c.user, c.op.order, c.pc.outcome.found);
    j :| LastTouch(s.log[..n], c.user, c.op.order, j) && Verdict(s.log[..n][j], c.op.order) == Some(c.pc.outcome.found);
    assert Touches(s.log[..n][i], c.user, c.op.order);
  }

  /** Whoever subscribes or waits has been woken exactly if the user's waiters were released since it joined. */
  lemma OneSnapshotWakesAll(events: seq<Event>, t: Tid)
    requires t in Run(events).callers && (Run(events).callers[t].pc.AwaitSnap? || Run(events).callers[t].pc.Subscribing?)
    ensures var s := Run(events); var c := s.callers[t];
      && c.snap in s.gate.snaps && c.snapSince <= |s.log|
      && (s.gate.snaps[c.snap] <==> exists i | c.snapSince <= i < |s.log| :: s.log[i].Released? && s.log[i].user == c.user)
  {
    hide Run, Inv, EpochInv, ResultsOk, CacheInv, LogInv;
    Reachable(events);
    var s := Run(events);
    var c := s.callers[t];
    assert SnapOk(s, t);
    var w := s.log[c.snapSince..];
    assert forall i | c.snapSince <= i < |s.log| :: s.log[i] == w[i - c.snapSince];
    assert forall i | 0 <= i < |w| :: w[i] == s.log[i + c.snapSince];
  }

  lemma RunMore(events: seq<Event>, e: Event)
    ensures Run(events + [e]) == Step(Run(events), e)
  {
    assert (events + [e])[..|events|] == events;
  }

  /**
    An accepted user's snapshot, received and finished, replaces the user's orders and completes every registered
    waiter of the user and nobody else, also one that has yet to subscribe or that is about to clean up; one of a
    user who is not accepted changes nothing.
   */
  lemma SnapshotCompletesAll(events: seq<Event>, user: UserId, orders: seq<OrderModel>, t: Tid)
    requires Run(events).input.Idle?
    requires t in Run(events).callers && InSnap(Run(events).callers[t].pc)
    ensures var s := Run(events); var received := events + [Receive(SnapshotPayload(user, orders))]; var s' := Run(received + [Finish]);
      && (!AcceptedSince(s.log, user) ==> s' == s)
      && (AcceptedSince(s.log, user) ==>
            && s'.gate.users == s.gate.users[user := BookOf(orders)]
            && s'.callers == s.callers
            && s.callers[t].snap in s.gate.snaps && s.callers[t].snap in s'.gate.snaps
            && (s'.gate.snaps[s.callers[t].snap] <==> s.gate.snaps[s.callers[t].snap] || s.callers[t].user == user))
  {
    hide Run;
    var e := Receive(SnapshotPayload(user, orders));
    RunMore(events, e);
    RunMore(events + [e], Finish);
    Reachable(events);
    WaiterIsReleased(Run(events), user, t);
  }

  /** A waiting caller's call is in the group of its own user and of no other. */
  lemma WaiterIsReleased(s: State, user: UserId, t: Tid)
    requires SnapInv(s) && t in s.callers && InSnap(s.callers[t].pc)
    ensures s.callers[t].snap in s.gate.snaps
    ensures s.callers[t].snap in Group(s.gate.pendingSnap, user) <==> s.callers[t].user == user
  {
    assert SnapOk(s, t);
    assert s.callers[t].snap in Group(s.gate.pendingSnap, user) ==> WaitedBy(s, user, s.callers[t].snap);
  }

  /**
    Subscriptions are tried once per time that the set of those who wait for the user becomes non-empty: the one that
    is still to be sent is the only gap.
   */
  lemma OneSubscriptionPerEpoch(events: seq<Event>, user: UserId)
    ensures Attempts(events, user) <= Openings(events, user) <= Attempts(events, user) + 1
    ensures Openings(events, user) == Attempts(events, user) + 1 <==> SomeoneSubscribes(Run(events), user)
  {
    hide Run;
    Reachable(events);
    CountsAgree(events, user);
  }

  /** After a user was dropped, nothing brings its cache back until somebody asks for its snapshot again. */
  lemma SilentAfterUnsubscribe(events: seq<Event>, user: UserId, p: nat)
    requires p < |Run(events).log| && Run(events).log[p] == Dropped(user)
    requires forall i | p < i < |Run(events).log| :: Run(events).log[i] != Accepted(user)
    ensures user !in Run(events).gate.users && user !in Run(events).gate.accepted
  {
    hide Run;
    Reachable(events);
    NotAccepted(Run(events).log, user, p);
  }

  lemma NotAccepted(log: seq<Entry>, user: UserId, p: nat)
    requires p < |log| && log[p] == Dropped(user)
    requires forall i | p < i < |log| :: log[i] != Accepted(user)
    ensures !AcceptedSince(log, user)
  {
    forall i | 0 <= i < |log| && log[i] == Accepted(user)
      ensures !NotDropped(log, user, i + 1)
    {
      assert i < p;
    }
  }
}
