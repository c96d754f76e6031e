/**
  What callers get: how an operation goes on from each place where it decides something, waits or gives up, from any
  reachable state on and whatever the other callers do meanwhile.
 */
module Operations {
  import opened CacheRuns
  import opened Epochs
  import opened Gates
  import opened Identifiers
  import opened Orders
  import opened OrdersContainers
  import opened Outcomes
  import opened Protocol
  import opened Registration
  import opened SnapshotReads
  import opened Snapshots
  import opened Theorems
  import opened Windows

  predicate IsCached(s: State, user: UserId, k: ClientOrderId) {
    user in s.gate.users && k in s.gate.users[user]
  }

  /** Some caller is placing an order of the user under this id. */
  ghost predicate IsBeingPlaced(s: State, user: UserId, k: ClientOrderId) {
    exists t | t in s.callers && IsNew(s.callers[t]) :: s.callers[t].user == user && s.callers[t].op.order == k
  }

  /** Only this caller's place in its operation changed. */
  predicate OnlyMoved(s: State, s': State, t: Tid)
    requires t in s.callers
  {
    t in s'.callers && s' == s.(callers := s.callers[t := s.callers[t].(pc := s'.callers[t].pc)])
  }

  // Deciding.

  /** Where each operation goes from its lookup, by whether the order is cached. */
  ghost predicate Decided(s: State, c: Caller, pc: Pc) {
    match c.op
    case GetSnapshot =>
      if c.user in s.gate.users then pc == Done(Listed(s.gate.users[c.user])) else pc == Done(Failed(NoSnapshot))
    case GetOrder(k) =>
      if IsCached(s, c.user, k) then pc == Done(Found(s.gate.users[c.user][k])) else pc == Done(Failed(OrderNotFound))
    case NewOrder(k, _) => if IsCached(s, c.user, k) then pc == Done(Failed(DuplicateOrder)) else pc == Register
    case CancelOrder(k) => if IsCached(s, c.user, k) then pc == Register else pc == SearchPending
    case ReplaceOrder(k, _, _, _) =>
      if !IsCached(s, c.user, k) then pc == Done(Failed(OrderNotFound))
      else if NothingNew(c.op, s.gate.users[c.user][k]) then pc == Done(Failed(OrderNotChanged))
      else pc == Register
  }

  lemma SearchDecides(events: seq<Event>, t: Tid, ok: bool, g: ClientOrderId)
    requires t in Run(events).callers && Run(events).callers[t].pc.Search?
    ensures var s, s' := Run(events), Run(events + [Advance(t, ok, g)]);
      OnlyMoved(s, s', t) && Decided(s, s.callers[t], s'.callers[t].pc)
  {
    hide Run;
    RunMore(events, Advance(t, ok, g));
  }

  /** A cancel of an order that is not cached goes on if and only if the order is just being placed. */
  lemma SearchPendingDecides(events: seq<Event>, t: Tid, ok: bool, g: ClientOrderId)
    requires t in Run(events).callers && Run(events).callers[t].pc.SearchPending? && Run(events).callers[t].op.CancelOrder?
    ensures var s, s' := Run(events), Run(events + [Advance(t, ok, g)]); var c := s.callers[t];
      && OnlyMoved(s, s', t)
      && s'.callers[t].pc == if IsBeingPlaced(s, c.user, c.op.order) then Register else Done(Failed(OrderNotFound))
  {
    hide Run, GetIdentifier;
    RunMore(events, Advance(t, ok, g));
    Reachable(events);
    PendingIsBeingPlaced(Run(events), Run(events).callers[t].user, Run(events).callers[t].op.order);
  }

  lemma PendingIsBeingPlaced(s: State, user: UserId, k: ClientOrderId)
    requires Inv(s)
    ensures GetIdentifier(user, k) in s.gate.pendingFilled <==> IsBeingPlaced(s, user, k)
  {
    hide Saw, Woken;
    var id := GetIdentifier(user, k);
    if id in s.gate.pendingFilled {
      var call := s.gate.pendingFilled[id];
      assert FilledBy(s, id, call);
      var c := s.callers[s.owner[call]];
      assert c.user == user && c.op.order == k;
    }
    if IsBeingPlaced(s, user, k) {
      var t :| t in s.callers && IsNew(s.callers[t]) && s.callers[t].user == user && s.callers[t].op.order == k;
      assert CallOk(s, t);
    }
  }

  /** A new order is refused as a duplicate if and only if the order is just being placed; nothing else keeps a request back. */
  lemma RegisterDecides(events: seq<Event>, t: Tid, ok: bool, g: ClientOrderId)
    requires t in Run(events).callers && Run(events).callers[t].pc.Register? && MakesCall(Run(events).callers[t].op)
    ensures var s, s' := Run(events), Run(events + [Advance(t, ok, g)]); var c := s.callers[t];
      && t in s'.callers && s'.log == s.log && s'.callers == s.callers[t := s'.callers[t]]
      && s'.callers[t].user == c.user && s'.callers[t].op == c.op
      && s'.callers[t].pc ==
           if c.op.NewOrder? && IsBeingPlaced(s, c.user, c.op.order) then Done(Failed(DuplicateOrder)) else Sending
  {
    hide Run, Inv, SnapInv, EpochInv, ResultsOk, CacheInv, LogInv, ReadsOk, GetIdentifier, StepRegister, IsBeingPlaced;
    RunMore(events, Advance(t, ok, g));
    Reachable(events);
    PendingIsBeingPlaced(Run(events), Run(events).callers[t].user, Run(events).callers[t].op.order);
    RegisterGoesOn(Run(events), t, g);
  }

  lemma RegisterGoesOn(s: State, t: Tid, g: ClientOrderId)
    requires t in s.callers && MakesCall(s.callers[t].op)
    ensures var c, c' := s.callers[t], StepRegister(s, t, g).callers[t];
      && c'.user == c.user && c'.op == c.op
      && c'.pc == if c.op.NewOrder? && GetIdentifier(c.user, c.op.order) in s.gate.pendingFilled
                  then Done(Failed(DuplicateOrder)) else Sending
  {
    hide GetIdentifier;
    if s.callers[t].op.NewOrder? {
    } else {
    }
  }

  // Starting.

  /** A user who is cached keeps nobody waiting; GetSnapshot accepts the user all the same. */
  lemma CachedUserIsServed(events: seq<Event>, t: Tid, user: UserId, op: Op, g: ClientOrderId)
    requires t !in Run(events).callers && user in Run(events).gate.users
    ensures var go := Advance(t, true, g);
      var s' := Run(if op.GetSnapshot? then events + [Invoke(t, user, op)] + [go] + [go] else events + [Invoke(t, user, op)] + [go]);
      && t in s'.callers && s'.callers[t].user == user && s'.callers[t].op == op && s'.callers[t].pc == Search
      && user in s'.gate.accepted && s'.gate.users == Run(events).gate.users
  {
    hide Run, Inv, SnapInv, EpochInv, ResultsOk, LogInv, ReadsOk, Replay, AcceptedSince;
    var go := Advance(t, true, g);
    Reachable(events);
    RunMore(events, Invoke(t, user, op));
    RunMore(events + [Invoke(t, user, op)], go);
    RunMore(events + [Invoke(t, user, op)] + [go], go);
  }

  /**
    For a user who is not cached the user is accepted and a waiting call is registered; whoever finds nobody waiting
    is the one who subscribes.
   */
  lemma UncachedUserIsWaitedFor(events: seq<Event>, t: Tid, user: UserId, op: Op, g: ClientOrderId)
    requires t !in Run(events).callers && user !in Run(events).gate.users
    ensures var go := Advance(t, true, g);
      var s, s' := Run(events), Run(
        if op.GetSnapshot? then events + [Invoke(t, user, op)] + [go] + [go] + [go]
        else events + [Invoke(t, user, op)] + [go] + [go] + [go] + [go]);
      && t in s'.callers && s'.callers[t].user == user && s'.callers[t].op == op
      && s'.callers[t].pc == (if user in s.gate.pendingSnap then AwaitSnap else Subscribing)
      && s'.callers[t].snap in Group(s'.gate.pendingSnap, user)
      && user in s'.gate.accepted && s'.gate.users == s.gate.users
  {
    hide Run;
    var go := Advance(t, true, g);
    RunMore(events, Invoke(t, user, op));
    var e1 := events + [Invoke(t, user, op)];
    RunMore(e1, go);
    RunMore(e1 + [go], go);
    RunMore(e1 + [go] + [go], go);
    RunMore(e1 + [go] + [go] + [go], go);
  }

  // Waiting for a snapshot.

  /** The waiting call is in no group any more. */
  ghost predicate LeftWaiting(s: State, k: CallId) {
    forall user :: k !in Group(s.gate.pendingSnap, user)
  }

  lemma SubscribeGoesOn(events: seq<Event>, t: Tid, g: ClientOrderId)
    requires t in Run(events).callers && Run(events).callers[t].pc.Subscribing?
    ensures var s, s' := Run(events), Run(events + [Advance(t, true, g)]);
      t in s'.callers && s'.callers[t] == s.callers[t].(pc := AwaitSnap)
  {
    hide Run;
    RunMore(events, Advance(t, true, g));
  }

  /** A subscription that cannot be sent ends the operation and leaves no waiting call behind. */
  lemma SubscribeFails(events: seq<Event>, t: Tid, ok: bool, g: ClientOrderId)
    requires t in Run(events).callers && Run(events).callers[t].pc.Subscribing?
    ensures var s' := Run(events + [Advance(t, false, g)] + [Advance(t, ok, g)]);
      t in s'.callers && s'.callers[t].pc == Done(Failed(SubscribeFailed)) && LeftWaiting(s', s'.callers[t].snap)
  {
    hide Run;
    RunMore(events, Advance(t, false, g));
    LeavesWaiting(events + [Advance(t, false, g)], t, ok, g);
  }

  lemma LeavesWaiting(events: seq<Event>, t: Tid, ok: bool, g: ClientOrderId)
    requires t in Run(events).callers && Run(events).callers[t].pc.LeavingSnap?
    ensures var s, s' := Run(events), Run(events + [Advance(t, ok, g)]);
      && OnlyCallerChanged(s, s', t) && s'.log == s.log
      && s'.callers[t] == s.callers[t].(pc :=
           match s.callers[t].pc.result case None => Search case Some(why) => Done(Failed(why)))
      && LeftWaiting(s', s.callers[t].snap)
  {
    hide Run, Inv, SnapInv, EpochInv, ResultsOk, CacheInv, LogInv, ReadsOk, LeftWaiting;
    RunMore(events, Advance(t, ok, g));
    Reachable(events);
    SnapCallLeaves(Run(events), t);
  }

  predicate OnlyCallerChanged(s: State, s': State, t: Tid) {
    t in s'.callers && s'.callers == s.callers[t := s'.callers[t]]
  }

  lemma SnapCallLeaves(s: State, t: Tid)
    requires SnapInv(s) && t in s.callers && s.callers[t].pc.LeavingSnap?
    ensures LeftWaiting(StepLeaveSnap(s, t), s.callers[t].snap)
  {
    var k := s.callers[t].snap;
    assert SnapOk(s, t);
    forall user
      ensures k !in Group(StepLeaveSnap(s, t).gate.pendingSnap, user)
    {
      assert k in Group(s.gate.pendingSnap, user) ==> WaitedBy(s, user, k);
    }
  }

  /** A caller goes on to its lookup if and only if its user's waiters were released since it joined. */
  lemma SnapshotWakes(events: seq<Event>, t: Tid, ok: bool, g: ClientOrderId)
    requires t in Run(events).callers && Run(events).callers[t].pc.AwaitSnap?
    ensures var s, s1 := Run(events), Run(events + [Advance(t, true, g)]);
      var s2 := Run(events + [Advance(t, true, g)] + [Advance(t, ok, g)]);
      if exists i | s.callers[t].snapSince <= i < |s.log| :: s.log[i].Released? && s.log[i].user == s.callers[t].user
      then t in s2.callers && s2.callers[t] == s.callers[t].(pc := Search) && LeftWaiting(s2, s.callers[t].snap)
        && s1.gate.snaps == s.gate.snaps[s.callers[t].snap := false]
      else s1 == s
  {
    hide Run, LeftWaiting;
    RunMore(events, Advance(t, true, g));
    OneSnapshotWakesAll(events, t);
    var s := Run(events);
    if s.gate.snaps[s.callers[t].snap] {
      LeavesWaiting(events + [Advance(t, true, g)], t, ok, g);
    }
  }

  lemma SnapshotTimesOut(events: seq<Event>, t: Tid, ok: bool, g: ClientOrderId)
    requires t in Run(events).callers && Run(events).callers[t].pc.AwaitSnap?
    ensures var s' := Run(events + [Advance(t, false, g)] + [Advance(t, ok, g)]);
      t in s'.callers && s'.callers[t].pc == Done(Failed(ContextDone)) && LeftWaiting(s', s'.callers[t].snap)
  {
    hide Run;
    RunMore(events, Advance(t, false, g));
    LeavesWaiting(events + [Advance(t, false, g)], t, ok, g);
  }

  // Sending, waiting for the answer, and returning it.

  lemma SendGoesOn(events: seq<Event>, t: Tid, g: ClientOrderId)
    requires t in Run(events).callers && Run(events).callers[t].pc.Sending?
    ensures var s, s' := Run(events), Run(events + [Advance(t, true, g)]);
      OnlyMoved(s, s', t) && s'.callers[t].pc == Waiting
  {
    hide Run;
    RunMore(events, Advance(t, true, g));
  }

  /** A request that cannot be sent ends the operation and leaves no pending call behind. */
  lemma SendFails(events: seq<Event>, t: Tid, ok: bool, g: ClientOrderId)
    requires t in Run(events).callers && Run(events).callers[t].pc.Sending?
    ensures var s' := Run(events + [Advance(t, false, g)] + [Advance(t, ok, g)]);
      t in s'.callers && s'.callers[t].pc == Done(Failed(SendFailed)) && Unregistered(s'.gate, s'.callers[t].call)
  {
    hide Run;
    RunMore(events, Advance(t, false, g));
    Leaves(events + [Advance(t, false, g)], t, ok, g);
  }

  lemma AnswerTimesOut(events: seq<Event>, t: Tid, ok: bool, g: ClientOrderId)
    requires t in Run(events).callers && Run(events).callers[t].pc.Waiting?
    ensures var s' := Run(events + [Advance(t, false, g)] + [Advance(t, ok, g)]);
      t in s'.callers && s'.callers[t].pc == Done(Failed(ContextDone)) && Unregistered(s'.gate, s'.callers[t].call)
  {
    hide Run;
    RunMore(events, Advance(t, false, g));
    Leaves(events + [Advance(t, false, g)], t, ok, g);
  }

  lemma Leaves(events: seq<Event>, t: Tid, ok: bool, g: ClientOrderId)
    requires t in Run(events).callers && Run(events).callers[t].pc.Leaving?
    ensures var s, s' := Run(events), Run(events + [Advance(t, ok, g)]);
      && OnlyCallerChanged(s, s', t) && s'.log == s.log
      && s'.callers[t] == s.callers[t].(pc := Done(s.callers[t].pc.outcome))
      && Unregistered(s'.gate, s.callers[t].call)
  {
    hide Run, Inv, SnapInv, EpochInv, ResultsOk, CacheInv, LogInv, ReadsOk, StepLeave, Unregistered;
    RunMore(events, Advance(t, ok, g));
    Reachable(events);
    MakesItsCall(Run(events), t);
    LeaveGoesOn(Run(events), t);
    LeftUnregistered(Run(events), t);
  }

  lemma MakesItsCall(s: State, t: Tid)
    requires Inv(s) && t in s.callers && InFlight(s.callers[t].pc)
    ensures MakesCall(s.callers[t].op)
  {
    hide Saw, Woken;
    assert CallOk(s, t);
  }

  lemma LeaveGoesOn(s: State, t: Tid)
    requires t in s.callers && s.callers[t].pc.Leaving? && MakesCall(s.callers[t].op)
    ensures var s' := StepLeave(s, t);
      OnlyCallerChanged(s, s', t) && s'.log == s.log && s'.callers[t] == s.callers[t].(pc := Done(s.callers[t].pc.outcome))
  {
    hide GetIdentifier, UnregisterNew, UnregisterCancel;
  }

  lemma LeftUnregistered(s: State, t: Tid)
    requires Inv(s) && t in s.callers && s.callers[t].pc.Leaving? && MakesCall(s.callers[t].op)
    ensures Unregistered(StepLeave(s, t).gate, s.callers[t].call)
  {
    hide StepLeave, Inv;
    LeaveTakesOwnEntry(s, t);
    var g := StepLeave(s, t).gate;
    assert forall id | id in g.pendingCancel :: g.pendingCancel[id] == Group(g.pendingCancel, id);
  }

  /**
    A caller returns if and only if something that wakes it was handled since it registered. It returns the last reply,
    the trades and the last error of that time, and leaves no pending call behind.
   */
  lemma AnswerIsReturned(events: seq<Event>, t: Tid, ok: bool, g: ClientOrderId)
    requires t in Run(events).callers && Run(events).callers[t].pc.Waiting?
    ensures MakesCall(Run(events).callers[t].op) && Run(events).callers[t].since <= |Run(events).log|
    ensures var s, s1 := Run(events), Run(events + [Advance(t, true, g)]); var c := s.callers[t];
      var s3 := Run(events + [Advance(t, true, g)] + [Advance(t, ok, g)] + [Advance(t, ok, g)]);
      var tk, w := TicketOf(c), WindowOf(s, t);
      if Woken(tk, w)
      then t in s3.callers && Unregistered(s3.gate, c.call) && s3.log == s.log
        && c.call in s.gate.calls && s1.gate.calls == s.gate.calls[c.call := s.gate.calls[c.call].(full := false)]
        && s3.callers[t] == c.(pc := Done(Answered(LastReply(tk, w), TradeLog(tk, w), LastError(tk, w))), readAt := |s.log|)
      else s1 == s
  {
    hide Run, LastReply, LastError, TradeLog, Woken, Unregistered;
    CallsReadTheHistory(events, t);
    RunMore(events, Advance(t, true, g));
    var s, e1 := Run(events), events + [Advance(t, true, g)];
    if Woken(TicketOf(s.callers[t]), WindowOf(s, t)) {
      Reads(e1, t, ok, g);
      CallsReadTheHistory(e1, t);
      assert WindowOf(Run(e1), t) == WindowOf(s, t);
      Leaves(e1 + [Advance(t, ok, g)], t, ok, g);
    }
  }

  lemma Reads(events: seq<Event>, t: Tid, ok: bool, g: ClientOrderId)
    requires t in Run(events).callers && Run(events).callers[t].pc.Received?
    requires Run(events).callers[t].call in Run(events).gate.calls
    ensures var s, s' := Run(events), Run(events + [Advance(t, ok, g)]); var call := s.gate.calls[s.callers[t].call];
      && t in s'.callers && s'.log == s.log
      && s'.callers[t] == s.callers[t].(pc := Leaving(Answered(call.reply, call.trades, call.error)), readAt := |s.log|)
  {
    hide Run;
    RunMore(events, Advance(t, ok, g));
  }
}
