/**
  Ownership of the pending maps: in every reachable state an entry belongs to exactly one caller in flight,
  and every caller in flight has its entry. What a call has seen since it was registered is what the history says.
 */
module Registration {
  import opened Gates
  import opened History
  import opened Identifiers
  import opened Protocol
  import opened Windows
  import opened Wrappers

  predicate InFlight(pc: Pc) {
    pc.Sending? || pc.Waiting? || pc.Received? || pc.Leaving?
  }

  predicate InSnap(pc: Pc) {
    pc.Subscribing? || pc.AwaitSnap? || pc.LeavingSnap?
  }

  predicate IsNew(c: Caller) {
    InFlight(c.pc) && c.op.NewOrder?
  }

  predicate IsCancel(c: Caller) {
    InFlight(c.pc) && (c.op.CancelOrder? || c.op.ReplaceOrder?)
  }

  predicate Owns(s: State, t: Tid, k: CallId) {
    t in s.callers && k in s.owner && s.owner[k] == t && k < s.gate.next
  }

  // Request calls.

  /** The caller's call is its own, registered, and has seen what happened since. */
  ghost predicate CallOk(s: State, t: Tid)
    requires t in s.callers
  {
    var c := s.callers[t];
    InFlight(c.pc) ==>
      && MakesCall(c.op) && Owns(s, t, c.call) && c.call in s.gate.calls && c.since <= |s.log|
      && Registered(s.gate, c.call, TicketOf(c))
      && Saw(s.gate.calls[c.call], TicketOf(c), s.log[c.since..])
      && (c.pc.Sending? || c.pc.Waiting? ==> (s.gate.calls[c.call].full <==> Woken(TicketOf(c), s.log[c.since..])))
      && (c.pc.Received? ==> Woken(TicketOf(c), s.log[c.since..]))
  }

  ghost predicate CallsOk(s: State) {
    forall t | t in s.callers :: CallOk(s, t)
  }

  /** Whoever registered call `k` under `id` is still in flight. */
  predicate FilledBy(s: State, id: Identifier, k: CallId) {
    k in s.owner && s.owner[k] in s.callers && k < s.gate.next &&
    var c := s.callers[s.owner[k]];
    IsNew(c) && c.call == k && GetIdentifier(c.user, c.op.order) == id
  }

  predicate CancelledBy(s: State, id: Identifier, k: CallId) {
    k in s.owner && s.owner[k] in s.callers && k < s.gate.next &&
    var c := s.callers[s.owner[k]];
    IsCancel(c) && c.call == k && GetIdentifier(c.user, c.op.order) == id
  }

  ghost predicate EntriesOwned(s: State) {
    && (forall id | id in s.gate.pendingFilled :: FilledBy(s, id, s.gate.pendingFilled[id]))
    && (forall id | id in s.gate.pendingCancel :: s.gate.pendingCancel[id] != {})
    && (forall id, k | id in s.gate.pendingCancel && k in s.gate.pendingCancel[id] :: CancelledBy(s, id, k))
  }

  ghost predicate IdsUsed(s: State) {
    && (forall k | k in s.owner :: k < s.gate.next)
    && (forall k | k in s.gate.calls :: k < s.gate.next)
    && (forall k | k in s.gate.snaps :: k < s.gate.next)
  }

  ghost predicate Inv(s: State) {
    CallsOk(s) && EntriesOwned(s) && IdsUsed(s)
  }

  /** A call in flight is registered under its own ticket and nowhere else. */
  lemma Exclusive(s: State, t: Tid)
    requires Inv(s) && t in s.callers && InFlight(s.callers[t].pc)
    ensures OnlyRegistered(s.gate, s.callers[t].call, TicketOf(s.callers[t]))
  {
    var c := s.callers[t];
    var tk := TicketOf(c);
    assert CallOk(s, t);
    forall id | id in s.gate.pendingFilled && s.gate.pendingFilled[id] == c.call
      ensures tk.kind.New? && id == Key(tk)
    {
      assert FilledBy(s, id, c.call);
    }
    forall id | id in s.gate.pendingCancel && c.call in s.gate.pendingCancel[id]
      ensures tk.kind.Cancel? && id == Key(tk)
    {
      assert CancelledBy(s, id, c.call);
    }
  }

  // One step of another caller, or of the input goroutine, as seen by a caller in flight.

  predicate SameCall(s: State, s': State, t: Tid)
    requires t in s.callers
  {
    var c := s.callers[t];
    t in s'.callers && s'.callers[t] == c && s.gate.next <= s'.gate.next &&
    (InFlight(c.pc) && MakesCall(c.op) && Owns(s, t, c.call) ==>
      Owns(s', t, c.call) && (Registered(s.gate, c.call, TicketOf(c)) ==> Registered(s'.gate, c.call, TicketOf(c))))
  }

  lemma CallKept(s: State, s': State, t: Tid)
    requires t in s.callers && CallOk(s, t) && SameCall(s, s', t) && s'.log == s.log
    requires InFlight(s.callers[t].pc) ==>
      s.callers[t].call in s'.gate.calls && s'.gate.calls[s.callers[t].call] == s.gate.calls[s.callers[t].call]
    ensures CallOk(s', t)
  {
  }

  lemma CallDelivered(s: State, s': State, t: Tid, e: Entry)
    requires t in s.callers && CallOk(s, t) && SameCall(s, s', t) && s'.log == s.log + [e]
    requires InFlight(s.callers[t].pc) ==>
      s.callers[t].call in s'.gate.calls
      && s'.gate.calls[s.callers[t].call] == Deliver(TicketOf(s.callers[t]), s.gate.calls[s.callers[t].call], e)
    ensures CallOk(s', t)
  {
    var c := s.callers[t];
    if InFlight(c.pc) {
      assert s'.log[c.since..] == s.log[c.since..] + [e];
      DeliverSees(s.gate.calls[c.call], TicketOf(c), s.log[c.since..], e);
    }
  }

  /** An entry that is neither a reply nor a reject means nothing to a call. */
  lemma CallIndifferent(s: State, s': State, t: Tid, e: Entry)
    requires t in s.callers && CallOk(s, t) && SameCall(s, s', t) && s'.log == s.log + [e]
    requires !e.Replied? && !e.Rejected? && s'.gate.calls == s.gate.calls
    ensures CallOk(s', t)
  {
    var c := s.callers[t];
    if InFlight(c.pc) {
      assert Deliver(TicketOf(c), s.gate.calls[c.call], e) == s.gate.calls[c.call];
    }
    CallDelivered(s, s', t, e);
  }

  // Every step keeps the invariant.

  /** Whoever is in flight stays in flight, with the same call. */
  ghost predicate FlightsKept(s: State, s': State) {
    forall t | t in s.callers && InFlight(s.callers[t].pc) ::
      t in s'.callers && InFlight(s'.callers[t].pc) &&
      s'.callers[t].(pc := s.callers[t].pc, readAt := s.callers[t].readAt) == s.callers[t]
  }

  ghost predicate OwnersKept(s: State, s': State) {
    s'.gate.next >= s.gate.next && forall k | k in s.owner :: k in s'.owner && s'.owner[k] == s.owner[k]
  }

  lemma EntriesKept(s: State, s': State)
    requires EntriesOwned(s) && FlightsKept(s, s') && OwnersKept(s, s')
    requires s'.gate.pendingFilled == s.gate.pendingFilled && s'.gate.pendingCancel == s.gate.pendingCancel
    ensures EntriesOwned(s')
  {
    forall id | id in s'.gate.pendingFilled
      ensures FilledBy(s', id, s'.gate.pendingFilled[id])
    {
      assert FilledBy(s, id, s.gate.pendingFilled[id]);
    }
    forall id, k | id in s'.gate.pendingCancel && k in s'.gate.pendingCancel[id]
      ensures CancelledBy(s', id, k)
    {
      assert CancelledBy(s, id, k);
    }
  }

  /** The callers in flight are the same before and after. */
  ghost predicate SameFlights(s: State, s': State) {
    && (forall t | t in s.callers && InFlight(s.callers[t].pc) :: t in s'.callers && s'.callers[t] == s.callers[t])
    && (forall t | t in s'.callers && InFlight(s'.callers[t].pc) :: t in s.callers && s.callers[t] == s'.callers[t])
  }

  /** A step that leaves the request calls and their callers alone. */
  lemma QuietStep(s: State, s': State, d: seq<Entry>)
    requires Inv(s) && SameFlights(s, s') && OwnersKept(s, s') && IdsUsed(s')
    requires s'.gate.pendingFilled == s.gate.pendingFilled && s'.gate.pendingCancel == s.gate.pendingCancel
    requires s'.gate.calls == s.gate.calls
    requires s'.log == s.log + d && |d| <= 1
    requires d == [] || (!d[0].Replied? && !d[0].Rejected?)
    ensures Inv(s')
  {
    forall t | t in s'.callers
      ensures CallOk(s', t)
    {
      QuietCall(s, s', d, t);
    }
    EntriesKept(s, s');
  }

  lemma QuietCall(s: State, s': State, d: seq<Entry>, t: Tid)
    requires CallsOk(s) && SameFlights(s, s') && OwnersKept(s, s')
    requires s'.gate.pendingFilled == s.gate.pendingFilled && s'.gate.pendingCancel == s.gate.pendingCancel
    requires s'.gate.calls == s.gate.calls
    requires s'.log == s.log + d && |d| <= 1
    requires d == [] || (!d[0].Replied? && !d[0].Rejected?)
    requires t in s'.callers
    ensures CallOk(s', t)
  {
    if InFlight(s'.callers[t].pc) {
      assert CallOk(s, t);
      if d == [] {
        CallKept(s, s', t);
      } else {
        CallIndifferent(s, s', t, d[0]);
      }
    }
  }

  predicate Others(s: State, s': State, t: Tid) {
    s'.callers.Keys == s.callers.Keys && forall t' | t' in s.callers && t' != t :: s'.callers[t'] == s.callers[t']
  }

  lemma RegisterKeepsCalls(s: State, t: Tid, generated: ClientOrderId)
    requires Inv(s) && t in s.callers && s.callers[t].pc.Register? && MakesCall(s.callers[t].op)
    ensures CallsOk(StepRegister(s, t, generated))
  {
    hide StepRegister, CallOk;
    var s' := StepRegister(s, t, generated);
    forall t' | t' in s'.callers
      ensures CallOk(s', t')
    {
      if t' != t {
        assert CallOk(s, t');
        RegisterSpares(s, t, generated, t');
      } else {
        RegisterOwnCall(s, t, generated);
      }
    }
  }

  lemma RegisterSpares(s: State, t: Tid, generated: ClientOrderId, t': Tid)
    requires IdsUsed(s) && t in s.callers && MakesCall(s.callers[t].op)
    requires t' in s.callers && t' != t && CallOk(s, t')
    ensures CallOk(StepRegister(s, t, generated), t')
  {
    hide Saw, Woken, GetIdentifier;
    CallKept(s, StepRegister(s, t, generated), t');
  }

  /** A caller that goes on to send has a fresh call, registered under its ticket. */
  lemma RegisterEnters(s: State, t: Tid, generated: ClientOrderId)
    requires t in s.callers && s.callers[t].pc.Register? && MakesCall(s.callers[t].op)
    ensures var s' := StepRegister(s, t, generated); var c := s'.callers[t];
      InFlight(c.pc) ==>
        && c.pc.Sending? && c.op == s.callers[t].op && c.call == s.gate.next && c.since == |s.log|
        && c.call in s'.gate.calls && Registered(s'.gate, c.call, TicketOf(c))
        && s'.gate.calls[c.call] == CreateCall(s'.gate.calls[c.call].cancelRequest, s'.gate.calls[c.call].waitComplete)
        && MadeFor(s'.gate.calls[c.call], TicketOf(c))
  {
    hide GetIdentifier;
    if s.callers[t].op.NewOrder? {
    } else {
    }
  }

  lemma RegisterOwnCall(s: State, t: Tid, generated: ClientOrderId)
    requires Inv(s) && t in s.callers && s.callers[t].pc.Register? && MakesCall(s.callers[t].op)
    ensures CallOk(StepRegister(s, t, generated), t)
  {
    hide Saw, Woken, StepRegister, TicketOf, Registered, MadeFor;
    var s' := StepRegister(s, t, generated);
    var c := s'.callers[t];
    RegisterEnters(s, t, generated);
    if InFlight(c.pc) {
      assert s'.log[c.since..] == [];
      EmptyWindow(TicketOf(c), s'.gate.calls[c.call]);
    }
  }

  lemma FilledAdded(s: State, id: Identifier, k: CallId)
    requires EntriesOwned(s) && FilledBy(s, id, k)
    ensures EntriesOwned(s.(gate := s.gate.(pendingFilled := s.gate.pendingFilled[id := k])))
  {
    var s' := s.(gate := s.gate.(pendingFilled := s.gate.pendingFilled[id := k]));
    assert forall id' | id' in s'.gate.pendingFilled :: FilledBy(s, id', s'.gate.pendingFilled[id']);
    assert forall id', k' | id' in s'.gate.pendingCancel && k' in s'.gate.pendingCancel[id'] :: CancelledBy(s, id', k');
  }

  lemma CancelAdded(s: State, id: Identifier, k: CallId)
    requires EntriesOwned(s) && CancelledBy(s, id, k)
    ensures EntriesOwned(s.(gate := s.gate.(pendingCancel := Enter(s.gate.pendingCancel, id, k))))
  {
    var s' := s.(gate := s.gate.(pendingCancel := Enter(s.gate.pendingCancel, id, k)));
    assert forall id' | id' in s'.gate.pendingFilled :: FilledBy(s, id', s'.gate.pendingFilled[id']);
    assert forall id', k' | id' in s'.gate.pendingCancel && k' in s'.gate.pendingCancel[id'] :: CancelledBy(s, id', k');
  }

  lemma RegisterKeepsEntries(s: State, t: Tid, generated: ClientOrderId)
    requires Inv(s) && t in s.callers && s.callers[t].pc.Register? && MakesCall(s.callers[t].op)
    ensures EntriesOwned(StepRegister(s, t, generated))
  {
    hide CallsOk, GetIdentifier;
    var s', k := StepRegister(s, t, generated), s.gate.next;
    var id := GetIdentifier(s.callers[t].user, s.callers[t].op.order);
    var s0 := s'.(gate := s'.gate.(pendingFilled := s.gate.pendingFilled, pendingCancel := s.gate.pendingCancel));
    EntriesKept(s, s0);
    if s.callers[t].op.NewOrder? {
      if id !in s.gate.pendingFilled {
        FilledAdded(s0, id, k);
      }
    } else {
      CancelAdded(s0, id, k);
    }
  }

  /** A caller in flight moves on without touching the pending maps. */
  lemma MoveKeeps(s: State, s': State, t: Tid)
    requires Inv(s) && t in s.callers && InFlight(s.callers[t].pc) && Others(s, s', t)
    requires InFlight(s'.callers[t].pc)
    requires s'.callers[t] == s.callers[t].(pc := s'.callers[t].pc, readAt := s'.callers[t].readAt)
    requires s'.log == s.log && s'.owner == s.owner
    requires s'.gate == s.gate.(calls := s'.gate.calls) && s'.gate.calls.Keys == s.gate.calls.Keys
    requires forall k | k in s.gate.calls && k != s.callers[t].call :: s'.gate.calls[k] == s.gate.calls[k]
    requires CallOk(s', t)
    ensures Inv(s')
  {
    hide Saw, Woken, GetIdentifier;
    forall t' | t' in s'.callers
      ensures CallOk(s', t')
    {
      if t' != t {
        assert CallOk(s, t') && CallOk(s, t);
        CallKept(s, s', t');
      }
    }
    EntriesKept(s, s');
  }

  lemma SendKeeps(s: State, t: Tid, pc: Pc)
    requires Inv(s) && t in s.callers
    requires (s.callers[t].pc.Sending? && (pc.Waiting? || pc.Leaving?)) || (s.callers[t].pc.Waiting? && pc.Leaving?)
    ensures Inv(Goto(s, t, pc))
  {
    assert CallOk(s, t);
    MoveKeeps(s, Goto(s, t, pc), t);
  }

  lemma WaitKeeps(s: State, t: Tid, ok: bool)
    requires Inv(s) && t in s.callers && s.callers[t].pc.Waiting?
    ensures Inv(StepWait(s, t, ok))
  {
    hide Saw, Woken, GetIdentifier;
    var s' := StepWait(s, t, ok);
    if s' != s {
      WaitOwnCall(s, t, ok);
      MoveKeeps(s, s', t);
    }
  }

  lemma WaitOwnCall(s: State, t: Tid, ok: bool)
    requires t in s.callers && s.callers[t].pc.Waiting? && CallOk(s, t)
    ensures CallOk(StepWait(s, t, ok), t)
  {
    hide Woken, GetIdentifier, LastReply, LastError, TradeLog;
  }

  lemma ReadKeeps(s: State, t: Tid)
    requires Inv(s) && t in s.callers && s.callers[t].pc.Received? && s.callers[t].call in s.gate.calls
    ensures Inv(StepRead(s, t))
  {
    assert CallOk(s, t);
    MoveKeeps(s, StepRead(s, t), t);
  }

  lemma LeaveSpares(s: State, t: Tid, t': Tid)
    requires t in s.callers && s.callers[t].pc.Leaving? && CallOk(s, t)
    requires t' in s.callers && InFlight(s.callers[t'].pc) && CallOk(s, t') && t' != t
    ensures SameCall(s, StepLeave(s, t), t')
  {
    hide Saw, Woken;
    var c, c' := s.callers[t], s.callers[t'];
    assert c.call != c'.call;
    if c.op.NewOrder? && c'.op.NewOrder? {
      assert Key(TicketOf(c)) != Key(TicketOf(c'));
    }
  }

  lemma LeaveKeepsCalls(s: State, t: Tid)
    requires Inv(s) && t in s.callers && s.callers[t].pc.Leaving? && MakesCall(s.callers[t].op)
    ensures CallsOk(StepLeave(s, t))
  {
    assert CallOk(s, t);
    var s' := StepLeave(s, t);
    forall t' | t' in s'.callers
      ensures CallOk(s', t')
    {
      if t' != t && InFlight(s.callers[t'].pc) {
        assert CallOk(s, t');
        LeaveSpares(s, t, t');
        CallKept(s, s', t');
      }
    }
  }

  /** The deferred clean-up takes out the caller's own entry and no other. */
  lemma LeaveTakesOwnEntry(s: State, t: Tid)
    requires Inv(s) && t in s.callers && s.callers[t].pc.Leaving? && MakesCall(s.callers[t].op)
    ensures var g, g', k := s.gate, StepLeave(s, t).gate, s.callers[t].call;
      && (forall id :: id in g'.pendingFilled <==> id in g.pendingFilled && g.pendingFilled[id] != k)
      && (forall id | id in g'.pendingFilled :: g'.pendingFilled[id] == g.pendingFilled[id])
      && (forall id, j :: j in Group(g'.pendingCancel, id) <==> j in Group(g.pendingCancel, id) && j != k)
      && (forall id | id in g'.pendingCancel :: g'.pendingCancel[id] != {})
  {
    hide Saw, Woken, GetIdentifier;
    assert CallOk(s, t);
    Exclusive(s, t);
    if s.callers[t].op.NewOrder? {
    } else {
    }
  }

  lemma LeaveKeepsEntries(s: State, t: Tid)
    requires Inv(s) && t in s.callers && s.callers[t].pc.Leaving? && MakesCall(s.callers[t].op)
    ensures EntriesOwned(StepLeave(s, t))
  {
    hide CallsOk, GetIdentifier;
    var s' := StepLeave(s, t);
    LeaveTakesOwnEntry(s, t);
    forall id | id in s'.gate.pendingFilled
      ensures FilledBy(s', id, s'.gate.pendingFilled[id])
    {
      assert FilledBy(s, id, s.gate.pendingFilled[id]);
    }
    forall id, k | id in s'.gate.pendingCancel && k in s'.gate.pendingCancel[id]
      ensures CancelledBy(s', id, k)
    {
      assert k in Group(s'.gate.pendingCancel, id);
      assert CancelledBy(s, id, k);
    }
  }

  /** A handler step delivers its entry to every call in flight, each according to its own ticket. */
  lemma HandlerKeeps(s: State, s': State, e: Entry)
    requires Inv(s) && s'.callers == s.callers && s'.owner == s.owner && s'.log == s.log + [e]
    requires s'.gate == s.gate.(calls := s'.gate.calls) && s'.gate.calls.Keys == s.gate.calls.Keys
    requires forall k, tk | k in s.gate.calls && OnlyRegistered(s.gate, k, tk) && MadeFor(s.gate.calls[k], tk) ::
      s'.gate.calls[k] == Deliver(tk, s.gate.calls[k], e)
    ensures Inv(s')
  {
    forall t | t in s'.callers
      ensures CallOk(s', t)
    {
      assert CallOk(s, t);
      if InFlight(s.callers[t].pc) {
        Exclusive(s, t);
        CallDelivered(s, s', t, e);
      }
    }
    EntriesKept(s, s');
  }

  lemma ReceiveKeeps(s: State, p: Payload)
    requires Inv(s)
    ensures Inv(StepReceive(s, p))
  {
    var s' := StepReceive(s, p);
    match p
    case SnapshotPayload(user, orders) =>
      QuietStep(s, s', if user !in s.gate.accepted then [] else [Stored(user, orders)]);
    case ReportPayload(user, r) =>
      QuietStep(s, s', if user !in s.gate.accepted then [] else [Cached(user, r)]);
    case RejectPayload(user, reject) =>
      forall k, tk | k in s.gate.calls && OnlyRegistered(s.gate, k, tk) && MadeFor(s.gate.calls[k], tk)
        ensures s'.gate.calls[k] == Deliver(tk, s.gate.calls[k], Rejected(user, reject))
      {
        RejectReaches(s.gate, user, reject, k, tk);
      }
      HandlerKeeps(s, s', Rejected(user, reject));
  }

  lemma FinishKeeps(s: State)
    requires Inv(s)
    ensures Inv(StepFinish(s))
  {
    var s' := StepFinish(s);
    match s.input
    case Idle =>
    case Releasing(user, at) =>
      QuietStep(s, s', [Released(user, at)]);
    case Replying(user, r, at) =>
      forall k, tk | k in s.gate.calls && OnlyRegistered(s.gate, k, tk) && MadeFor(s.gate.calls[k], tk)
        ensures s'.gate.calls[k] == Deliver(tk, s.gate.calls[k], Replied(user, r, at))
      {
        ReplyReaches(s.gate, user, r, at, k, tk);
      }
      HandlerKeeps(s, s', Replied(user, r, at));
  }

  lemma GotoKeeps(s: State, t: Tid, pc: Pc)
    requires Inv(s) && t in s.callers && !InFlight(s.callers[t].pc) && !InFlight(pc)
    ensures Inv(Goto(s, t, pc))
  {
    QuietStep(s, Goto(s, t, pc), []);
  }

  lemma AcceptKeeps(s: State, t: Tid)
    requires Inv(s) && t in s.callers && !InFlight(s.callers[t].pc)
    ensures Inv(StepAccept(s, t))
  {
    QuietStep(s, StepAccept(s, t), [Accepted(s.callers[t].user)]);
  }

  lemma JoinKeeps(s: State, t: Tid)
    requires Inv(s) && t in s.callers && !InFlight(s.callers[t].pc)
    ensures Inv(StepJoin(s, t))
  {
    QuietStep(s, StepJoin(s, t), [Joined(s.callers[t].user, s.callers[t].user !in s.gate.pendingSnap)]);
  }

  lemma SubscribeKeeps(s: State, t: Tid, ok: bool)
    requires Inv(s) && t in s.callers && !InFlight(s.callers[t].pc)
    ensures Inv(StepSubscribe(s, t, ok))
  {
    QuietStep(s, StepSubscribe(s, t, ok), [SubscribeTried(s.callers[t].user)]);
  }

  lemma AwaitSnapKeeps(s: State, t: Tid, ok: bool)
    requires Inv(s) && t in s.callers && !InFlight(s.callers[t].pc)
    ensures Inv(StepAwaitSnap(s, t, ok))
  {
    if !ok {
      GotoKeeps(s, t, LeavingSnap(Some(ContextDone)));
    } else if StepAwaitSnap(s, t, ok) != s {
      QuietStep(s, StepAwaitSnap(s, t, ok), []);
    }
  }

  lemma LeaveSnapKeeps(s: State, t: Tid)
    requires Inv(s) && t in s.callers && s.callers[t].pc.LeavingSnap?
    ensures Inv(StepLeaveSnap(s, t))
  {
    QuietStep(s, StepLeaveSnap(s, t), []);
  }

  lemma RegisterKeeps(s: State, t: Tid, generated: ClientOrderId)
    requires Inv(s) && t in s.callers && s.callers[t].pc.Register? && MakesCall(s.callers[t].op)
    ensures Inv(StepRegister(s, t, generated))
  {
    hide CallsOk, EntriesOwned;
    RegisterKeepsCalls(s, t, generated);
    RegisterKeepsEntries(s, t, generated);
  }

  lemma LeaveKeeps(s: State, t: Tid)
    requires Inv(s) && t in s.callers && s.callers[t].pc.Leaving? && MakesCall(s.callers[t].op)
    ensures Inv(StepLeave(s, t))
  {
    LeaveKeepsCalls(s, t);
    LeaveKeepsEntries(s, t);
  }

  lemma RequestKeeps(s: State, t: Tid, ok: bool, generated: ClientOrderId)
    requires Inv(s) && t in s.callers && (InFlight(s.callers[t].pc) || s.callers[t].pc.Register?)
    ensures Inv(StepCaller(s, t, ok, generated))
  {
    hide Inv;
    var c := s.callers[t];
    match c.pc
    case Register =>
      if MakesCall(c.op) {
        RegisterKeeps(s, t, generated);
      }
    case Sending => SendKeeps(s, t, if ok then Waiting else Leaving(Failed(SendFailed)));
    case Waiting => WaitKeeps(s, t, ok);
    case Received =>
      if c.call in s.gate.calls {
        ReadKeeps(s, t);
      }
    case Leaving(_) =>
      if MakesCall(c.op) {
        LeaveKeeps(s, t);
      }
  }

  lemma CallerKeeps(s: State, t: Tid, ok: bool, generated: ClientOrderId)
    requires Inv(s) && t in s.callers
    ensures Inv(StepCaller(s, t, ok, generated))
  {
    hide Inv;
    var c := s.callers[t];
    match c.pc
    case CheckCache => GotoKeeps(s, t, if c.user in s.gate.users then Search else Accept);
    case Accept => AcceptKeeps(s, t);
    case Recheck => GotoKeeps(s, t, if c.user in s.gate.users then Search else Join);
    case Join => JoinKeeps(s, t);
    case Subscribing => SubscribeKeeps(s, t, ok);
    case AwaitSnap => AwaitSnapKeeps(s, t, ok);
    case LeavingSnap(_) => LeaveSnapKeeps(s, t);
    case Search => GotoKeeps(s, t, AfterSearch(s, c));
    case SearchPending => GotoKeeps(s, t, AfterSearchPending(s, c));
    case Done(_) =>
    case _ => RequestKeeps(s, t, ok, generated);
  }

  lemma StepKeeps(s: State, e: Event)
    requires Inv(s)
    ensures Inv(Step(s, e))
  {
    var s' := Step(s, e);
    match e
    case Invoke(t, user, op) => QuietStep(s, s', []);
    case Advance(t, ok, generated) =>
      if t in s.callers {
        CallerKeeps(s, t, ok, generated);
      }
    case Receive(p) =>
      if s.input.Idle? {
        ReceiveKeeps(s, p);
      }
    case Finish => FinishKeeps(s);
    case Unsubscribe(user) => QuietStep(s, s', [Dropped(user)]);
  }
}
