/**
  What a caller may rely on once it is past waiting for a snapshot: that one was stored, and what became of it.
 */
module SnapshotReads {
  import opened CacheRuns
  import opened Gates
  import opened History
  import opened Identifiers
  import opened Orders
  import opened OrdersContainers
  import opened Outcomes
  import opened Protocol
  import opened Registration
  import opened Snapshots
  import opened Wrappers

  /** The caller has yet to look at the cache, or to join those who wait. */
  predicate YetToWait(pc: Pc) {
    pc.CheckCache? || pc.Accept? || pc.Recheck? || pc.Join?
  }

  /** The caller found its user cached or waited successfully; its operation can fail only later on. */
  predicate PastWait(pc: Pc) {
    || pc.Search? || pc.SearchPending? || pc.Register? || InFlight(pc)
    || (pc.Done? && pc.outcome != Failed(SubscribeFailed) && pc.outcome != Failed(ContextDone))
  }

  /** A snapshot of the user was stored at `i`; if the caller waited, it was released for this one after it joined. */
  ghost predicate Served(log: seq<Entry>, user: UserId, since: nat, i: nat) {
    && i < |log| && log[i].Stored? && log[i].user == user
    && (since > 0 ==> exists p | since <= p < |log| :: log[p] == Released(user, i))
  }

  ghost predicate HasBeenServed(log: seq<Entry>, user: UserId, since: nat) {
    exists i: nat :: Served(log, user, since, i)
  }

  /** ... and the user was dropped afterwards. */
  ghost predicate LostAgain(log: seq<Entry>, user: UserId, since: nat) {
    exists i: nat, j: nat | i < j < |log| :: Served(log, user, since, i) && log[j] == Dropped(user)
  }

  /** ... and the orders are those of a moment after it was stored. */
  ghost predicate ReadAfter(log: seq<Entry>, user: UserId, since: nat, book: Book) {
    exists i: nat, n: nat | i < n <= |log| :: Served(log, user, since, i) && CachedThen(log, user, n, book)
  }

  ghost predicate CachedThen(log: seq<Entry>, user: UserId, n: nat, book: Book) {
    n <= |log| && user in Replay(log[..n]) && Replay(log[..n])[user] == book
  }

  /** The caller was served, and at a moment after that a lookup of the order gave this. */
  ghost predicate LookedUp(log: seq<Entry>, user: UserId, since: nat, k: ClientOrderId, found: Option<OrderModel>) {
    exists i: nat, n: nat | i < n <= |log| :: Served(log, user, since, i) && FoundThen(log, user, n, k, found)
  }

  ghost predicate FoundThen(log: seq<Entry>, user: UserId, n: nat, k: ClientOrderId, found: Option<OrderModel>) {
    n <= |log| && Lookup(Replay(log[..n]), user, k) == found
  }

  /** The caller is making its request, or has made it. */
  predicate InRequest(pc: Pc) {
    pc.Register? || InFlight(pc) || (pc.Done? && (pc.outcome.Answered? || pc.outcome == Failed(SendFailed)))
  }

  /** What a replace asks for is what the order has already; an empty text asks for nothing. */
  predicate NothingNew(op: Op, o: OrderModel)
    requires op.ReplaceOrder?
  {
    (op.price == "" || op.price == o.price) && (op.quantity == "" || op.quantity == o.quantity)
  }

  /** ... and what the replace asks for was new, or was not. */
  ghost predicate Replaceable(log: seq<Entry>, user: UserId, since: nat, op: Op, isNew: bool)
    requires op.ReplaceOrder?
  {
    exists o :: LookedUp(log, user, since, op.order, Some(o)) && (isNew <==> !NothingNew(op, o))
  }

  /** What the caller found before it went on to where it is. */
  ghost predicate LookupOk(log: seq<Entry>, c: Caller) {
    && (c.pc.SearchPending? ==> c.op.CancelOrder? && LookedUp(log, c.user, c.snapSince, c.op.order, None))
    && (InRequest(c.pc) ==>
          && (c.op.NewOrder? ==> LookedUp(log, c.user, c.snapSince, c.op.order, None))
          && (c.op.ReplaceOrder? ==> Replaceable(log, c.user, c.snapSince, c.op, true)))
    && (c.pc.Done? && c.pc.outcome.Found? ==>
          c.op.GetOrder? && LookedUp(log, c.user, c.snapSince, c.op.order, Some(c.pc.outcome.found)))
    && (c.pc == Done(Failed(OrderNotFound)) ==>
          !c.op.GetSnapshot? && !c.op.NewOrder? && LookedUp(log, c.user, c.snapSince, c.op.order, None))
    && (c.pc == Done(Failed(OrderNotChanged)) ==> c.op.ReplaceOrder? && Replaceable(log, c.user, c.snapSince, c.op, false))
    && (c.pc == Done(Failed(DuplicateOrder)) ==> c.op.NewOrder?)
  }

  ghost predicate ReadOk(s: State, t: Tid)
    requires t in s.callers
  {
    var c := s.callers[t];
    && (YetToWait(c.pc) ==> c.snapSince == 0)
    && (c.pc.LeavingSnap? && c.pc.result.Some? ==> c.pc.result.value.SubscribeFailed? || c.pc.result.value.ContextDone?)
    && (c.pc.Leaving? ==> c.pc.outcome.Answered? || c.pc.outcome == Failed(SendFailed) || c.pc.outcome == Failed(ContextDone))
    && (PastWait(c.pc) ==> HasBeenServed(s.log, c.user, c.snapSince))
    && (c.pc == Done(Failed(NoSnapshot)) ==> LostAgain(s.log, c.user, c.snapSince))
    && (c.pc.Done? && c.pc.outcome.Listed? ==> ReadAfter(s.log, c.user, c.snapSince, c.pc.outcome.book))
    && LookupOk(s.log, c)
  }

  ghost predicate ReadsOk(s: State) {
    forall t | t in s.callers :: ReadOk(s, t)
  }

  // More history changes nothing about what was served and read.

  lemma ServedStays(log: seq<Entry>, log': seq<Entry>, user: UserId, since: nat, i: nat)
    requires |log| <= |log'| && log'[..|log|] == log && Served(log, user, since, i)
    ensures Served(log', user, since, i)
  {
    assert forall j | 0 <= j < |log| :: log'[j] == log'[..|log|][j];
  }

  lemma HistoryGrows(log: seq<Entry>, log': seq<Entry>, user: UserId, since: nat)
    requires |log| <= |log'| && log'[..|log|] == log
    ensures HasBeenServed(log, user, since) ==> HasBeenServed(log', user, since)
    ensures LostAgain(log, user, since) ==> LostAgain(log', user, since)
    ensures forall book :: ReadAfter(log, user, since, book) ==> ReadAfter(log', user, since, book)
    ensures forall k, found :: LookedUp(log, user, since, k, found) ==> LookedUp(log', user, since, k, found)
  {
    hide Served, Replay;
    forall i: nat | Served(log, user, since, i)
      ensures Served(log', user, since, i)
    {
      ServedStays(log, log', user, since, i);
    }
    assert forall j | 0 <= j < |log| :: log'[j] == log'[..|log|][j];
    forall book | ReadAfter(log, user, since, book)
      ensures ReadAfter(log', user, since, book)
    {
      var i: nat, n: nat :| i < n <= |log| && Served(log, user, since, i) && CachedThen(log, user, n, book);
      assert log'[..n] == log[..n];
      assert Served(log', user, since, i) && CachedThen(log', user, n, book);
    }
    forall k, found | LookedUp(log, user, since, k, found)
      ensures LookedUp(log', user, since, k, found)
    {
      var i: nat, n: nat :| i < n <= |log| && Served(log, user, since, i) && FoundThen(log, user, n, k, found);
      assert log'[..n] == log[..n];
      assert Served(log', user, since, i) && FoundThen(log', user, n, k, found);
    }
  }

  lemma ReadStays(s: State, s': State, t: Tid)
    requires t in s.callers && t in s'.callers && s'.callers[t] == s.callers[t] && ReadOk(s, t)
    requires |s.log| <= |s'.log| && s'.log[..|s.log|] == s.log
    ensures ReadOk(s', t)
  {
    hide HasBeenServed, LostAgain, ReadAfter, LookedUp;
    HistoryGrows(s.log, s'.log, s.callers[t].user, s.callers[t].snapSince);
  }

  // The steps at which the cache is looked at.

  /** Whoever finds its user cached was served, by the snapshot that the cache still holds. */
  lemma CachedIsServed(s: State, user: UserId)
    requires CacheInv(s) && user in s.gate.users
    ensures HasBeenServed(s.log, user, 0)
  {
    hide Replay;
    ReplayDomain(s.log, user);
    var i :| 0 <= i < |s.log| && s.log[i].Stored? && s.log[i].user == user && NotDropped(s.log, user, i + 1);
    assert Served(s.log, user, 0, i);
  }

  /** Whoever waited successfully was released, after it joined, for a snapshot that had been stored. */
  lemma ReleasedIsServed(s: State, t: Tid)
    requires SnapsOk(s) && LogInv(s) && t in s.callers && s.callers[t].pc == LeavingSnap(None)
    ensures HasBeenServed(s.log, s.callers[t].user, s.callers[t].snapSince)
  {
    var c := s.callers[t];
    assert SnapOk(s, t);
    var w := s.log[c.snapSince..];
    var k :| 0 <= k < |w| && w[k].Released? && w[k].user == c.user;
    var p := c.snapSince + k;
    assert s.log[p] == w[k];
    assert EntryOk(s.log, p);
    assert Served(s.log, c.user, c.snapSince, s.log[p].storedAt);
  }

  /** Whoever was served and then finds its user uncached came after a drop. */
  lemma UncachedIsLost(s: State, user: UserId, since: nat)
    requires CacheInv(s) && user !in s.gate.users && HasBeenServed(s.log, user, since)
    ensures LostAgain(s.log, user, since)
  {
    hide Replay;
    ReplayDomain(s.log, user);
    var i: nat :| Served(s.log, user, since, i);
    assert !NotDropped(s.log, user, i + 1);
  }

  lemma ListIsRead(s: State, user: UserId, since: nat)
    requires CacheInv(s) && user in s.gate.users && HasBeenServed(s.log, user, since)
    ensures ReadAfter(s.log, user, since, s.gate.users[user])
  {
    hide Replay;
    var i: nat :| Served(s.log, user, since, i);
    assert s.log[..|s.log|] == s.log;
    assert CachedThen(s.log, user, |s.log|, s.gate.users[user]);
  }

  lemma LookupIsRead(s: State, user: UserId, since: nat, k: ClientOrderId)
    requires CacheInv(s) && HasBeenServed(s.log, user, since)
    ensures LookedUp(s.log, user, since, k, Lookup(s.gate.users, user, k))
  {
    hide Replay;
    var i: nat :| Served(s.log, user, since, i);
    assert s.log[..|s.log|] == s.log;
    assert FoundThen(s.log, user, |s.log|, k, Lookup(s.gate.users, user, k));
  }

  lemma SearchReads(s: State, t: Tid)
    requires CacheInv(s) && t in s.callers && s.callers[t].pc.Search? && ReadOk(s, t)
    ensures ReadOk(Goto(s, t, AfterSearch(s, s.callers[t])), t)
  {
    hide ReadOk, CacheInv, AfterSearch;
    if s.callers[t].op.GetSnapshot? {
      ListReads(s, t);
    } else {
      OrderReads(s, t);
    }
  }

  lemma ListReads(s: State, t: Tid)
    requires CacheInv(s) && t in s.callers && s.callers[t].pc.Search? && s.callers[t].op.GetSnapshot? && ReadOk(s, t)
    ensures ReadOk(Goto(s, t, AfterSearch(s, s.callers[t])), t)
  {
    hide HasBeenServed, LostAgain, ReadAfter, LookedUp;
    var c := s.callers[t];
    if c.user in s.gate.users {
      ListIsRead(s, c.user, c.snapSince);
    } else {
      UncachedIsLost(s, c.user, c.snapSince);
    }
  }

  lemma OrderReads(s: State, t: Tid)
    requires CacheInv(s) && t in s.callers && s.callers[t].pc.Search? && !s.callers[t].op.GetSnapshot? && ReadOk(s, t)
    ensures ReadOk(Goto(s, t, AfterSearch(s, s.callers[t])), t)
  {
    hide HasBeenServed, LostAgain, ReadAfter, LookedUp, CacheInv, Lookup;
    var c := s.callers[t];
    LookupIsRead(s, c.user, c.snapSince, c.op.order);
    match c.op
    case GetOrder(_) =>
    case NewOrder(_, _) =>
    case CancelOrder(_) =>
    case ReplaceOrder(_, _, _, _) =>
  }

  lemma LeaveSnapReads(s: State, t: Tid)
    requires SnapsOk(s) && LogInv(s) && t in s.callers && s.callers[t].pc.LeavingSnap? && ReadOk(s, t)
    ensures ReadOk(StepLeaveSnap(s, t), t)
  {
    hide HasBeenServed, LostAgain, ReadAfter, LookedUp;
    if s.callers[t].pc.result.None? {
      ReleasedIsServed(s, t);
    }
  }

  lemma LookReads(s: State, t: Tid, ok: bool, generated: ClientOrderId)
    requires CacheInv(s) && t in s.callers && (s.callers[t].pc.CheckCache? || s.callers[t].pc.Recheck?) && ReadOk(s, t)
    ensures ReadOk(StepCaller(s, t, ok, generated), t)
  {
    hide HasBeenServed, LostAgain, ReadAfter, LookedUp, Replaceable, CacheInv, AfterSearch, AfterSearchPending;
    hide StepAccept, StepJoin, StepSubscribe, StepAwaitSnap, StepLeaveSnap, StepRegister, StepWait, StepRead, StepLeave;
    if s.callers[t].user in s.gate.users {
      CachedIsServed(s, s.callers[t].user);
    }
  }

  lemma RegisterReads(s: State, t: Tid, generated: ClientOrderId)
    requires t in s.callers && s.callers[t].pc.Register? && MakesCall(s.callers[t].op) && ReadOk(s, t)
    ensures ReadOk(StepRegister(s, t, generated), t)
  {
    hide HasBeenServed, LostAgain, ReadAfter, LookedUp, GetIdentifier;
    if s.callers[t].op.NewOrder? {
    } else {
    }
  }

  /** The steps of a caller that asks for a snapshot and waits. */
  lemma WaitReads(s: State, t: Tid, ok: bool, generated: ClientOrderId)
    requires t in s.callers && ReadOk(s, t)
    requires var pc := s.callers[t].pc; pc.Accept? || pc.Join? || pc.Subscribing? || pc.AwaitSnap?
    ensures ReadOk(StepCaller(s, t, ok, generated), t)
  {
    hide ReadOk, Enter, StepRegister, StepWait, StepRead, StepLeave, StepLeaveSnap, AfterSearch, AfterSearchPending;
    var s' := StepCaller(s, t, ok, generated);
    match s.callers[t].pc
    case Accept => StillWaits(s, s', t);
    case Join => StillWaits(s, s', t);
    case Subscribing => StillWaits(s, s', t);
    case AwaitSnap => StillWaits(s, s', t);
  }

  lemma StillWaits(s: State, s': State, t: Tid)
    requires t in s.callers && t in s'.callers && ReadOk(s, t) && !PastWait(s'.callers[t].pc)
    requires YetToWait(s'.callers[t].pc) ==> YetToWait(s.callers[t].pc) && s'.callers[t].snapSince == s.callers[t].snapSince
    requires s'.callers[t].pc.LeavingSnap? && s'.callers[t].pc.result.Some? ==>
      s'.callers[t].pc.result.value.SubscribeFailed? || s'.callers[t].pc.result.value.ContextDone?
    ensures ReadOk(s', t)
  {
  }

  /** The steps of a caller whose request call is in flight, or that looks for a pending order, or is done. */
  lemma OtherReads(s: State, t: Tid, ok: bool, generated: ClientOrderId)
    requires t in s.callers && ReadOk(s, t)
    requires var pc := s.callers[t].pc; !pc.CheckCache? && !pc.Recheck? && !pc.LeavingSnap? && !pc.Search?
    requires var pc := s.callers[t].pc; !pc.Accept? && !pc.Join? && !pc.Subscribing? && !pc.AwaitSnap? && !pc.Register?
    ensures ReadOk(StepCaller(s, t, ok, generated), t)
  {
    hide ReadOk, AfterSearchPending, StepRegister, StepJoin, StepAwaitSnap, StepLeaveSnap, StepLeave, UnregisterNew, UnregisterCancel;
    var s' := StepCaller(s, t, ok, generated);
    match s.callers[t].pc
    case SearchPending => GoesOn(s, s', t);
    case Sending => GoesOn(s, s', t);
    case Waiting => GoesOn(s, s', t);
    case Received =>
      if s' != s {
        GoesOn(s, s', t);
      }
    case Leaving(_) => LeavingGoesOn(s, t);
    case Done(_) =>
  }

  lemma LeavingGoesOn(s: State, t: Tid)
    requires t in s.callers && s.callers[t].pc.Leaving? && ReadOk(s, t)
    ensures MakesCall(s.callers[t].op) ==> ReadOk(StepLeave(s, t), t)
  {
    hide ReadOk, UnregisterNew, UnregisterCancel, GetIdentifier;
    if MakesCall(s.callers[t].op) {
      GoesOn(s, StepLeave(s, t), t);
    }
  }

  /** Past its lookup a caller goes on without another one. */
  lemma GoesOn(s: State, s': State, t: Tid)
    requires t in s.callers && t in s'.callers && ReadOk(s, t) && s'.log == s.log
    requires var c, c' := s.callers[t], s'.callers[t];
      && c'.user == c.user && c'.op == c.op && c'.snapSince == c.snapSince
      && (if c.pc.SearchPending? then c'.pc.Register? || c'.pc == Done(Failed(OrderNotFound))
          else if c.pc.Leaving? then c'.pc == Done(c.pc.outcome)
          else
            && InFlight(c.pc) && InFlight(c'.pc)
            && (c'.pc.Leaving? ==>
                  c'.pc.outcome.Answered? || c'.pc.outcome == Failed(SendFailed) || c'.pc.outcome == Failed(ContextDone)))
    ensures ReadOk(s', t)
  {
    hide HasBeenServed, LostAgain, ReadAfter, LookedUp, Replaceable;
  }

  lemma CallerReads(s: State, t: Tid, ok: bool, generated: ClientOrderId)
    requires SnapsOk(s) && CacheInv(s) && LogInv(s) && t in s.callers && ReadOk(s, t)
    ensures ReadOk(StepCaller(s, t, ok, generated), t)
  {
    hide SnapsOk, CacheInv, LogInv, ReadOk, StepLeaveSnap, StepRegister, AfterSearch;
    var pc := s.callers[t].pc;
    if pc.CheckCache? || pc.Recheck? {
      LookReads(s, t, ok, generated);
    } else if pc.LeavingSnap? {
      LeaveSnapReads(s, t);
    } else if pc.Search? {
      SearchReads(s, t);
    } else if pc.Register? {
      if MakesCall(s.callers[t].op) {
        RegisterReads(s, t, generated);
      }
    } else if pc.Accept? || pc.Join? || pc.Subscribing? || pc.AwaitSnap? {
      WaitReads(s, t, ok, generated);
    } else {
      OtherReads(s, t, ok, generated);
    }
  }

  lemma StepReads(s: State, e: Event)
    requires SnapsOk(s) && CacheInv(s) && LogInv(s) && ReadsOk(s)
    ensures ReadsOk(Step(s, e))
  {
    hide StepCaller, StepReceive, StepFinish, ReadOk;
    var s' := Step(s, e);
    StepLogs(s, e);
    forall t | t in s'.callers
      ensures ReadOk(s', t)
    {
      if t in s.callers {
        assert ReadOk(s, t);
      }
      match e
      case Invoke(t', user, op) =>
        if t !in s.callers {
          NewReads(s, t', user, op);
        } else {
          ReadStays(s, s', t);
        }
      case Advance(t', ok, generated) =>
        if t' == t {
          CallerReads(s, t, ok, generated);
        } else {
          ReadStays(s, s', t);
        }
      case Receive(p) =>
        ReceiveKeepsCallers(s, p);
        ReadStays(s, s', t);
      case Finish =>
        FinishKeepsCallers(s);
        ReadStays(s, s', t);
      case Unsubscribe(_) => ReadStays(s, s', t);
    }
  }

  lemma NewReads(s: State, t: Tid, user: UserId, op: Op)
    ensures ReadOk(StepInvoke(s, t, user, op), t)
  {
  }
}
