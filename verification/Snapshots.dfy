/**
  Callers that wait for a snapshot: who is registered, who may subscribe, and who is woken.
 */
module Snapshots {
  import opened Gates
  import opened History
  import opened Identifiers
  import opened Orders
  import opened Protocol
  import opened Registration
  import opened Wrappers

  ghost predicate ReleasedIn(user: UserId, w: seq<Entry>) {
    exists i | 0 <= i < |w| :: w[i].Released? && w[i].user == user
  }

  lemma ReleasedAppend(user: UserId, w: seq<Entry>, e: Entry)
    ensures ReleasedIn(user, w + [e]) <==> ReleasedIn(user, w) || (e.Released? && e.user == user)
  {
    assert (w + [e])[|w|] == e;
    assert forall i | 0 <= i < |w| :: (w + [e])[i] == w[i];
  }

  /** The caller's waiting call is its own, is registered, and was woken exactly if its user's waiters were released since. */
  ghost predicate SnapOk(s: State, t: Tid)
    requires t in s.callers
  {
    var c := s.callers[t];
    InSnap(c.pc) ==>
      && Owns(s, t, c.snap) && c.snap in s.gate.snaps && c.snapSince <= |s.log|
      && c.snap in Group(s.gate.pendingSnap, c.user)
      && (c.pc.Subscribing? ==> c.opener)
      && (!c.pc.LeavingSnap? ==> (s.gate.snaps[c.snap] <==> ReleasedIn(c.user, s.log[c.snapSince..])))
      && (c.pc == LeavingSnap(None) ==> ReleasedIn(c.user, s.log[c.snapSince..]))
  }

  ghost predicate SnapsOk(s: State) {
    forall t | t in s.callers :: SnapOk(s, t)
  }

  predicate WaitedBy(s: State, user: UserId, k: CallId) {
    k in s.owner && s.owner[k] in s.callers && k < s.gate.next &&
    var c := s.callers[s.owner[k]];
    InSnap(c.pc) && c.snap == k && c.user == user
  }

  ghost predicate WaitersOwned(s: State) {
    && (forall user | user in s.gate.pendingSnap :: s.gate.pendingSnap[user] != {})
    && (forall user, k | user in s.gate.pendingSnap && k in s.gate.pendingSnap[user] :: WaitedBy(s, user, k))
  }

  predicate Opener(s: State, t: Tid, user: UserId) {
    t in s.callers && InSnap(s.callers[t].pc) && s.callers[t].opener && s.callers[t].user == user
  }

  /** Of those who wait for one user, at most one found nobody waiting. */
  ghost predicate OneOpener(s: State) {
    forall t, t', user | Opener(s, t, user) && Opener(s, t', user) :: t == t'
  }

  ghost predicate SnapInv(s: State) {
    SnapsOk(s) && WaitersOwned(s) && OneOpener(s)
  }

  ghost predicate SameWaits(s: State, s': State) {
    && (forall t | t in s.callers && InSnap(s.callers[t].pc) :: t in s'.callers && s'.callers[t] == s.callers[t])
    && (forall t | t in s'.callers && InSnap(s'.callers[t].pc) :: t in s.callers && s.callers[t] == s'.callers[t])
  }

  lemma SnapKept(s: State, s': State, t: Tid, d: seq<Entry>)
    requires t in s.callers && t in s'.callers && s'.callers[t] == s.callers[t] && SnapOk(s, t) && OwnersKept(s, s')
    requires s'.log == s.log + d && |d| <= 1
    requires s.callers[t].snap in Group(s.gate.pendingSnap, s.callers[t].user) ==>
      s.callers[t].snap in Group(s'.gate.pendingSnap, s.callers[t].user)
    requires s.callers[t].snap in s.gate.snaps ==> s.callers[t].snap in s'.gate.snaps
    requires s.callers[t].snap in s.gate.snaps ==>
      (s'.gate.snaps[s.callers[t].snap] <==>
        s.gate.snaps[s.callers[t].snap] || (d != [] && d[0].Released? && d[0].user == s.callers[t].user))
    ensures SnapOk(s', t)
  {
    var c := s.callers[t];
    if InSnap(c.pc) && d != [] {
      assert s'.log[c.snapSince..] == s.log[c.snapSince..] + [d[0]];
      ReleasedAppend(c.user, s.log[c.snapSince..], d[0]);
    }
    assert d == [] ==> s'.log == s.log;
  }

  /** A step that leaves the waiting calls and their callers alone. */
  lemma QuietWait(s: State, s': State, d: seq<Entry>)
    requires SnapInv(s) && SameWaits(s, s') && OwnersKept(s, s')
    requires s'.gate.pendingSnap == s.gate.pendingSnap && s'.gate.snaps == s.gate.snaps
    requires s'.log == s.log + d && |d| <= 1 && (d == [] || !d[0].Released?)
    ensures SnapInv(s')
  {
    forall t | t in s'.callers
      ensures SnapOk(s', t)
    {
      if InSnap(s'.callers[t].pc) {
        assert SnapOk(s, t);
        SnapKept(s, s', t, d);
      }
    }
    assert forall user, k | user in s.gate.pendingSnap && k in s.gate.pendingSnap[user] :: WaitedBy(s, user, k);
    assert forall t, user | Opener(s', t, user) :: Opener(s, t, user);
  }

  lemma JoinWaits(s: State, t: Tid)
    requires Inv(s) && SnapInv(s) && t in s.callers && s.callers[t].pc.Join?
    ensures SnapsOk(StepJoin(s, t)) && OneOpener(StepJoin(s, t))
  {
    var s' := StepJoin(s, t);
    var c := s.callers[t];
    var d := [Joined(c.user, c.user !in s.gate.pendingSnap)];
    forall t' | t' in s'.callers
      ensures SnapOk(s', t')
    {
      if t' != t {
        assert SnapOk(s, t');
        SnapKept(s, s', t', d);
      } else {
        assert s'.log[s'.callers[t].snapSince..] == [];
      }
    }
    forall t1, t2, user | Opener(s', t1, user) && Opener(s', t2, user)
      ensures t1 == t2
    {
      assert t1 != t ==> SnapOk(s, t1) && Opener(s, t1, user);
      assert t2 != t ==> SnapOk(s, t2) && Opener(s, t2, user);
    }
  }

  lemma JoinWaiters(s: State, t: Tid)
    requires Inv(s) && SnapInv(s) && t in s.callers && s.callers[t].pc.Join?
    ensures WaitersOwned(StepJoin(s, t))
  {
    var s' := StepJoin(s, t);
    forall user, k | user in s'.gate.pendingSnap && k in s'.gate.pendingSnap[user]
      ensures WaitedBy(s', user, k)
    {
      assert user in s.gate.pendingSnap && k in s.gate.pendingSnap[user] ==> WaitedBy(s, user, k);
    }
  }

  lemma JoinKeepsWaits(s: State, t: Tid)
    requires Inv(s) && SnapInv(s) && t in s.callers && s.callers[t].pc.Join?
    ensures SnapInv(StepJoin(s, t))
  {
    JoinWaits(s, t);
    JoinWaiters(s, t);
  }

  /** A caller that waits moves on without leaving the pending map. */
  lemma MoveWaits(s: State, s': State, t: Tid, d: seq<Entry>)
    requires Inv(s) && SnapInv(s) && t in s.callers && InSnap(s.callers[t].pc) && Others(s, s', t)
    requires InSnap(s'.callers[t].pc) && s'.callers[t] == s.callers[t].(pc := s'.callers[t].pc)
    requires s'.owner == s.owner && s'.gate.next == s.gate.next && s'.gate.pendingSnap == s.gate.pendingSnap
    requires s'.log == s.log + d && |d| <= 1 && (d == [] || !d[0].Released?)
    requires forall k | k in s.gate.snaps && k != s.callers[t].snap :: k in s'.gate.snaps && s'.gate.snaps[k] == s.gate.snaps[k]
    requires SnapOk(s', t)
    ensures SnapInv(s')
  {
    forall t' | t' in s'.callers
      ensures SnapOk(s', t')
    {
      if t' != t {
        assert SnapOk(s, t') && SnapOk(s, t);
        if InSnap(s'.callers[t'].pc) {
          SnapKept(s, s', t', d);
        }
      }
    }
    forall user, k | user in s'.gate.pendingSnap && k in s'.gate.pendingSnap[user]
      ensures WaitedBy(s', user, k)
    {
      assert WaitedBy(s, user, k);
    }
    assert forall t', user | Opener(s', t', user) :: Opener(s, t', user);
  }

  lemma SubscribeWaits(s: State, t: Tid, ok: bool)
    requires Inv(s) && SnapInv(s) && t in s.callers && s.callers[t].pc.Subscribing?
    ensures SnapInv(StepSubscribe(s, t, ok))
  {
    var s', c := StepSubscribe(s, t, ok), s.callers[t];
    assert SnapOk(s, t);
    assert s'.log[c.snapSince..] == s.log[c.snapSince..] + [SubscribeTried(c.user)];
    ReleasedAppend(c.user, s.log[c.snapSince..], SubscribeTried(c.user));
    MoveWaits(s, s', t, [SubscribeTried(c.user)]);
  }

  lemma AwaitWaits(s: State, t: Tid, ok: bool)
    requires Inv(s) && SnapInv(s) && t in s.callers && s.callers[t].pc.AwaitSnap?
    ensures SnapInv(StepAwaitSnap(s, t, ok))
  {
    var s' := StepAwaitSnap(s, t, ok);
    assert SnapOk(s, t);
    if s' != s {
      MoveWaits(s, s', t, []);
    }
  }

  lemma LeaveWaits(s: State, t: Tid)
    requires Inv(s) && SnapInv(s) && t in s.callers && s.callers[t].pc.LeavingSnap?
    ensures SnapInv(StepLeaveSnap(s, t))
  {
    var s' := StepLeaveSnap(s, t);
    assert SnapOk(s, t);
    forall t' | t' in s'.callers
      ensures SnapOk(s', t')
    {
      if t' != t {
        assert SnapOk(s, t');
      }
    }
    forall user, k | user in s'.gate.pendingSnap && k in s'.gate.pendingSnap[user]
      ensures WaitedBy(s', user, k)
    {
      assert WaitedBy(s, user, k);
    }
    assert forall t', user | Opener(s', t', user) :: Opener(s, t', user);
  }

  lemma ReleaseWaits(s: State)
    requires Inv(s) && SnapInv(s) && s.input.Releasing?
    ensures SnapInv(StepFinish(s))
  {
    var s', user := StepFinish(s), s.input.user;
    var d := [Released(user, s.input.storedAt)];
    forall t | t in s'.callers
      ensures SnapOk(s', t)
    {
      assert SnapOk(s, t);
      if InSnap(s.callers[t].pc) {
        var k := s.callers[t].snap;
        assert k in Group(s.gate.pendingSnap, user) ==> WaitedBy(s, user, k);
        SnapKept(s, s', t, d);
      }
    }
    assert forall user, k | user in s.gate.pendingSnap && k in s.gate.pendingSnap[user] :: WaitedBy(s, user, k);
    assert forall t, user | Opener(s', t, user) :: Opener(s, t, user);
  }

  lemma GotoWaits(s: State, t: Tid, pc: Pc)
    requires SnapInv(s) && t in s.callers && !InSnap(s.callers[t].pc) && !InSnap(pc)
    ensures SnapInv(Goto(s, t, pc))
  {
    QuietWait(s, Goto(s, t, pc), []);
  }

  lemma IdsAreUsed(s: State)
    requires Inv(s)
    ensures IdsUsed(s)
  {
  }

  lemma RegisterWaits(s: State, t: Tid, generated: ClientOrderId)
    requires IdsUsed(s) && SnapInv(s) && t in s.callers && s.callers[t].pc.Register? && MakesCall(s.callers[t].op)
    ensures SnapInv(StepRegister(s, t, generated))
  {
    hide SnapInv, StepRegister;
    QuietWait(s, StepRegister(s, t, generated), []);
  }

  lemma LeavingWaits(s: State, t: Tid)
    requires SnapInv(s) && t in s.callers && s.callers[t].pc.Leaving? && MakesCall(s.callers[t].op)
    ensures SnapInv(StepLeave(s, t))
  {
    hide SnapInv, GetIdentifier;
    QuietWait(s, StepLeave(s, t), []);
  }

  lemma WaitingWaits(s: State, t: Tid, ok: bool)
    requires SnapInv(s) && t in s.callers && s.callers[t].pc.Waiting?
    ensures SnapInv(StepWait(s, t, ok))
  {
    hide SnapInv;
    QuietWait(s, StepWait(s, t, ok), []);
  }

  lemma ReadingWaits(s: State, t: Tid)
    requires SnapInv(s) && t in s.callers && s.callers[t].pc.Received? && s.callers[t].call in s.gate.calls
    ensures SnapInv(StepRead(s, t))
  {
    hide SnapInv;
    QuietWait(s, StepRead(s, t), []);
  }

  lemma RequestWaits(s: State, t: Tid, ok: bool, generated: ClientOrderId)
    requires Inv(s) && SnapInv(s) && t in s.callers && (InFlight(s.callers[t].pc) || s.callers[t].pc.Register?)
    ensures SnapInv(StepCaller(s, t, ok, generated))
  {
    hide Inv, SnapInv, StepRegister, StepWait, StepRead, StepLeave;
    hide StepJoin, StepAccept, StepSubscribe, StepAwaitSnap, StepLeaveSnap;
    var c := s.callers[t];
    match c.pc
    case Register =>
      if MakesCall(c.op) {
        assert IdsUsed(s) by {
          IdsAreUsed(s);
        }
        RegisterWaits(s, t, generated);
      }
    case Sending => GotoWaits(s, t, if ok then Waiting else Leaving(Failed(SendFailed)));
    case Waiting => WaitingWaits(s, t, ok);
    case Received =>
      if c.call in s.gate.calls {
        ReadingWaits(s, t);
      }
    case Leaving(_) =>
      if MakesCall(c.op) {
        LeavingWaits(s, t);
      }
  }

  lemma CallerWaits(s: State, t: Tid, ok: bool, generated: ClientOrderId)
    requires Inv(s) && SnapInv(s) && t in s.callers
    ensures SnapInv(StepCaller(s, t, ok, generated))
  {
    hide Inv, SnapInv;
    var c := s.callers[t];
    match c.pc
    case CheckCache => GotoWaits(s, t, if c.user in s.gate.users then Search else Accept);
    case Accept => QuietWait(s, StepAccept(s, t), [Accepted(c.user)]);
    case Recheck => GotoWaits(s, t, if c.user in s.gate.users then Search else Join);
    case Join => JoinKeepsWaits(s, t);
    case Subscribing => SubscribeWaits(s, t, ok);
    case AwaitSnap => AwaitWaits(s, t, ok);
    case LeavingSnap(_) => LeaveWaits(s, t);
    case Search => GotoWaits(s, t, AfterSearch(s, c));
    case SearchPending => GotoWaits(s, t, AfterSearchPending(s, c));
    case Done(_) =>
    case _ => RequestWaits(s, t, ok, generated);
  }

  lemma ReceiveWaits(s: State, p: Payload)
    requires SnapInv(s)
    ensures SnapInv(StepReceive(s, p))
  {
    hide SnapInv;
    var s' := StepReceive(s, p);
    QuietWait(s, s', s'.log[|s.log|..]);
  }

  lemma FinishWaits(s: State)
    requires Inv(s) && SnapInv(s)
    ensures SnapInv(StepFinish(s))
  {
    hide Inv, SnapInv;
    match s.input
    case Idle =>
    case Releasing(_, _) => ReleaseWaits(s);
    case Replying(user, r, at) => QuietWait(s, StepFinish(s), [Replied(user, r, at)]);
  }

  lemma StepWaits(s: State, e: Event)
    requires Inv(s) && SnapInv(s)
    ensures SnapInv(Step(s, e))
  {
    hide Inv, SnapInv;
    match e
    case Invoke(t, user, op) =>
      if t !in s.callers {
        QuietWait(s, StepInvoke(s, t, user, op), []);
      }
    case Advance(t, ok, generated) =>
      if t in s.callers {
        CallerWaits(s, t, ok, generated);
      }
    case Receive(p) => ReceiveWaits(s, p);
    case Finish => FinishWaits(s);
    case Unsubscribe(user) => QuietWait(s, StepUnsubscribe(s, user), [Dropped(user)]);
  }
}
