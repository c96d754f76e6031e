/**
  The cache, the accepted users and the input goroutine over a run: each is a reading of the history.
 */
module CacheRuns {
  import opened Gates
  import opened History
  import opened Identifiers
  import opened Orders
  import opened OrdersContainers
  import opened Protocol

  function AcceptedAfter(accepted: set<UserId>, e: Entry): set<UserId> {
    match e
    case Accepted(user) => accepted + {user}
    case Dropped(user) => accepted - {user}
    case _ => accepted
  }

  /** A step adds at most one entry, and the cache and the accepted users change as that entry says. */
  predicate Logs(s: State, s': State) {
    && |s.log| <= |s'.log| <= |s.log| + 1 && s'.log[..|s.log|] == s.log
    && (|s'.log| == |s.log| ==> s'.gate.users == s.gate.users && s'.gate.accepted == s.gate.accepted)
    && (|s'.log| > |s.log| ==>
          s'.gate.users == Apply(s.gate.users, s'.log[|s.log|])
          && s'.gate.accepted == AcceptedAfter(s.gate.accepted, s'.log[|s.log|]))
  }

  /** What a caller's own step logs is passive, and the input goroutine takes no part. */
  predicate LogsPassively(s: State, s': State) {
    Logs(s, s') && s'.input == s.input && forall i | |s.log| <= i < |s'.log| :: Passive(s'.log[i])
  }

  lemma CallerLogs(s: State, t: Tid, ok: bool, generated: ClientOrderId)
    requires t in s.callers
    ensures LogsPassively(s, StepCaller(s, t, ok, generated))
  {
    hide StepRegister, AfterSearch, AfterSearchPending;
    var c := s.callers[t];
    match c.pc
    case Accept =>
    case Join =>
    case Subscribing =>
    case _ => CallerIsSilent(s, t, ok, generated);
  }

  lemma CallerIsSilent(s: State, t: Tid, ok: bool, generated: ClientOrderId)
    requires t in s.callers && !s.callers[t].pc.Accept? && !s.callers[t].pc.Join? && !s.callers[t].pc.Subscribing?
    ensures Silent(s, StepCaller(s, t, ok, generated))
  {
    hide StepRegister, StepAwaitSnap, StepLeaveSnap, StepWait, StepRead, StepLeave, AfterSearch, AfterSearchPending;
  }

  lemma ReceiveIsLogged(s: State, p: Payload)
    ensures Logs(s, StepReceive(s, p))
  {
    hide HandleReject;
    match p
    case SnapshotPayload(_, _) =>
    case ReportPayload(_, _) =>
    case RejectPayload(_, _) =>
  }

  lemma FinishIsLogged(s: State)
    ensures Logs(s, StepFinish(s))
  {
    hide HandleReply;
    match s.input
    case Idle =>
    case Releasing(_, _) =>
    case Replying(_, _, _) =>
  }

  lemma StepLogs(s: State, e: Event)
    ensures Logs(s, Step(s, e))
  {
    hide StepCaller, StepReceive, StepFinish;
    match e
    case Advance(t, ok, generated) =>
      if t in s.callers {
        CallerLogs(s, t, ok, generated);
      }
    case Receive(p) => ReceiveIsLogged(s, p);
    case Finish => FinishIsLogged(s);
    case _ =>
  }

  // The cache and the accepted users.

  ghost predicate AcceptedSince(log: seq<Entry>, user: UserId) {
    exists i | 0 <= i < |log| :: log[i] == Accepted(user) && NotDropped(log, user, i + 1)
  }

  ghost predicate CacheInv(s: State) {
    && s.gate.users == Replay(s.log)
    && (forall user :: user in s.gate.accepted <==> AcceptedSince(s.log, user))
    && s.gate.users.Keys <= s.gate.accepted
  }

  lemma AcceptedAppend(log: seq<Entry>, e: Entry, user: UserId)
    ensures AcceptedSince(log + [e], user) <==> e == Accepted(user) || (AcceptedSince(log, user) && e != Dropped(user))
  {
    var log' := log + [e];
    assert log'[|log|] == e;
    assert forall i | 0 <= i < |log| :: log'[i] == log[i];
    if AcceptedSince(log, user) && e != Dropped(user) {
      var i :| 0 <= i < |log| && log[i] == Accepted(user) && NotDropped(log, user, i + 1);
      assert log'[i] == Accepted(user) && NotDropped(log', user, i + 1);
    }
    if AcceptedSince(log', user) && e != Accepted(user) {
      var i :| 0 <= i < |log'| && log'[i] == Accepted(user) && NotDropped(log', user, i + 1);
      assert log[i] == Accepted(user) && NotDropped(log, user, i + 1);
    }
    if e == Accepted(user) {
      assert NotDropped(log', user, |log| + 1);
    }
  }

  /** A snapshot or report enters the cache only for an accepted user. */
  predicate GuardedEntry(accepted: set<UserId>, e: Entry) {
    e.Stored? || e.Cached? ==> e.user in accepted
  }

  lemma StepIsGuarded(s: State, e: Event)
    ensures var s' := Step(s, e); |s'.log| > |s.log| ==> GuardedEntry(s.gate.accepted, s'.log[|s.log|])
  {
    hide StepCaller;
    match e
    case Advance(t, ok, generated) =>
      if t in s.callers {
        CallerLogs(s, t, ok, generated);
      }
    case _ =>
  }

  lemma StepCache(s: State, e: Event)
    requires CacheInv(s)
    ensures CacheInv(Step(s, e))
  {
    hide Step, Replay, BookOf, ReportedBook;
    var s' := Step(s, e);
    StepLogs(s, e);
    StepIsGuarded(s, e);
    if |s'.log| == |s.log| {
      assert s'.log == s.log;
    } else {
      var x := s'.log[|s.log|];
      assert s'.log == s.log + [x];
      ReplayAppend(s.log, x);
      forall user
        ensures user in s'.gate.accepted <==> AcceptedSince(s'.log, user)
      {
        AcceptedAppend(s.log, x, user);
      }
    }
  }

  // What the input goroutine handled, and when it was cached.

  predicate AllPassive(log: seq<Entry>, from: nat, to: nat) {
    to <= |log| && forall i | from <= i < to :: Passive(log[i])
  }

  /** At position `p`, only passive entries ago: the report was cached, or its user was not accepted. */
  ghost predicate PreparedBy(log: seq<Entry>, p: nat, user: UserId, r: OrderReport, at: Prepared) {
    match at
    case CachedAt(q) => q < p <= |log| && log[q] == Cached(user, r) && AcceptedSince(log[..q], user) && AllPassive(log, q + 1, p)
    case IgnoredAt(q) => q <= p <= |log| && !AcceptedSince(log[..q], user) && AllPassive(log, q, p)
  }

  predicate StoredBy(log: seq<Entry>, p: nat, user: UserId, at: nat) {
    at < p <= |log| && log[at].Stored? && log[at].user == user && AllPassive(log, at + 1, p)
  }

  ghost predicate EntryOk(log: seq<Entry>, p: nat)
    requires p < |log|
  {
    match log[p]
    case Replied(user, r, at) => PreparedBy(log, p, user, r, at)
    case Released(user, at) => StoredBy(log, p, user, at)
    case _ => true
  }

  ghost predicate LogInv(s: State) {
    && (forall p | 0 <= p < |s.log| :: EntryOk(s.log, p))
    && match s.input
       case Idle => true
       case Releasing(user, at) => StoredBy(s.log, |s.log|, user, at)
       case Replying(user, r, at) => PreparedBy(s.log, |s.log|, user, r, at)
  }

  lemma EntriesStay(log: seq<Entry>, e: Entry)
    requires forall p | 0 <= p < |log| :: EntryOk(log, p)
    requires EntryOk(log + [e], |log|)
    ensures forall p | 0 <= p < |log + [e]| :: EntryOk(log + [e], p)
  {
    var log' := log + [e];
    assert forall i | 0 <= i < |log| :: log'[i] == log[i];
    forall p | 0 <= p < |log|
      ensures EntryOk(log', p)
    {
      assert EntryOk(log, p);
      assert forall q | 0 <= q <= |log| :: log'[..q] == log[..q];
    }
  }

  /** A passive entry, or none, leaves what the input goroutine prepared in place. */
  lemma PassiveKeepsInput(s: State, s': State)
    requires LogInv(s) && Logs(s, s') && s'.input == s.input
    requires forall i | |s.log| <= i < |s'.log| :: Passive(s'.log[i])
    ensures LogInv(s')
  {
    assert forall i | 0 <= i < |s.log| :: s'.log[i] == s.log[i];
    if |s'.log| == |s.log| {
      assert s'.log == s.log;
    } else {
      var x := s'.log[|s.log|];
      assert s'.log == s.log + [x];
      assert forall q | 0 <= q <= |s.log| :: s'.log[..q] == s.log[..q];
      EntriesStay(s.log, x);
    }
  }

  lemma ReceiveLogs(s: State, p: Payload)
    requires LogInv(s) && CacheInv(s) && s.input.Idle?
    ensures LogInv(StepReceive(s, p))
  {
    assert s.log[..|s.log|] == s.log;
    var s' := StepReceive(s, p);
    if s'.log != s.log {
      assert s'.log[..|s.log|] == s.log;
      EntriesStay(s.log, s'.log[|s.log|]);
    }
  }

  lemma FinishLogs(s: State)
    requires LogInv(s)
    ensures LogInv(StepFinish(s))
  {
    var s' := StepFinish(s);
    if s.input.Idle? {
    } else {
      var x := s'.log[|s.log|];
      assert forall i | 0 <= i < |s.log| :: s'.log[i] == s.log[i];
      assert forall q | 0 <= q <= |s.log| :: s'.log[..q] == s.log[..q];
      EntriesStay(s.log, x);
    }
  }

  lemma StepLog(s: State, e: Event)
    requires LogInv(s) && CacheInv(s)
    ensures LogInv(Step(s, e))
  {
    hide StepCaller;
    StepLogs(s, e);
    match e
    case Invoke(_, _, _) => PassiveKeepsInput(s, Step(s, e));
    case Advance(t, ok, generated) =>
      if t in s.callers {
        CallerLogs(s, t, ok, generated);
        PassiveKeepsInput(s, StepCaller(s, t, ok, generated));
      }
    case Receive(p) =>
      if s.input.Idle? {
        ReceiveLogs(s, p);
      }
    case Finish => FinishLogs(s);
    case Unsubscribe(_) => PassiveKeepsInput(s, Step(s, e));
  }
}
