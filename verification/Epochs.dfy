/**
  How often a user is subscribed to: once each time that somebody starts to wait while nobody else does.
 */
module Epochs {
  import opened CacheRuns
  import opened Gates
  import opened History
  import opened Identifiers
  import opened Orders
  import opened Protocol
  import opened Registration
  import opened Snapshots

  /** How many times the set of those who wait for the user went from empty to non-empty. */
  function Opens(log: seq<Entry>, user: UserId): nat {
    if log == [] then 0
    else Opens(log[..|log| - 1], user) + if log[|log| - 1] == Joined(user, true) then 1 else 0
  }

  /** How many times a subscription for the user was sent, or failed to be sent. */
  function Tries(log: seq<Entry>, user: UserId): nat {
    if log == [] then 0
    else Tries(log[..|log| - 1], user) + if log[|log| - 1] == SubscribeTried(user) then 1 else 0
  }

  predicate Subscribes(s: State, t: Tid, user: UserId) {
    t in s.callers && s.callers[t].pc.Subscribing? && s.callers[t].user == user
  }

  ghost predicate SomeoneSubscribes(s: State, user: UserId) {
    exists t :: Subscribes(s, t, user)
  }

  ghost predicate EpochInv(s: State) {
    forall user :: Opens(s.log, user) == Tries(s.log, user) + if SomeoneSubscribes(s, user) then 1 else 0
  }

  lemma CountAppend(log: seq<Entry>, e: Entry, user: UserId)
    ensures Opens(log + [e], user) == Opens(log, user) + if e == Joined(user, true) then 1 else 0
    ensures Tries(log + [e], user) == Tries(log, user) + if e == SubscribeTried(user) then 1 else 0
  {
    assert (log + [e])[..|log|] == log;
  }

  /** A step that neither opens nor subscribes. */
  lemma QuietEpoch(s: State, s': State)
    requires EpochInv(s) && Logs(s, s')
    requires forall t, user :: Subscribes(s', t, user) <==> Subscribes(s, t, user)
    requires |s'.log| > |s.log| ==> !s'.log[|s.log|].Joined? && !s'.log[|s.log|].SubscribeTried?
    ensures EpochInv(s')
  {
    forall user
      ensures Opens(s'.log, user) == Tries(s'.log, user) + if SomeoneSubscribes(s', user) then 1 else 0
    {
      assert SomeoneSubscribes(s', user) <==> SomeoneSubscribes(s, user);
      if |s'.log| > |s.log| {
        assert s'.log == s.log + [s'.log[|s.log|]];
        CountAppend(s.log, s'.log[|s.log|], user);
      } else {
        assert s'.log == s.log;
      }
    }
  }

  lemma JoinEpoch(s: State, t: Tid)
    requires Inv(s) && SnapInv(s) && EpochInv(s) && t in s.callers && s.callers[t].pc.Join?
    ensures EpochInv(StepJoin(s, t))
  {
    var s', own := StepJoin(s, t), s.callers[t].user;
    var opens := own !in s.gate.pendingSnap;
    assert forall t', user | t' != t :: Subscribes(s', t', user) <==> Subscribes(s, t', user);
    if opens {
      forall t'
        ensures !Subscribes(s, t', own)
      {
        assert t' in s.callers ==> SnapOk(s, t');
      }
      assert Subscribes(s', t, own);
    }
    forall user
      ensures Opens(s'.log, user) == Tries(s'.log, user) + if SomeoneSubscribes(s', user) then 1 else 0
    {
      CountAppend(s.log, Joined(own, opens), user);
      SameSubscribers(s, s', t, user);
    }
  }

  lemma SameSubscribers(s: State, s': State, t: Tid, user: UserId)
    requires forall t' | t' != t :: Subscribes(s', t', user) <==> Subscribes(s, t', user)
    requires !Subscribes(s, t, user)
    ensures SomeoneSubscribes(s', user) <==> SomeoneSubscribes(s, user) || Subscribes(s', t, user)
  {
    if t' :| Subscribes(s, t', user) {
      assert Subscribes(s', t', user);
    }
    if t' :| Subscribes(s', t', user) && t' != t {
      assert Subscribes(s, t', user);
    }
  }

  lemma SubscribeEpoch(s: State, t: Tid, ok: bool)
    requires Inv(s) && SnapInv(s) && EpochInv(s) && t in s.callers && s.callers[t].pc.Subscribing?
    ensures EpochInv(StepSubscribe(s, t, ok))
  {
    var s', own := StepSubscribe(s, t, ok), s.callers[t].user;
    assert Subscribes(s, t, own);
    assert forall t', user | t' != t :: Subscribes(s', t', user) <==> Subscribes(s, t', user);
    forall t' | Subscribes(s', t', own)
      ensures false
    {
      assert SnapOk(s, t) && SnapOk(s, t');
      assert Opener(s, t, own) && Opener(s, t', own);
    }
    forall user
      ensures Opens(s'.log, user) == Tries(s'.log, user) + if SomeoneSubscribes(s', user) then 1 else 0
    {
      CountAppend(s.log, SubscribeTried(own), user);
      if user != own {
        SameSubscribers(s, s', t, user);
      }
    }
  }

  lemma OnlyJoinSubscribes(s: State, t: Tid, ok: bool, generated: ClientOrderId)
    requires t in s.callers && !s.callers[t].pc.Join? && !s.callers[t].pc.Subscribing?
    ensures !StepCaller(s, t, ok, generated).callers[t].pc.Subscribing?
  {
    hide StepRegister, AfterSearch, AfterSearchPending;
    match s.callers[t].pc
    case Accept =>
    case AwaitSnap =>
    case LeavingSnap(_) =>
    case Waiting =>
    case Received =>
    case Leaving(_) =>
    case _ =>
  }

  lemma OtherEpoch(s: State, t: Tid, ok: bool, generated: ClientOrderId)
    requires t in s.callers && !s.callers[t].pc.Join? && !s.callers[t].pc.Subscribing?
    ensures var s' := StepCaller(s, t, ok, generated);
      |s'.log| > |s.log| ==> !s'.log[|s.log|].Joined? && !s'.log[|s.log|].SubscribeTried?
  {
    if !s.callers[t].pc.Accept? {
      hide StepCaller;
      CallerIsSilent(s, t, ok, generated);
    }
  }

  lemma OtherCallerEpoch(s: State, t: Tid, ok: bool, generated: ClientOrderId)
    requires EpochInv(s) && t in s.callers && !s.callers[t].pc.Join? && !s.callers[t].pc.Subscribing?
    ensures EpochInv(StepCaller(s, t, ok, generated))
  {
    hide StepCaller, EpochInv;
    CallerLogs(s, t, ok, generated);
    OnlyJoinSubscribes(s, t, ok, generated);
    OtherEpoch(s, t, ok, generated);
    QuietEpoch(s, StepCaller(s, t, ok, generated));
  }

  lemma CallerEpoch(s: State, t: Tid, ok: bool, generated: ClientOrderId)
    requires Inv(s) && SnapInv(s) && EpochInv(s) && t in s.callers
    ensures EpochInv(StepCaller(s, t, ok, generated))
  {
    hide Inv, SnapInv;
    var c := s.callers[t];
    if c.pc.Join? {
      JoinEpoch(s, t);
    } else if c.pc.Subscribing? {
      SubscribeEpoch(s, t, ok);
    } else {
      OtherCallerEpoch(s, t, ok, generated);
    }
  }

  lemma ReceiveEpoch(s: State, p: Payload)
    requires EpochInv(s)
    ensures EpochInv(StepReceive(s, p))
  {
    hide EpochInv;
    ReceiveIsLogged(s, p);
    QuietEpoch(s, StepReceive(s, p));
  }

  lemma FinishEpoch(s: State)
    requires EpochInv(s)
    ensures EpochInv(StepFinish(s))
  {
    hide EpochInv;
    FinishIsLogged(s);
    QuietEpoch(s, StepFinish(s));
  }

  lemma StepEpoch(s: State, e: Event)
    requires Inv(s) && SnapInv(s) && EpochInv(s)
    ensures EpochInv(Step(s, e))
  {
    hide Inv, SnapInv, EpochInv, StepCaller, StepReceive, StepFinish;
    match e
    case Invoke(t, user, op) =>
      if t !in s.callers {
        QuietEpoch(s, StepInvoke(s, t, user, op));
      }
    case Advance(t, ok, generated) =>
      if t in s.callers {
        CallerEpoch(s, t, ok, generated);
      }
    case Receive(p) => ReceiveEpoch(s, p);
    case Finish => FinishEpoch(s);
    case Unsubscribe(user) => QuietEpoch(s, StepUnsubscribe(s, user));
  }

  // The same counts, read off the run instead of the history.

  /** The step makes the set of those who wait for the user non-empty. */
  predicate OpensNow(s: State, e: Event, user: UserId) {
    user !in s.gate.pendingSnap && user in Step(s, e).gate.pendingSnap
  }

  /** The step is that of a caller who sends a subscription for the user. */
  predicate TriesNow(s: State, e: Event, user: UserId) {
    e.Advance? && Subscribes(s, e.t, user)
  }

  function Openings(events: seq<Event>, user: UserId): nat {
    if events == [] then 0
    else
      var before := events[..|events| - 1];
      Openings(before, user) + if OpensNow(Run(before), events[|events| - 1], user) then 1 else 0
  }

  function Attempts(events: seq<Event>, user: UserId): nat {
    if events == [] then 0
    else
      var before := events[..|events| - 1];
      Attempts(before, user) + if TriesNow(Run(before), events[|events| - 1], user) then 1 else 0
  }

  /** The step logs what it does to those who wait. */
  ghost predicate LogsWaits(s: State, s': State, tries: bool, user: UserId) {
    && Logs(s, s')
    && ((user !in s.gate.pendingSnap && user in s'.gate.pendingSnap) <==>
          |s'.log| > |s.log| && s'.log[|s.log|] == Joined(user, true))
    && (tries <==> |s'.log| > |s.log| && s'.log[|s.log|] == SubscribeTried(user))
  }

  lemma OthersSpareWaiters(s: State, t: Tid, ok: bool, generated: ClientOrderId)
    requires t in s.callers && !s.callers[t].pc.Join? && !s.callers[t].pc.LeavingSnap?
    ensures StepCaller(s, t, ok, generated).gate.pendingSnap == s.gate.pendingSnap
  {
    hide StepRegister, StepLeaveSnap, StepJoin, AfterSearch, AfterSearchPending;
    match s.callers[t].pc
    case Accept =>
    case Subscribing =>
    case AwaitSnap =>
    case Waiting =>
    case Received =>
    case Leaving(_) =>
    case _ =>
  }

  lemma CallerLogsWaits(s: State, t: Tid, ok: bool, generated: ClientOrderId, user: UserId)
    requires t in s.callers
    ensures LogsWaits(s, StepCaller(s, t, ok, generated), Subscribes(s, t, user), user)
  {
    CallerLogs(s, t, ok, generated);
    if s.callers[t].pc.Join? {
    } else if s.callers[t].pc.LeavingSnap? {
    } else {
      hide StepCaller;
      OthersSpareWaiters(s, t, ok, generated);
      if s.callers[t].pc.Subscribing? {
        SubscribeIsLogged(s, t, ok, generated);
      } else {
        OtherEpoch(s, t, ok, generated);
      }
    }
  }

  lemma SubscribeIsLogged(s: State, t: Tid, ok: bool, generated: ClientOrderId)
    requires t in s.callers && s.callers[t].pc.Subscribing?
    ensures StepCaller(s, t, ok, generated).log == s.log + [SubscribeTried(s.callers[t].user)]
  {
  }

  /** A step that logs nothing about waiting and leaves those who wait alone. */
  lemma QuietLogsWaits(s: State, s': State, user: UserId)
    requires Logs(s, s') && s'.gate.pendingSnap == s.gate.pendingSnap
    requires |s'.log| > |s.log| ==> !s'.log[|s.log|].Joined? && !s'.log[|s.log|].SubscribeTried?
    ensures LogsWaits(s, s', false, user)
  {
  }

  lemma ReceiveLogsWaits(s: State, p: Payload, user: UserId)
    ensures LogsWaits(s, StepReceive(s, p), false, user)
  {
    hide LogsWaits, HandleReject;
    ReceiveIsLogged(s, p);
    QuietLogsWaits(s, StepReceive(s, p), user);
  }

  lemma FinishLogsWaits(s: State, user: UserId)
    ensures LogsWaits(s, StepFinish(s), false, user)
  {
    hide LogsWaits, HandleReply;
    FinishIsLogged(s);
    match s.input
    case Idle => QuietLogsWaits(s, s, user);
    case Releasing(_, _) => QuietLogsWaits(s, StepFinish(s), user);
    case Replying(_, _, _) => QuietLogsWaits(s, StepFinish(s), user);
  }

  lemma StepLogsWaits(s: State, e: Event, user: UserId)
    ensures LogsWaits(s, Step(s, e), TriesNow(s, e, user), user)
  {
    hide StepCaller, StepReceive, StepFinish, LogsWaits;
    StepLogs(s, e);
    match e
    case Advance(t, ok, generated) =>
      if t in s.callers {
        CallerLogsWaits(s, t, ok, generated, user);
      } else {
        QuietLogsWaits(s, s, user);
      }
    case Receive(p) =>
      if s.input.Idle? {
        ReceiveLogsWaits(s, p, user);
      } else {
        QuietLogsWaits(s, s, user);
      }
    case Finish => FinishLogsWaits(s, user);
    case _ => QuietLogsWaits(s, Step(s, e), user);
  }

  lemma NothingCounted(user: UserId)
    ensures Opens(Run([]).log, user) == 0 && Tries(Run([]).log, user) == 0
  {
  }

  /** The counts of the history go up exactly when something is logged that they count. */
  lemma CountsGrow(s: State, s': State, user: UserId)
    requires Logs(s, s')
    ensures Opens(s'.log, user) == Opens(s.log, user)
      + if |s'.log| > |s.log| && s'.log[|s.log|] == Joined(user, true) then 1 else 0
    ensures Tries(s'.log, user) == Tries(s.log, user)
      + if |s'.log| > |s.log| && s'.log[|s.log|] == SubscribeTried(user) then 1 else 0
  {
    if |s'.log| > |s.log| {
      assert s'.log == s.log + [s'.log[|s.log|]];
      CountAppend(s.log, s'.log[|s.log|], user);
    } else {
      assert s'.log == s.log;
    }
  }

  lemma {:induction false} CountsAgree(events: seq<Event>, user: UserId)
    ensures Opens(Run(events).log, user) == Openings(events, user)
    ensures Tries(Run(events).log, user) == Attempts(events, user)
  {
    hide Step, Opens, Tries, Logs, TriesNow;
    if events == [] {
      NothingCounted(user);
    } else {
      var before, e := events[..|events| - 1], events[|events| - 1];
      CountsAgree(before, user);
      StepLogsWaits(Run(before), e, user);
      CountsGrow(Run(before), Run(events), user);
    }
  }
}
