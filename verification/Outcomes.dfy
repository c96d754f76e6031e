/**
  What callers return: a reading of the history between registering the call and reading it.
 */
module Outcomes {
  import opened CacheRuns
  import opened History
  import opened Identifiers
  import opened Orders
  import opened Protocol
  import opened Registration
  import opened Windows

  /** The caller has read a completed call: it is about to return the answer, or has. */
  predicate HasAnswer(pc: Pc) {
    (pc.Leaving? || pc.Done?) && pc.outcome.Answered?
  }

  /** What happened from registering the call to reading it. */
  function AnswerWindow(s: State, c: Caller): seq<Entry>
    requires c.since <= c.readAt <= |s.log|
  {
    s.log[c.since..c.readAt]
  }

  ghost predicate ResultOk(s: State, t: Tid)
    requires t in s.callers
  {
    var c := s.callers[t];
    HasAnswer(c.pc) ==>
      && MakesCall(c.op) && c.since <= c.readAt <= |s.log|
      && c.pc.outcome.reply == LastReply(TicketOf(c), AnswerWindow(s, c))
      && c.pc.outcome.error == LastError(TicketOf(c), AnswerWindow(s, c))
      && c.pc.outcome.trades == TradeLog(TicketOf(c), AnswerWindow(s, c))
      && Woken(TicketOf(c), AnswerWindow(s, c))
  }

  ghost predicate ResultsOk(s: State) {
    forall t | t in s.callers :: ResultOk(s, t)
  }

  lemma SliceStays(log: seq<Entry>, log': seq<Entry>, from: nat, to: nat)
    requires from <= to <= |log| <= |log'| && log'[..|log|] == log
    ensures log'[from..to] == log[from..to]
  {
    assert forall i | from <= i < to :: log'[i] == log'[..|log|][i];
  }

  lemma ResultStays(s: State, s': State, t: Tid)
    requires t in s.callers && t in s'.callers && s'.callers[t] == s.callers[t]
    requires |s.log| <= |s'.log| && s'.log[..|s.log|] == s.log
    requires ResultOk(s, t)
    ensures ResultOk(s', t)
  {
    hide LastReply, LastError, TradeLog, Woken;
    var c := s.callers[t];
    if HasAnswer(c.pc) {
      SliceStays(s.log, s'.log, c.since, c.readAt);
    }
  }

  lemma ReadResult(s: State, t: Tid)
    requires t in s.callers && CallOk(s, t) && s.callers[t].pc.Received?
    ensures ResultOk(StepRead(s, t), t)
  {
    var c := s.callers[t];
    assert s.log[c.since..|s.log|] == s.log[c.since..];
  }

  lemma LeaveResult(s: State, t: Tid)
    requires t in s.callers && s.callers[t].pc.Leaving? && MakesCall(s.callers[t].op) && ResultOk(s, t)
    ensures ResultOk(StepLeave(s, t), t)
  {
  }

  lemma NoAnswer(s: State, t: Tid, ok: bool, generated: ClientOrderId)
    requires t in s.callers && !s.callers[t].pc.Received? && !s.callers[t].pc.Leaving? && !s.callers[t].pc.Done?
    ensures !HasAnswer(StepCaller(s, t, ok, generated).callers[t].pc)
  {
    hide StepRegister, AfterSearch, AfterSearchPending;
    match s.callers[t].pc
    case Accept =>
    case Join =>
    case Subscribing =>
    case AwaitSnap =>
    case LeavingSnap(_) =>
    case Waiting =>
    case _ =>
  }

  lemma CallerResult(s: State, t: Tid, ok: bool, generated: ClientOrderId)
    requires t in s.callers && CallOk(s, t) && ResultOk(s, t)
    ensures ResultOk(StepCaller(s, t, ok, generated), t)
  {
    var c := s.callers[t];
    if c.pc.Received? {
      ReadResult(s, t);
    } else if c.pc.Leaving? {
      if MakesCall(c.op) {
        LeaveResult(s, t);
      }
    } else if !c.pc.Done? {
      NoAnswer(s, t, ok, generated);
    }
  }

  lemma StepResults(s: State, e: Event)
    requires Inv(s) && ResultsOk(s)
    ensures ResultsOk(Step(s, e))
  {
    hide StepCaller, StepReceive, StepFinish, ResultOk;
    var s' := Step(s, e);
    StepLogs(s, e);
    forall t | t in s'.callers
      ensures ResultOk(s', t)
    {
      if t in s.callers {
        assert ResultOk(s, t) && CallOk(s, t);
      }
      match e
      case Invoke(t', user, op) =>
        if t !in s.callers {
          NewResult(s, t', user, op);
        } else {
          ResultStays(s, s', t);
        }
      case Advance(t', ok, generated) =>
        if t' == t {
          CallerResult(s, t, ok, generated);
        } else {
          ResultStays(s, s', t);
        }
      case Receive(p) =>
        ReceiveKeepsCallers(s, p);
        ResultStays(s, s', t);
      case Finish =>
        FinishKeepsCallers(s);
        ResultStays(s, s', t);
      case Unsubscribe(_) => ResultStays(s, s', t);
    }
  }

  lemma NewResult(s: State, t: Tid, user: UserId, op: Op)
    ensures ResultOk(StepInvoke(s, t, user, op), t)
  {
  }

  lemma ReceiveKeepsCallers(s: State, p: Payload)
    ensures StepReceive(s, p).callers == s.callers
  {
  }

  lemma FinishKeepsCallers(s: State)
    ensures StepFinish(s).callers == s.callers
  {
  }
}
