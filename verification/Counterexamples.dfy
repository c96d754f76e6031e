/**
  What callers must not rely on, with runs that show it: that the report they get is the first that answered them,
  that it is in the cache, and that the reject of a cancel leaves a pending new order alone.
 */
module Counterexamples {
  import opened CacheRuns
  import opened Epochs
  import opened Gates
  import opened History
  import opened Identifiers
  import opened Orders
  import opened OrdersContainers
  import opened Outcomes
  import opened Protocol
  import opened Registration
  import opened SnapshotReads
  import opened Snapshots
  import opened Theorems
  import opened Windows
  import opened Wrappers

  function FirstReply(tk: Ticket, w: seq<Entry>): Option<OrderReport> {
    if w == [] then None
    else if Answers(tk, w[0]) then Some(w[0].report)
    else FirstReply(tk, w[1..])
  }

  lemma {:induction false} FirstReplyAt(tk: Ticket, w: seq<Entry>, k: nat) returns (i: nat)
    requires k < |w| && Answers(tk, w[k])
    ensures i <= k && Answers(tk, w[i]) && FirstReply(tk, w) == Some(w[i].report)
    ensures forall j | 0 <= j < i :: !Answers(tk, w[j])
  {
    if Answers(tk, w[0]) {
      i := 0;
    } else {
      var rest := w[1..];
      i := FirstReplyAt(tk, rest, k - 1);
      assert forall j | 0 < j < |w| :: w[j] == rest[j - 1];
      i := i + 1;
    }
  }

  /**
    A caller that waited from entry `since` on and read before entry `readAt` was first answered at `first` and
    last at `last`. It returned the first report if and only if the last one is the same report.
   */
  lemma FirstReportIsReturned(events: seq<Event>, t: Tid) returns (first: nat, last: nat)
    requires t in Run(events).callers && HasAnswer(Run(events).callers[t].pc)
    requires Run(events).callers[t].pc.outcome.reply.Some?
    ensures var s := Run(events); var c := s.callers[t];
      && MakesCall(c.op) && c.since <= first <= last < c.readAt <= |s.log|
      && Answers(TicketOf(c), s.log[first]) && Answers(TicketOf(c), s.log[last])
      && (forall i | c.since <= i < c.readAt && Answers(TicketOf(c), s.log[i]) :: first <= i <= last)
      && FirstReply(TicketOf(c), AnswerWindow(s, c)) == Some(s.log[first].report)
      && (c.pc.outcome.reply == FirstReply(TicketOf(c), AnswerWindow(s, c)) <==> s.log[last].report == s.log[first].report)
  {
    hide Run, Inv, SnapInv, EpochInv, CacheInv, LogInv, ReadsOk, Answers, LastReply, LastError, TradeLog, Woken, FirstReply;
    Reachable(events);
    var s := Run(events);
    assert ResultOk(s, t);
    first, last := FirstAndLast(s, s.callers[t]);
  }

  lemma FirstAndLast(s: State, c: Caller) returns (first: nat, last: nat)
    requires MakesCall(c.op) && c.since <= c.readAt <= |s.log| && LastReply(TicketOf(c), AnswerWindow(s, c)).Some?
    ensures c.since <= first <= last < c.readAt
    ensures Answers(TicketOf(c), s.log[first]) && Answers(TicketOf(c), s.log[last])
    ensures forall i | c.since <= i < c.readAt && Answers(TicketOf(c), s.log[i]) :: first <= i <= last
    ensures FirstReply(TicketOf(c), AnswerWindow(s, c)) == Some(s.log[first].report)
    ensures LastReply(TicketOf(c), AnswerWindow(s, c)) == Some(s.log[last].report)
  {
    hide Answers, LastReply, FirstReply, TicketOf;
    var w := AnswerWindow(s, c);
    assert forall j | c.since <= j < c.readAt :: s.log[j] == w[j - c.since];
    var l := LastReplyAt(TicketOf(c), w);
    var f := FirstReplyAt(TicketOf(c), w, l);
    first, last := c.since + f, c.since + l;
  }

  // Runs of one caller.

  lemma Next(events: seq<Event>, e: Event) returns (more: seq<Event>)
    ensures more == events + [e] && Run(more) == Step(Run(events), e)
  {
    RunMore(events, e);
    more := events + [e];
  }

  lemma NoEvents()
    ensures Run([]) == INITIAL
  {
  }

  const GO := Advance(0, true, NO_ID)

  /** The caller is here, and the input goroutine has nothing to do. */
  predicate Here(s: State, user: UserId, order: ClientOrderId, pc: Pc) {
    && 0 in s.callers && s.callers[0].user == user && s.callers[0].op == NewOrder(order, false) && s.callers[0].pc == pc
    && s.input.Idle?
  }

  lemma Subscribed(user: UserId, order: ClientOrderId) returns (events: seq<Event>)
    ensures var s := Run(events); Here(s, user, order, AwaitSnap) && user in s.gate.accepted && s.gate.pendingFilled == map[]
  {
    hide Run, GetIdentifier;
    NoEvents();
    events := Next([], Invoke(0, user, NewOrder(order, false)));
    events := Next(events, GO);
    events := Next(events, GO);
    events := Next(events, GO);
    events := Next(events, GO);
    events := Next(events, GO);
  }

  lemma SnapshotArrives(before: seq<Event>, user: UserId, order: ClientOrderId) returns (events: seq<Event>)
    requires var s := Run(before); Here(s, user, order, AwaitSnap) && user in s.gate.accepted && s.gate.pendingFilled == map[]
    ensures var s := Run(events);
      Here(s, user, order, Search) && Lookup(s.gate.users, user, order) == None && s.gate.pendingFilled == map[]
  {
    hide Run, GetIdentifier;
    OneSnapshotWakesAll(before, 0);
    events := Next(before, Receive(SnapshotPayload(user, [])));
    events := Next(events, Finish);
    assert Run(events).log[|Run(before).log| + 1].Released?;
    OneSnapshotWakesAll(events, 0);
    events := Next(events, GO);
    events := Next(events, GO);
  }

  lemma Requested(before: seq<Event>, user: UserId, order: ClientOrderId) returns (events: seq<Event>)
    requires var s := Run(before);
      Here(s, user, order, Search) && Lookup(s.gate.users, user, order) == None && s.gate.pendingFilled == map[]
    ensures Here(Run(events), user, order, Waiting) && Run(events).callers[0].since == |Run(events).log|
  {
    hide Run, GetIdentifier;
    events := Next(before, GO);
    events := Next(events, GO);
    events := Next(events, GO);
  }

  /** A report that comes in is handled and is then the last entry, after at most the one that cached it. */
  lemma ReportArrives(before: seq<Event>, user: UserId, r: OrderReport) returns (events: seq<Event>)
    requires Run(before).input.Idle?
    ensures var s, s' := Run(before), Run(events);
      && s'.input.Idle? && s'.callers == s.callers && |s.log| < |s'.log| && s'.log[..|s.log|] == s.log
      && s'.log[|s'.log| - 1].Replied? && s'.log[|s'.log| - 1].user == user && s'.log[|s'.log| - 1].report == r
      && forall i | |s.log| <= i < |s'.log| - 1 :: s'.log[i].Cached?
  {
    hide Run, HandleReply;
    events := Next(before, Receive(ReportPayload(user, r)));
    events := Next(events, Finish);
  }

  /** The caller reads its completed call. */
  lemma CallerReads(before: seq<Event>, user: UserId, order: ClientOrderId, p: nat) returns (events: seq<Event>)
    requires Here(Run(before), user, order, Waiting) && Run(before).callers[0].since <= p < |Run(before).log|
    requires Wakes(TicketOf(Run(before).callers[0]), Run(before).log[p])
    ensures var s, s' := Run(before), Run(events);
      && s'.log == s.log && 0 in s'.callers && HasAnswer(s'.callers[0].pc) && s'.callers[0].readAt == |s.log|
      && s'.callers[0] == s.callers[0].(pc := s'.callers[0].pc, readAt := |s.log|)
  {
    hide Run, LastReply, LastError, TradeLog, Wakes;
    CallsReadTheHistory(before, 0);
    var s := Run(before);
    assert WindowOf(s, 0)[p - s.callers[0].since] == s.log[p];
    assert s.gate.calls[s.callers[0].call].full;
    events := Next(before, GO);
    assert Run(events).callers[0].pc.Received?;
    events := Next(events, GO);
  }

  /** From `since` on the history has two replies, at `p` and at its end. */
  predicate OnlyReplies(log: seq<Entry>, since: nat, user: UserId, r1: OrderReport, r2: OrderReport, p: nat) {
    && since <= p < |log| - 1
    && log[p].Replied? && log[p].user == user && log[p].report == r1
    && log[|log| - 1].Replied? && log[|log| - 1].user == user && log[|log| - 1].report == r2
    && forall i | since <= i < |log| - 1 && i != p :: log[i].Cached?
  }

  /** Both reports come in while the caller waits, and nothing else. */
  lemma TwoReports(before: seq<Event>, user: UserId, order: ClientOrderId, r1: OrderReport, r2: OrderReport)
    returns (events: seq<Event>, p: nat)
    requires Here(Run(before), user, order, Waiting) && Run(before).callers[0].since == |Run(before).log|
    ensures Here(Run(events), user, order, Waiting)
    ensures OnlyReplies(Run(events).log, Run(events).callers[0].since, user, r1, r2, p)
  {
    hide Run;
    events := ReportArrives(before, user, r1);
    p := |Run(events).log| - 1;
    var log := Run(events).log;
    events := ReportArrives(events, user, r2);
    assert forall i | 0 <= i < |log| :: Run(events).log[i] == Run(events).log[..|log|][i];
    assert forall i | 0 <= i < |Run(before).log| :: log[i] == log[..|Run(before).log|][i];
  }

  /** The caller that read when the history ended with a report for it returned that report. */
  lemma ReadsTheLast(s: State, order: ClientOrderId, r: OrderReport)
    requires 0 in s.callers && s.callers[0].op == NewOrder(order, false) && HasAnswer(s.callers[0].pc) && ResultOk(s, 0)
    requires s.callers[0].since < s.callers[0].readAt == |s.log| && AnswersNew(r.reportType) && r.Id() == order
    requires var e := s.log[|s.log| - 1]; e.Replied? && e.user == s.callers[0].user && e.report == r
    ensures s.callers[0].pc.outcome.reply == Some(r)
  {
    hide LastReply, LastError, TradeLog, Woken;
    var w := AnswerWindow(s, s.callers[0]);
    SomeReply(TicketOf(s.callers[0]), w, |w| - 1);
    var last := LastReplyAt(TicketOf(s.callers[0]), w);
  }

  lemma FirstOfTwo(s: State, order: ClientOrderId, r1: OrderReport, r2: OrderReport, p: nat)
    requires 0 in s.callers && s.callers[0].op == NewOrder(order, false) && s.callers[0].readAt == |s.log|
    requires OnlyReplies(s.log, s.callers[0].since, s.callers[0].user, r1, r2, p)
    requires AnswersNew(r1.reportType) && r1.Id() == order
    ensures FirstReply(TicketOf(s.callers[0]), AnswerWindow(s, s.callers[0])) == Some(r1)
  {
    hide FirstReply;
    var c := s.callers[0];
    var w := AnswerWindow(s, c);
    assert forall j | c.since <= j < c.readAt :: s.log[j] == w[j - c.since];
    var first := FirstReplyAt(TicketOf(c), w, p - c.since);
  }

  /**
    Whatever user, order and reports: there is a run in which the first report that answers a new order is `r1`, and
    its caller returns `r2`.
   */
  lemma FirstReportIsLost(user: UserId, order: ClientOrderId, r1: OrderReport, r2: OrderReport) returns (events: seq<Event>)
    requires AnswersNew(r1.reportType) && r1.Id() == order && AnswersNew(r2.reportType) && r2.Id() == order
    ensures 0 in Run(events).callers
    ensures var s := Run(events); var c := s.callers[0];
      && HasAnswer(c.pc) && c.user == user && c.op == NewOrder(order, false) && c.since <= c.readAt <= |s.log|
      && c.pc.outcome.reply == Some(r2) && FirstReply(TicketOf(c), AnswerWindow(s, c)) == Some(r1)
  {
    hide Run, FirstReply, LastReply, LastError, TradeLog, Woken;
    hide Inv, SnapInv, EpochInv, CacheInv, LogInv, ReadsOk, ResultOk;
    events := Subscribed(user, order);
    events := SnapshotArrives(events, user, order);
    events := Requested(events, user, order);
    var p: nat;
    events, p := TwoReports(events, user, order, r1, r2);
    events := CallerReads(events, user, order, p);
    Reachable(events);
    assert ResultOk(Run(events), 0);
    ReadsTheLast(Run(events), order, r2);
    FirstOfTwo(Run(events), order, r1, r2, p);
  }

  lemma UserIsDropped(before: seq<Event>, user: UserId, order: ClientOrderId) returns (events: seq<Event>)
    requires Here(Run(before), user, order, Waiting)
    ensures var s := Run(before);
      Here(Run(events), user, order, Waiting) && Run(events).callers == s.callers && Run(events).log == s.log + [Dropped(user)]
  {
    hide Run;
    events := Next(before, Unsubscribe(user));
  }

  /** Whatever user, order and report: there is a run in which a new order is answered with it and the cache knows nothing. */
  lemma AnsweredWithoutCache(user: UserId, order: ClientOrderId, r: OrderReport) returns (events: seq<Event>)
    requires AnswersNew(r.reportType) && r.Id() == order
    ensures 0 in Run(events).callers
    ensures var s := Run(events); var c := s.callers[0];
      && HasAnswer(c.pc) && c.user == user && c.op == NewOrder(order, false)
      && c.pc.outcome.reply == Some(r) && user !in s.gate.users
  {
    hide Run, Inv, SnapInv, EpochInv, CacheInv, LogInv, ResultOk;
    events := Subscribed(user, order);
    events := SnapshotArrives(events, user, order);
    events := Requested(events, user, order);
    var dropped := |Run(events).log|;
    events := UserIsDropped(events, user, order);
    var log := Run(events).log;
    events := ReportArrives(events, user, r);
    assert Run(events).log[dropped] == Run(events).log[..|log|][dropped];
    events := CallerReads(events, user, order, |Run(events).log| - 1);
    SilentAfterUnsubscribe(events, user, dropped);
    Reachable(events);
    assert ResultOk(Run(events), 0);
    ReadsTheLast(Run(events), order, r);
  }

  /** Whatever request the reject names, it completes the new order that is pending under its order id. */
  lemma RejectCompletesNewOrder(events: seq<Event>, t: Tid, reject: Reject)
    requires t in Run(events).callers && IsNew(Run(events).callers[t])
    requires reject.clientOrderID == Run(events).callers[t].op.order
    ensures var c := Run(events).callers[t]; var calls := StepReceive(Run(events), RejectPayload(c.user, reject)).gate.calls;
      c.call in calls && calls[c.call].full && calls[c.call].error == Some(reject.error)
  {
    hide Run, StepReceive, Saw, Woken;
    Reachable(events);
    var s := Run(events);
    var c := s.callers[t];
    assert CallOk(s, t);
    RejectsAreExact(events, c.user, reject, c.call);
    assert Held(s, c.call);
  }
}
