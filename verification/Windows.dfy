/** What a call ought to have seen, read off the stretch of history since it was registered. */
module Windows {
  import opened Gates
  import opened History
  import opened Identifiers
  import opened Orders
  import opened Wrappers

  function LastReply(tk: Ticket, w: seq<Entry>): Option<OrderReport> {
    if w == [] then None
    else if Answers(tk, w[|w| - 1]) then Some(w[|w| - 1].report)
    else LastReply(tk, w[..|w| - 1])
  }

  function LastError(tk: Ticket, w: seq<Entry>): Option<ErrorResponse> {
    if w == [] then None
    else if Refuses(tk, w[|w| - 1]) then Some(w[|w| - 1].reject.error)
    else LastError(tk, w[..|w| - 1])
  }

  /** The trades of the window that are the call's own, each once and in order. */
  function TradeLog(tk: Ticket, w: seq<Entry>): seq<Trade> {
    if w == [] then []
    else
      var before := TradeLog(tk, w[..|w| - 1]);
      if Trades(tk, w[|w| - 1]) then before + [TradeOf(w[|w| - 1].report)] else before
  }

  ghost predicate Woken(tk: Ticket, w: seq<Entry>) {
    exists i | 0 <= i < |w| :: Wakes(tk, w[i])
  }

  /** The fields of the call are what the window says. */
  predicate Saw(c: Call, tk: Ticket, w: seq<Entry>) {
    c.reply == LastReply(tk, w) && c.error == LastError(tk, w) && c.trades == TradeLog(tk, w) && MadeFor(c, tk)
  }

  lemma WokenAppend(tk: Ticket, w: seq<Entry>, e: Entry)
    ensures Woken(tk, w + [e]) <==> Woken(tk, w) || Wakes(tk, e)
  {
    var w' := w + [e];
    assert w'[|w|] == e;
    assert forall i | 0 <= i < |w| :: w'[i] == w[i];
  }

  lemma DeliverSees(c: Call, tk: Ticket, w: seq<Entry>, e: Entry)
    requires Saw(c, tk, w)
    ensures Saw(Deliver(tk, c, e), tk, w + [e])
    ensures Woken(tk, w + [e]) <==> Woken(tk, w) || Wakes(tk, e)
  {
    assert (w + [e])[..|w|] == w;
    WokenAppend(tk, w, e);
  }

  /** Nothing has been seen in the empty window. */
  lemma EmptyWindow(tk: Ticket, c: Call)
    requires c == CreateCall(c.cancelRequest, c.waitComplete) && MadeFor(c, tk)
    ensures Saw(c, tk, []) && !Woken(tk, [])
  {
  }

  /** The reply is the report of the last entry that answers the ticket. */
  lemma {:induction false} LastReplyAt(tk: Ticket, w: seq<Entry>) returns (i: nat)
    requires LastReply(tk, w).Some?
    ensures i < |w| && Answers(tk, w[i]) && w[i].report == LastReply(tk, w).value
    ensures forall j | i < j < |w| :: !Answers(tk, w[j])
  {
    var n := |w| - 1;
    if Answers(tk, w[n]) {
      i := n;
    } else {
      var t := w[..n];
      i := LastReplyAt(tk, t);
      assert forall j | 0 <= j < n :: t[j] == w[j];
    }
  }

  lemma {:induction false} SomeReply(tk: Ticket, w: seq<Entry>, i: nat)
    requires i < |w|
    ensures Answers(tk, w[i]) ==> LastReply(tk, w).Some?
    ensures Refuses(tk, w[i]) ==> LastError(tk, w).Some?
  {
    if i < |w| - 1 {
      SomeReply(tk, w[..|w| - 1], i);
    }
  }

  /** The error is that of the last entry that refuses the ticket. */
  lemma {:induction false} LastErrorAt(tk: Ticket, w: seq<Entry>) returns (i: nat)
    requires LastError(tk, w).Some?
    ensures i < |w| && Refuses(tk, w[i]) && w[i].reject.error == LastError(tk, w).value
    ensures forall j | i < j < |w| :: !Refuses(tk, w[j])
  {
    var n := |w| - 1;
    if Refuses(tk, w[n]) {
      i := n;
    } else {
      var t := w[..n];
      i := LastErrorAt(tk, t);
      assert forall j | 0 <= j < n :: t[j] == w[j];
    }
  }

  /** A woken call always has something to return. */
  lemma WokenHasResult(tk: Ticket, w: seq<Entry>)
    requires Woken(tk, w)
    ensures LastReply(tk, w).Some? || LastError(tk, w).Some?
  {
    var i :| 0 <= i < |w| && Wakes(tk, w[i]);
    SomeReply(tk, w, i);
  }

  // The trades of a window, said without the call that collects them.

  predicate OwnTrade(e: Entry, user: UserId, order: ClientOrderId) {
    e.Replied? && e.user == user && e.report.order.clientOrderID == order && e.report.reportType.TypeTrade?
  }

  predicate TellsOf(trade: Trade, r: OrderReport) {
    && trade.id == r.tradeID && trade.timestamp == r.timestamp
    && trade.quantity == r.order.lastQuantity && trade.price == r.order.lastPrice
    && trade.feeAmount == r.feeAmount && trade.feeInstrument == ""
  }

  /** The trades are those that the log reports for the order at the positions `ps`, in order, and `ps` are all of them. */
  ghost predicate ListsTrades(trades: seq<Trade>, log: seq<Entry>, from: nat, to: nat, user: UserId, order: ClientOrderId,
                              ps: seq<nat>) {
    && from <= to <= |log| && |ps| == |trades|
    && (forall i, j | 0 <= i < j < |ps| :: ps[i] < ps[j])
    && (forall i | 0 <= i < |ps| ::
          from <= ps[i] < to && OwnTrade(log[ps[i]], user, order) && TellsOf(trades[i], log[ps[i]].report))
    && (forall p: nat | from <= p < to && OwnTrade(log[p], user, order) :: p in ps)
  }

  lemma NextTrade(trades: seq<Trade>, log: seq<Entry>, from: nat, to: nat, user: UserId, order: ClientOrderId, ps: seq<nat>)
    requires to < |log| && ListsTrades(trades, log, from, to, user, order, ps)
    ensures OwnTrade(log[to], user, order) ==>
      ListsTrades(trades + [TradeOf(log[to].report)], log, from, to + 1, user, order, ps + [to])
    ensures !OwnTrade(log[to], user, order) ==> ListsTrades(trades, log, from, to + 1, user, order, ps)
  {
    if OwnTrade(log[to], user, order) {
      assert TellsOf(TradeOf(log[to].report), log[to].report);
    }
    assert forall p | p in ps :: p in ps + [to];
    assert (ps + [to])[|ps|] == to;
  }

  lemma TradeLogGrows(tk: Ticket, log: seq<Entry>, from: nat, to: nat)
    requires from <= to < |log|
    ensures TradeLog(tk, log[from..to + 1]) ==
      if Trades(tk, log[to]) then TradeLog(tk, log[from..to]) + [TradeOf(log[to].report)] else TradeLog(tk, log[from..to])
  {
    var w := log[from..to + 1];
    assert w[..to - from] == log[from..to] && w[|w| - 1] == log[to];
  }

  lemma NoTradesYet(tk: Ticket, log: seq<Entry>, from: nat)
    requires from <= |log|
    ensures ListsTrades(TradeLog(tk, log[from..from]), log, from, from, tk.user, tk.order, [])
  {
  }

  lemma NewOrdersTrade(tk: Ticket, e: Entry)
    requires tk.kind.New?
    ensures Trades(tk, e) <==> OwnTrade(e, tk.user, tk.order)
  {
  }

  lemma {:induction false} TradePositions(tk: Ticket, log: seq<Entry>, from: nat, to: nat) returns (ps: seq<nat>)
    requires tk.kind.New? && from <= to <= |log|
    ensures ListsTrades(TradeLog(tk, log[from..to]), log, from, to, tk.user, tk.order, ps)
  {
    hide ListsTrades, TradeLog, Answers;
    if from == to {
      NoTradesYet(tk, log, from);
      ps := [];
    } else {
      ps := TradePositions(tk, log, from, to - 1);
      TradeLogGrows(tk, log, from, to - 1);
      NewOrdersTrade(tk, log[to - 1]);
      NextTrade(TradeLog(tk, log[from..to - 1]), log, from, to - 1, tk.user, tk.order, ps);
      if OwnTrade(log[to - 1], tk.user, tk.order) {
        ps := ps + [to - 1];
      }
    }
  }

  lemma {:induction false} CancelsHaveNoTrades(tk: Ticket, w: seq<Entry>)
    requires tk.kind.Cancel?
    ensures TradeLog(tk, w) == []
  {
    if w != [] {
      CancelsHaveNoTrades(tk, w[..|w| - 1]);
    }
  }

  predicate ImmediateOnly(tk: Ticket, w: seq<Entry>) {
    forall i | 0 <= i < |w| && Answers(tk, w[i]) :: w[i].report.order.timeInForce.FOK? || w[i].report.order.timeInForce.IOC?
  }

  predicate Terminal(r: OrderReport) {
    r.order.orderStatus.StatusFilled? || r.order.orderStatus.StatusExpired?
  }

  /**
    A caller that waits for completion of an immediate order is woken exactly by a reject or by a terminal
    report; and when nothing follows the terminal report, what it returns without an error is terminal.
   */
  lemma WaitComplete(tk: Ticket, w: seq<Entry>)
    requires tk.kind == New(true) && ImmediateOnly(tk, w)
    ensures Woken(tk, w) <==>
      exists i | 0 <= i < |w| :: Refuses(tk, w[i]) || (Answers(tk, w[i]) && Terminal(w[i].report))
    ensures Woken(tk, w) && LastError(tk, w).None?
      && (forall i, j | 0 <= i < j < |w| && Answers(tk, w[i]) && Terminal(w[i].report) :: !Answers(tk, w[j]))
      ==> LastReply(tk, w).Some? && Terminal(LastReply(tk, w).value)
  {
    assert forall i | 0 <= i < |w| :: Wakes(tk, w[i]) <==> Refuses(tk, w[i]) || (Answers(tk, w[i]) && Terminal(w[i].report));
    if Woken(tk, w) && LastError(tk, w).None? {
      var i :| 0 <= i < |w| && Wakes(tk, w[i]);
      SomeReply(tk, w, i);
      var last := LastReplyAt(tk, w);
      assert !(last < i);
    }
  }
}
