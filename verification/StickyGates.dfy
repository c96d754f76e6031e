/**
  Assigning gates to users under races. Getting a gate is a load, a draw and a load-or-store, and the steps of
  different callers interleave with each other, with unsubscribing, with moving users and with readiness changes.
 */
module StickyGates {
  import opened Orders
  import opened RoundRobin

  type Tid = nat

  datatype Pc =
    | Loading
    | Drawing
    | Storing(drawn: GateId)
    | Got(gate: GateId, at: nat)   // `at`: the position of its effect in the log
    | NoGate

  datatype Caller = Caller(user: UserId, pc: Pc)

  /** A getGate took effect with this result, or the user's assignment was changed by somebody else. */
  datatype Effect = Given(user: UserId, gate: GateId) | Changed(user: UserId)

  datatype State = State(assignments: map<UserId, GateId>, turns: seq<GateId>, callers: map<Tid, Caller>, log: seq<Effect>)

  datatype Event =
    | Call(t: Tid, user: UserId)
    | Advance(t: Tid)
    | Unsubscribe(user: UserId)
    | Move(user: UserId, gate: GateId)
    | Rebuild(turns: seq<GateId>)

  const INITIAL := State(map[], [], map[], [])

  function Goto(s: State, t: Tid, pc: Pc): State
    requires t in s.callers
  {
    s.(callers := s.callers[t := s.callers[t].(pc := pc)])
  }

  /** The caller takes its result; the assignment holds it from here on. */
  function Take(s: State, t: Tid, gate: GateId): State
    requires t in s.callers
  {
    Goto(s.(log := s.log + [Given(s.callers[t].user, gate)]), t, Got(gate, |s.log|))
  }

  function StepCaller(s: State, t: Tid): State
    requires t in s.callers
  {
    var user := s.callers[t].user;
    match s.callers[t].pc
    case Loading => if user in s.assignments then Take(s, t, s.assignments[user]) else Goto(s, t, Drawing)
    case Drawing => if s.turns == [] then Goto(s, t, NoGate) else Goto(s.(turns := Rotate(s.turns)), t, Storing(s.turns[0]))
    case Storing(drawn) =>
      if user in s.assignments then Take(s, t, s.assignments[user])
      else Take(s.(assignments := s.assignments[user := drawn]), t, drawn)
    case Got(_, _) => s
    case NoGate => s
  }

  function Step(s: State, e: Event): State {
    match e
    case Call(t, user) => if t in s.callers then s else s.(callers := s.callers[t := Caller(user, Loading)])
    case Advance(t) => if t in s.callers then StepCaller(s, t) else s
    case Unsubscribe(user) =>
      if user in s.assignments then s.(assignments := s.assignments - {user}, log := s.log + [Changed(user)]) else s
    case Move(user, gate) => s.(assignments := s.assignments[user := gate], log := s.log + [Changed(user)])
    case Rebuild(turns) => s.(turns := turns)
  }

  function Run(events: seq<Event>): State {
    if events == [] then INITIAL else Step(Run(events[..|events| - 1]), events[|events| - 1])
  }

  ghost predicate Undisturbed(log: seq<Effect>, user: UserId, from: nat, to: nat) {
    to <= |log| && forall i | from <= i < to :: log[i] != Changed(user)
  }

  /** What was given and not changed since is still assigned; and what was given without a change between is one gate. */
  ghost predicate Inv(s: State) {
    && (forall p | 0 <= p < |s.log| && s.log[p].Given? && Undisturbed(s.log, s.log[p].user, p, |s.log|) ::
          s.log[p].user in s.assignments && s.assignments[s.log[p].user] == s.log[p].gate)
    && (forall p, q | 0 <= p <= q < |s.log| && s.log[p].Given? && s.log[q].Given? && s.log[p].user == s.log[q].user
          && Undisturbed(s.log, s.log[p].user, p, q) :: s.log[p].gate == s.log[q].gate)
    && (forall t | t in s.callers && s.callers[t].pc.Got? ::
          s.callers[t].pc.at < |s.log| && s.log[s.callers[t].pc.at] == Given(s.callers[t].user, s.callers[t].pc.gate))
  }

  lemma UndisturbedBefore(log: seq<Effect>, e: Effect, user: UserId, from: nat, to: nat)
    requires from <= to <= |log|
    ensures Undisturbed(log + [e], user, from, to) <==> Undisturbed(log, user, from, to)
    ensures from <= |log| && Undisturbed(log + [e], user, from, |log| + 1) ==> Undisturbed(log, user, from, |log|) && e != Changed(user)
  {
    var log' := log + [e];
    assert forall i | 0 <= i < |log| :: log'[i] == log[i];
    assert log'[|log|] == e;
  }

  /** One more effect: a result that is the assignment afterwards, or a change of a user's assignment. */
  lemma EffectKeeps(s: State, s': State, e: Effect)
    requires Inv(s) && s'.log == s.log + [e]
    requires forall u | u in s.assignments && e != Changed(u) :: u in s'.assignments && s'.assignments[u] == s.assignments[u]
    requires e.Given? ==> e.user in s'.assignments && s'.assignments[e.user] == e.gate
    requires forall t | t in s'.callers && s'.callers[t].pc.Got? ::
      (t in s.callers && s.callers[t] == s'.callers[t])
      || (s'.callers[t].pc.at == |s.log| && e == Given(s'.callers[t].user, s'.callers[t].pc.gate))
    ensures Inv(s')
  {
    var n := |s.log|;
    assert forall i | 0 <= i < n :: s'.log[i] == s.log[i];
    forall p | 0 <= p <= n && s'.log[p].Given? && Undisturbed(s'.log, s'.log[p].user, p, n + 1)
      ensures s'.log[p].user in s'.assignments && s'.assignments[s'.log[p].user] == s'.log[p].gate
    {
      UndisturbedBefore(s.log, e, s'.log[p].user, p, n);
    }
    forall p, q | 0 <= p <= q <= n && s'.log[p].Given? && s'.log[q].Given? && s'.log[p].user == s'.log[q].user
      && Undisturbed(s'.log, s'.log[p].user, p, q)
      ensures s'.log[p].gate == s'.log[q].gate
    {
      UndisturbedBefore(s.log, e, s'.log[p].user, p, if q < n then q else n);
    }
  }

  lemma StepKeeps(s: State, e: Event)
    requires Inv(s)
    ensures Inv(Step(s, e))
  {
    var s' := Step(s, e);
    if s'.log != s.log {
      hide Inv;
      EffectKeeps(s, s', s'.log[|s.log|]);
    }
  }

  lemma {:induction false} RunKeeps(events: seq<Event>)
    ensures Inv(Run(events))
  {
    if events != [] {
      RunKeeps(events[..|events| - 1]);
      StepKeeps(Run(events[..|events| - 1]), events[|events| - 1]);
    }
  }

  /**
    Two callers that got a gate for one user got the same gate, whichever gates they drew, unless the user was
    unsubscribed or moved between the moments when the two took effect.
   */
  lemma SameGate(events: seq<Event>, t: Tid, t': Tid)
    requires t in Run(events).callers && t' in Run(events).callers
    requires Run(events).callers[t].pc.Got? && Run(events).callers[t'].pc.Got?
    requires Run(events).callers[t].user == Run(events).callers[t'].user
    requires Run(events).callers[t].pc.at <= Run(events).callers[t'].pc.at <= |Run(events).log|
    requires Undisturbed(Run(events).log, Run(events).callers[t].user, Run(events).callers[t].pc.at, Run(events).callers[t'].pc.at)
    ensures Run(events).callers[t].pc.gate == Run(events).callers[t'].pc.gate
  {
    RunKeeps(events);
  }

  /** A gate that was got stays the user's gate until the user is unsubscribed or moved. */
  lemma StillAssigned(events: seq<Event>, t: Tid)
    requires t in Run(events).callers && Run(events).callers[t].pc.Got?
    ensures var s := Run(events); var c := s.callers[t];
      Undisturbed(s.log, c.user, c.pc.at, |s.log|) ==> c.user in s.assignments && s.assignments[c.user] == c.pc.gate
  {
    RunKeeps(events);
  }

  // Where gates come from.

  /** The gate was put into the ring at some time. */
  ghost predicate WasInRing(events: seq<Event>, gate: GateId) {
    exists i | 0 <= i < |events| :: events[i].Rebuild? && gate in events[i].turns
  }

  /** The gate was put into the ring at some time, or the user was moved to it. */
  ghost predicate Offered(events: seq<Event>, user: UserId, gate: GateId) {
    WasInRing(events, gate) || exists i | 0 <= i < |events| :: events[i] == Move(user, gate)
  }

  ghost predicate Sourced(events: seq<Event>, s: State) {
    && (forall g | g in s.turns :: WasInRing(events, g))
    && (forall u | u in s.assignments :: Offered(events, u, s.assignments[u]))
    && (forall t | t in s.callers && s.callers[t].pc.Storing? :: WasInRing(events, s.callers[t].pc.drawn))
    && (forall t | t in s.callers && s.callers[t].pc.Got? :: Offered(events, s.callers[t].user, s.callers[t].pc.gate))
  }

  lemma OfferedBefore(events: seq<Event>, e: Event)
    ensures forall g :: WasInRing(events, g) || (e.Rebuild? && g in e.turns) ==> WasInRing(events + [e], g)
    ensures forall u, g :: Offered(events, u, g) || e == Move(u, g) ==> Offered(events + [e], u, g)
  {
    var all := events + [e];
    assert all[|events|] == e;
    assert forall i | 0 <= i < |events| :: all[i] == events[i];
  }

  lemma StepIsSourced(events: seq<Event>, s: State, e: Event)
    requires Sourced(events, s)
    ensures Sourced(events + [e], Step(s, e))
  {
    hide WasInRing, Offered, Rotate;
    OfferedBefore(events, e);
    RotateKeeps(s.turns);
    assert forall g | WasInRing(events + [e], g) :: forall u :: Offered(events + [e], u, g) by {
      RingIsOffered(events + [e]);
    }
    assert s.turns != [] ==> s.turns[0] in s.turns;
  }

  lemma RingIsOffered(events: seq<Event>)
    ensures forall u, g :: WasInRing(events, g) ==> Offered(events, u, g)
  {
  }

  /** Every gate that a caller gets was in the ring at some time, or is one that its user was moved to. */
  lemma {:induction false} GatesAreOffered(events: seq<Event>)
    ensures Sourced(events, Run(events))
  {
    if events != [] {
      var before, e := events[..|events| - 1], events[|events| - 1];
      assert events == before + [e];
      GatesAreOffered(before);
      StepIsSourced(before, Run(before), e);
    }
  }

  function Advanced(s: State, t: Tid): State {
    Step(Step(Step(s, Advance(t)), Advance(t)), Advance(t))
  }

  /**
    A call that nobody interferes with, made when the ring is `q`: an assigned user keeps its gate and nothing is
    drawn; another gets the next gate in turn and keeps it, and only an empty ring gives none.
   */
  lemma GetGateAlone(s: State, q: seq<GateId>, t: Tid, user: UserId)
    requires t !in s.callers
    ensures var s' := Advanced(Step(Step(s, Rebuild(q)), Call(t, user)), t);
      && t in s'.callers && s'.callers[t].user == user
      && (user in s.assignments ==>
            && s'.callers[t].pc.Got? && s'.callers[t].pc.gate == s.assignments[user]
            && s'.assignments == s.assignments && s'.turns == q)
      && (user !in s.assignments && q == [] ==>
            s'.callers[t].pc.NoGate? && s'.assignments == s.assignments && s'.turns == q)
      && (user !in s.assignments && q != [] ==>
            && s'.callers[t].pc.Got? && s'.callers[t].pc.gate == q[0]
            && s'.assignments == s.assignments[user := q[0]] && s'.turns == q[1..] + [q[0]])
  {
    var started := Step(Step(s, Rebuild(q)), Call(t, user));
    assert started.callers[t] == Caller(user, Loading) && started.assignments == s.assignments && started.turns == q;
    OneCall(started, t);
  }

  lemma OneCall(s: State, t: Tid)
    requires t in s.callers && s.callers[t].pc.Loading?
    ensures var s', user := Advanced(s, t), s.callers[t].user;
      && t in s'.callers && s'.callers[t].user == user
      && (user in s.assignments ==>
            && s'.callers[t].pc.Got? && s'.callers[t].pc.gate == s.assignments[user]
            && s'.assignments == s.assignments && s'.turns == s.turns)
      && (user !in s.assignments && s.turns == [] ==>
            s'.callers[t].pc.NoGate? && s'.assignments == s.assignments && s'.turns == s.turns)
      && (user !in s.assignments && s.turns != [] ==>
            && s'.callers[t].pc.Got? && s'.callers[t].pc.gate == s.turns[0]
            && s'.assignments == s.assignments[user := s.turns[0]] && s'.turns == s.turns[1..] + [s.turns[0]])
  {
  }

  /**
    What one step does to one user's assignment: unsubscribing ends it, moving replaces it, and a caller of getGate
    makes one only where there is none, with the gate that it drew. Nothing else touches it.
   */
  lemma AssignmentChanges(s: State, e: Event, user: UserId)
    ensures var before, after := s.assignments, Step(s, e).assignments;
      if e == Unsubscribe(user) then user !in after
      else if e.Move? && e.user == user then user in after && after[user] == e.gate
      else if user in before then user in after && after[user] == before[user]
      else user in after ==>
        && e.Advance? && e.t in s.callers && s.callers[e.t].user == user && s.callers[e.t].pc == Storing(after[user])
  {
  }
}
