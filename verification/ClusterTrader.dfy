/**
  The cluster router: which gate serves which user, and how users are moved off gates that are not ready.
  Which gates are ready, and which snapshot requests succeed, is decided outside and does not change during a call.
 */
module ClusterTraders {
  import opened Orders
  import opened RoundRobin
  import opened Wrappers

  /** The ready gates, in the order in which they are configured. */
  function ReadyGates(available: seq<GateId>, ready: set<GateId>): (gates: seq<GateId>)
    ensures forall g :: g in gates <==> g in available && g in ready
  {
    if available == [] then []
    else
      var last := available[|available| - 1];
      ReadyGates(available[..|available| - 1], ready) + if last in ready then [last] else []
  }

  lemma ReadyGatesStep(available: seq<GateId>, ready: set<GateId>, i: nat)
    requires i < |available|
    ensures ReadyGates(available[..i + 1], ready)
      == ReadyGates(available[..i], ready) + if available[i] in ready then [available[i]] else []
  {
    assert available[..i + 1][..i] == available[..i];
  }

  lemma {:induction false} ReadyGatesGrow(available: seq<GateId>, ready: set<GateId>, i: nat)
    requires i <= |available|
    ensures ReadyGates(available[..i], ready) <= ReadyGates(available, ready)
    decreases |available| - i
  {
    if i == |available| {
      assert available[..i] == available;
    } else {
      ReadyGatesStep(available, ready, i);
      ReadyGatesGrow(available, ready, i + 1);
    }
  }

  /** The position after `i` in a ring of `n`. */
  function After(i: nat, n: nat): (j: nat)
    ensures i < n ==> j < n
  {
    if i + 1 < n then i + 1 else 0
  }

  /** The gates sit one node ahead of their turn. */
  ghost predicate Filled(nodes: seq<Ring>, gates: seq<GateId>)
    reads nodes
    requires |gates| <= |nodes|
  {
    forall i | 0 <= i < |gates| :: nodes[After(i, |nodes|)].value == Some(gates[i])
  }

  /** Where one stands after `j` steps around. */
  ghost function Standing(ring: seq<Ring>, j: nat): Ring
    requires ring != [] && j <= |ring|
  {
    if j == 0 then ring[0] else ring[After(j - 1, |ring|)]
  }

  lemma NothingReady(ready: set<GateId>, ring: seq<Ring>)
    ensures ReadyGates([], ready) == [] && Filled(ring, [])
  {
  }

  const READY_CAPACITY := 2

  /** What the ready channel holds after the flag went from `before` to `after`: a change is dropped if there is no room. */
  function Signalled(signals: seq<bool>, before: bool, after: bool): seq<bool> {
    if before != after && |signals| < READY_CAPACITY then signals + [after] else signals
  }

  /** The values at which a flag that starts as `before` and takes these values in turn changes. */
  function Changes(before: bool, values: seq<bool>): seq<bool>
    decreases |values|
  {
    if values == [] then []
    else (if values[0] != before then [values[0]] else []) + Changes(values[0], values[1..])
  }

  /** The ready channel after the flag took these values in turn, with nobody reading the channel meanwhile. */
  function SignalledAll(signals: seq<bool>, before: bool, values: seq<bool>): seq<bool>
    decreases |values|
  {
    if values == [] then signals else SignalledAll(Signalled(signals, before, values[0]), values[0], values[1..])
  }

  /** Two signals wait at most: what an unread channel holds are the first changes, as many as there was room for. */
  lemma {:induction false} FirstChangesAreSignalled(signals: seq<bool>, before: bool, values: seq<bool>)
    requires |signals| <= 2
    ensures var room, changes := 2 - |signals|, Changes(before, values);
      SignalledAll(signals, before, values) == signals + if |changes| <= room then changes else changes[..room]
    decreases |values|
  {
    if values != [] {
      FirstChangesAreSignalled(Signalled(signals, before, values[0]), values[0], values[1..]);
    }
  }

  class ClusterTrader {
    const available: seq<GateId>
    var enabled: Ring?
    var gateOf: map<UserId, GateId>
    var isReady: bool
    var signals: seq<bool>   // what the ready channel holds

    // The ring from `enabled` on, and the gates in the order in which they will be drawn.
    ghost var nodes: seq<Ring>
    ghost var turns: seq<GateId>

    ghost predicate Valid()
      reads this, nodes
    {
      && IsRing(enabled, nodes)
      && |turns| == |nodes|
      && Filled(nodes, turns)
    }

    constructor (clients: seq<GateId>)
      ensures Valid() && turns == [] && gateOf == map[] && !isReady && signals == [] && available == clients && nodes == []
    {
      available := clients;
      enabled, gateOf, isReady, signals, nodes, turns := null, map[], false, [], [], [];
    }

    /** Draws the next gate; with nothing to draw from, there is none and nothing changes. */
    method GetNextEnabled() returns (gate: Option<GateId>)
      requires Valid()
      modifies this`enabled, this`nodes, this`turns
      ensures Valid()
      ensures gate == if old(turns) == [] then None else Some(old(turns)[0])
      ensures turns == Rotate(old(turns))
    {
      var n := Len(enabled, nodes);
      if n == 0 {
        return None;
      }
      nodes := nodes[1..] + [nodes[0]];
      enabled := enabled.next;
      turns := Rotate(turns);
      gate := enabled.value;
    }

    /** Draws `k` times: the gates that are drawn, and how often there was none to draw. */
    method DrawMany(k: nat) returns (drawn: seq<GateId>, refused: nat)
      requires Valid()
      modifies this`enabled, this`nodes, this`turns
      ensures Valid() && |turns| == |old(turns)|
      ensures old(turns) == [] ==> drawn == [] && refused == k
      ensures old(turns) != [] ==> drawn == Draws(old(turns), k) && refused == 0
    {
      hide Linked, Filled, IsRing, Rotate, Draws;
      drawn, refused := [], 0;
      assert old(turns) != [] ==> [] + Draws(turns, k) == Draws(turns, k);
      for j := 0 to k
        invariant Valid() && |turns| == |old(turns)|
        invariant old(turns) == [] ==> drawn == [] && refused == j
        invariant old(turns) != [] ==> Draws(old(turns), k) == drawn + Draws(turns, k - j) && refused == 0
      {
        if turns != [] {
          DrawOne(turns, k - j);
        }
        var gate := GetNextEnabled();
        if gate.Some? {
          drawn := drawn + [gate.value];
        } else {
          refused := refused + 1;
        }
      }
      if turns != [] {
        NothingDrawn(turns);
        assert drawn + [] == drawn;
      }
    }

    /**
      Rebuilding the ring and then drawing `k` times, on the linked ring: draw `i` is the (i mod n)-th ready gate in
      configured order. Any n draws in a row draw each ready gate as often as it is configured, and all `k` draws
      are balanced to within one round. Without a ready gate nothing is ever drawn.
     */
    method UpdateAndDraw(ready: set<GateId>, k: nat) returns (drawn: seq<GateId>, refused: nat)
      requires Valid()
      modifies this`enabled, this`nodes, this`turns, this`isReady, this`signals
      ensures Valid()
      ensures var q := ReadyGates(available, ready);
        && (q == [] ==> drawn == [] && refused == k)
        && (q != [] ==> |drawn| == k && refused == 0 && InTurn(q, drawn) && FullRounds(q, drawn) && Fair(q, drawn))
    {
      hide Valid, Draws, InTurn, FullRounds, Fair;
      UpdateEnabled(ready);
      ghost var q := turns;
      drawn, refused := DrawMany(k);
      if q != [] {
        DrawsAreFair(q, k);
      }
    }

    /** Moves on by one node and puts the gate there, after those that are there already. */
    static method PutNext(r: Ring, gate: GateId, ghost ring: seq<Ring>, ghost done: seq<GateId>) returns (next: Ring)
      requires Linked(ring) && |done| < |ring| && Filled(ring, done) && r == Standing(ring, |done|)
      modifies (set node | node in ring)`value
      ensures Linked(ring) && Filled(ring, done + [gate]) && next == Standing(ring, |done| + 1)
    {
      next := r.next;
      assert r == ring[|done|] && next == ring[After(|done|, |ring|)];
      next.value := Some(gate);
    }

    /** Puts the ready gates into a ring of their number, one step ahead each, and comes back to where it started. */
    method FillRing(start: Ring?, ghost ring: seq<Ring>, ready: set<GateId>) returns (r: Ring?)
      requires IsRing(start, ring) && |ring| == |ReadyGates(available, ready)|
      modifies (set node | node in ring)`value
      ensures r == start && IsRing(start, ring) && Filled(ring, ReadyGates(available, ready))
    {
      hide Linked, Filled, ReadyGates;
      r := start;
      NothingReady(ready, ring);
      assert available[..0] == [];
      for i := 0 to |available|
        invariant |ReadyGates(available[..i], ready)| <= |ring|
        invariant ring != [] ==> r == Standing(ring, |ReadyGates(available[..i], ready)|)
        invariant ring == [] ==> r == start
        invariant Linked(ring) && Filled(ring, ReadyGates(available[..i], ready))
      {
        ReadyGatesStep(available, ready, i);
        ReadyGatesGrow(available, ready, i + 1);
        if available[i] in ready {
          r := PutNext(r, available[i], ring, ReadyGates(available[..i], ready));
        } else {
          assert ReadyGates(available[..i], ready) + [] == ReadyGates(available[..i], ready);
        }
      }
      assert available[..|available|] == available;
    }

    /** Rebuilds the ring: from now on the ready gates are drawn in turn, from the first configured one on. */
    method UpdateEnabled(ready: set<GateId>)
      requires Valid()
      modifies this`enabled, this`nodes, this`turns, this`isReady, this`signals
      ensures Valid() && fresh(nodes)
      ensures turns == ReadyGates(available, ready)
      ensures isReady == (ReadyGates(available, ready) != [])
      ensures signals == Signalled(old(signals), old(isReady), isReady)
    {
      hide Linked, Filled;
      var enabledCount := 0;
      for i := 0 to |available|
        invariant enabledCount == |ReadyGates(available[..i], ready)|
        modifies {}
      {
        ReadyGatesStep(available, ready, i);
        if available[i] in ready {
          enabledCount := enabledCount + 1;
        }
      }
      assert available[..|available|] == available;
      ghost var gates := ReadyGates(available, ready);
      ghost var ring: seq<Ring>;
      enabled, ring := NewRing(enabledCount);
      enabled := FillRing(enabled, ring, ready);
      nodes, turns := ring, gates;
      assert enabledCount > 0 <==> gates != [];
      SetReady(enabledCount > 0);
    }

    /** Stores the flag; a change is signalled, unless the channel is full. */
    method SetReady(val: bool)
      modifies this`isReady, this`signals
      ensures isReady == val && signals == Signalled(old(signals), old(isReady), val)
    {
      var was := isReady;
      isReady := val;
      if was != val {
        if |signals| < READY_CAPACITY {
          signals := signals + [val];
        }
      }
    }

    /** The gate of the user; a user who has none gets the next one in turn and keeps it. */
    method GetGate(userID: UserId) returns (gate: Option<GateId>)
      requires Valid()
      modifies this`enabled, this`nodes, this`turns, this`gateOf
      ensures Valid()
      ensures userID in old(gateOf) ==> gate == Some(old(gateOf)[userID]) && turns == old(turns) && gateOf == old(gateOf)
      ensures userID !in old(gateOf) && old(turns) == [] ==> gate == None && turns == [] && gateOf == old(gateOf)
      ensures userID !in old(gateOf) && old(turns) != [] ==>
        gate == Some(old(turns)[0]) && turns == Rotate(old(turns)) && gateOf == old(gateOf)[userID := old(turns)[0]]
    {
      if userID in gateOf {
        return Some(gateOf[userID]);
      }
      gate := GetNextEnabled();
      if gate == None {
        return;
      }
      gateOf := gateOf[userID := gate.value];
    }

    /** Forgets the user's gate; the gate that is told to unsubscribe the user is the one forgotten. */
    method Unsubscribe(userID: UserId) returns (told: Option<GateId>)
      requires Valid()
      modifies this`gateOf
      ensures Valid() && turns == old(turns)
      ensures gateOf == old(gateOf) - {userID}
      ensures told == if userID in old(gateOf) then Some(old(gateOf)[userID]) else None
    {
      told := None;
      if userID in gateOf {
        told := Some(gateOf[userID]);
      }
      gateOf := gateOf - {userID};
    }

    /**
      One user's turn in a migration pass. A user on a ready gate is left alone. Another one is moved to the gate
      whose turn it is, if that gate answers with a snapshot, and stays where it is if not; no other gate is asked.
      `stop` says that there is no gate to draw.
     */
    method MoveUser(userID: UserId, ready: set<GateId>, snapshot: (UserId, GateId) -> bool)
      returns (dropped: seq<(UserId, GateId)>, stop: bool)
      requires Valid() && userID in gateOf && forall g | g in turns :: g in ready
      modifies this`enabled, this`nodes, this`turns, this`gateOf
      ensures Valid() && stop == (old(gateOf)[userID] !in ready && old(turns) == [])
      ensures turns == if old(gateOf)[userID] in ready then old(turns) else Rotate(old(turns))
      ensures gateOf == old(gateOf)[userID :=
        if old(gateOf)[userID] !in ready && old(turns) != [] && snapshot(userID, old(turns)[0])
        then old(turns)[0] else old(gateOf)[userID]]
      ensures dropped == if gateOf[userID] == old(gateOf)[userID] then [] else [(userID, old(gateOf)[userID])]
    {
      hide Linked, Filled, IsRing;
      dropped, stop := [], false;
      assert gateOf == gateOf[userID := gateOf[userID]];
      var gate := gateOf[userID];
      if gate !in ready {
        var nextGate := GetNextEnabled();
        if nextGate == None {
          return [], true;
        }
        if snapshot(userID, nextGate.value) {
          gateOf := gateOf[userID := nextGate.value];
          dropped := [(userID, gate)];
        }
      }
    }

    /**
      Goes over the assigned users. A user on a gate that is not ready is moved to the next gate in turn if that
      gate answers with a snapshot; only then is the old gate told to unsubscribe, once. A user whom the gates in
      turn answer ends on one of them, whatever other gates answer and whatever happens to other users.
     */
    method MoveUsersForAvailableGates(ready: set<GateId>, snapshot: (UserId, GateId) -> bool)
      returns (dropped: seq<(UserId, GateId)>)
      requires Valid() && forall g | g in turns :: g in ready
      modifies this`enabled, this`nodes, this`turns, this`gateOf
      ensures Valid() && gateOf.Keys == old(gateOf.Keys)
      ensures forall user | user in gateOf && gateOf[user] != old(gateOf)[user] ::
        Moved(user, old(gateOf)[user], gateOf[user], ready, snapshot)
      ensures forall user, gate :: multiset(dropped)[(user, gate)] == Leavings(old(gateOf), gateOf, user, gate)
      ensures old(turns) != [] ==>
        forall user | user in gateOf && AllAnswer(old(turns), user, snapshot) :: gateOf[user] in ready
      ensures old(turns) == [] ==> gateOf == old(gateOf) && turns == []
    {
      dropped := [];
      NothingLeft(gateOf);
      var todo := gateOf.Keys;
      hide Valid, Rotate, Moved, Leavings;
      while todo != {}
        invariant Valid() && todo <= gateOf.Keys
        invariant Passing(old(gateOf), gateOf, todo, old(turns), turns, ready, snapshot, dropped)
      {
        var userID :| userID in todo;
        ghost var before, turnsBefore := gateOf, turns;
        var left, stop := MoveUser(userID, ready, snapshot);
        PassesOn(old(gateOf), before, gateOf, todo, userID, old(turns), turnsBefore, turns, ready, snapshot, dropped, left);
        dropped := dropped + left;
        todo := todo - {userID};
        if stop {
          assert old(turns) == [];
          NobodyMoves(old(gateOf), gateOf, todo, old(turns), turns, ready, snapshot, dropped);
          return;
        }
      }
    }

    /**
      What one readiness change sets off, when nothing else happens meanwhile: afterwards every user whom the
      configured ready gates answer is on a ready gate, provided that there is one.
     */
    method HandleReady(ready: set<GateId>, snapshot: (UserId, GateId) -> bool) returns (dropped: seq<(UserId, GateId)>)
      requires Valid()
      modifies this`enabled, this`nodes, this`turns, this`isReady, this`signals, this`gateOf
      ensures Valid() && gateOf.Keys == old(gateOf.Keys)
      ensures isReady == (exists g :: g in available && g in ready)
      ensures signals == Signalled(old(signals), old(isReady), isReady)
      ensures forall user | user in gateOf && gateOf[user] != old(gateOf)[user] ::
        Moved(user, old(gateOf)[user], gateOf[user], ready, snapshot)
      ensures forall user, gate :: multiset(dropped)[(user, gate)] == Leavings(old(gateOf), gateOf, user, gate)
      ensures isReady ==>
        forall user | user in gateOf && (forall g | g in available && g in ready :: snapshot(user, g)) :: gateOf[user] in ready
      ensures !isReady ==> gateOf == old(gateOf)
    {
      hide Linked, Filled, IsRing, Rotate, Moved, Leavings;
      UpdateEnabled(ready);
      assert isReady <==> turns != [];
      assert isReady ==> turns[0] in turns;
      ghost var q := turns;
      dropped := MoveUsersForAvailableGates(ready, snapshot);
      assert forall user | (forall g | g in available && g in ready :: snapshot(user, g)) :: AllAnswer(q, user, snapshot);
    }
  }

  /** Every one of these gates answers with a snapshot of the user. */
  predicate AllAnswer(gates: seq<GateId>, user: UserId, snapshot: (UserId, GateId) -> bool) {
    forall g | g in gates :: snapshot(user, g)
  }

  /** How often the user should have been unsubscribed from the gate: once if it was moved off it. */
  ghost function Leavings(before: map<UserId, GateId>, after: map<UserId, GateId>, user: UserId, gate: GateId): nat {
    if user in before && user in after && before[user] == gate && after[user] != gate then 1 else 0
  }

  lemma NothingLeft(gates: map<UserId, GateId>)
    ensures forall user, gate :: Leavings(gates, gates, user, gate) == 0
  {
  }

  /** Moving one user that was not moved before adds its own unsubscription and no other. */
  lemma LeftOnce(first: map<UserId, GateId>, before: map<UserId, GateId>, after: map<UserId, GateId>, userID: UserId,
                 dropped: seq<(UserId, GateId)>, left: seq<(UserId, GateId)>)
    requires userID in before && userID in first && userID in after && before[userID] == first[userID]
    requires after == before[userID := after[userID]]
    requires left == if after[userID] == before[userID] then [] else [(userID, before[userID])]
    requires forall user, gate :: multiset(dropped)[(user, gate)] == Leavings(first, before, user, gate)
    ensures forall user, gate :: multiset(dropped + left)[(user, gate)] == Leavings(first, after, user, gate)
  {
    assert multiset(dropped + left) == multiset(dropped) + multiset(left);
  }

  /** What one migration pass may do to the user's assignment. */
  ghost predicate Moved(user: UserId, before: GateId, after: GateId, ready: set<GateId>, snapshot: (UserId, GateId) -> bool) {
    before !in ready && after in ready && snapshot(user, after)
  }

  /** What a migration pass has done when the users in `todo` are still to come; `q` are the turns it began with. */
  ghost predicate Passing(first: map<UserId, GateId>, now: map<UserId, GateId>, todo: set<UserId>, q: seq<GateId>, turns: seq<GateId>,
                          ready: set<GateId>, snapshot: (UserId, GateId) -> bool, dropped: seq<(UserId, GateId)>) {
    && now.Keys == first.Keys && todo <= now.Keys
    && |turns| == |q| && (forall g | g in turns :: g in ready && g in q)
    && (forall user | user in todo :: now[user] == first[user])
    && (forall user | user in now && now[user] != first[user] :: Moved(user, first[user], now[user], ready, snapshot))
    && (forall user, gate :: multiset(dropped)[(user, gate)] == Leavings(first, now, user, gate))
    && (q != [] ==> forall user | user in now && user !in todo && AllAnswer(q, user, snapshot) :: now[user] in ready)
    && (q == [] ==> now == first)
  }

  /** Without a gate to draw nobody moves, so that it does not matter who is still to come. */
  lemma NobodyMoves(first: map<UserId, GateId>, now: map<UserId, GateId>, todo: set<UserId>, q: seq<GateId>, turns: seq<GateId>,
                    ready: set<GateId>, snapshot: (UserId, GateId) -> bool, dropped: seq<(UserId, GateId)>)
    requires Passing(first, now, todo, q, turns, ready, snapshot, dropped) && q == []
    ensures Passing(first, now, {}, q, turns, ready, snapshot, dropped)
  {
  }

  /** One user's turn, as MoveUser has it, takes the pass one user further. */
  lemma PassesOn(first: map<UserId, GateId>, before: map<UserId, GateId>, after: map<UserId, GateId>, todo: set<UserId>, userID: UserId,
                 q: seq<GateId>, turns: seq<GateId>, turns': seq<GateId>, ready: set<GateId>, snapshot: (UserId, GateId) -> bool,
                 dropped: seq<(UserId, GateId)>, left: seq<(UserId, GateId)>)
    requires Passing(first, before, todo, q, turns, ready, snapshot, dropped) && userID in todo && userID in before
    requires turns' == turns || turns' == Rotate(turns)
    requires after == before[userID :=
      if before[userID] !in ready && turns != [] && snapshot(userID, turns[0]) then turns[0] else before[userID]]
    requires left == if after[userID] == before[userID] then [] else [(userID, before[userID])]
    ensures Passing(first, after, todo - {userID}, q, turns', ready, snapshot, dropped + left)
  {
    hide Rotate, Leavings;
    RotateKeeps(turns);
    LeftOnce(first, before, after, userID, dropped, left);
    assert turns != [] ==> turns[0] in turns;
  }
}
