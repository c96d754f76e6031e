/**
  Drawing gates in turn from a circular list, as a value and as the linked ring that the router keeps.
 */
module RoundRobin {
  import opened Wrappers

  type GateId = nat

  // Turns, as values.

  function Rotate(q: seq<GateId>): (r: seq<GateId>)
    ensures |r| == |q|
  {
    if q == [] then [] else q[1..] + [q[0]]
  }

  lemma RotateKeeps(q: seq<GateId>)
    ensures forall g :: g in Rotate(q) <==> g in q
  {
    assert q != [] ==> q == [q[0]] + q[1..];
  }

  /** The first `k` gates drawn: take the head, then send it to the back. */
  function Draws(q: seq<GateId>, k: nat): (d: seq<GateId>)
    requires q != []
    ensures |d| == k
    decreases k
  {
    if k == 0 then [] else [q[0]] + Draws(Rotate(q), k - 1)
  }

  lemma DrawOne(q: seq<GateId>, k: nat)
    requires q != [] && k > 0
    ensures Draws(q, k) == [q[0]] + Draws(Rotate(q), k - 1)
  {
  }

  lemma NothingDrawn(q: seq<GateId>)
    requires q != []
    ensures Draws(q, 0) == []
  {
  }

  /** Drawing off a front part sends it to the back. */
  lemma {:induction false} DrawsOff(x: seq<GateId>, y: seq<GateId>, k: nat)
    requires x + y != []
    ensures Draws(x + y, |x| + k) == x + Draws(y + x, k)
    decreases |x|
  {
    hide Draws;
    if x == [] {
      assert x + y == y == y + x;
      assert x + Draws(y + x, k) == Draws(y + x, k);
    } else {
      var x', y' := x[1..], y + [x[0]];
      DrawOne(x + y, |x| + k);
      assert Rotate(x + y) == x' + y';
      DrawsOff(x', y', k);
      assert y' + x' == y + x;
      assert [x[0]] + (x' + Draws(y + x, k)) == x + Draws(y + x, k);
    }
  }

  lemma FirstRound(q: seq<GateId>, k: nat)
    requires q != []
    ensures Draws(q, |q| + k) == q + Draws(q, k)
  {
    hide Draws;
    DrawsOff(q, [], k);
    assert q + [] == q == [] + q;
  }

  lemma WithinARound(q: seq<GateId>, k: nat)
    requires q != [] && k <= |q|
    ensures Draws(q, k) == q[..k]
  {
    DrawsOff(q[..k], q[k..], 0);
    assert q[..k] + q[k..] == q;
  }

  lemma MultipleModulo(d: nat, m: nat, n: nat)
    requires n > 0 && m < n
    ensures (n * d + m) % n == m && (n * d + m) / n == d
  {
    var x := n * d + m;
    assert x == n * (x / n) + x % n;
    var diff := d - x / n;
    assert n * diff == x % n - m;
    SmallMultiple(n, diff);
  }

  lemma SmallMultiple(n: int, diff: int)
    requires -n < n * diff < n
    ensures diff == 0
  {
    assert n * diff == diff * n;
  }

  lemma LessARound(k: nat, n: nat)
    requires 0 < n
    ensures k >= n ==> k / n == (k - n) / n + 1 && k % n == (k - n) % n
    ensures k < n ==> k / n == 0 && k % n == k
  {
    if k >= n {
      var d, m := (k - n) / n, (k - n) % n;
      assert k - n == n * d + m;
      assert k == n * (d + 1) + m;
      MultipleModulo(d + 1, m, n);
    }
  }

  /** The draws go round: draw `i` is gate `i` modulo the number of gates. */
  lemma {:induction false} DrawAt(q: seq<GateId>, k: nat, i: nat)
    requires q != [] && i < k
    ensures Draws(q, k)[i] == q[i % |q|]
    decreases k
  {
    LessARound(i, |q|);
    if k <= |q| {
      WithinARound(q, k);
    } else {
      FirstRound(q, k - |q|);
      if i >= |q| {
        DrawAt(q, k - |q|, i - |q|);
      }
    }
  }

  /** One full round, wherever it starts, draws every gate once. */
  lemma {:induction false} FullRound(q: seq<GateId>, k: nat, from: nat)
    requires q != [] && from + |q| <= k
    ensures multiset(Draws(q, k)[from..from + |q|]) == multiset(q)
    decreases k
  {
    hide Draws;
    var n, d := |q|, Draws(q, k);
    if from >= n {
      FirstRound(q, k - n);
      FullRound(q, k - n, from - n);
      assert d[from..from + n] == Draws(q, k - n)[from - n..from];
    } else {
      var front, back := q[..from], q[from..];
      assert front + back == q;
      DrawsOff(front, back, k - from);
      FirstRound(back + front, k - from - n);
      var rest := Draws(back + front, k - from - n);
      assert d == front + ((back + front) + rest);
      assert (front + ((back + front) + rest))[from..from + n] == back + front;
    }
  }

  lemma OneMore(n: nat, m: nat)
    ensures (n + 1) * m == n * m + m
  {
  }

  /** However many are drawn, each gate has had all its turns once per full round, and at most one round more. */
  lemma {:induction false} Balanced(q: seq<GateId>, k: nat, g: GateId)
    requires q != []
    ensures k / |q| * multiset(q)[g] <= multiset(Draws(q, k))[g] <= (k / |q| + 1) * multiset(q)[g]
    decreases k
  {
    hide Draws;
    LessARound(k, |q|);
    var m := multiset(q)[g];
    if k < |q| {
      WithinARound(q, k);
      assert multiset(q) == multiset(q[..k]) + multiset(q[k..]) by {
        assert q == q[..k] + q[k..];
      }
      assert 0 * m == 0 && (0 + 1) * m == m;
    } else {
      var rest, n := Draws(q, k - |q|), (k - |q|) / |q|;
      FirstRound(q, k - |q|);
      Balanced(q, k - |q|, g);
      assert multiset(q + rest) == multiset(q) + multiset(rest);
      OneMore(n, m);
      OneMore(n + 1, m);
    }
  }

  // What a series of draws should look like.

  predicate InTurn(q: seq<GateId>, drawn: seq<GateId>)
    requires q != []
  {
    forall i | 0 <= i < |drawn| :: drawn[i] == q[i % |q|]
  }

  /** Any |q| draws in a row are every gate's turns of one round. */
  ghost predicate FullRounds(q: seq<GateId>, drawn: seq<GateId>) {
    forall from, to | 0 <= from <= to <= |drawn| && to - from == |q| :: multiset(drawn[from..to]) == multiset(q)
  }

  /** The shares of any two gates differ by one round at most. */
  ghost predicate Fair(q: seq<GateId>, drawn: seq<GateId>)
    requires q != []
  {
    var rounds := |drawn| / |q|;
    forall g :: rounds * multiset(q)[g] <= multiset(drawn)[g] <= (rounds + 1) * multiset(q)[g]
  }

  lemma DrawsAreFair(q: seq<GateId>, k: nat)
    requires q != []
    ensures InTurn(q, Draws(q, k)) && FullRounds(q, Draws(q, k)) && Fair(q, Draws(q, k))
  {
    hide Draws;
    var drawn := Draws(q, k);
    forall i | 0 <= i < k
      ensures drawn[i] == q[i % |q|]
    {
      DrawAt(q, k, i);
    }
    forall from, to | 0 <= from <= to <= k && to - from == |q|
      ensures multiset(drawn[from..to]) == multiset(q)
    {
      FullRound(q, k, from);
    }
    forall g
      ensures k / |q| * multiset(q)[g] <= multiset(drawn)[g] <= (k / |q| + 1) * multiset(q)[g]
    {
      Balanced(q, k, g);
    }
  }

  // The linked ring.

  class Ring {
    var next: Ring
    var value: Option<GateId>

    constructor ()
      ensures next == this && value == None
    {
      next, value := this, None;
    }
  }

  /** The nodes are distinct, and each one is linked to the one after it, the last to the first. */
  ghost predicate Linked(nodes: seq<Ring>)
    reads nodes
  {
    && (forall i, j | 0 <= i < j < |nodes| :: nodes[i] != nodes[j])
    && (forall i | 0 <= i < |nodes| - 1 :: nodes[i].next == nodes[i + 1])
    && (nodes != [] ==> nodes[|nodes| - 1].next == nodes[0])
  }

  ghost predicate IsRing(r: Ring?, nodes: seq<Ring>)
    reads nodes
  {
    Linked(nodes) && (r == null <==> nodes == []) && (r != null ==> r == nodes[0])
  }

  method NewRing(n: nat) returns (r: Ring?, ghost nodes: seq<Ring>)
    ensures IsRing(r, nodes) && |nodes| == n && fresh(nodes)
  {
    nodes := [];
    if n == 0 {
      return null, [];
    }
    var first := new Ring();
    var p := first;
    nodes := [first];
    for i := 1 to n
      invariant |nodes| == i && fresh(nodes) && nodes[0] == first && nodes[i - 1] == p
      invariant forall i, j | 0 <= i < j < |nodes| :: nodes[i] != nodes[j]
      invariant forall i | 0 <= i < |nodes| - 1 :: nodes[i].next == nodes[i + 1]
    {
      var q := new Ring();
      p.next := q;
      p := q;
      nodes := nodes + [q];
    }
    p.next := first;
    r := first;
  }

  /** The number of nodes, counted by walking round. */
  method Len(r: Ring?, ghost nodes: seq<Ring>) returns (n: nat)
    requires IsRing(r, nodes)
    ensures n == |nodes|
  {
    n := 0;
    if r != null {
      n := 1;
      var p := r.next;
      while p != r
        invariant 1 <= n <= |nodes|
        invariant p == if n < |nodes| then nodes[n] else nodes[0]
        decreases |nodes| - n
      {
        p := p.next;
        n := n + 1;
      }
    }
  }
}
