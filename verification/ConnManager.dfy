/**
 The connections a dialer can send commands on: a list keyed by identifier, with a cursor that
 goes round it.
 */
module ConnManager {
  import opened Wire

  /** A registered server connection; its identifier does not change. */
  class ServerConn {
    const id: Uuid
    var closed: bool

    constructor (id: Uuid)
      ensures this.id == id && !closed
    {
      this.id, closed := id, false;
    }

    /** Closing can report an error; the connection is closed all the same. */
    method Close() returns (ok: bool)
      modifies this
      ensures closed
    {
      closed := true;
      ok := *;
    }
  }

  // ---------- the list and the cursor as values ----------

  datatype Manager = Manager(conns: seq<ServerConn>, current: nat)

  /** The place of the first connection with this identifier, or the length of the list. */
  function IndexOf(conns: seq<ServerConn>, id: Uuid): (i: nat)
    ensures i <= |conns|
    ensures i < |conns| ==> conns[i].id == id
    ensures forall k :: 0 <= k < i ==> conns[k].id != id
  {
    if conns == [] then 0
    else if conns[0].id == id then 0
    else 1 + IndexOf(conns[1..], id)
  }

  function Added(conns: seq<ServerConn>, s: ServerConn): seq<ServerConn> {
    var i := IndexOf(conns, s.id);
    if i < |conns| then conns[i := s] else conns + [s]
  }

  function Removed(conns: seq<ServerConn>, id: Uuid): seq<ServerConn> {
    var i := IndexOf(conns, id);
    if i < |conns| then conns[..i] + conns[i + 1..] else conns
  }

  /** What `GetConn` yields; indexing past the end of the list is a run-time panic. */
  datatype Got = NoConn | Conn(c: ServerConn) | Panic

  function Pick(m: Manager): Got {
    if m.conns == [] then NoConn
    else if m.current < |m.conns| then Conn(m.conns[m.current])
    else Panic
  }

  /** The cursor moves on by one and comes back to the start after the last connection. */
  function Advanced(m: Manager): Manager {
    m.(current := if m.current + 1 < |m.conns| then m.current + 1 else if m.current < |m.conns| then 0 else m.current)
  }

  lemma WrapIsRemainder(i: nat, n: nat)
    requires i < n
    ensures (i + 1) % n == if i + 1 < n then i + 1 else 0
  {
  }

  predicate Distinct(conns: seq<ServerConn>) {
    forall i, k :: 0 <= i < k < |conns| ==> conns[i].id != conns[k].id
  }

  // ---------- histories ----------

  datatype Op = Add(s: ServerConn) | Remove(id: Uuid) | Get | CloseAll

  function Apply(m: Manager, op: Op): Manager {
    match op
    case Add(s) => m.(conns := Added(m.conns, s))
    case Remove(id) => m.(conns := Removed(m.conns, id))
    case Get => Advanced(m)
    case CloseAll => m.(conns := [])
  }

  function ApplyAll(m: Manager, ops: seq<Op>): Manager
    decreases |ops|
  {
    if ops == [] then m else ApplyAll(Apply(m, ops[0]), ops[1..])
  }

  /** Identifiers stay distinct under every history. */
  lemma {:induction false} IdsStayDistinct(m: Manager, ops: seq<Op>)
    requires Distinct(m.conns)
    ensures Distinct(ApplyAll(m, ops).conns)
    decreases |ops|
  {
    if ops != [] {
      IdsStayDistinct(Apply(m, ops[0]), ops[1..]);
    }
  }

  /** An added connection replaces the one with its identifier in place, or goes last. */
  lemma AddReplacesInPlace(conns: seq<ServerConn>, s: ServerConn)
    ensures var i := IndexOf(conns, s.id);
            && i < |Added(conns, s)| && Added(conns, s)[i] == s
            && |Added(conns, s)| == (if i < |conns| then |conns| else |conns| + 1)
            && (forall k :: 0 <= k < |conns| && k != i ==> Added(conns, s)[k] == conns[k])
  {
  }

  lemma {:induction false} WithoutAt(conns: seq<ServerConn>, i: nat)
    requires i < |conns|
    ensures var rest := conns[..i] + conns[i + 1..];
            && |rest| == |conns| - 1
            && (forall k :: 0 <= k < i ==> rest[k] == conns[k])
            && (forall k :: i <= k < |conns| - 1 ==> rest[k] == conns[k + 1])
  {
  }

  /** Removing takes one place out of the list and leaves the order of the others. */
  lemma {:induction false} RemovedAt(conns: seq<ServerConn>, id: Uuid)
    ensures var i, rest := IndexOf(conns, id), Removed(conns, id);
            && |rest| == (if i < |conns| then |conns| - 1 else |conns|)
            && (forall k :: 0 <= k < i ==> rest[k] == conns[k])
            && (forall k :: i <= k < |conns| - 1 ==> rest[k] == conns[k + 1])
  {
    var i := IndexOf(conns, id);
    if i < |conns| {
      WithoutAt(conns, i);
      assert Removed(conns, id) == conns[..i] + conns[i + 1..];
    }
  }

  lemma {:induction false} WithoutIn(conns: seq<ServerConn>, i: nat, c: ServerConn)
    requires Distinct(conns) && i < |conns|
    ensures c in conns[..i] + conns[i + 1..] <==> c in conns && c.id != conns[i].id
  {
    if c in conns[..i] {
      var k :| 0 <= k < i && conns[k] == c;
    }
    if c in conns[i + 1..] {
      var k :| i < k < |conns| && conns[k] == c;
    }
    if c in conns && c.id != conns[i].id {
      var k :| 0 <= k < |conns| && conns[k] == c;
      assert k < i ==> conns[..i][k] == c;
      assert k > i ==> conns[i + 1..][k - i - 1] == c;
    }
  }

  /** The removed connection is gone, and all others are still there. */
  lemma {:induction false} RemoveTakesNamesake(conns: seq<ServerConn>, id: Uuid)
    requires Distinct(conns)
    ensures forall c :: c in Removed(conns, id) <==> c in conns && c.id != id
  {
    var i := IndexOf(conns, id);
    if i < |conns| {
      forall c
        ensures c in Removed(conns, id) <==> c in conns && c.id != id
      {
        WithoutIn(conns, i, c);
      }
    }
  }

  // ---------- the cursor ----------

  /** The cursor is usable now and after connections are added. */
  predicate CursorOk(m: Manager) {
    m.current == 0 || m.current < |m.conns|
  }

  /**
   Adding and getting keep the cursor usable. Removing does exactly when it does not take away
   a connection while the cursor stands on the last of several; closing, when the cursor is at
   the start.
   */
  lemma WhatKeepsTheCursor(m: Manager, op: Op)
    requires CursorOk(m)
    ensures CursorOk(Apply(m, op)) <==>
            match op
            case Remove(id) => !(m.current > 0 && m.current == |m.conns| - 1 && IndexOf(m.conns, id) < |m.conns|)
            case CloseAll => m.current == 0
            case _ => true
  {
  }

  predicate Growing(op: Op) {
    op.Add? || op.Get?
  }

  /** No `GetConn` of this history panics. */
  predicate NoPanic(m: Manager, ops: seq<Op>)
    decreases |ops|
  {
    ops == [] || ((ops[0].Get? ==> Pick(m) != Panic) && NoPanic(Apply(m, ops[0]), ops[1..]))
  }

  lemma {:induction false} UsableCursorIsSafe(m: Manager, ops: seq<Op>)
    requires CursorOk(m) && forall op :: op in ops ==> Growing(op)
    ensures NoPanic(m, ops)
    decreases |ops|
  {
    if ops != [] {
      assert ops[0] in ops;
      WhatKeepsTheCursor(m, ops[0]);
      UsableCursorIsSafe(Apply(m, ops[0]), ops[1..]);
    }
  }

  /**
   The condition is exact: a cursor that is not usable makes `GetConn` panic at once, or as
   soon as one connection has been added to the empty list.
   */
  lemma UnusableCursorPanics(m: Manager, s: ServerConn)
    requires !CursorOk(m)
    ensures !NoPanic(m, if m.conns == [] then [Add(s), Get] else [Get])
  {
    if m.conns == [] {
      assert [Add(s), Get][1..] == [Get];
      assert Pick(Apply(m, Add(s))) == Panic;
    }
  }

  lemma ApplyCons(m: Manager, op: Op, rest: seq<Op>)
    ensures ApplyAll(m, [op] + rest) == ApplyAll(Apply(m, op), rest)
  {
    assert ([op] + rest)[1..] == rest;
  }

  /** Removing one of two connections after a single `GetConn` makes the next one panic. */
  lemma RemovalCanBreakTheCursor(a: ServerConn, b: ServerConn) returns (ops: seq<Op>)
    requires a.id != b.id
    ensures ops == [Add(a), Add(b), Get, Remove(a.id)]
    ensures Pick(ApplyAll(Manager([], 0), ops)) == Panic
  {
    ops := [Add(a)] + ([Add(b)] + ([Get] + ([Remove(a.id)] + [])));
    ApplyCons(Manager([], 0), Add(a), [Add(b)] + ([Get] + ([Remove(a.id)] + [])));
    assert IndexOf([a], b.id) == 1;
    assert Apply(Manager([a], 0), Add(b)) == Manager([a, b], 0);
    ApplyCons(Manager([a], 0), Add(b), [Get] + ([Remove(a.id)] + []));
    ApplyCons(Manager([a, b], 0), Get, [Remove(a.id)] + []);
    ApplyCons(Manager([a, b], 1), Remove(a.id), []);
    assert Apply(Manager([], 0), Add(a)) == Manager([a], 0);
    assert IndexOf([a, b], a.id) == 0 && Apply(Manager([a, b], 1), Remove(a.id)) == Manager([b], 1);
    assert ApplyAll(Manager([b], 1), []) == Manager([b], 1);
  }

  // ---------- rotation ----------

  /** The connections that `n` calls of `GetConn` return, and where they leave the cursor. */
  function Gets(m: Manager, n: nat): seq<ServerConn>
    requires m.current < |m.conns|
    decreases n
  {
    if n == 0 then [] else [Pick(m).c] + Gets(Apply(m, Get), n - 1)
  }

  function AfterGets(m: Manager, n: nat): Manager
    requires m.current < |m.conns|
    decreases n
  {
    if n == 0 then m else AfterGets(Apply(m, Get), n - 1)
  }

  lemma {:induction false} GetsSplit(m: Manager, a: nat, b: nat)
    requires m.current < |m.conns|
    ensures AfterGets(m, a).current < |AfterGets(m, a).conns|
    ensures Gets(m, a + b) == Gets(m, a) + Gets(AfterGets(m, a), b)
    ensures AfterGets(m, a + b) == AfterGets(AfterGets(m, a), b)
    decreases a
  {
    if a > 0 {
      GetsSplit(Advanced(m), a - 1, b);
    }
  }

  /** As far as the end of the list the calls go straight on; there the cursor returns to the start. */
  lemma {:induction false} Stretch(m: Manager, to: nat)
    requires m.current < |m.conns| && m.current < to <= |m.conns|
    ensures Gets(m, to - m.current) == m.conns[m.current..to]
    ensures AfterGets(m, to - m.current) == Manager(m.conns, if to == |m.conns| then 0 else to)
    decreases |m.conns| - m.current
  {
    if m.current + 1 < to {
      Stretch(Advanced(m), to);
    } else {
      assert AfterGets(m, 1) == AfterGets(Advanced(m), 0);
    }
  }

  /** The list from the cursor on, and round to it again. */
  function Rotated(m: Manager): seq<ServerConn>
    requires m.current < |m.conns|
  {
    m.conns[m.current..] + m.conns[..m.current]
  }

  lemma {:induction false} ToTheEnd(m: Manager)
    requires m.current < |m.conns|
    ensures Gets(m, |m.conns| - m.current) == m.conns[m.current..]
    ensures AfterGets(m, |m.conns| - m.current) == Manager(m.conns, 0)
  {
    Stretch(m, |m.conns|);
  }

  lemma {:induction false} FromTheStart(m: Manager, n: nat)
    requires m.current == 0 && n < |m.conns|
    ensures Gets(m, n) == m.conns[..n] && AfterGets(m, n) == Manager(m.conns, n)
  {
    if n > 0 {
      Stretch(m, n);
    }
  }

  lemma {:induction false} OneRound(m: Manager)
    requires m.current < |m.conns|
    ensures Gets(m, |m.conns|) == Rotated(m) && AfterGets(m, |m.conns|) == m
  {
    ToTheEnd(m);
    FromTheStart(Manager(m.conns, 0), m.current);
    GetsSplit(m, |m.conns| - m.current, m.current);
  }

  function Repeat(s: seq<ServerConn>, k: nat): seq<ServerConn> {
    if k == 0 then [] else s + Repeat(s, k - 1)
  }

  /** Any `k` rounds of calls go through the rotated list `k` times, and leave the cursor where it was. */
  lemma {:induction false} RoundsRepeat(m: Manager, k: nat)
    requires m.current < |m.conns|
    ensures Gets(m, k * |m.conns|) == Repeat(Rotated(m), k) && AfterGets(m, k * |m.conns|) == m
  {
    if k > 0 {
      RoundsRepeat(m, k - 1);
      OneMore(k, |m.conns|);
      AnotherRound(m, (k - 1) * |m.conns|);
    }
  }

  lemma {:induction false} AnotherRound(m: Manager, n: nat)
    requires m.current < |m.conns|
    ensures Gets(m, |m.conns| + n) == Rotated(m) + Gets(m, n) && AfterGets(m, |m.conns| + n) == AfterGets(m, n)
  {
    OneRound(m);
    GetsSplit(m, |m.conns|, n);
  }

  lemma OneMore(k: nat, n: nat)
    requires k > 0
    ensures k * n == n + (k - 1) * n
  {
  }

  /** So each connection is returned exactly `k` times. */
  lemma {:induction false} RoundRobinIsFair(m: Manager, k: nat, c: ServerConn)
    requires m.current < |m.conns| && Distinct(m.conns)
    ensures multiset(Gets(m, k * |m.conns|))[c] == if c in m.conns then k else 0
  {
    RoundsRepeat(m, k);
    assert m.conns == m.conns[..m.current] + m.conns[m.current..];
    assert multiset(Rotated(m)) == multiset(m.conns);
    OnceEach(m.conns, c);
    Multiplicity(Rotated(m), k, c);
  }

  lemma {:induction false} Multiplicity(s: seq<ServerConn>, k: nat, c: ServerConn)
    ensures multiset(Repeat(s, k))[c] == k * multiset(s)[c]
  {
    if k > 0 {
      Multiplicity(s, k - 1, c);
      OneMore(k, multiset(s)[c]);
    }
  }

  lemma {:induction false} OnceEach(conns: seq<ServerConn>, c: ServerConn)
    requires Distinct(conns)
    ensures multiset(conns)[c] == if c in conns then 1 else 0
  {
    if conns != [] {
      assert conns == [conns[0]] + conns[1..];
      OnceEach(conns[1..], c);
    }
  }

  // ---------- the object ----------

  class ConnManager {
    var connections: seq<ServerConn>
    var current: nat

    constructor ()
      ensures connections == [] && current == 0
    {
      connections, current := [], 0;
    }

    function Value(): Manager
      reads this
    {
      Manager(connections, current)
    }

    method AddConnection(s: ServerConn)
      modifies this`connections, connections
      ensures Value() == Apply(old(Value()), Add(s))
      ensures var i := IndexOf(old(connections), s.id);
              && (i < |old(connections)| ==> old(connections)[i].closed)
              && (forall c :: c in old(connections) && (i < |old(connections)| ==> c != old(connections)[i]) ==>
                    c.closed == old(c.closed))
    {
      var i := 0;
      while i < |connections|
        invariant i <= |connections| && connections == old(connections)
        invariant forall k :: 0 <= k < i ==> connections[k].id != s.id
        invariant forall c :: c in connections ==> c.closed == old(c.closed)
      {
        if connections[i].id == s.id {
          FirstIndex(connections, s.id, i);
          var _ := connections[i].Close();
          connections := connections[i := s];
          return;
        }
        i := i + 1;
      }
      FirstIndex(connections, s.id, i);
      connections := connections + [s];
    }

    method RemoveConnection(id: Uuid)
      modifies this`connections, connections
      ensures Value() == Apply(old(Value()), Remove(id))
      ensures Distinct(old(connections)) ==>
                forall c :: c in connections <==> c in old(connections) && c.id != id
      ensures var i := IndexOf(old(connections), id);
              && (i < |old(connections)| ==> old(connections)[i].closed)
              && (forall c :: c in old(connections) && (i < |old(connections)| ==> c != old(connections)[i]) ==>
                    c.closed == old(c.closed))
    {
      ghost var before := connections;
      if Distinct(before) {
        RemoveTakesNamesake(before, id);
      }
      var i := 0;
      while i < |connections|
        invariant i <= |connections| && connections == old(connections)
        invariant forall k :: 0 <= k < i ==> connections[k].id != id
        invariant forall c :: c in connections ==> c.closed == old(c.closed)
      {
        if connections[i].id == id {
          FirstIndex(connections, id, i);
          var _ := connections[i].Close();
          connections := connections[..i] + connections[i + 1..];
          return;
        }
        i := i + 1;
      }
      FirstIndex(connections, id, i);
    }

    method GetConn() returns (r: Got)
      modifies this`current
      ensures r == Pick(old(Value())) && Value() == Apply(old(Value()), Get)
      ensures old(connections) == [] ==> r == NoConn
      ensures old(current) < |old(connections)| ==>
                r == Conn(old(connections)[old(current)]) && current == (old(current) + 1) % |old(connections)|
      ensures old(connections) != [] && old(current) >= |old(connections)| ==> r == Panic
    {
      if connections == [] {
        return NoConn;
      }
      if current >= |connections| {
        return Panic;
      }
      r := Conn(connections[current]);
      WrapIsRemainder(current, |connections|);
      current := (current + 1) % |connections|;
    }

    method Close() returns (ok: bool)
      modifies this`connections, connections
      ensures Value() == Apply(old(Value()), CloseAll)
      ensures forall c :: c in old(connections) ==> c.closed
    {
      ok := true;
      var i := 0;
      while i < |connections|
        invariant i <= |connections| && connections == old(connections)
        invariant forall c :: c in connections[..i] ==> c.closed
      {
        var closed := connections[i].Close();
        ok := ok && closed;
        assert connections[..i + 1] == connections[..i] + [connections[i]];
        i := i + 1;
      }
      assert connections[..i] == connections;
      connections := [];
    }
  }

  /** A search that has passed over `i` connections and found one, or the end, has found the first. */
  lemma FirstIndex(conns: seq<ServerConn>, id: Uuid, i: nat)
    requires i <= |conns| && (forall k :: 0 <= k < i ==> conns[k].id != id)
    requires i < |conns| ==> conns[i].id == id
    ensures IndexOf(conns, id) == i
  {
  }
}
