/** The operations on the map of pending requests. */
module RequestMap {
  import opened Wire

  function Added<K(==), R>(requests: map<K, R>, id: K, r: R): map<K, R> {
    requests[id := r]
  }

  function Removed<K(==), R>(requests: map<K, R>, id: K): map<K, R> {
    requests - {id}
  }

  function Found<K(==), R>(requests: map<K, R>, id: K): Option<R> {
    if id in requests then Some(requests[id]) else None
  }
}

/**
 The rendezvous of dials and bound connections: a dial publishes a request and a connect
 command, and some connection comes back bound to its identifier.

 Every step is one lock section or one channel operation; any number of dials, handlers and
 cancellations interleave.
 */
module Rendezvous {
  import opened Wire
  import opened RequestMap

  /** Request identifiers; nothing depends on what they are made of. */
  type Id(==, !new)

  datatype Result = Got(conn: nat) | CtxErr | SendErr

  /** Where a `DialContext` stands; `Leaving` has its result but has not withdrawn its request. */
  datatype Stage = Sending | Waiting | Leaving(r: Result) | Returned(r: Result)

  /**
   `ch` is the content of the request's channel, which has room for one connection; `partner`
   is the connection whose lookup found the request.
   */
  datatype Dial = Dial(id: Id, stage: Stage, published: bool, cancelled: bool, ch: Option<nat>, partner: Option<nat>)

  /** Where a connection bound to an identifier stands. */
  datatype Place = Bound | Matched(dial: nat) | InChannel(dial: nat) | Delivered(dial: nat) | Closed

  /** `v2` tells streams of a mux session from connections of their own. */
  datatype BoundConn = BoundConn(id: Id, v2: bool, place: Place)

  /**
   `looked` holds the identifiers that some bound connection has been looked up under, `issued`
   the dial that each identifier was made for.
   */
  datatype System = System(dials: seq<Dial>, conns: seq<BoundConn>, requests: map<Id, nat>,
                           looked: set<Id>, issued: map<Id, nat>, stopped: bool)

  const INIT := System([], [], map[], {}, map[], false)

  datatype Action =
    | StartDial(id: Id)
    | Publish(d: nat)
    | SendOk(d: nat)
    | SendFail(d: nat)
    | CancelDial(d: nat)
    | Receive(d: nat)
    | GiveUp(d: nat)
    | Leave(d: nat)
    | Bind(id: Id, v2: bool)
    | Lookup(c: nat)
    | Deliver(c: nat)
    | Drop(c: nat)
    | StopDialer

  predicate Finished(s: Stage) {
    s.Leaving? || s.Returned?
  }

  /** Fresh identifiers: no dial has had this one, and nobody has asked for it yet. */
  predicate Fresh(y: System, id: Id) {
    id !in y.issued && id !in y.looked
  }

  predicate DialAt(y: System, d: nat) {
    d < |y.dials|
  }

  /** A handler holds this connection and the request it took out of the map. */
  predicate MatchedAt(y: System, c: nat) {
    c < |y.conns| && y.conns[c].place.Matched? && y.conns[c].place.dial < |y.dials|
  }

  predicate Enabled(a: Action, y: System) {
    match a
    case StartDial(id) => Fresh(y, id)
    case Publish(d) => DialAt(y, d) && y.dials[d].stage.Sending?
    case SendOk(d) => DialAt(y, d) && y.dials[d].stage.Sending? && y.dials[d].published
    case SendFail(d) => DialAt(y, d) && y.dials[d].stage.Sending?
    case CancelDial(d) => DialAt(y, d)
    case Receive(d) =>
      DialAt(y, d) && y.dials[d].stage.Waiting? && y.dials[d].ch.Some? && y.dials[d].ch.value < |y.conns|
    case GiveUp(d) => DialAt(y, d) && y.dials[d].stage.Waiting? && y.dials[d].cancelled
    case Leave(d) => DialAt(y, d) && y.dials[d].stage.Leaving?
    case Bind(id, _) => true
    case Lookup(c) => c < |y.conns| && y.conns[c].place.Bound?
    case Deliver(c) => MatchedAt(y, c) && y.dials[y.conns[c].place.dial].ch.None?
    case Drop(c) => MatchedAt(y, c) && (y.dials[y.conns[c].place.dial].cancelled || (y.conns[c].v2 && y.stopped))
    case StopDialer => true
  }

  function SetDial(y: System, d: nat, dial: Dial): System
    requires DialAt(y, d)
  {
    y.(dials := y.dials[d := dial])
  }

  function PutAt(y: System, c: nat, place: Place): System
    requires c < |y.conns|
  {
    y.(conns := y.conns[c := y.conns[c].(place := place)])
  }

  function LookupStep(y: System, c: nat): System
    requires c < |y.conns|
  {
    var id := y.conns[c].id;
    var y' := y.(requests := Removed(y.requests, id), looked := y.looked + {id});
    match Found(y.requests, id)
    case None => PutAt(y', c, Closed)
    case Some(d) =>
      var paired := PutAt(y', c, Matched(d));
      if d < |y.dials| then SetDial(paired, d, y.dials[d].(partner := Some(c))) else paired
  }

  function Next(a: Action, y: System): System
    requires Enabled(a, y)
  {
    match a
    case StartDial(id) =>
      y.(dials := y.dials + [Dial(id, Sending, false, false, None, None)],
         requests := Added(y.requests, id, |y.dials|), issued := y.issued[id := |y.dials|])
    case Publish(d) => SetDial(y, d, y.dials[d].(published := true))
    case SendOk(d) => SetDial(y, d, y.dials[d].(stage := Waiting))
    case SendFail(d) => SetDial(y, d, y.dials[d].(stage := Leaving(SendErr)))
    case CancelDial(d) => SetDial(y, d, y.dials[d].(cancelled := true))
    case Receive(d) =>
      var c := y.dials[d].ch.value;
      PutAt(SetDial(y, d, y.dials[d].(stage := Leaving(Got(c)), ch := None)), c, Delivered(d))
    case GiveUp(d) => SetDial(y, d, y.dials[d].(stage := Leaving(CtxErr)))
    case Leave(d) =>
      SetDial(y, d, y.dials[d].(stage := Returned(y.dials[d].stage.r))).(requests := Removed(y.requests, y.dials[d].id))
    case Bind(id, v2) => y.(conns := y.conns + [BoundConn(id, v2, Bound)])
    case Lookup(c) => LookupStep(y, c)
    case Deliver(c) =>
      var d := y.conns[c].place.dial;
      PutAt(SetDial(y, d, y.dials[d].(ch := Some(c))), c, InChannel(d))
    case Drop(c) => PutAt(y, c, Closed)
    case StopDialer => y.(stopped := true)
  }

  // ---------- the invariant ----------

  /** The dial a connection has been paired with, if any. */
  function Pairing(p: Place): Option<nat> {
    match p
    case Matched(d) => Some(d)
    case InChannel(d) => Some(d)
    case Delivered(d) => Some(d)
    case _ => None
  }

  predicate HasGot(dial: Dial, c: nat) {
    Finished(dial.stage) && dial.stage.r == Got(c)
  }

  /** A paired connection and its dial carry the same identifier and point at each other. */
  ghost predicate ConnOk(y: System, c: nat)
    requires c < |y.conns|
  {
    match Pairing(y.conns[c].place)
    case None => true
    case Some(d) =>
      && d < |y.dials| && y.dials[d].partner == Some(c) && y.dials[d].id == y.conns[c].id
      && (y.dials[d].ch == if y.conns[c].place.InChannel? then Some(c) else None)
      && (HasGot(y.dials[d], c) <==> y.conns[c].place.Delivered?)
  }

  ghost predicate DialOk(y: System, d: nat)
    requires d < |y.dials|
  {
    var dial := y.dials[d];
    && dial.id in y.issued && y.issued[dial.id] == d
    && (dial.id in y.requests <==> !dial.stage.Returned? && dial.id !in y.looked)
    && (dial.ch.Some? ==> dial.ch == dial.partner)
    && (dial.partner.Some? ==>
          && dial.partner.value < |y.conns| && y.conns[dial.partner.value].id == dial.id && dial.id in y.looked
          && (dial.ch.Some? ==> y.conns[dial.partner.value].place == InChannel(d)))
    && (Finished(dial.stage) ==>
          match dial.stage.r
          case Got(c) => dial.partner == Some(c) && c < |y.conns| && y.conns[c].place == Delivered(d)
          case CtxErr => dial.cancelled
          case SendErr => true)
    && (dial.stage.Waiting? ==> dial.published)
  }

  ghost predicate IdOk(y: System, id: Id) {
    && (id in y.issued ==> y.issued[id] < |y.dials| && y.dials[y.issued[id]].id == id)
    && (id in y.requests ==> id in y.issued && y.requests[id] == y.issued[id])
  }

  ghost predicate Inv(y: System) {
    && (forall c: nat | c < |y.conns| :: ConnOk(y, c))
    && (forall d: nat | d < |y.dials| :: DialOk(y, d))
    && (forall id :: IdOk(y, id))
  }

  // ---------- every step keeps it ----------

  /** What has to be shown of a step: each element of the new state is as it should be. */
  lemma StartKeeps(y: System, id: Id)
    requires Inv(y) && Enabled(StartDial(id), y)
    ensures Inv(Next(StartDial(id), y))
  {
    var y' := Next(StartDial(id), y);
    forall c: nat | c < |y'.conns| ensures ConnOk(y', c) { assert ConnOk(y, c); }
    forall d: nat | d < |y'.dials| ensures DialOk(y', d) {
      if d < |y.dials| { assert DialOk(y, d); }
    }
    forall i ensures IdOk(y', i) { assert IdOk(y, i); }
  }

  lemma LookupNothingKeeps(y: System, c: nat)
    requires Inv(y) && Enabled(Lookup(c), y) && Found(y.requests, y.conns[c].id) == None
    ensures Inv(LookupStep(y, c))
  {
    var id, y' := y.conns[c].id, LookupStep(y, c);
    assert ConnOk(y, c) && IdOk(y, id);
    forall b: nat | b < |y'.conns| ensures ConnOk(y', b) { assert ConnOk(y, b); }
    forall d: nat | d < |y'.dials| ensures DialOk(y', d) { assert DialOk(y, d); }
    forall i ensures IdOk(y', i) { assert IdOk(y, i); }
  }

  lemma LookupFindsKeeps(y: System, c: nat, d0: nat)
    requires Inv(y) && Enabled(Lookup(c), y) && Found(y.requests, y.conns[c].id) == Some(d0)
    ensures Inv(LookupStep(y, c))
  {
    var id, y' := y.conns[c].id, LookupStep(y, c);
    assert ConnOk(y, c) && IdOk(y, id);
    assert DialOk(y, d0);
    forall b: nat | b < |y'.conns| ensures ConnOk(y', b) { assert ConnOk(y, b); }
    forall d: nat | d < |y'.dials| ensures DialOk(y', d) { assert DialOk(y, d); }
    forall i ensures IdOk(y', i) { assert IdOk(y, i); }
  }

  lemma LookupKeeps(y: System, c: nat)
    requires Inv(y) && Enabled(Lookup(c), y)
    ensures Inv(LookupStep(y, c))
  {
    match Found(y.requests, y.conns[c].id)
    case None => LookupNothingKeeps(y, c);
    case Some(d) => LookupFindsKeeps(y, c, d);
  }

  lemma DeliverKeeps(y: System, c: nat)
    requires Inv(y) && Enabled(Deliver(c), y)
    ensures Inv(Next(Deliver(c), y))
  {
    var d0, y' := y.conns[c].place.dial, Next(Deliver(c), y);
    assert ConnOk(y, c) && DialOk(y, d0);
    forall b: nat | b < |y'.conns| ensures ConnOk(y', b) { assert ConnOk(y, b); }
    forall d: nat | d < |y'.dials| ensures DialOk(y', d) { assert DialOk(y, d); }
    forall i ensures IdOk(y', i) { assert IdOk(y, i); }
  }

  lemma ReceiveKeeps(y: System, d0: nat)
    requires Inv(y) && Enabled(Receive(d0), y)
    ensures Inv(Next(Receive(d0), y))
  {
    var c, y' := y.dials[d0].ch.value, Next(Receive(d0), y);
    assert ConnOk(y, c) && DialOk(y, d0);
    forall b: nat | b < |y'.conns| ensures ConnOk(y', b) { assert ConnOk(y, b); }
    forall d: nat | d < |y'.dials| ensures DialOk(y', d) { assert DialOk(y, d); }
    forall i ensures IdOk(y', i) { assert IdOk(y, i); }
  }

  lemma LeaveKeeps(y: System, d0: nat)
    requires Inv(y) && Enabled(Leave(d0), y)
    ensures Inv(Next(Leave(d0), y))
  {
    var y' := Next(Leave(d0), y);
    assert DialOk(y, d0);
    forall b: nat | b < |y'.conns| ensures ConnOk(y', b) { assert ConnOk(y, b); }
    forall d: nat | d < |y'.dials| ensures DialOk(y', d) { assert DialOk(y, d); }
    forall i ensures IdOk(y', i) { assert IdOk(y, i); }
  }

  lemma BindKeeps(y: System, id: Id, v2: bool)
    requires Inv(y)
    ensures Inv(Next(Bind(id, v2), y))
  {
    var y' := Next(Bind(id, v2), y);
    forall b: nat | b < |y'.conns| ensures ConnOk(y', b) {
      if b < |y.conns| { assert ConnOk(y, b); }
    }
    forall d: nat | d < |y'.dials| ensures DialOk(y', d) { assert DialOk(y, d); }
    forall i ensures IdOk(y', i) { assert IdOk(y, i); }
  }

  lemma DropKeeps(y: System, c: nat)
    requires Inv(y) && Enabled(Drop(c), y)
    ensures Inv(Next(Drop(c), y))
  {
    var y' := Next(Drop(c), y);
    assert ConnOk(y, c);
    forall b: nat | b < |y'.conns| ensures ConnOk(y', b) { assert ConnOk(y, b); }
    forall d: nat | d < |y'.dials| ensures DialOk(y', d) { assert DialOk(y, d); }
    forall i ensures IdOk(y', i) { assert IdOk(y, i); }
  }

  lemma StageKeeps(a: Action, y: System)
    requires Inv(y) && Enabled(a, y)
    requires a.Publish? || a.SendOk? || a.SendFail? || a.CancelDial? || a.GiveUp? || a.StopDialer?
    ensures Inv(Next(a, y))
  {
    var y' := Next(a, y);
    forall b: nat | b < |y'.conns| ensures ConnOk(y', b) { assert ConnOk(y, b); }
    forall d: nat | d < |y'.dials| ensures DialOk(y', d) { assert DialOk(y, d); }
    forall i ensures IdOk(y', i) { assert IdOk(y, i); }
  }

  lemma StepKeeps(a: Action, y: System)
    requires Inv(y) && Enabled(a, y)
    ensures Inv(Next(a, y))
  {
    match a
    case StartDial(id) => StartKeeps(y, id);
    case Receive(d) => ReceiveKeeps(y, d);
    case Leave(d) => LeaveKeeps(y, d);
    case Bind(id, v2) => BindKeeps(y, id, v2);
    case Lookup(c) => LookupKeeps(y, c);
    case Deliver(c) => DeliverKeeps(y, c);
    case Drop(c) => DropKeeps(y, c);
    case _ => StageKeeps(a, y);
  }

  // ---------- every run ----------

  ghost function Play(y: System, run: seq<Action>): Option<System>
    decreases |run|
  {
    if run == [] then Some(y)
    else if Enabled(run[0], y) then Play(Next(run[0], y), run[1..])
    else None
  }

  ghost predicate Reaches(run: seq<Action>, y: System) {
    Play(INIT, run) == Some(y)
  }

  lemma {:induction false} PlayKeepsInv(y: System, run: seq<Action>)
    requires Inv(y) && Play(y, run).Some?
    ensures Inv(Play(y, run).value)
    decreases |run|
  {
    if run != [] {
      StepKeeps(run[0], y);
      PlayKeepsInv(Next(run[0], y), run[1..]);
    }
  }

  /** A dial returns only a connection bound with its own identifier, and no two dials return the same one. */
  lemma ExclusiveDelivery(run: seq<Action>, y: System, d: nat, e: nat, c: nat)
    requires Reaches(run, y) && DialAt(y, d) && DialAt(y, e)
    requires HasGot(y.dials[d], c)
    ensures c < |y.conns| && y.conns[c].id == y.dials[d].id && y.conns[c].place == Delivered(d)
    ensures HasGot(y.dials[e], c) ==> d == e
  {
    PlayKeepsInv(INIT, run);
    assert DialOk(y, d) && DialOk(y, e);
    assert ConnOk(y, c);
  }

  /**
   A handler that took a request out of the map can always hand over its connection without
   waiting, and no second handler ever holds the same request.
   */
  lemma SendNeverBlocks(run: seq<Action>, y: System, c: nat)
    requires Reaches(run, y) && c < |y.conns| && y.conns[c].place.Matched?
    ensures Enabled(Deliver(c), y)
    ensures forall b :: 0 <= b < |y.conns| && Pairing(y.conns[b].place) == Some(y.conns[c].place.dial) ==> b == c
  {
    PlayKeepsInv(INIT, run);
    assert ConnOk(y, c);
    forall b | 0 <= b < |y.conns| && Pairing(y.conns[b].place) == Some(y.conns[c].place.dial)
      ensures b == c
    {
      assert ConnOk(y, b);
    }
  }

  /**
   No match is lost: the first connection to ask for a dial's identifier finds the request
   exactly when that dial has not returned, and a later one is closed.
   */
  lemma NoLostMatch(run: seq<Action>, y: System, c: nat)
    requires Reaches(run, y) && Enabled(Lookup(c), y)
    ensures var id, place := y.conns[c].id, Next(Lookup(c), y).conns[c].place;
            if id in y.issued && id !in y.looked then
              && y.issued[id] < |y.dials| && y.dials[y.issued[id]].id == id
              && place == if y.dials[y.issued[id]].stage.Returned? then Closed else Matched(y.issued[id])
            else place == Closed
  {
    PlayKeepsInv(INIT, run);
    var id := y.conns[c].id;
    assert IdOk(y, id);
    if id in y.issued {
      assert DialOk(y, y.issued[id]);
    }
  }

  /**
   A dial's request is in the map, as that dial's, exactly from before its command can be on its
   way until a bound connection asks for it or the dial returns.
   */
  lemma RequestStaysUntilServed(run: seq<Action>, y: System, d: nat)
    requires Reaches(run, y) && DialAt(y, d)
    ensures y.dials[d].id in y.requests <==> !y.dials[d].stage.Returned? && y.dials[d].id !in y.looked
    ensures y.dials[d].id in y.requests ==> y.requests[y.dials[d].id] == d
  {
    PlayKeepsInv(INIT, run);
    assert DialOk(y, d);
    assert IdOk(y, y.dials[d].id);
  }

  /** Nothing stays in the map for a dial that has returned. */
  lemma MapHygiene(run: seq<Action>, y: System, id: Id)
    requires Reaches(run, y) && id in y.requests
    ensures y.requests[id] < |y.dials| && y.dials[y.requests[id]].id == id && !y.dials[y.requests[id]].stage.Returned?
  {
    PlayKeepsInv(INIT, run);
    assert IdOk(y, id);
    assert DialOk(y, y.requests[id]);
  }

  /** A connection that has been closed or delivered stays so: nothing is delivered after it was closed. */
  lemma FinalPlaces(a: Action, y: System, c: nat)
    requires Inv(y) && Enabled(a, y) && c < |y.conns| && (y.conns[c].place.Closed? || y.conns[c].place.Delivered?)
    ensures c < |Next(a, y).conns| && Next(a, y).conns[c].place == y.conns[c].place
  {
    if a.Receive? {
      assert DialOk(y, a.d);
    }
  }

  lemma KeepsOn(a: Action, y: System, c: nat)
    requires Inv(y) && Enabled(a, y) && MatchedAt(y, c)
    ensures var d, z := y.conns[c].place.dial, Next(a, y);
            && c < |z.conns| && d < |z.dials| && z.conns[c].v2 == y.conns[c].v2
            && (y.dials[d].cancelled ==> z.dials[d].cancelled) && (y.stopped ==> z.stopped)
            && (z.conns[c].place == Matched(d) || z.conns[c].place == InChannel(d)
                || (z.conns[c].place == Closed && (z.dials[d].cancelled || (z.conns[c].v2 && z.stopped))))
  {
    assert ConnOk(y, c);
    if a.Receive? {
      assert DialOk(y, a.d);
    }
  }

  lemma StaysHandedOver(a: Action, y: System, c: nat, d: nat)
    requires Inv(y) && Enabled(a, y) && c < |y.conns|
    requires y.conns[c].place == InChannel(d) || y.conns[c].place == Delivered(d)
    ensures c < |Next(a, y).conns|
    ensures Next(a, y).conns[c].place == InChannel(d) || Next(a, y).conns[c].place == Delivered(d)
  {
    assert ConnOk(y, c);
    if a.Receive? {
      assert DialOk(y, a.d);
    }
  }

  /** Where a connection that found the request of dial `d` can be later on. */
  ghost predicate KeptFor(y: System, c: nat, d: nat) {
    && c < |y.conns| && d < |y.dials|
    && match y.conns[c].place
       case Bound => false
       case Matched(e) => e == d
       case InChannel(e) => e == d
       case Delivered(e) => e == d
       case Closed => y.dials[d].cancelled || (y.conns[c].v2 && y.stopped)
  }

  lemma KeptByStep(a: Action, y: System, c: nat, d: nat)
    requires Inv(y) && Enabled(a, y) && KeptFor(y, c, d)
    ensures KeptFor(Next(a, y), c, d)
  {
    match y.conns[c].place
    case Matched(_) => KeepsOn(a, y, c);
    case Closed => FinalPlaces(a, y, c);
    case InChannel(_) => StaysHandedOver(a, y, c, d);
    case Delivered(_) => StaysHandedOver(a, y, c, d);
  }

  /**
   A connection that found its request is kept for that dial, however the run goes on: it is closed
   only if the dial's context was cancelled or, for a stream, the dialer was stopped.
   */
  lemma {:induction false} MatchedIsKept(y: System, run: seq<Action>, c: nat, d: nat)
    requires Inv(y) && KeptFor(y, c, d) && Play(y, run).Some?
    ensures KeptFor(Play(y, run).value, c, d)
    decreases |run|
  {
    if run != [] {
      KeptByStep(run[0], y, c, d);
      StepKeeps(run[0], y);
      MatchedIsKept(Next(run[0], y), run[1..], c, d);
    }
  }

  /** A dial gives up without a connection only when its context was cancelled or its command could not be sent. */
  lemma GivesUpForAReason(run: seq<Action>, y: System, d: nat)
    requires Reaches(run, y) && DialAt(y, d) && Finished(y.dials[d].stage) && !y.dials[d].stage.r.Got?
    ensures y.dials[d].cancelled || y.dials[d].stage.r == SendErr
  {
    PlayKeepsInv(INIT, run);
    assert DialOk(y, d);
  }

  /** Nothing is under way any more: handlers have finished and dials have returned. */
  predicate Quiet(y: System) {
    && (forall c :: 0 <= c < |y.conns| ==> !y.conns[c].place.Bound? && !y.conns[c].place.Matched?)
    && (forall d :: 0 <= d < |y.dials| ==> y.dials[d].stage.Returned?)
  }

  /**
   When all is quiet every bound connection is accounted for: closed, returned by the dial it
   was delivered to, or left in the channel of a dial that returned an error, which is either
   that its context was cancelled or that its command could not be sent.
   */
  lemma Conservation(run: seq<Action>, y: System, c: nat)
    requires Reaches(run, y) && Quiet(y) && c < |y.conns|
    ensures match y.conns[c].place
            case Closed => true
            case Delivered(d) => d < |y.dials| && y.dials[d].stage == Returned(Got(c))
            case InChannel(d) =>
              && d < |y.dials| && y.dials[d].ch == Some(c)
              && (|| (y.dials[d].stage == Returned(CtxErr) && y.dials[d].cancelled)
                  || y.dials[d].stage == Returned(SendErr))
            case _ => false
  {
    PlayKeepsInv(INIT, run);
    assert ConnOk(y, c);
    var p := Pairing(y.conns[c].place);
    if p.Some? {
      assert DialOk(y, p.value);
      assert y.dials[p.value].stage.Returned?;
    }
  }

  lemma PlayCons(a: Action, y: System, rest: seq<Action>)
    requires Enabled(a, y)
    ensures Play(y, [a] + rest) == Play(Next(a, y), rest)
  {
    assert ([a] + rest)[1..] == rest;
  }

  /** A dial whose command has gone out, and the connection that has found its request. */
  function MatchedState(id: Id): System {
    System([Dial(id, Sending, true, false, None, Some(0))], [BoundConn(id, false, Matched(0))],
           map[], {id}, map[id := 0], false)
  }

  lemma ReachesMatched(id: Id, rest: seq<Action>)
    ensures Play(INIT, [StartDial(id)] + ([Publish(0)] + ([Bind(id, false)] + ([Lookup(0)] + rest))))
         == Play(MatchedState(id), rest)
  {
    var y1 := Next(StartDial(id), INIT);
    var y2 := Next(Publish(0), y1);
    var y3 := Next(Bind(id, false), y2);
    PlayCons(StartDial(id), INIT, [Publish(0)] + ([Bind(id, false)] + ([Lookup(0)] + rest)));
    PlayCons(Publish(0), y1, [Bind(id, false)] + ([Lookup(0)] + rest));
    PlayCons(Bind(id, false), y2, [Lookup(0)] + rest);
    PlayCons(Lookup(0), y3, rest);
    assert Next(Lookup(0), y3) == MatchedState(id);
  }

  /**
   The second kind of error is real: a command that was acted on although its sender saw an
   error leaves a connection behind in the channel of a dial whose context is alive.
   */
  lemma ParkedWithLiveContext(id: Id) returns (run: seq<Action>, y: System)
    ensures Reaches(run, y) && Quiet(y)
    ensures |y.conns| == 1 && y.conns[0].place == InChannel(0)
    ensures |y.dials| == 1 && !y.dials[0].cancelled && y.dials[0].stage == Returned(SendErr)
  {
    var y4 := MatchedState(id);
    var y5 := Next(Deliver(0), y4);
    var y6 := Next(SendFail(0), y5);
    y := Next(Leave(0), y6);
    var rest := [Deliver(0)] + ([SendFail(0)] + ([Leave(0)] + []));
    PlayCons(Deliver(0), y4, [SendFail(0)] + ([Leave(0)] + []));
    PlayCons(SendFail(0), y5, [Leave(0)] + []);
    PlayCons(Leave(0), y6, []);
    ReachesMatched(id, rest);
    run := [StartDial(id)] + ([Publish(0)] + ([Bind(id, false)] + ([Lookup(0)] + rest)));
  }
}
