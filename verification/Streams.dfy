/**
 The stream counters: one per connection, one for the pool, and goroutines that read and update
 them one atomic operation at a time.

 Streams and connections are numbered; a connection keeps its number and its counters after
 the pool has let go of it.
 */
module Streams {
  import opened Wire

  /**
   Where one `Pool.OpenStream` call and the stream it yields stand. The selection loop has read the
   first `next` counters and found `least` to be the smallest number there; then the call has
   chosen, the connection's active count is raised and then its total, then the two of the pool.
   Closing lowers the pool's active count first.
   */
  datatype Stage =
    | Scanning(next: nat, least: int)
    | Chosen(least: int)
    | Raised
    | Counted
    | PoolRaised
    | Open
    | Closing
    | Closed
    | Failed

  /** `conn` is the connection of the stream, or the best one its call has found so far. */
  datatype Stream = Stream(conn: nat, stage: Stage)

  /** The counters of a connection. */
  datatype Counter = Counter(active: int, total: int)

  /** `pooled` lists the connections that the pool holds at present. */
  datatype System = System(streams: seq<Stream>, counters: seq<Counter>, pooled: seq<nat>,
                           poolActive: int, poolTotal: int)

  const INIT := System([], [], [], 0, 0)

  datatype Action =
    | AddConn
    | RemoveConn(i: nat)
    | Begin
    | Load(s: nat)
    | Choose(s: nat)
    | Refuse(s: nat)
    | Raise(s: nat)
    | Count(s: nat)
    | RaisePool(s: nat)
    | CountPool(s: nat)
    | ClosePool(s: nat)
    | CloseConn(s: nat)
    | CloseAgain(s: nat)

  /** The stream and the connections that the pool lists are there. */
  predicate At(y: System, s: nat) {
    s < |y.streams| && y.streams[s].conn < |y.counters|
  }

  predicate Listed(y: System, i: nat) {
    i < |y.pooled| && y.pooled[i] < |y.counters|
  }

  /** Selection holds the pool's lock for reading, which keeps out what changes the list. */
  predicate Unlocked(y: System) {
    forall s :: 0 <= s < |y.streams| ==> !y.streams[s].stage.Scanning?
  }

  predicate Enabled(a: Action, y: System) {
    match a
    case AddConn => Unlocked(y)
    case RemoveConn(i) => i < |y.pooled| && Unlocked(y)
    case Begin => Listed(y, 0)
    case Load(s) => At(y, s) && y.streams[s].stage.Scanning? && Listed(y, y.streams[s].stage.next)
    case Choose(s) => At(y, s) && y.streams[s].stage.Scanning? && y.streams[s].stage.next == |y.pooled|
    case Refuse(s) => At(y, s) && y.streams[s].stage.Chosen?
    case Raise(s) => At(y, s) && y.streams[s].stage.Chosen?
    case Count(s) => At(y, s) && y.streams[s].stage.Raised?
    case RaisePool(s) => At(y, s) && y.streams[s].stage.Counted?
    case CountPool(s) => At(y, s) && y.streams[s].stage.PoolRaised?
    case ClosePool(s) => At(y, s) && y.streams[s].stage.Open?
    case CloseConn(s) => At(y, s) && y.streams[s].stage.Closing?
    case CloseAgain(s) => At(y, s) && (y.streams[s].stage.Closing? || y.streams[s].stage.Closed?)
  }

  function Put(y: System, s: nat, x: Stream): System
    requires s < |y.streams|
  {
    y.(streams := y.streams[s := x])
  }

  function Move(y: System, s: nat, stage: Stage): System
    requires s < |y.streams|
  {
    Put(y, s, Stream(y.streams[s].conn, stage))
  }

  function Bump(y: System, c: nat, active: int, total: int): System
    requires c < |y.counters|
  {
    y.(counters := y.counters[c := Counter(y.counters[c].active + active, y.counters[c].total + total)])
  }

  /** A call in the selection loop after it has read one more counter: only a smaller number replaces the best. */
  function Better(x: Stream, c: nat, active: int): Stream
    requires x.stage.Scanning?
  {
    if active < x.stage.least then Stream(c, Scanning(x.stage.next + 1, active))
    else Stream(x.conn, Scanning(x.stage.next + 1, x.stage.least))
  }

  function Next(a: Action, y: System): System
    requires Enabled(a, y)
  {
    match a
    case AddConn => y.(counters := y.counters + [Counter(0, 0)], pooled := y.pooled + [|y.counters|])
    case RemoveConn(i) => y.(pooled := y.pooled[..i] + y.pooled[i + 1..])
    case Begin =>
      y.(streams := y.streams + [Stream(y.pooled[0], Scanning(1, y.counters[y.pooled[0]].active))])
    case Load(s) =>
      var c := y.pooled[y.streams[s].stage.next];
      Put(y, s, Better(y.streams[s], c, y.counters[c].active))
    case Choose(s) => Move(y, s, Chosen(y.streams[s].stage.least))
    case Refuse(s) => Move(y, s, Failed)
    case Raise(s) => Move(Bump(y, y.streams[s].conn, 1, 0), s, Raised)
    case Count(s) => Move(Bump(y, y.streams[s].conn, 0, 1), s, Counted)
    case RaisePool(s) => Move(y.(poolActive := y.poolActive + 1), s, PoolRaised)
    case CountPool(s) => Move(y.(poolTotal := y.poolTotal + 1), s, Open)
    case ClosePool(s) => Move(y.(poolActive := y.poolActive - 1), s, Closing)
    case CloseConn(s) => Move(Bump(y, y.streams[s].conn, -1, 0), s, Closed)
    case CloseAgain(_) => y
  }

  // ---------- counting ----------

  /**
   Sets of stages: those at which a stream is in the active and total counts of its connection, and
   of the pool; active on its connection and not, or no longer, in the pool; after the pool's and
   the connection's count was lowered; between the two halves of an increment.
   */
  datatype Stages =
    | OnConn | EverOnConn | OnPool | EverOnPool | Between | PoolClosed | ConnClosed | HalfOnPool | HalfOnConn

  predicate In(g: Stage, stages: Stages) {
    match stages
    case OnConn => g.Raised? || g.Counted? || g.PoolRaised? || g.Open? || g.Closing?
    case EverOnConn => g.Counted? || g.PoolRaised? || g.Open? || g.Closing? || g.Closed?
    case OnPool => g.PoolRaised? || g.Open?
    case EverOnPool => g.Open? || g.Closing? || g.Closed?
    case Between => g.Raised? || g.Counted? || g.Closing?
    case PoolClosed => g.Closing? || g.Closed?
    case ConnClosed => g.Closed?
    case HalfOnPool => g.PoolRaised?
    case HalfOnConn => g.Raised?
  }

  /**
   Sets of streams: of all connections or of one at certain stages; in flight, that is, of calls
   that have not returned; and stale for a connection and a number, that is, of calls that hold
   that connection for the best at no more than that number.
   */
  datatype Kind = All(stages: Stages) | Of(c: nat, stages: Stages) | Flight | Stale(c: nat, w: int)

  predicate Has(x: Stream, k: Kind) {
    match k
    case All(stages) => In(x.stage, stages)
    case Of(c, stages) => x.conn == c && In(x.stage, stages)
    case Flight =>
      x.stage.Scanning? || x.stage.Chosen? || x.stage.Raised? || x.stage.Counted? || x.stage.PoolRaised?
    case Stale(c, w) => x.conn == c && (x.stage.Scanning? || x.stage.Chosen?) && x.stage.least <= w
  }

  function Weight(x: Stream, k: Kind): nat {
    if Has(x, k) then 1 else 0
  }

  /** How many streams are of a kind. */
  function Tally(streams: seq<Stream>, k: Kind): nat {
    if streams == [] then 0
    else Tally(streams[..|streams| - 1], k) + Weight(streams[|streams| - 1], k)
  }

  function Sum(counters: seq<Counter>): int {
    if counters == [] then 0 else Sum(counters[..|counters| - 1]) + counters[|counters| - 1].active
  }

  lemma {:induction false} TallyPut(streams: seq<Stream>, s: nat, x: Stream, p: Kind)
    requires s < |streams|
    ensures Tally(streams[s := x], p) == Tally(streams, p) + Weight(x, p) - Weight(streams[s], p)
    decreases |streams|
  {
    var n := |streams| - 1;
    if s == n {
      assert streams[s := x][..n] == streams[..n];
    } else {
      assert streams[s := x][..n] == streams[..n][s := x];
      TallyPut(streams[..n], s, x, p);
    }
  }

  lemma {:induction false} TallyAppend(streams: seq<Stream>, x: Stream, p: Kind)
    ensures Tally(streams + [x], p) == Tally(streams, p) + Weight(x, p)
  {
    assert (streams + [x])[..|streams|] == streams;
  }

  /** Two tallies differ as two others do when they differ so on every stream. */
  lemma {:induction false} TallyDiffers(streams: seq<Stream>, p: Kind, q: Kind, p': Kind, q': Kind)
    requires forall x :: Weight(x, p) - Weight(x, q) == Weight(x, p') - Weight(x, q')
    ensures Tally(streams, p) - Tally(streams, q) == Tally(streams, p') - Tally(streams, q')
  {
    if streams != [] {
      TallyDiffers(streams[..|streams| - 1], p, q, p', q');
    }
  }

  lemma {:induction false} TallyAdds(streams: seq<Stream>, k: Kind, p: Kind, q: Kind)
    requires forall x :: Weight(x, k) == Weight(x, p) + Weight(x, q)
    ensures Tally(streams, k) == Tally(streams, p) + Tally(streams, q)
  {
    if streams != [] {
      TallyAdds(streams[..|streams| - 1], k, p, q);
    }
  }

  lemma {:induction false} TallyWithin(streams: seq<Stream>, p: Kind, q: Kind)
    requires forall x :: Weight(x, p) <= Weight(x, q)
    ensures Tally(streams, p) <= Tally(streams, q)
  {
    if streams != [] {
      TallyWithin(streams[..|streams| - 1], p, q);
    }
  }

  lemma {:induction false} TallyNone(streams: seq<Stream>, p: Kind)
    requires forall s :: 0 <= s < |streams| ==> !Has(streams[s], p)
    ensures Tally(streams, p) == 0
  {
    if streams != [] {
      TallyNone(streams[..|streams| - 1], p);
    }
  }

  lemma {:induction false} SumBump(counters: seq<Counter>, c: nat, k: Counter)
    requires c < |counters|
    ensures Sum(counters[c := k]) == Sum(counters) + k.active - counters[c].active
    decreases |counters|
  {
    var n := |counters| - 1;
    if c == n {
      assert counters[c := k][..n] == counters[..n];
    } else {
      assert counters[c := k][..n] == counters[..n][c := k];
      SumBump(counters[..n], c, k);
    }
  }

  // ---------- conservation ----------

  ghost predicate ConnOk(y: System, c: nat)
    requires c < |y.counters|
  {
    && y.counters[c].active == Tally(y.streams, Of(c, OnConn))
    && y.counters[c].total == Tally(y.streams, Of(c, EverOnConn))
  }

  ghost predicate PoolOk(y: System) {
    && y.poolActive == Tally(y.streams, All(OnPool))
    && y.poolTotal == Tally(y.streams, All(EverOnPool))
    && Sum(y.counters) == Tally(y.streams, All(OnConn))
  }

  ghost predicate Inv(y: System) {
    && (forall i :: 0 <= i < |y.pooled| ==> y.pooled[i] < |y.counters|)
    && (forall s :: 0 <= s < |y.streams| ==> y.streams[s].conn < |y.counters|)
    && (forall c: nat | c < |y.counters| :: ConnOk(y, c))
    && PoolOk(y)
  }

  /** The counters of connection `c` have followed a stream from `x` to `x'`. */
  ghost predicate Follows(y: System, y': System, x: Stream, x': Stream, c: nat)
    requires c < |y.counters| == |y'.counters|
  {
    && y'.counters[c].active == y.counters[c].active + Weight(x', Of(c, OnConn)) - Weight(x, Of(c, OnConn))
    && y'.counters[c].total == y.counters[c].total + Weight(x', Of(c, EverOnConn)) - Weight(x, Of(c, EverOnConn))
  }

  ghost predicate PoolFollows(y: System, y': System, x: Stream, x': Stream) {
    && y'.poolActive == y.poolActive + Weight(x', All(OnPool)) - Weight(x, All(OnPool))
    && y'.poolTotal == y.poolTotal + Weight(x', All(EverOnPool)) - Weight(x, All(EverOnPool))
    && Sum(y'.counters) == Sum(y.counters) + Weight(x', All(OnConn)) - Weight(x, All(OnConn))
  }

  lemma {:induction false} PutKeeps(y: System, y': System, s: nat, x: Stream)
    requires Inv(y) && s < |y.streams| && y'.streams == y.streams[s := x] && y'.pooled == y.pooled
    requires x.conn < |y.counters| == |y'.counters|
    requires forall c: nat | c < |y.counters| :: Follows(y, y', y.streams[s], x, c)
    requires PoolFollows(y, y', y.streams[s], x)
    ensures Inv(y')
  {
    forall c: nat | c < |y'.counters|
      ensures ConnOk(y', c)
    {
      assert ConnOk(y, c) && Follows(y, y', y.streams[s], x, c);
      TallyPut(y.streams, s, x, Of(c, OnConn));
      TallyPut(y.streams, s, x, Of(c, EverOnConn));
    }
    TallyPut(y.streams, s, x, All(OnPool));
    TallyPut(y.streams, s, x, All(EverOnPool));
    TallyPut(y.streams, s, x, All(OnConn));
  }

  /** A call that selects, or is refused, is in no counter. */
  lemma {:induction false} SelectionKeeps(a: Action, y: System, s: nat)
    requires Inv(y) && Enabled(a, y) && (a == Load(s) || a == Choose(s) || a == Refuse(s))
    ensures Inv(Next(a, y))
  {
    var y' := Next(a, y);
    var x := y'.streams[s];
    forall c: nat | c < |y.counters|
      ensures Follows(y, y', y.streams[s], x, c)
    {
    }
    PutKeeps(y, y', s, x);
  }

  /** Steps that touch the pool's counters. */
  lemma {:induction false} PoolStepKeeps(a: Action, y: System, s: nat)
    requires Inv(y) && Enabled(a, y) && (a == RaisePool(s) || a == CountPool(s) || a == ClosePool(s))
    ensures Inv(Next(a, y))
  {
    var y' := Next(a, y);
    var x := y'.streams[s];
    forall c: nat | c < |y.counters|
      ensures Follows(y, y', y.streams[s], x, c)
    {
    }
    PutKeeps(y, y', s, x);
  }

  /** Steps that touch the counters of the stream's own connection. */
  lemma {:induction false} ConnStepKeeps(a: Action, y: System, s: nat)
    requires Inv(y) && Enabled(a, y) && (a == Raise(s) || a == Count(s) || a == CloseConn(s))
    ensures Inv(Next(a, y))
  {
    var y', c0 := Next(a, y), y.streams[s].conn;
    var x := y'.streams[s];
    forall c: nat | c < |y.counters|
      ensures Follows(y, y', y.streams[s], x, c)
    {
    }
    SumBump(y.counters, c0, y'.counters[c0]);
    assert y'.counters == y.counters[c0 := y'.counters[c0]];
    PutKeeps(y, y', s, x);
  }

  /** A call that begins is in no counter yet. */
  lemma {:induction false} BeginKeeps(y: System)
    requires Inv(y) && Enabled(Begin, y)
    ensures Inv(Next(Begin, y))
  {
    var y' := Next(Begin, y);
    var x := y'.streams[|y.streams|];
    forall c: nat | c < |y'.counters|
      ensures ConnOk(y', c)
    {
      assert ConnOk(y, c);
      TallyAppend(y.streams, x, Of(c, OnConn));
      TallyAppend(y.streams, x, Of(c, EverOnConn));
    }
    TallyAppend(y.streams, x, All(OnPool));
    TallyAppend(y.streams, x, All(EverOnPool));
    TallyAppend(y.streams, x, All(OnConn));
  }

  lemma {:induction false} AddKeeps(y: System)
    requires Inv(y) && Enabled(AddConn, y)
    ensures Inv(Next(AddConn, y))
  {
    var n, y' := |y.counters|, Next(AddConn, y);
    assert y'.counters[..n] == y.counters;
    forall c: nat | c < |y'.counters|
      ensures ConnOk(y', c)
    {
      if c < n {
        assert ConnOk(y, c);
      } else {
        TallyNone(y.streams, Of(n, OnConn));
        TallyNone(y.streams, Of(n, EverOnConn));
      }
    }
  }

  lemma {:induction false} RemoveKeeps(y: System, i: nat)
    requires Inv(y) && Enabled(RemoveConn(i), y)
    ensures Inv(Next(RemoveConn(i), y))
  {
    var y' := Next(RemoveConn(i), y);
    forall c: nat | c < |y'.counters| ensures ConnOk(y', c) { assert ConnOk(y, c); }
  }

  lemma {:induction false} StepKeeps(a: Action, y: System)
    requires Inv(y) && Enabled(a, y)
    ensures Inv(Next(a, y))
  {
    match a
    case AddConn => AddKeeps(y);
    case RemoveConn(i) => RemoveKeeps(y, i);
    case Begin => BeginKeeps(y);
    case Load(s) => SelectionKeeps(a, y, s);
    case Choose(s) => SelectionKeeps(a, y, s);
    case Refuse(s) => SelectionKeeps(a, y, s);
    case Raise(s) => ConnStepKeeps(a, y, s);
    case Count(s) => ConnStepKeeps(a, y, s);
    case RaisePool(s) => PoolStepKeeps(a, y, s);
    case CountPool(s) => PoolStepKeeps(a, y, s);
    case ClosePool(s) => PoolStepKeeps(a, y, s);
    case CloseConn(s) => ConnStepKeeps(a, y, s);
    case CloseAgain(_) =>
  }

  /** A schedule of atomic operations; one that is not possible when its turn comes does nothing. */
  ghost function Play(y: System, run: seq<Action>): (r: System)
    decreases |run|
  {
    if run == [] then y
    else if Enabled(run[0], y) then Play(Next(run[0], y), run[1..])
    else Play(y, run[1..])
  }

  lemma {:induction false} PlayKeepsInv(y: System, run: seq<Action>)
    requires Inv(y)
    ensures Inv(Play(y, run))
    decreases |run|
  {
    if run != [] {
      if Enabled(run[0], y) {
        StepKeeps(run[0], y);
        PlayKeepsInv(Next(run[0], y), run[1..]);
      } else {
        PlayKeepsInv(y, run[1..]);
      }
    }
  }

  /**
   In every run, whatever is closed twice or removed: no active count is negative; a total less
   the active count is the streams closed, less those between the two halves of their increment;
   and the connections' active counts together exceed the pool's by exactly the streams between
   their two updates.
   */
  lemma {:induction false} CountersConserve(run: seq<Action>)
    ensures var y := Play(INIT, run);
            && y.poolActive >= 0
            && y.poolTotal - y.poolActive
               == Tally(y.streams, All(PoolClosed)) - Tally(y.streams, All(HalfOnPool))
            && (forall c :: 0 <= c < |y.counters| ==>
                  && y.counters[c].active >= 0
                  && y.counters[c].total - y.counters[c].active
                     == Tally(y.streams, Of(c, ConnClosed)) - Tally(y.streams, Of(c, HalfOnConn)))
            && Sum(y.counters) - y.poolActive == Tally(y.streams, All(Between))
  {
    PlayKeepsInv(INIT, run);
    var y := Play(INIT, run);
    TallyDiffers(y.streams, All(EverOnPool), All(OnPool), All(PoolClosed), All(HalfOnPool));
    TallyAdds(y.streams, All(OnConn), All(OnPool), All(Between));
    forall c | 0 <= c < |y.counters|
      ensures y.counters[c].active >= 0
      ensures y.counters[c].total - y.counters[c].active
           == Tally(y.streams, Of(c, ConnClosed)) - Tally(y.streams, Of(c, HalfOnConn))
    {
      assert ConnOk(y, c);
      TallyDiffers(y.streams, Of(c, EverOnConn), Of(c, OnConn), Of(c, ConnClosed), Of(c, HalfOnConn));
    }
  }

  // ---------- balance ----------

  /** Calls of `Pool.OpenStream` that have begun and not returned. */
  function InFlight(y: System): nat {
    Tally(y.streams, Flight)
  }

  /** Opening only, by at most `callers` goroutines at a time. */
  predicate Opening(a: Action, y: System, callers: nat) {
    match a
    case Begin => InFlight(y) < callers
    case Load(_) => true
    case Choose(_) => true
    case Refuse(_) => true
    case Raise(_) => true
    case Count(_) => true
    case RaisePool(_) => true
    case CountPool(_) => true
    case _ => false
  }

  /** The connections of the pool have no stream yet. */
  predicate Fresh(y: System) {
    && y.streams == []
    && (forall i :: 0 <= i < |y.pooled| ==> y.pooled[i] < |y.counters| && y.counters[y.pooled[i]] == Counter(0, 0))
  }

  ghost function PlayOpening(y: System, run: seq<Action>, callers: nat): Option<System>
    decreases |run|
  {
    if run == [] then Some(y)
    else if Enabled(run[0], y) && Opening(run[0], y, callers) then PlayOpening(Next(run[0], y), run[1..], callers)
    else None
  }

  function Active(y: System, i: nat): int
    requires Listed(y, i)
  {
    y.counters[y.pooled[i]].active
  }

  /** How far a connection is ahead of `w`. */
  function Ahead(y: System, c: nat, w: int): nat
    requires c < |y.counters|
  {
    if y.counters[c].active > w then y.counters[c].active - w else 0
  }

  /**
   Counters only rise, so the smallest number a call has found is no more than what any connection
   it has looked at holds now.
   */
  ghost predicate ScanOk(y: System, s: nat)
    requires s < |y.streams| && forall i :: 0 <= i < |y.pooled| ==> y.pooled[i] < |y.counters|
  {
    match y.streams[s].stage
    case Scanning(next, least) =>
      next <= |y.pooled| && forall i :: 0 <= i < next ==> y.counters[y.pooled[i]].active >= least
    case Chosen(least) => forall i :: 0 <= i < |y.pooled| ==> y.counters[y.pooled[i]].active >= least
    case _ => true
  }

  /**
   From any number that some connection of the pool has not passed, no connection is further ahead
   than the callers that do not hold it for the best at no more than that number.
   */
  ghost predicate StaleOk(y: System, callers: nat, c: nat, w: int)
    requires c < |y.counters|
  {
    Ahead(y, c, w) + Tally(y.streams, Stale(c, w)) <= callers
  }

  /** Some connection of the pool has not passed `w`. */
  ghost predicate Reached(y: System, w: int)
    requires forall i :: 0 <= i < |y.pooled| ==> y.pooled[i] < |y.counters|
  {
    exists i :: 0 <= i < |y.pooled| && y.counters[y.pooled[i]].active <= w
  }

  ghost predicate Balanced(y: System, callers: nat) {
    && InFlight(y) <= callers
    && (forall i :: 0 <= i < |y.pooled| ==> y.pooled[i] < |y.counters|)
    && (forall s: nat | s < |y.streams| :: ScanOk(y, s))
    && (forall c: nat, w: int | c in y.pooled && Reached(y, w) :: StaleOk(y, callers, c, w))
  }

  /** A stale call is in flight, so a connection that is not ahead is within the bound. */
  lemma {:induction false} NotAhead(y: System, callers: nat, c: nat, w: int)
    requires InFlight(y) <= callers && c < |y.counters| && y.counters[c].active <= w
    ensures StaleOk(y, callers, c, w)
  {
    TallyWithin(y.streams, Stale(c, w), Flight);
  }

  lemma {:induction false} BeginBalances(y: System, callers: nat)
    requires Balanced(y, callers) && Enabled(Begin, y) && Opening(Begin, y, callers)
    ensures Balanced(Next(Begin, y), callers)
  {
    var y' := Next(Begin, y);
    var x := y'.streams[|y.streams|];
    TallyAppend(y.streams, x, Flight);
    forall s: nat | s < |y'.streams| ensures ScanOk(y', s) {
      if s < |y.streams| { assert ScanOk(y, s); }
    }
    forall c: nat, w: int | c in y'.pooled && Reached(y', w) ensures StaleOk(y', callers, c, w) {
      assert Reached(y, w) && StaleOk(y, callers, c, w);
      TallyAppend(y.streams, x, Stale(c, w));
      if y.counters[c].active <= w {
        NotAhead(y', callers, c, w);
      }
    }
  }

  /** A step of a call that touches no active count of a connection and makes it stale for nothing that is ahead. */
  lemma {:induction false} QuietBalances(y: System, y': System, s: nat, x: Stream, callers: nat)
    requires Balanced(y, callers) && s < |y.streams| && y'.streams == y.streams[s := x] && y'.pooled == y.pooled
    requires |y'.counters| == |y.counters|
    requires forall c :: 0 <= c < |y.counters| ==> y'.counters[c].active == y.counters[c].active
    requires Weight(x, Flight) <= Weight(y.streams[s], Flight) && ScanOk(y', s)
    requires forall c: nat, w: int | c < |y.counters| && y.counters[c].active > w ::
               Weight(x, Stale(c, w)) <= Weight(y.streams[s], Stale(c, w))
    ensures Balanced(y', callers)
  {
    TallyPut(y.streams, s, x, Flight);
    forall t: nat | t < |y'.streams| ensures ScanOk(y', t) {
      assert ScanOk(y, t);
    }
    forall c: nat, w: int | c in y'.pooled && Reached(y', w) ensures StaleOk(y', callers, c, w) {
      assert Reached(y, w) && StaleOk(y, callers, c, w);
      TallyPut(y.streams, s, x, Stale(c, w));
      if y.counters[c].active <= w {
        NotAhead(y', callers, c, w);
      }
    }
  }

  lemma {:induction false} LoadBalances(y: System, s: nat, callers: nat)
    requires Balanced(y, callers) && Enabled(Load(s), y)
    ensures Balanced(Next(Load(s), y), callers)
  {
    var y' := Next(Load(s), y);
    var x := y'.streams[s];
    assert ScanOk(y, s);
    assert ScanOk(y', s) by {
      forall i | 0 <= i < x.stage.next ensures y.counters[y.pooled[i]].active >= x.stage.least {
        assert i < y.streams[s].stage.next ==> y.counters[y.pooled[i]].active >= y.streams[s].stage.least;
      }
    }
    QuietBalances(y, y', s, x, callers);
  }

  lemma {:induction false} MoveBalances(a: Action, y: System, s: nat, callers: nat)
    requires Balanced(y, callers) && Enabled(a, y)
    requires a == Choose(s) || a == Refuse(s) || a == Count(s) || a == RaisePool(s) || a == CountPool(s)
    ensures Balanced(Next(a, y), callers)
  {
    assert ScanOk(y, s);
    QuietBalances(y, Next(a, y), s, Next(a, y).streams[s], callers);
  }

  /** A call that raises a counter was stale for it at every number that some connection has not passed. */
  lemma {:induction false} RaisePair(y: System, s: nat, callers: nat, c: nat, w: int)
    requires Balanced(y, callers) && Enabled(Raise(s), y) && c in y.pooled
    requires Reached(Next(Raise(s), y), w)
    ensures StaleOk(Next(Raise(s), y), callers, c, w)
  {
    var y' := Next(Raise(s), y);
    var i :| 0 <= i < |y'.pooled| && y'.counters[y'.pooled[i]].active <= w;
    assert y.counters[y.pooled[i]].active <= w && ScanOk(y, s);
    assert Reached(y, w) && StaleOk(y, callers, c, w);
    TallyPut(y.streams, s, y'.streams[s], Stale(c, w));
    assert y.streams[s].stage.least <= y.counters[y.pooled[i]].active;
  }

  lemma {:induction false} RaiseBalances(y: System, s: nat, callers: nat)
    requires Balanced(y, callers) && Enabled(Raise(s), y)
    ensures Balanced(Next(Raise(s), y), callers)
  {
    var y' := Next(Raise(s), y);
    TallyPut(y.streams, s, y'.streams[s], Flight);
    forall t: nat | t < |y'.streams| ensures ScanOk(y', t) {
      assert ScanOk(y, t);
    }
    forall c: nat, w: int | c in y'.pooled && Reached(y', w) ensures StaleOk(y', callers, c, w) {
      RaisePair(y, s, callers, c, w);
    }
  }

  lemma {:induction false} OpeningBalances(a: Action, y: System, callers: nat)
    requires Balanced(y, callers) && Enabled(a, y) && Opening(a, y, callers)
    ensures Balanced(Next(a, y), callers)
  {
    match a
    case Begin => BeginBalances(y, callers);
    case Load(s) => LoadBalances(y, s, callers);
    case Raise(s) => RaiseBalances(y, s, callers);
    case Choose(s) => MoveBalances(a, y, s, callers);
    case Refuse(s) => MoveBalances(a, y, s, callers);
    case Count(s) => MoveBalances(a, y, s, callers);
    case RaisePool(s) => MoveBalances(a, y, s, callers);
    case CountPool(s) => MoveBalances(a, y, s, callers);
  }

  lemma {:induction false} StaysBalanced(y: System, run: seq<Action>, callers: nat)
    requires Balanced(y, callers) && PlayOpening(y, run, callers).Some?
    ensures Balanced(PlayOpening(y, run, callers).value, callers)
    ensures PlayOpening(y, run, callers).value.pooled == y.pooled
    decreases |run|
  {
    if run != [] {
      OpeningBalances(run[0], y, callers);
      StaysBalanced(Next(run[0], y), run[1..], callers);
    }
  }

  /**
   With at most `callers` goroutines opening streams at once, over a fixed set of connections and
   without closes, two connections' stream counts never differ by more than `callers`, although
   every load of the selection loop interleaves with every update; by more than one when streams
   are opened one after the other.
   */
  lemma {:induction false} GreedyBalance(y: System, run: seq<Action>, callers: nat, i: nat, k: nat)
    requires Fresh(y) && PlayOpening(y, run, callers).Some?
    requires i < |y.pooled| && k < |y.pooled|
    ensures var z := PlayOpening(y, run, callers).value;
            z.pooled == y.pooled && Listed(z, i) && Listed(z, k) && Active(z, i) - Active(z, k) <= callers
  {
    assert Balanced(y, callers);
    StaysBalanced(y, run, callers);
    var z := PlayOpening(y, run, callers).value;
    assert Reached(z, Active(z, k));
    assert StaleOk(z, callers, z.pooled[i], Active(z, k));
  }

  // ---------- the bound is reached ----------

  /** `k` calls have chosen connection 0, and `n` of them have raised its counter. */
  function Crowd(k: nat, n: nat): System
    requires n <= k
  {
    System(seq(k, i => Stream(0, if i < n then Raised else Chosen(0))), [Counter(n, 0), Counter(0, 0)], [0, 1], 0, 0)
  }

  lemma {:induction false} CrowdInFlight(k: nat)
    ensures InFlight(Crowd(k, 0)) == k
  {
    if k > 0 {
      CrowdInFlight(k - 1);
      assert Crowd(k, 0).streams[..k - 1] == Crowd(k - 1, 0).streams;
    }
  }

  lemma {:induction false} PlayCons(a: Action, y: System, rest: seq<Action>, callers: nat)
    requires Enabled(a, y) && Opening(a, y, callers)
    ensures PlayOpening(y, [a] + rest, callers) == PlayOpening(Next(a, y), rest, callers)
  {
    assert ([a] + rest)[1..] == rest;
  }

  /** One more call goes through the selection and chooses connection 0. */
  lemma {:induction false} Joins(k: nat, callers: nat, rest: seq<Action>)
    requires k < callers
    ensures PlayOpening(Crowd(k, 0), [Begin] + ([Load(k)] + ([Choose(k)] + rest)), callers)
         == PlayOpening(Crowd(k + 1, 0), rest, callers)
  {
    CrowdInFlight(k);
    var y := Crowd(k, 0);
    var y1 := Next(Begin, y);
    assert y1.streams[k] == Stream(0, Scanning(1, 0));
    var y2 := Next(Load(k), y1);
    assert y2.streams[k] == Stream(0, Scanning(2, 0));
    var y3 := Next(Choose(k), y2);
    assert y3.streams[k] == Stream(0, Chosen(0));
    assert y3 == Crowd(k + 1, 0);
    PlayCons(Begin, y, [Load(k)] + ([Choose(k)] + rest), callers);
    PlayCons(Load(k), y1, [Choose(k)] + rest, callers);
    PlayCons(Choose(k), y2, rest, callers);
  }

  lemma {:induction false} Choosing(k: nat, callers: nat) returns (run: seq<Action>)
    requires k <= callers
    ensures PlayOpening(Crowd(k, 0), run, callers) == Some(Crowd(callers, callers))
    decreases callers - k
  {
    if k == callers {
      run := Raising(0, callers);
    } else {
      run := Choosing(k + 1, callers);
      Joins(k, callers, run);
      run := [Begin] + ([Load(k)] + ([Choose(k)] + run));
    }
  }

  lemma {:induction false} Raising(n: nat, callers: nat) returns (run: seq<Action>)
    requires n <= callers
    ensures PlayOpening(Crowd(callers, n), run, callers) == Some(Crowd(callers, callers))
    decreases callers - n
  {
    if n == callers {
      run := [];
    } else {
      run := Raising(n + 1, callers);
      assert Next(Raise(n), Crowd(callers, n)) == Crowd(callers, n + 1);
      PlayCons(Raise(n), Crowd(callers, n), run, callers);
      run := [Raise(n)] + run;
    }
  }

  /** The bound cannot be improved: with two connections `callers` goroutines can get that far apart. */
  lemma {:induction false} BalanceIsTight(callers: nat) returns (y: System, run: seq<Action>)
    ensures Fresh(y) && PlayOpening(y, run, callers).Some?
    ensures var z := PlayOpening(y, run, callers).value;
            && |y.pooled| == 2 && z.pooled == y.pooled && Listed(z, 0) && Listed(z, 1)
            && Active(z, 0) - Active(z, 1) == callers
  {
    y := Crowd(0, 0);
    run := Choosing(0, callers);
  }
}
