/**
 The pool of mux connections in the shape of the code: streams that lower counters once,
 connections, least-streams selection, and the operations of the pool itself.
 */
module Pool {
  import opened Wire
  import opened Scaling

  // ---------- metrics ----------

  /** A pair of counters of streams: those active and all there ever were. */
  class Metrics {
    var activeStreams: int
    var totalStreams: int

    constructor ()
      ensures activeStreams == 0 && totalStreams == 0
    {
      activeStreams, totalStreams := 0, 0;
    }

    method IncrementActiveStreams()
      modifies this
      ensures activeStreams == old(activeStreams) + 1 && totalStreams == old(totalStreams) + 1
    {
      activeStreams, totalStreams := activeStreams + 1, totalStreams + 1;
    }

    method DecrementActiveStreams()
      modifies this`activeStreams
      ensures activeStreams == old(activeStreams) - 1
    {
      activeStreams := activeStreams - 1;
    }
  }

  // ---------- streams and connections ----------

  /** A stream of a connection, and whether its close has been counted. */
  class TrackedStream {
    const metrics: Metrics
    var counted: bool
    var closed: bool

    constructor (metrics: Metrics)
      ensures this.metrics == metrics && !counted && !closed
    {
      this.metrics, counted, closed := metrics, false, false;
    }

    /** However often it is called, the counter goes down once; the stream itself is closed. */
    method Close()
      modifies this, metrics
      ensures counted && closed && metrics.totalStreams == old(metrics.totalStreams)
      ensures metrics.activeStreams == old(metrics.activeStreams) - if old(counted) then 0 else 1
    {
      if !counted {
        counted := true;
        metrics.DecrementActiveStreams();
      }
      closed := true;
    }
  }

  /** A stream as the pool hands it out: closing it closes the stream of the connection as well. */
  class PoolTrackedStream {
    const stream: TrackedStream
    const metrics: Metrics
    var counted: bool

    constructor (stream: TrackedStream, metrics: Metrics)
      ensures this.stream == stream && this.metrics == metrics && !counted
    {
      this.stream, this.metrics, counted := stream, metrics, false;
    }

    method Close()
      requires metrics != stream.metrics
      modifies this, metrics, stream, stream.metrics
      ensures counted && stream.counted && stream.closed
      ensures metrics.activeStreams == old(metrics.activeStreams) - if old(counted) then 0 else 1
      ensures stream.metrics.activeStreams == old(stream.metrics.activeStreams) - if old(stream.counted) then 0 else 1
      ensures metrics.totalStreams == old(metrics.totalStreams)
      ensures stream.metrics.totalStreams == old(stream.metrics.totalStreams)
    {
      if !counted {
        counted := true;
        metrics.DecrementActiveStreams();
      }
      stream.Close();
    }
  }

  class MuxConn {
    const metrics: Metrics
    var closed: bool

    constructor ()
      ensures !closed && fresh(metrics) && metrics.activeStreams == 0 && metrics.totalStreams == 0
    {
      metrics := new Metrics();
      closed := false;
    }

    function NumStreams(): int
      reads metrics
    {
      metrics.activeStreams
    }

    /** Opens a stream unless the connection is closed or its session fails to; `opens` is what the session does. */
    method OpenStream(opens: bool) returns (stream: TrackedStream?)
      modifies metrics
      ensures stream == null <==> closed || !opens
      ensures stream == null ==>
                && metrics.activeStreams == old(metrics.activeStreams)
                && metrics.totalStreams == old(metrics.totalStreams)
      ensures stream != null ==>
                && fresh(stream) && stream.metrics == metrics && !stream.counted && !stream.closed
                && metrics.activeStreams == old(metrics.activeStreams) + 1
                && metrics.totalStreams == old(metrics.totalStreams) + 1
    {
      if closed || !opens {
        return null;
      }
      metrics.IncrementActiveStreams();
      stream := new TrackedStream(metrics);
    }

    method Close()
      modifies this`closed
      ensures closed
    {
      closed := true;
    }
  }

  // ---------- selection ----------

  function Loads(conns: seq<MuxConn>): (loads: seq<int>)
    reads conns, set c | c in conns :: c.metrics
    ensures |loads| == |conns|
  {
    if conns == [] then [] else [conns[0].NumStreams()] + Loads(conns[1..])
  }

  lemma {:induction false} LoadsAt(conns: seq<MuxConn>, i: nat)
    requires i < |conns|
    ensures Loads(conns)[i] == conns[i].NumStreams()
  {
    if i > 0 {
      LoadsAt(conns[1..], i - 1);
    }
  }

  /** The first place that holds the smallest number. */
  ghost predicate IsFirstLeast(loads: seq<int>, i: nat) {
    && i < |loads|
    && (forall k :: 0 <= k < |loads| ==> loads[i] <= loads[k])
    && (forall k :: 0 <= k < i ==> loads[i] < loads[k])
  }

  /** There is one such place at most, so the two searches below agree. */
  lemma FirstLeastIsUnique(loads: seq<int>, i: nat, k: nat)
    requires IsFirstLeast(loads, i) && IsFirstLeast(loads, k)
    ensures i == k
  {
    assert loads[i] <= loads[k] <= loads[i];
  }

  /** The first connection with the fewest streams, or null when there is none. */
  method Select(conns: seq<MuxConn>) returns (best: MuxConn?, ghost place: nat)
    ensures best == null <==> conns == []
    ensures conns != [] ==> place < |conns| && best == conns[place] && IsFirstLeast(Loads(conns), place)
  {
    place := 0;
    if conns == [] {
      return null, 0;
    }
    ghost var loads := Loads(conns);
    best := conns[0];
    var minStreams := conns[0].NumStreams();
    LoadsAt(conns, 0);
    var i := 1;
    while i < |conns|
      invariant 1 <= i <= |conns| && place < i && best == conns[place]
      invariant minStreams == loads[place]
      invariant forall k :: 0 <= k < i ==> minStreams <= loads[k]
      invariant forall k :: 0 <= k < place ==> minStreams < loads[k]
    {
      LoadsAt(conns, i);
      var n := conns[i].NumStreams();
      if n < minStreams {
        minStreams, best, place := n, conns[i], i;
      }
      i := i + 1;
    }
  }

  // ---------- the pool ----------

  function Without<T>(s: seq<T>, i: nat): seq<T>
    requires i < |s|
  {
    s[..i] + s[i + 1..]
  }

  /** What the pool holds, and what its metric says it holds. */
  datatype Members<T> = Members(conns: seq<T>, count: int)

  /** Adding to a full pool is refused, and the connection is left to whoever made it. */
  function Joined<T>(limit: int, m: Members<T>, c: T): Members<T> {
    if |m.conns| >= limit then m else Members(m.conns + [c], |m.conns| + 1)
  }

  function Dropped<T>(m: Members<T>, i: nat): Members<T>
    requires i < |m.conns|
  {
    Members(Without(m.conns, i), |m.conns| - 1)
  }

  class Pool {
    const config: Config
    const metrics: Metrics
    const scaler: AutoScaler
    var connections: seq<MuxConn>
    var connectionCount: int

    constructor (config: Config, now: int)
      requires Validate(config) == Some(config)
      ensures Valid() && connections == [] && this.config == config
    {
      this.config := config;
      metrics := new Metrics();
      scaler := new AutoScaler(config, now);
      connections, connectionCount := [], 0;
    }

    /** What holds whenever the lock is free. */
    ghost predicate Valid()
      reads this, scaler
    {
      && 1 <= config.minConns <= config.maxConns && scaler.config == config
      && |connections| <= config.maxConns && connectionCount == |connections|
      && (forall c :: c in connections ==> c.metrics != metrics)
    }

    function Value(): Members<MuxConn>
      reads this
    {
      Members(connections, connectionCount)
    }

    method AddConnection(conn: MuxConn) returns (ok: bool)
      requires Valid() && conn.metrics != metrics
      modifies this`connections, this`connectionCount
      ensures Valid() && Value() == Joined(config.maxConns, old(Value()), conn)
      ensures connections == if ok then old(connections) + [conn] else old(connections)
      ensures ok <==> |old(connections)| < config.maxConns
    {
      if |connections| >= config.maxConns {
        return false;
      }
      connections := connections + [conn];
      connectionCount := |connections|;
      return true;
    }

    /** Closes and takes out the first occurrence of a connection. */
    method RemoveConnection(conn: MuxConn) returns (found: bool, ghost place: nat)
      requires Valid()
      modifies this`connections, this`connectionCount, conn`closed
      ensures Valid()
      ensures found <==> conn in old(connections)
      ensures found ==>
                && place < |old(connections)| && old(connections)[place] == conn
                && conn !in old(connections)[..place]
      ensures found ==> conn.closed && Value() == Dropped(old(Value()), place)
      ensures found ==> connections == old(connections)[..place] + old(connections)[place + 1..]
      ensures !found ==> Value() == old(Value()) && conn.closed == old(conn.closed)
    {
      var i := 0;
      while i < |connections|
        invariant i <= |connections| && connections == old(connections) && connectionCount == old(connectionCount)
        invariant conn !in connections[..i] && conn.closed == old(conn.closed)
      {
        if connections[i] == conn {
          conn.Close();
          connections := connections[..i] + connections[i + 1..];
          connectionCount := |connections|;
          return true, i;
        }
        assert connections[..i + 1] == connections[..i] + [connections[i]];
        i := i + 1;
      }
      assert connections[..i] == connections;
      return false, 0;
    }

    /**
     Opens a stream on the first least loaded connection, unless that is closed or its session
     fails to; both counters rise, or neither.
     */
    method OpenStream(opens: bool) returns (s: PoolTrackedStream?, ghost place: nat)
      requires Valid()
      modifies metrics, set c | c in connections :: c.metrics
      ensures connections != [] ==> place < |connections| && IsFirstLeast(old(Loads(connections)), place)
      ensures s == null <==> connections == [] || connections[place].closed || !opens
      ensures s == null ==>
                && metrics.activeStreams == old(metrics.activeStreams)
                && metrics.totalStreams == old(metrics.totalStreams)
                && forall c :: c in connections ==> Uncounted(c.metrics.activeStreams, c.metrics.totalStreams,
                                                              old(c.metrics.activeStreams), old(c.metrics.totalStreams))
      ensures s != null ==>
                && s.metrics == metrics && s.stream.metrics == connections[place].metrics
                && !s.counted && !s.stream.counted
                && metrics.activeStreams == old(metrics.activeStreams) + 1
                && metrics.totalStreams == old(metrics.totalStreams) + 1
                && connections[place].NumStreams() == old(connections[place].NumStreams()) + 1
                && forall c :: c in connections && c.metrics != connections[place].metrics ==>
                     Uncounted(c.metrics.activeStreams, c.metrics.totalStreams,
                               old(c.metrics.activeStreams), old(c.metrics.totalStreams))
    {
      s := null;
      var conn: MuxConn?;
      conn, place := Select(connections);
      if conn == null {
        return;
      }
      var stream := conn.OpenStream(opens);
      if stream == null {
        return;
      }
      metrics.IncrementActiveStreams();
      s := new PoolTrackedStream(stream, metrics);
    }

    method Close()
      requires Valid()
      modifies this`connections, this`connectionCount, set c | c in connections
      ensures Valid() && Value() == Members([], 0)
      ensures forall c :: c in old(connections) ==> c.closed
    {
      var i := 0;
      while i < |connections|
        invariant i <= |connections| && connections == old(connections)
        invariant forall c :: c in connections[..i] ==> c.closed
      {
        connections[i].Close();
        assert connections[..i + 1] == connections[..i] + [connections[i]];
        i := i + 1;
      }
      assert connections[..i] == connections;
      connections := [];
      connectionCount := 0;
    }

    /** Adds what the factory makes; `made` is null when it fails. */
    method ScaleUp(made: MuxConn?) returns (ok: bool)
      requires Valid() && (made != null ==> made.metrics != metrics)
      modifies this`connections, this`connectionCount
      ensures Valid()
      ensures ok <==> |old(connections)| < config.maxConns && made != null
      ensures Value() == if made == null then old(Value()) else Joined(config.maxConns, old(Value()), made)
    {
      if |connections| >= config.maxConns {
        return false;
      }
      if made == null {
        return false;
      }
      ok := AddConnection(made);
    }

    /** Closes and takes out the first connection with the fewest streams, never below the minimum. */
    method ScaleDown() returns (ok: bool, ghost place: nat)
      requires Valid() && Nonnegative(Loads(connections))
      modifies this`connections, this`connectionCount, (set c | c in connections)`closed
      ensures Valid()
      ensures ok <==> |old(connections)| > config.minConns
      ensures ok ==>
                && IsFirstLeast(old(Loads(connections)), place) && old(connections)[place].closed
                && Value() == Dropped(old(Value()), place) && |connections| >= config.minConns
      ensures forall c :: c in old(connections) && (ok ==> c != old(connections)[place]) ==> c.closed == old(c.closed)
      ensures !ok ==> Value() == old(Value())
    {
      place := 0;
      if |connections| <= config.minConns {
        return false, 0;
      }
      ghost var loads := Loads(connections);
      var target := connections[0];
      var targetIdx := 0;
      var minStreams := -1;
      var i := 0;
      while i < |connections|
        invariant i <= |connections| && connections == old(connections) && connectionCount == old(connectionCount)
        invariant loads == Loads(connections)
        invariant forall c :: c in connections ==> c.closed == old(c.closed)
        invariant if i == 0 then minStreams == -1 && targetIdx == 0
                  else targetIdx < i && target == connections[targetIdx] && minStreams == loads[targetIdx]
        invariant forall k :: 0 <= k < i ==> minStreams <= loads[k]
        invariant forall k :: 0 <= k < targetIdx ==> minStreams < loads[k]
      {
        LoadsAt(connections, i);
        var streams := connections[i].NumStreams();
        if minStreams == -1 || streams < minStreams {
          minStreams, target, targetIdx := streams, connections[i], i;
        }
        i := i + 1;
      }
      target.Close();
      connections := connections[..targetIdx] + connections[targetIdx + 1..];
      connectionCount := |connections|;
      return true, targetIdx;
    }

    /**
     One evaluation by the monitor, begun at `now` and over at `done`: it decides on the metrics
     as they are, acts, and restarts the cooldown only if the action succeeded.
     */
    method EvaluateScaling(now: int, done: int, avgLatency: int, made: MuxConn?)
      returns (a: Action, ok: bool, ghost place: nat)
      requires Valid() && Nonnegative(Loads(connections)) && (made != null ==> made.metrics != metrics)
      modifies this`connections, this`connectionCount, scaler, (set c | c in connections)`closed
      ensures Valid()
      ensures a == Decide(config, now - old(scaler.lastScaleTime),
                          Snapshot(|old(connections)|, old(metrics.activeStreams), avgLatency))
      ensures ok <==> (a.ScaleUp? && |old(connections)| < config.maxConns && made != null)
                      || (a.ScaleDown? && |old(connections)| > config.minConns)
      ensures scaler.lastScaleTime == if ok then done else old(scaler.lastScaleTime)
      ensures !ok ==> Value() == old(Value())
      ensures ok && a.ScaleUp? ==> made != null && Value() == Joined(config.maxConns, old(Value()), made)
      ensures ok && a.ScaleDown? ==>
                && IsFirstLeast(old(Loads(connections)), place) && old(connections)[place].closed
                && Value() == Dropped(old(Value()), place) && |connections| >= config.minConns
      ensures forall c :: c in old(connections) && !(ok && a.ScaleDown? && c == old(connections)[place]) ==>
                            c.closed == old(c.closed)
    {
      a := scaler.Evaluate(now, Snapshot(connectionCount, metrics.activeStreams, avgLatency));
      ok, place := false, 0;
      match a {
        case ScaleUp =>
          ok := ScaleUp(made);
        case ScaleDown =>
          ok, place := ScaleDown();
        case ScaleNone =>
      }
      if ok {
        scaler.RecordScale(done);
      }
    }
  }

  /** Neither count of a connection has changed. */
  predicate Uncounted(active: int, total: int, active0: int, total0: int) {
    active == active0 && total == total0
  }

  predicate Nonnegative(loads: seq<int>) {
    forall k :: 0 <= k < |loads| ==> loads[k] >= 0
  }
}
