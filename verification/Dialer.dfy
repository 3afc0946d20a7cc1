/**
 The dialer's side of a rendezvous in the shape of the code: the request map and the handlers
 of bound connections and streams. The map operations are those of the steps of `Rendezvous`.
 */
module Dialer {
  import opened Wire
  import opened Connection
  import RequestMap
  import Server
  import Frames
  import ConnManager

  /** A pending dial: its context and its channel, which has room for one connection. */
  class ConnRequest {
    var cancelled: bool
    var ch: Option<Conn>

    constructor ()
      ensures !cancelled && ch == None
    {
      cancelled, ch := false, None;
    }
  }

  /** The identifier of a bind command at the start of a stream. */
  function BindRequest(input: bytes): Option<Uuid> {
    if |input| >= 18 && input[0] == VERSION_V1 && input[1] == CMD_BIND then Some(input[2..18]) else None
  }

  /** What a listener writes on a stream it binds. */
  function BindBytes(id: Uuid): bytes {
    Framed([CMD_BIND] + id)
  }

  /** The dialer takes a bound stream for what the listener meant, whatever follows. */
  lemma BindRoundTrip(id: Uuid, rest: bytes)
    ensures BindRequest(BindBytes(id) + rest) == Some(id)
    ensures |BindBytes(id)| == 18
  {
    assert (BindBytes(id) + rest)[2..18] == id;
  }

  /** A stream is taken for bound to an identifier exactly when it begins with the bytes that say so. */
  lemma BindRequestIff(input: bytes, id: Uuid)
    ensures BindRequest(input) == Some(id) <==> BindBytes(id) <= input
  {
    if BindRequest(input) == Some(id) {
      assert input[..18] == [input[0], input[1]] + input[2..18];
      assert BindBytes(id) == [VERSION_V1, CMD_BIND] + id;
    }
    if BindBytes(id) <= input {
      assert input == BindBytes(id) + input[18..];
      BindRoundTrip(id, input[18..]);
    }
  }

  datatype Outcome = Rejected | Registered | Unclaimed | Abandoned | Delivered(id: Uuid)

  /** A connection that the listener has bound to an identifier. */
  datatype Arrival = Arrival(id: Uuid, conn: Conn)

  function Ids(arrivals: seq<Arrival>): set<Uuid> {
    set a | a in arrivals :: a.id
  }

  /** The first connection to arrive for an identifier. */
  function FirstFor(arrivals: seq<Arrival>, id: Uuid): Option<Conn> {
    if arrivals == [] then None
    else if arrivals[0].id == id then Some(arrivals[0].conn)
    else FirstFor(arrivals[1..], id)
  }

  lemma {:induction false} FirstForMeans(arrivals: seq<Arrival>, id: Uuid, conn: Conn)
    ensures FirstFor(arrivals, id) == Some(conn) <==> exists k: nat :: FirstAt(arrivals, id, conn, k)
  {
    if arrivals != [] {
      FirstForMeans(arrivals[1..], id, conn);
      if arrivals[0].id == id {
        assert FirstFor(arrivals, id) == Some(conn) ==> FirstAt(arrivals, id, conn, 0);
      } else {
        forall k: nat | FirstAt(arrivals[1..], id, conn, k)
          ensures FirstAt(arrivals, id, conn, k + 1)
        {
          assert forall j :: 0 <= j < |arrivals| - 1 ==> arrivals[1..][j] == arrivals[j + 1];
        }
        forall k: nat | FirstAt(arrivals, id, conn, k)
          ensures k > 0 && FirstAt(arrivals[1..], id, conn, k - 1)
        {
          assert forall j :: 0 <= j < |arrivals| - 1 ==> arrivals[1..][j] == arrivals[j + 1];
        }
      }
    }
  }

  ghost predicate FirstAt(arrivals: seq<Arrival>, id: Uuid, conn: Conn, k: nat) {
    k < |arrivals| && arrivals[k] == Arrival(id, conn) && forall j :: 0 <= j < k ==> arrivals[j].id != id
  }

  /** What a request's channel can hold once these connections have arrived. */
  predicate Served(ch: Option<Conn>, arrivals: seq<Arrival>, id: Uuid) {
    ch == None || ch == FirstFor(arrivals, id)
  }

  /** How a dial ends; picking a connection past the end of the manager's list is a run-time panic. */
  datatype DialResult = Panicked | NoConnection | SendFailed | ContextDone | Connected(conn: Conn)

  class Dialer {
    var requests: map<Uuid, ConnRequest>

    constructor ()
      ensures requests == map[]
    {
      requests := map[];
    }

    /** No request in the map has been served yet, and no two share a channel. */
    ghost predicate Valid()
      reads this, requests.Values
    {
      && (forall id :: id in requests ==> requests[id].ch == None)
      && (forall i, k :: i in requests && k in requests && requests[i] == requests[k] ==> i == k)
    }

    method AddRequest(id: Uuid) returns (req: ConnRequest)
      requires Valid()
      modifies this
      ensures Valid() && fresh(req) && !req.cancelled
      ensures requests == RequestMap.Added(old(requests), id, req)
    {
      req := new ConnRequest();
      requests := requests[id := req];
    }

    /** Finds the request for an identifier and withdraws it, so that nobody else finds it. */
    method RemoveRequest(id: Uuid) returns (req: Option<ConnRequest>)
      requires Valid()
      modifies this
      ensures Valid()
      ensures req == RequestMap.Found(old(requests), id)
      ensures requests == RequestMap.Removed(old(requests), id)
    {
      if id !in requests {
        assert requests == requests - {id};
        return None;
      }
      req := Some(requests[id]);
      requests := requests - {id};
    }

    /** Hands a connection to the request, unless giving up is possible and is chosen. */
    method Offer(req: ConnRequest, conn: Conn, mayGiveUp: bool) returns (handed: bool)
      requires req.ch == None
      modifies req`ch
      ensures handed ==> req.ch == Some(conn)
      ensures !handed ==> req.ch == None && mayGiveUp
    {
      var giveUp := *;
      if mayGiveUp && giveUp {
        return false;
      }
      req.ch := Some(conn);
      return true;
    }

    /**
     One bound stream of a mux session. It ends in the channel of the request it names or is
     closed; it is closed although the request was there only if that dial was cancelled or the
     dialer is stopping.
     */
    method HandleV2Stream(stream: Conn, stopping: bool) returns (r: Outcome)
      requires Valid() && !stream.closed && !stream.broken
      modifies this, stream, requests.Values
      ensures Valid()
      ensures BindRequest(old(stream.input)) == None ==> stream.output == old(stream.output)
      ensures BindRequest(old(stream.input)) == None || stream.broken ==>
                r == Rejected && stream.closed && requests == old(requests)
      ensures BindRequest(old(stream.input)).Some? && !stream.broken ==>
                var id := BindRequest(old(stream.input)).value;
                && requests == RequestMap.Removed(old(requests), id)
                && stream.output == old(stream.output) + Reply(RES_SUCCESS)
                && match RequestMap.Found(old(requests), id)
                   case None => r == Unclaimed && stream.closed
                   case Some(req) =>
                     if r == Delivered(id) then req.ch == Some(stream) && !stream.closed
                     else r == Abandoned && req.ch == None && stream.closed && (req.cancelled || stopping)
    {
      ghost var in0 := stream.input;
      var buf := stream.ReadWhole(2);
      if buf.None? || buf.value[0] != VERSION_V1 || buf.value[1] != CMD_BIND {
        stream.Close();
        return Rejected;
      }
      var uuidBuf := stream.ReadWhole(16);
      if uuidBuf.None? {
        stream.Close();
        return Rejected;
      }
      var id: Uuid := uuidBuf.value;
      assert in0[2..18] == in0[2..][..16] == id;
      var ok := stream.Write(Reply(RES_SUCCESS));
      if !ok {
        stream.Close();
        return Rejected;
      }
      var req := RemoveRequest(id);
      if req.None? {
        stream.Close();
        return Unclaimed;
      }
      var handed := Offer(req.value, stream, req.value.cancelled || stopping);
      if handed {
        return Delivered(id);
      }
      stream.Close();
      return Abandoned;
    }

    /**
     One accepted connection. A connection that neither registers nor is delivered is closed
     when the handler returns; a delivered one was bound to the identifier of the dial it goes to.
     */
    method HandleConnection(s: Server.Server) returns (r: Outcome)
      requires Valid() && s.state == Server.ServerMachine.Connected && !s.isV2 && s.firstStream != s.conn
      requires s.firstStream != null ==> !s.firstStream.broken
      requires !s.conn.closed
      modifies this, s, s.conn, s.firstStream, requests.Values
      ensures Valid()
      ensures r == Registered <==> s.state == Server.ServerMachine.Registered && r != Rejected
      ensures r == Registered || r.Delivered? <==> !old(s.conn).closed
      ensures r.Delivered? ==>
                && s.state == Server.ServerMachine.Bound && r.id == s.id
                && s.id in old(requests) && old(requests)[s.id].ch == Some(old(s.conn))
      ensures r == Abandoned ==>
                s.id in old(requests) && old(requests)[s.id].cancelled && old(requests)[s.id].ch == None
      ensures r == Unclaimed ==> s.id !in old(requests)
      ensures r == Rejected || r == Registered ==> requests == old(requests)
      ensures !old(s.conn).broken && !s.isV2 ==>
                var st := Server.ServerMachine.Exec(s.cfg, Server.ServerMachine.Hello, old(s.conn.input)).st;
                if r == Rejected then !st.Done?
                else st == Server.ServerMachine.Done(if r == Registered then CMD_REGISTER else CMD_BIND, s.id)
      ensures s.isV2 && !(s.firstStream != null && s.firstStream.broken) ==>
                var st := Server.ServerMachine.Exec(s.cfg, Server.ServerMachine.Control,
                                                    old(if s.firstStream == null then [] else s.firstStream.input)).st;
                r == (if s.firstStream != null && st.Done? then Registered else Rejected)
      ensures s.isV2 && s.firstStream != null && s.firstStream.broken ==> r == Rejected
      ensures r == Unclaimed || r == Abandoned || r.Delivered? ==> requests == RequestMap.Removed(old(requests), s.id)
    {
      var conn := s.conn;
      var err := s.Process();
      if err.Some? {
        conn.Close();
        return Rejected;
      }
      if s.state == Server.ServerMachine.Registered {
        return Registered;
      }
      var req := RemoveRequest(s.id);
      if req.None? {
        conn.Close();
        return Unclaimed;
      }
      var handed := Offer(req.value, conn, req.value.cancelled);
      if handed {
        return Delivered(s.id);
      }
      conn.Close();
      return Abandoned;
    }

    /**
     What the handlers do meanwhile: each connection that arrives looks up the request of its own
     identifier, whoever's that is, and is handed over unless that request's context is done.
     */
    method Meanwhile(arrivals: seq<Arrival>)
      requires Valid()
      modifies this, requests.Values
      ensures Valid() && requests == old(requests) - Ids(arrivals)
      ensures forall i :: i in old(requests) ==> Served(old(requests)[i].ch, arrivals, i)
      ensures forall i :: i in old(requests) && !old(requests[i].cancelled) ==>
                            old(requests)[i].ch == FirstFor(arrivals, i)
      ensures forall i :: i in old(requests) ==> old(requests)[i].cancelled == old(requests[i].cancelled)
      decreases |arrivals|
    {
      if arrivals == [] {
        assert requests == requests - {};
        return;
      }
      var a := arrivals[0];
      var req := RemoveRequest(a.id);
      if req.Some? {
        var _ := Offer(req.value, a.conn, req.value.cancelled);
      }
      Meanwhile(arrivals[1..]);
      assert Ids(arrivals) == {a.id} + Ids(arrivals[1..]);
    }

    /** Publishes a request, and only then sends the command for it. */
    method Request(s: Server.Server, id: Uuid, cancelled: bool) returns (req: ConnRequest, sent: bool)
      requires Valid() && id !in requests && s.state == Server.ServerMachine.Registered
      modifies this, s.conn
      ensures Valid() && fresh(req) && req.cancelled == cancelled
      ensures requests == RequestMap.Added(old(requests), id, req)
      ensures sent ==> Server.Sent(s.json, Frames.Connect(id),
                                   old(s.conn.output), old(s.conn.input), s.conn.output, s.conn.input)
      ensures !sent ==> Server.Unanswered(s.conn, old(s.conn.output), old(s.conn.input))
      ensures s.conn.closed == old(s.conn.closed)
    {
      req := AddRequest(id);
      req.cancelled := cancelled;
      sent := s.SendConnectCommand(id);
    }

    /** Takes what is in the channel, or gives up; with both possible either may be chosen. */
    method Await(req: ConnRequest) returns (r: DialResult)
      ensures r == ContextDone || (r.Connected? && req.ch == Some(r.conn))
      ensures r == ContextDone ==> req.ch == None || req.cancelled
    {
      var giveUp := *;
      r := if req.ch == None || (req.cancelled && giveUp) then ContextDone else Connected(req.ch.value);
    }

    /** What remains of a dial once its command was sent, or was not; its request goes in either case. */
    method Finish(id: Uuid, req: ConnRequest, sent: bool, arrivals: seq<Arrival>) returns (r: DialResult)
      requires Valid() && id in requests && requests[id] == req
      modifies this, requests.Values
      ensures Valid() && requests == old(requests) - Ids(arrivals) - {id}
      ensures forall i :: i in old(requests) ==> Served(old(requests)[i].ch, arrivals, i)
      ensures r == SendFailed <==> !sent
      ensures r == SendFailed || r == ContextDone || (r.Connected? && FirstFor(arrivals, id) == Some(r.conn))
      ensures r == ContextDone && !old(req.cancelled) ==> FirstFor(arrivals, id) == None
    {
      ghost var pending := requests;
      Meanwhile(arrivals);
      assert Served(pending[id].ch, arrivals, id);
      r := SendFailed;
      if sent {
        r := Await(req);
      }
      requests := requests - {id};
    }

    /**
     A dial over one registered server, while `arrivals` are bound. With nothing for it the dial
     waits for its context. However it ends, its request is gone and no other request is touched
     except by the connections that arrived for it; a connection returned is the first that was
     bound to this dial's own identifier, after exactly one connect command for it.
     */
    method DialOver(s: Server.Server, id: Uuid, cancelled: bool, arrivals: seq<Arrival>) returns (r: DialResult)
      requires Valid() && id !in requests && s.state == Server.ServerMachine.Registered
      modifies this, s.conn, requests.Values
      ensures Valid() && requests == old(requests) - Ids(arrivals)
      ensures forall a :: a in arrivals ==> a.conn.closed == old(a.conn.closed)
      ensures forall i :: i in old(requests) ==> Served(old(requests)[i].ch, arrivals, i)
      ensures r == ContextDone && !cancelled ==> FirstFor(arrivals, id) == None
      ensures r == SendFailed ==> Server.Unanswered(s.conn, old(s.conn.output), old(s.conn.input))
      ensures r == SendFailed || r == ContextDone || (r.Connected? && FirstFor(arrivals, id) == Some(r.conn))
      ensures r != SendFailed ==>
                Server.Sent(s.json, Frames.Connect(id),
                            old(s.conn.output), old(s.conn.input), s.conn.output, s.conn.input)
    {
      ghost var before := requests;
      var req, sent := Request(s, id, cancelled);
      r := Finish(id, req, sent, arrivals);
      assert requests == before - Ids(arrivals);
      assert forall i :: i in before ==> before[i] == RequestMap.Added(before, id, req)[i];
    }

    /** A dial over one connection of the manager, from which it takes that connection if the command fails. */
    method DialOn(cm: ConnManager.ConnManager, key: Uuid, s: Server.Server,
                  id: Uuid, cancelled: bool, arrivals: seq<Arrival>)
      returns (r: DialResult)
      requires Valid() && id !in requests && s.state == Server.ServerMachine.Registered
      modifies this, s.conn, requests.Values, cm`connections, cm.connections
      ensures Valid() && requests == old(requests) - Ids(arrivals)
      ensures forall a :: a in arrivals ==> a.conn.closed == old(a.conn.closed)
      ensures cm.Value() == if r != SendFailed then old(cm.Value())
                            else ConnManager.Apply(old(cm.Value()), ConnManager.Remove(key))
      ensures r == ContextDone && !cancelled ==> FirstFor(arrivals, id) == None
      ensures r == SendFailed ==> Server.Unanswered(s.conn, old(s.conn.output), old(s.conn.input))
      ensures r == SendFailed || r == ContextDone || (r.Connected? && FirstFor(arrivals, id) == Some(r.conn))
      ensures r != SendFailed ==>
                Server.Sent(s.json, Frames.Connect(id),
                            old(s.conn.output), old(s.conn.input), s.conn.output, s.conn.input)
    {
      r := DialOver(s, id, cancelled, arrivals);
      assert cm.Value() == old(cm.Value());
      if r == SendFailed {
        cm.RemoveConnection(key);
        assert cm.Value() == ConnManager.Apply(old(cm.Value()), ConnManager.Remove(key));
      }
    }

    /** The connection is the one a dial was given, or runs over the same wire. */
    static predicate Carries(c: ConnManager.ServerConn, got: ConnManager.Got,
                             behind: map<ConnManager.ServerConn, Server.Server>)
      requires c in behind
      reads behind.Values
    {
      got.Conn? && got.c in behind && behind[got.c].conn == behind[c].conn
    }

    /**
     A dial over the connection of the manager whose turn it is; `behind` is the server on each.
     The command goes out on that connection, and a command that fails takes that connection, and
     no other, out of the manager.
     */
    method DialContext(cm: ConnManager.ConnManager, behind: map<ConnManager.ServerConn, Server.Server>,
                       id: Uuid, cancelled: bool, arrivals: seq<Arrival>) returns (r: DialResult)
      requires Valid() && id !in requests && forall c :: c in cm.connections ==> c in behind
      modifies this, cm, cm.connections, requests.Values
      modifies set c | c in cm.connections && c in behind :: behind[c].conn
      ensures Valid()
      ensures var got := ConnManager.Pick(old(cm.Value()));
              && (r == Panicked <==> got == ConnManager.Panic)
              && (r == NoConnection <==>
                    got == ConnManager.NoConn || (got.Conn? && behind[got.c].state != Server.ServerMachine.Registered))
              && (r.Connected? || r.ContextDone? ==>
                    var conn := behind[got.c].conn;
                    Server.Sent(behind[got.c].json, Frames.Connect(id),
                                old(conn.output), old(conn.input), conn.output, conn.input))
              && (r == SendFailed ==>
                    var conn := behind[got.c].conn;
                    Server.Unanswered(conn, old(conn.output), old(conn.input)))
              && (r == SendFailed ==>
                    cm.Value() == ConnManager.Apply(ConnManager.Apply(old(cm.Value()), ConnManager.Get),
                                                    ConnManager.Remove(got.c.id)))
      ensures r == ContextDone && !cancelled ==> FirstFor(arrivals, id) == None
      ensures forall a :: a in arrivals ==> a.conn.closed == old(a.conn.closed)
      ensures r != SendFailed ==> cm.Value() == ConnManager.Apply(old(cm.Value()), ConnManager.Get)
      ensures r == Panicked || r == NoConnection ==> requests == old(requests)
      ensures forall c :: c in old(cm.connections)
                          && (r == NoConnection || !Carries(c, ConnManager.Pick(old(cm.Value())), behind)) ==>
                            behind[c].conn.output == old(behind[c].conn.output)
      ensures r != Panicked && r != NoConnection ==> requests == old(requests) - Ids(arrivals)
      ensures r.Connected? ==> FirstFor(arrivals, id) == Some(r.conn)
    {
      var got := cm.GetConn();
      if got == ConnManager.Panic {
        return Panicked;
      }
      if got == ConnManager.NoConn || behind[got.c].state != Server.ServerMachine.Registered {
        return NoConnection;
      }
      assert got.c in cm.connections;
      r := DialOn(cm, got.c.id, behind[got.c], id, cancelled, arrivals);
    }
  }
}
