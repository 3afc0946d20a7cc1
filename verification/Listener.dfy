/**
 The listener's side: taking commands off the channel until one asks for a connection, and
 binding the stream opened for it.
 */
module Listener {
  import opened Wire
  import opened Connection
  import opened Frames
  import Dialer
  import Client
  import ClientMachine

  datatype Accepted = ListenerClosed | Dial(id: Uuid) | BadPayload | Unexpected(cmd: Command)

  /**
   `commands` is what the channel will still deliver before it, or the listener, is closed;
   `idOf` reads an identifier out of a custom payload.
   */
  class Listener {
    const handlers: set<string>
    const idOf: bytes -> Option<Uuid>
    var commands: seq<Command>
    var handled: seq<Command>
    var stopped: bool

    constructor (commands: seq<Command>, idOf: bytes -> Option<Uuid>, handlers: set<string>)
      requires forall h :: h in handlers ==> NewCommandType(h).Some?
      ensures this.commands == commands && handled == [] && !stopped
      ensures this.handlers == handlers && this.idOf == idOf
    {
      this.commands, this.idOf, this.handlers, handled, stopped := commands, idOf, handlers, [], false;
    }

    /** A command that only runs an event handler. */
    predicate Passes(cmd: Command) {
      Type(cmd) != CONNECT_TYPE && Type(cmd) in handlers
    }

    function Decide(cmd: Command): Accepted {
      if Type(cmd) == CONNECT_TYPE then
        match cmd
        case ConnectCommand(id) => Dial(id)
        case CustomEventCommand(e) => (match idOf(e.data) case Some(id) => Dial(id) case None => BadPayload)
      else Unexpected(cmd)
    }

    /**
     Runs the handlers of the events at the head of the channel, in order, and returns on the first
     command that has none, or at the end: for a connection request with the identifier it carries,
     for any other event with that event. As long as no event goes by a reserved name, the requests
     are taken one at a time and in order, and none is lost.
     */
    method Accept() returns (r: Accepted)
      modifies this`commands, this`handled
      ensures old(handled) <= handled
      ensures var n := |handled| - |old(handled)|;
              && n <= |old(commands)| && handled[|old(handled)|..] == old(commands)[..n]
              && (forall cmd :: cmd in old(commands)[..n] ==> Passes(cmd))
              && if n == |old(commands)| then r == ListenerClosed && commands == []
                 else !Passes(old(commands)[n]) && r == Decide(old(commands)[n]) && commands == old(commands)[n + 1..]
      ensures var n := |handled| - |old(handled)|;
              n < |old(commands)| ==>
                match old(commands)[n]
                case ConnectCommand(id) => r == Dial(id)
                case CustomEventCommand(e) =>
                  if e.name == CONNECT_TYPE then
                    r == (match idOf(e.data) case Some(id) => Dial(id) case None => BadPayload)
                  else e.name !in handlers && r == Unexpected(old(commands)[n])
      ensures forall cmd :: cmd in handled[|old(handled)|..] ==>
                cmd.CustomEventCommand? && cmd.event.name != CONNECT_TYPE && cmd.event.name in handlers
      ensures (forall cmd :: cmd in old(commands) ==> Clean(cmd)) ==>
                && r != BadPayload
                && ConnectsIn(old(commands)) == (if r.Dial? then [r.id] else []) + ConnectsIn(commands)
    {
      ghost var n := 0;
      while commands != []
        invariant n <= |old(commands)| && commands == old(commands)[n..]
        invariant handled == old(handled) + old(commands)[..n]
        invariant forall cmd :: cmd in old(commands)[..n] ==> Passes(cmd)
        decreases |commands|
      {
        var cmd := commands[0];
        commands := commands[1..];
        if !Passes(cmd) {
          TakesOne(old(commands), n);
          assert cmd in old(commands);
          return Decide(cmd);
        }
        handled := handled + [cmd];
        assert old(commands)[..n + 1] == old(commands)[..n] + [cmd];
        n := n + 1;
      }
      EventsOnly(old(commands));
      return ListenerClosed;
    }

    /** Handled events are no connection requests; behind them the command returned on is the first. */
    lemma {:induction false} TakesOne(cmds: seq<Command>, n: nat)
      requires n < |cmds| && forall cmd :: cmd in cmds[..n] ==> Passes(cmd)
      ensures ConnectsIn(cmds)
           == (if cmds[n].ConnectCommand? then [cmds[n].id] else []) + ConnectsIn(cmds[n + 1..])
    {
      EventsOnly(cmds[..n]);
      assert cmds == cmds[..n] + cmds[n..];
      ConnectsSplit(cmds[..n], cmds[n..]);
      assert cmds[n..] == [cmds[n]] + cmds[n + 1..];
      ConnectsSplit([cmds[n]], cmds[n + 1..]);
      ConnectsOfOne(cmds[n]);
    }

    lemma {:induction false} EventsOnly(cmds: seq<Command>)
      requires forall cmd :: cmd in cmds ==> Passes(cmd)
      ensures ConnectsIn(cmds) == []
      decreases |cmds|
    {
      if cmds != [] {
        assert cmds[|cmds| - 1] in cmds;
        EventsOnly(cmds[..|cmds| - 1]);
      }
    }

    /** A stream for a request, null when opening it fails; one that cannot be bound is closed. */
    method AcceptV2Stream(stream: Conn?, id: Uuid) returns (conn: Conn?)
      modifies stream
      ensures conn == null || conn == stream
      ensures conn != null ==>
                && stream.output == old(stream.output) + Dialer.BindBytes(id)
                && old(stream.input) == Reply(RES_SUCCESS) + stream.input && stream.closed == old(stream.closed)
      ensures conn == null && stream != null ==>
                stream.closed && (stream.broken || !(Reply(RES_SUCCESS) <= old(stream.input)))
    {
      if stream == null {
        return null;
      }
      var ok := BindStream(stream, id);
      if !ok {
        stream.Close();
        return null;
      }
      return stream;
    }

    /**
     A connection of its own for a request, null when dialling fails, which stops the listener; one
     that cannot be bound is closed.
     */
    method AcceptV1Connection(raw: Conn?, credentials: Option<bytes>, id: Uuid, mux: MuxConfig, json: Json)
      returns (conn: Conn?)
      modifies raw, this`stopped
      ensures stopped <==> old(stopped) || raw == null
      ensures conn == null || conn == raw
      ensures conn == null && raw != null ==> raw.closed
      ensures conn != null ==> raw.closed == old(raw.closed) && (raw.broken ==> old(raw.broken))
      ensures raw != null && !raw.broken ==>
                var cfg := ClientMachine.Config(if credentials.Some? then USER_PASS_AUTH else NO_AUTH,
                                                if credentials.Some? then credentials.value else [],
                                                ClientMachine.Bind, id, mux, false);
                conn == raw <==> ClientMachine.Exec(cfg, ClientMachine.Begin, old(raw.input)).st.Done?
    {
      if raw == null {
        stopped := true;
        return null;
      }
      var client := new Client.Client(raw, credentials, mux, false, true, json, null);
      var err, unexpected := client.Bind(id);
      if err.Some? {
        raw.Close();
        return null;
      }
      return raw;
    }
  }

  /** The connection requests of a channel fed by a server are those it sent, in order. */
  lemma RequestsAreThoseSent(fs: seq<Frame>)
    requires forall f :: f in fs ==> Sendable(f)
    ensures ConnectsIn(ForwardedAll(fs)) == ConnectsSent(fs)
    ensures forall cmd :: cmd in ForwardedAll(fs) ==> Clean(cmd)
  {
    ConnectsHandedOn(fs);
    SendableIsClean(fs);
  }

  /** Sends the bind command on a stream; it succeeds exactly on the peer's success reply, unless the write fails. */
  method BindStream(stream: Conn, id: Uuid) returns (ok: bool)
    modifies stream
    ensures stream.closed == old(stream.closed)
    ensures ok ==>
              && stream.output == old(stream.output) + Dialer.BindBytes(id)
              && old(stream.input) == Reply(RES_SUCCESS) + stream.input
    ensures !ok ==> stream.broken || !(Reply(RES_SUCCESS) <= old(stream.input))
  {
    var written := stream.Write([VERSION_V1, CMD_BIND] + id);
    if !written {
      return false;
    }
    assert [VERSION_V1, CMD_BIND] + id == Dialer.BindBytes(id);
    ghost var in1 := stream.input;
    var resp := stream.ReadWhole(2);
    if resp.None? {
      return false;
    }
    ok := resp.value[0] == VERSION_V1 && resp.value[1] == RES_SUCCESS;
    assert ok ==> in1[..2] == Reply(RES_SUCCESS);
  }
}
