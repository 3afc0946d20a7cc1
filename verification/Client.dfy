/**
 The client half of the handshake in the shape of the code. `Register` and `Bind` are proved
 to do what `ClientMachine.Exec` says for every input.
 */
module Client {
  import opened Wire
  import opened Connection
  import opened ClientMachine
  import Frames

  datatype Life = Connected | Processing | Registered | Bound | Disconnected

  function After(err: Option<Failure>, next: State): State {
    match err
    case None => next
    case Some(why) => Failed(why)
  }

  /**
   A client over one connection. `controlStream` is what opening a stream on the mux session
   that the connection may become yields, or null when that fails.
   */
  class Client {
    const mode: byte
    const token: bytes
    const mux: MuxConfig
    const muxUsable: bool
    const disableV2: bool
    const json: Frames.Json
    const controlStream: Conn?
    var conn: Conn
    var cmds: seq<Frames.Command>
    var state: Life
    var isV2: bool

    constructor (conn: Conn, credentials: Option<bytes>, mux: MuxConfig, muxUsable: bool, disableV2: bool,
                 json: Frames.Json, controlStream: Conn?)
      ensures this.conn == conn && state == Connected && !isV2 && cmds == []
      ensures this.json == json && this.disableV2 == disableV2 && this.controlStream == controlStream
      ensures forall goal, id ::
                Cfg(goal, id) == Config(if credentials.Some? then USER_PASS_AUTH else NO_AUTH,
                                        if credentials.Some? then credentials.value else [], goal, id, mux, muxUsable)
    {
      this.conn, this.mux, this.muxUsable, this.disableV2 := conn, mux, muxUsable, disableV2;
      this.mode := if credentials.Some? then USER_PASS_AUTH else NO_AUTH;
      this.token := if credentials.Some? then credentials.value else [];
      this.json, this.controlStream := json, controlStream;
      state, isV2, cmds := Connected, false, [];
    }

    function Cfg(goal: Goal, id: Uuid): Config {
      Config(mode, token, goal, id, mux, muxUsable)
    }

    /** The failure that a reply other than the wanted one stands for. */
    static function ReplyFailure(msg: Message, refused: Failure): Failure {
      match msg
      case WrongVersion => BadVersion
      case Code(_) => refused
      case _ => Io
    }

    /** Sends what takes the machine from `st` to `wait`, and reads the reply it waits for there. */
    method Exchange(c: Conn, body: bytes, ghost cfg: Config, ghost st: State, ghost wait: State) returns (msg: Message)
      requires !Stops(st) && Need(st) == 0 && Feed(cfg, st, []) == (wait, Framed(body))
      requires !Stops(wait) && Need(wait) == 2
      modifies c`input, c`output, c`broken
      ensures old(c.broken) ==> c.broken
      ensures msg.WriteFailed? ==> c.broken
      ensures c.broken && !old(c.broken) ==> msg.WriteFailed?
      ensures !msg.WriteFailed? ==>
                Ran(cfg, st, old(c.input), old(c.output),
                    match msg
                    case Code(code) => Feed(cfg, wait, Reply(code)).0
                    case WrongVersion => Failed(BadVersion)
                    case _ => Failed(Io),
                    c.input,
                    c.output + match msg case Code(code) => Feed(cfg, wait, Reply(code)).1 case _ => [])
    {
      ghost var in0, out0 := c.input, c.output;
      assert in0[0..] == in0;
      RanStep(cfg, st, in0, out0);
      msg := c.SendRequest(body);
      if msg.WriteFailed? {
        return;
      }
      ghost var out1 := out0 + Framed(body);
      assert c.output == out1 && out1 + [] == out1;
      if |in0| < 2 {
        RanDry(cfg, wait, in0, out1);
        RanThen(cfg, st, in0, out0, wait, in0, out1, Failed(Io), [], out1);
      } else {
        RanStep(cfg, wait, in0, out1);
        var (st', w) := Feed(cfg, wait, in0[..2]);
        assert msg.Code? ==> in0[..2] == Reply(msg.code);
        RanThen(cfg, st, in0, out0, wait, in0, out1, st', in0[2..], out1 + w);
      }
    }

    /** Offers the one method this client was configured for and carries it out. */
    method Establish(ghost cfg: Config) returns (err: Option<Failure>)
      requires cfg == Cfg(cfg.goal, cfg.id)
      modifies conn
      ensures conn.closed == old(conn.closed)
      ensures old(conn.broken) ==> conn.broken
      ensures conn.broken && !old(conn.broken) ==> err.Some?
      ensures err != Some(BadSession)
      ensures !conn.broken ==>
                Ran(cfg, Begin, old(conn.input), old(conn.output), After(err, Ready), conn.input, conn.output)
    {
      ghost var in0, out0 := conn.input, conn.output;
      var resp := Exchange(conn, [1, mode], cfg, Begin, Method);
      if !resp.Code? {
        assert conn.output + [] == conn.output;
        return Some(ReplyFailure(resp, Io));
      }
      err := HandleAuth(resp.code, cfg, in0, out0);
    }

    method HandleAuth(offered: byte, ghost cfg: Config, ghost in0: bytes, ghost out0: bytes)
      returns (err: Option<Failure>)
      requires cfg == Cfg(cfg.goal, cfg.id)
      requires !conn.broken ==>
                 var (st, w) := FeedMethod(cfg, offered);
                 Ran(cfg, Begin, in0, out0, st, conn.input, conn.output + w)
      modifies conn
      ensures conn.closed == old(conn.closed)
      ensures old(conn.broken) ==> conn.broken
      ensures conn.broken && !old(conn.broken) ==> err.Some?
      ensures err != Some(BadSession)
      ensures !conn.broken ==> Ran(cfg, Begin, in0, out0, After(err, Ready), conn.input, conn.output)
    {
      assert conn.output + [] == conn.output;
      if offered == NO_AUTH {
        return if mode != NO_AUTH then Some(DifferentMethod) else None;
      }
      if offered == USER_PASS_AUTH {
        if mode != USER_PASS_AUTH {
          return Some(DifferentMethod);
        }
        var resp := SendToken(cfg, in0, out0);
        return if resp == Code(RES_SUCCESS) then None else Some(ReplyFailure(resp, AuthRefused));
      }
      return Some(if offered == NO_ACCEPTABLE_AUTH_METHOD then NoAcceptableMethod else UnsupportedMethod);
    }

    method SendToken(ghost cfg: Config, ghost in0: bytes, ghost out0: bytes) returns (resp: Message)
      requires cfg == Cfg(cfg.goal, cfg.id)
      requires !conn.broken ==> Ran(cfg, Begin, in0, out0, Auth, conn.input, conn.output + Framed(token))
      modifies conn
      ensures conn.closed == old(conn.closed)
      ensures old(conn.broken) ==> conn.broken
      ensures conn.broken && !old(conn.broken) ==> resp.WriteFailed?
      ensures !conn.broken ==>
                Ran(cfg, Begin, in0, out0,
                    if resp == Code(RES_SUCCESS) then Ready else Failed(ReplyFailure(resp, AuthRefused)),
                    conn.input, conn.output)
    {
      ghost var in1, out1 := conn.input, conn.output + Framed(token);
      resp := conn.SendRequest(token);
      if !resp.WriteFailed? {
        if |in1| < 2 { RanDry(cfg, Auth, in1, out1); } else { RanStep(cfg, Auth, in1, out1); }
        assert out1 + [] == out1;
        if !conn.broken {
          RanThen(cfg, Begin, in0, out0, Auth, in1, out1,
                  if resp == Code(RES_SUCCESS) then Ready else Failed(ReplyFailure(resp, AuthRefused)),
                  conn.input, out1);
        }
      }
    }

    /** Registers or binds a logged-in client over its connection. */
    method HandleId(cfg: Config) returns (err: Option<Failure>)
      requires cfg == Cfg(cfg.goal, cfg.id) && cfg.goal != RegisterV2
      modifies conn
      ensures conn.closed == old(conn.closed)
      ensures old(conn.broken) ==> conn.broken
      ensures conn.broken && !old(conn.broken) ==> err.Some?
      ensures err != Some(BadSession)
      ensures !conn.broken ==>
                Ran(cfg, Ready, old(conn.input), old(conn.output), After(err, Done), conn.input, conn.output)
    {
      var resp := Exchange(conn, [GoalCommand(cfg.goal)] + cfg.id, cfg, Ready, Answer);
      assert conn.output + [] == conn.output;
      return if resp == Code(RES_SUCCESS) then None else Some(ReplyFailure(resp, CommandRefused));
    }

    /** Login and command in V1 mode, as `Bind` and the V1 form of `Register` do them. */
    method RunV1(cfg: Config) returns (err: Option<Failure>)
      requires cfg == Cfg(cfg.goal, cfg.id) && cfg.goal != RegisterV2
      modifies conn
      ensures conn.closed == old(conn.closed)
      ensures conn.broken && !old(conn.broken) ==> err.Some?
      ensures err != Some(BadSession)
      ensures !conn.broken ==>
                Ran(cfg, Begin, old(conn.input), old(conn.output), After(err, Done), conn.input, conn.output)
    {
      ghost var in0, out0 := conn.input, conn.output;
      err := Establish(cfg);
      if err.Some? {
        return;
      }
      ghost var in1, out1 := conn.input, conn.output;
      err := HandleId(cfg);
      if !conn.broken {
        RanThen(cfg, Begin, in0, out0, Ready, in1, out1, After(err, Done), conn.input, conn.output);
      }
    }

    /** A failed bind leaves the connection for the caller to close. */
    method Bind(id: Uuid) returns (err: Option<Failure>, unexpected: bool)
      modifies this`state, conn
      ensures unexpected <==> old(state) != Connected
      ensures unexpected ==> state == old(state) && conn.input == old(conn.input) && conn.output == old(conn.output)
      ensures conn.closed == old(conn.closed)
      ensures !unexpected ==> state == if err.None? then Bound else Processing
      ensures conn.broken && !old(conn.broken) ==> err.Some?
      ensures !unexpected && !conn.broken ==>
                Ran(Cfg(Goal.Bind, id), Begin, old(conn.input), old(conn.output),
                    After(err, Done), conn.input, conn.output)
    {
      if state != Connected {
        return None, true;
      }
      state := Processing;
      unexpected := false;
      err := RunV1(Cfg(Goal.Bind, id));
      if err.None? {
        state := Bound;
      }
    }

    /**
     Binds over a new stream of the session, null when opening it fails. A bound stream becomes
     the client's connection; one that is refused is closed and nothing else changes.
     */
    method BindV2Stream(stream: Conn?, id: Uuid) returns (ok: bool)
      modifies this`state, this`conn, stream
      ensures ok ==>
                && isV2 && stream != null && state == Bound && conn == stream && stream.closed == old(stream.closed)
                && stream.output == old(stream.output) + Framed([CMD_BIND] + id)
                && old(stream.input) == Reply(RES_SUCCESS) + stream.input
      ensures !ok ==>
                !isV2 || stream == null || stream.broken || FirstMessage(old(stream.input)) != Code(RES_SUCCESS)
      ensures !ok ==> state == old(state) && conn == old(conn) && (isV2 && stream != null ==> stream.closed)
    {
      if !isV2 || stream == null {
        return false;
      }
      var resp := stream.SendRequest([CMD_BIND] + id);
      if resp != Code(RES_SUCCESS) {
        stream.Close();
        return false;
      }
      assert old(stream.input)[..2] == Reply(RES_SUCCESS);
      state, conn := Bound, stream;
      return true;
    }

    /** What a V2 registration takes: a run to the session, a usable one, and a run over its control stream. */
    ghost predicate Registers(id: Uuid, input: bytes, control: Option<bytes>) {
      && Exec(Cfg(RegisterV2, id), Begin, input).st == Session && muxUsable
      && control.Some? && Exec(Cfg(RegisterV2, id), ControlBegin, control.value).st == Done
    }

    /** Logs in, upgrades the connection and registers on the control stream. */
    method TryV2Registration(id: Uuid) returns (err: Option<Failure>)
      requires controlStream != conn && !isV2
      requires controlStream != null ==> !controlStream.broken
      modifies this`state, this`conn, this`isV2, conn, controlStream
      ensures var raw, cfg := old(conn), Cfg(RegisterV2, id);
              && raw.closed == old(raw.closed)
              && (!raw.broken ==>
                    Ran(cfg, Begin, old(raw.input), old(raw.output),
                        if isV2 || err == Some(BadSession) then Session else After(err, Session),
                        raw.input, raw.output))
      ensures old(conn).broken && !old(conn.broken) ==> err.Some?
      ensures controlStream != null && controlStream.broken ==> err.Some?
      ensures err == Some(BadSession) ==> !muxUsable && !isV2
      ensures isV2 ==> muxUsable
      ensures !old(conn).broken && (controlStream == null || !controlStream.broken) ==>
                (err.None? <==>
                   Registers(id, old(conn.input),
                             old(if controlStream == null then None else Some(controlStream.input))))
      ensures isV2 && controlStream == null ==> err == Some(Io)
      ensures isV2 && controlStream != null && !controlStream.broken ==>
                Ran(Cfg(RegisterV2, id), ControlBegin, old(controlStream.input), old(controlStream.output),
                    After(err, Done), controlStream.input, controlStream.output)
      ensures err.None? ==> isV2 && state == Registered && conn == controlStream
      ensures err.Some? ==> state == old(state) && conn == old(conn)
    {
      var cfg := Cfg(RegisterV2, id);
      err := Upgrade(cfg);
      if err.Some? {
        return;
      }
      if !muxUsable {
        return Some(BadSession);
      }
      isV2 := true;
      if controlStream == null {
        return Some(Io);
      }
      var resp := Exchange(controlStream, [CMD_REGISTER] + id, cfg, ControlBegin, Control);
      assert controlStream.output + [] == controlStream.output;
      if resp != Code(RES_SUCCESS) {
        return Some(ReplyFailure(resp, CommandRefused));
      }
      state, conn := Registered, controlStream;
      return None;
    }

    /** The part of the V2 registration that happens before the session starts. */
    method Upgrade(cfg: Config) returns (err: Option<Failure>)
      requires cfg == Cfg(RegisterV2, cfg.id)
      modifies conn
      ensures conn.closed == old(conn.closed)
      ensures conn.broken && !old(conn.broken) ==> err.Some?
      ensures err != Some(BadSession)
      ensures !conn.broken ==>
                Ran(cfg, Begin, old(conn.input), old(conn.output), After(err, Session), conn.input, conn.output)
    {
      ghost var in0, out0 := conn.input, conn.output;
      err := Establish(cfg);
      if err.Some? {
        return;
      }
      ghost var in1, out1 := conn.input, conn.output;
      var resp := Exchange(conn, [CMD_MUX_INIT] + cfg.mux, cfg, Ready, MuxReady);
      assert conn.output + [] == conn.output;
      err := if resp == Code(CMD_MUX_READY) then None else Some(ReplyFailure(resp, NoV2));
      if !conn.broken {
        RanThen(cfg, Begin, in0, out0, Ready, in1, out1, After(err, MuxBody), conn.input, conn.output);
      }
      if err.Some? {
        return;
      }
      ghost var in2, out2 := conn.input, conn.output;
      var negotiated := conn.ReadFull(12);
      if |in2| < 12 { RanDry(cfg, MuxBody, in2, out2); } else { RanStep(cfg, MuxBody, in2, out2); }
      assert out2 + [] == out2;
      err := if negotiated.None? then Some(Io) else None;
      if !conn.broken {
        RanThen(cfg, Begin, in0, out0, MuxBody, in2, out2, After(err, Session), conn.input, conn.output);
      }
    }

    /** A failed V1 registration cancels its context, which closes the connection; a failed V2 one does not. */
    method Register(id: Uuid) returns (err: Option<Failure>, unexpected: bool)
      requires controlStream != conn && !isV2
      requires controlStream != null ==> !controlStream.broken
      modifies this`state, this`conn, this`isV2, conn, controlStream
      ensures unexpected <==> old(state) != Connected
      ensures unexpected ==>
                && state == old(state) && conn == old(conn)
                && conn.input == old(conn.input) && conn.output == old(conn.output)
      ensures !unexpected ==> state == if err.None? then Registered else Processing
      ensures old(conn).broken && !old(conn.broken) ==> err.Some?
      ensures controlStream != null && controlStream.broken ==> err.Some?
      ensures !unexpected && disableV2 && !conn.broken ==>
                Ran(Cfg(Goal.Register, id), Begin, old(conn.input), old(conn.output),
                    After(err, Done), conn.input, conn.output)
      ensures !unexpected && disableV2 && err.Some? ==> conn.closed
      ensures !unexpected && !disableV2 ==>
                && (err == Some(BadSession) ==> !muxUsable && !isV2) && (isV2 ==> muxUsable)
                && (!old(conn).broken && (controlStream == null || !controlStream.broken) ==>
                      (err.None? <==>
                         Registers(id, old(conn.input),
                                   old(if controlStream == null then None else Some(controlStream.input)))))
      ensures var raw := old(conn);
              !unexpected && !disableV2 && !raw.broken ==>
                Ran(Cfg(RegisterV2, id), Begin, old(raw.input), old(raw.output),
                    if isV2 || err == Some(BadSession) then Session else After(err, Session), raw.input, raw.output)
      ensures !unexpected && isV2 && controlStream != null && !controlStream.broken ==>
                Ran(Cfg(RegisterV2, id), ControlBegin, old(controlStream.input), old(controlStream.output),
                    After(err, Done), controlStream.input, controlStream.output)
    {
      if state != Connected {
        return None, true;
      }
      state := Processing;
      unexpected := false;
      if disableV2 {
        err := RunV1(Cfg(Goal.Register, id));
        if err.Some? {
          conn.Close();
          return;
        }
        state := Registered;
        return;
      }
      err := TryV2Registration(id);
    }

    // ---------- the command loop ----------

    /** Hands a command on and acknowledges it; with a cancelled context it may do neither. */
    method Forward(cmd: Frames.Command, cancelled: bool) returns (ok: bool)
      modifies this`cmds, conn`output, conn`broken
      ensures cmds == old(cmds) || cmds == old(cmds) + [cmd]
      ensures cmds == old(cmds) ==> ok && cancelled && conn.output == old(conn.output)
      ensures cmds == old(cmds) + [cmd] ==>
                conn.output == if ok then old(conn.output) + Reply(RES_SUCCESS) else old(conn.output)
      ensures !ok ==> conn.broken
    {
      var skip := *;
      if cancelled && skip {
        return true;
      }
      cmds := cmds + [cmd];
      ok := conn.Write(Reply(RES_SUCCESS));
    }

    method HandleConnect(cancelled: bool) returns (ok: bool)
      modifies this`cmds, conn`input, conn`output, conn`broken
      ensures Handled(Frames.ParseConnect(old(conn.input)), cancelled, ok, old(cmds), old(conn.output))
      ensures |old(conn.input)| >= 16 && !conn.broken ==> ok
      ensures ok ==> conn.output == old(conn.output) + Reply(RES_SUCCESS)
                     || (cancelled && conn.output == old(conn.output) && cmds == old(cmds))
      ensures cmds != old(cmds) ==>
                |old(conn.input)| >= 16 && cmds == old(cmds) + [Frames.ConnectCommand(old(conn.input)[..16])]
      ensures !cancelled && |old(conn.input)| >= 16 ==> cmds != old(cmds)
    {
      var buf := conn.ReadWhole(16);
      if buf.None? {
        return false;
      }
      ok := Forward(Frames.ConnectCommand(buf.value), cancelled);
    }

    method HandleCustomEvent(cancelled: bool) returns (ok: bool)
      modifies this`cmds, conn`input, conn`output, conn`broken
      ensures Handled(Frames.ParseEvent(json, old(conn.input)), cancelled, ok, old(cmds), old(conn.output))
      ensures Frames.ParseEvent(json, old(conn.input)).Parsed? && !conn.broken ==> ok
      ensures ok ==> conn.output == old(conn.output) + Reply(RES_SUCCESS)
                     || (cancelled && conn.output == old(conn.output) && cmds == old(cmds))
      ensures cmds != old(cmds) ==>
                exists event, rest ::
                  && Frames.ParseEvent(json, old(conn.input)) == Frames.Parsed(Frames.Custom(event), rest)
                  && cmds == old(cmds) + [Frames.CustomEventCommand(event)]
      ensures !cancelled && Frames.ParseEvent(json, old(conn.input)).Parsed? ==> cmds != old(cmds)
    {
      ghost var in0 := conn.input;
      var lenBuf := conn.ReadFull(2);
      if lenBuf.None? {
        return false;
      }
      var n := GetUint16(lenBuf.value);
      var data := conn.ReadFull(n);
      if data.None? {
        return false;
      }
      assert in0[2..2 + n] == in0[2..][..n] && in0[2 + n..] == in0[2..][n..];
      var event := json.unmarshal(data.value);
      if event.None? {
        return false;
      }
      ok := Forward(Frames.CustomEventCommand(event.value), cancelled);
    }

    /**
     How one turn of the loop ends, given what its frame parsed to: without a frame it ends the loop
     and does nothing; with one it fails only when the answer could not be written.
     */
    ghost predicate Handled(p: Frames.Parsed, cancelled: bool, ok: bool, cmds0: seq<Frames.Command>, out0: bytes)
      reads this, conn
    {
      if !p.Parsed? then !ok && cmds == cmds0 && conn.output == out0
      else
        && conn.input == p.rest && (!ok ==> conn.broken)
        && match Frames.Forwarded(p.frame)
           case None => cmds == cmds0 && conn.output == (if ok then out0 + Reply(RES_SUCCESS) else out0)
           case Some(cmd) =>
             || (cmds == cmds0 && ok && cancelled && conn.output == out0)
             || (cmds == cmds0 + [cmd] && conn.output == (if ok then out0 + Reply(RES_SUCCESS) else out0))
    }

    /**
     One turn of the command loop: the next frame on the connection is handed on, if it is to
     be, before it is acknowledged, and an input that is no frame ends the loop.
     */
    method HandleCommand(cancelled: bool) returns (ok: bool)
      modifies this`cmds, conn`input, conn`output, conn`broken
      ensures Handled(Frames.Parse(json, old(conn.input)), cancelled, ok, old(cmds), old(conn.output))
      ensures var p := Frames.Parse(json, old(conn.input));
              && (ok ==> p.Parsed?) && (p.Parsed? && !conn.broken ==> ok)
              && (ok ==> conn.output == old(conn.output) + Reply(RES_SUCCESS)
                         || (cancelled && !p.frame.Ping? && conn.output == old(conn.output) && cmds == old(cmds)))
              && (p.Parsed? && !cancelled ==>
                    match p.frame
                    case Connect(id) => cmds == old(cmds) + [Frames.ConnectCommand(id)]
                    case Ping => cmds == old(cmds)
                    case Custom(event) => cmds == old(cmds) + [Frames.CustomEventCommand(event)])
    {
      var msg := conn.ReadMsg();
      if !msg.Code? {
        return false;
      }
      if msg.code == CMD_CONNECT {
        ok := HandleConnect(cancelled);
      } else if msg.code == CMD_PING {
        ok := conn.Write(Reply(RES_SUCCESS));
      } else if msg.code == CMD_CUSTOM_EVENT {
        ok := HandleCustomEvent(cancelled);
      } else {
        return false;
      }
    }
  }
}
