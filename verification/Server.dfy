/**
 The server half of the handshake and of the command channel, in the shape of the code: an
 object whose methods read and write its connection and move its state.

 `Process` is proved to do what `ServerMachine.Exec` says for every input.
 */
module Server {
  import opened Wire
  import opened Connection
  import opened ServerMachine
  import Frames

  /** How one offered authentication method ends. */
  datatype AuthResult = Authenticated | Unsupported | Refused(why: Failure)

  /** Where the machine stands after a phase that leads to `next`. */
  function After(err: Option<Failure>, next: State): State {
    match err
    case None => next
    case Some(why) => Failed(why)
  }

  /** The state in which the machine's run over the connection ends when `Process` returns. */
  function Verdict(err: Option<Failure>, state: Life, id: Uuid, isV2: bool): State {
    if isV2 || err == Some(BadSession) then Session
    else if err.Some? then Failed(err.value)
    else Done(if state == Registered then CMD_REGISTER else CMD_BIND, id)
  }

  function MessageFailure(m: Message): Failure {
    if m.WrongVersion? then BadVersion else Io
  }

  /**
   A server over one connection. `firstStream` is the stream the peer opens first on the mux
   session that the connection may become, or null when it never opens one; `session` is the
   connection that such a session runs on, or null before there is one.
   */
  class Server {
    const cfg: Config
    const json: Frames.Json
    const firstStream: Conn?
    var conn: Conn
    var state: Life
    var id: Uuid
    var isV2: bool
    var session: Conn?

    /** `check` is the credentials callback, if one is set; without one every client is let in. */
    constructor (conn: Conn, noAuth: bool, check: Option<(bytes, bytes) -> bool>, mux: MuxConfig, muxUsable: bool,
                 json: Frames.Json, firstStream: Conn?)
      ensures this.conn == conn && this.json == json && this.firstStream == firstStream
      ensures state == Connected && !isV2 && session == null
      ensures cfg.mux == mux && cfg.muxUsable == muxUsable && (check.Some? ==> cfg.valid == check.value)
      ensures Acceptable(cfg, USER_PASS_AUTH) <==> check.Some?
      ensures Acceptable(cfg, NO_AUTH) <==> noAuth || check.None?
    {
      this.conn, this.json, this.firstStream := conn, json, firstStream;
      this.cfg := NewConfig(noAuth, check, mux, muxUsable);
      state, isV2, session := Connected, false, null;
    }

    method HandleUserPassAuth() returns (err: Option<Failure>)
      requires cfg.userPass
      modifies conn
      ensures conn.closed == old(conn.closed)
      ensures old(conn.broken) ==> conn.broken
      ensures conn.broken && !old(conn.broken) ==> err.Some?
      ensures err != Some(BadSession)
      ensures !conn.broken ==>
                Ran(cfg, UserLen, old(conn.input), old(conn.output) + Reply(USER_PASS_AUTH),
                    After(err, Command), conn.input, conn.output)
    {
      ghost var in0, out0 := conn.input, conn.output + Reply(USER_PASS_AUTH);
      var userLen := conn.SendRequest([USER_PASS_AUTH]);
      if userLen == WriteFailed {
        return Some(Io);
      }
      assert conn.output == out0;
      if |in0| < 2 { RanDry(cfg, UserLen, in0, out0); } else { RanStep(cfg, UserLen, in0, out0); }
      if !userLen.Code? {
        return Some(MessageFailure(userLen));
      }
      if userLen.code == 0 {
        return Some(EmptyUsername);
      }
      ghost var in1 := conn.input;
      var username := conn.ReadWhole(userLen.code);
      if username.None? {
        RanDry(cfg, User(userLen.code), in1, out0);
        RanThen(cfg, UserLen, in0, out0, User(userLen.code), in1, out0, Failed(Io), [], out0);
        return Some(Io);
      }
      RanStep(cfg, User(userLen.code), in1, out0);
      RanThen(cfg, UserLen, in0, out0, User(userLen.code), in1, out0, PassLen(username.value), conn.input, out0);
      var password: Option<bytes>;
      err, password := ReadPassword(username.value, in0, out0);
      if err.Some? {
        return;
      }
      ghost var in3 := conn.input;
      var granted := cfg.valid(username.value, password.value);
      var ok := conn.Write(Reply(if granted then RES_SUCCESS else RES_FAILURE));
      if !ok {
        return Some(Io);
      }
      err := if granted then None else Some(BadCredentials);
      assert conn.output == out0 + Reply(if granted then RES_SUCCESS else RES_FAILURE);
    }

    /** The password and its length, and what the machine makes of them once they are checked. */
    method ReadPassword(username: bytes, ghost in0: bytes, ghost out0: bytes)
      returns (err: Option<Failure>, password: Option<bytes>)
      requires Ran(cfg, UserLen, in0, out0, PassLen(username), conn.input, out0)
      modifies conn`input
      ensures err != Some(BadSession)
      ensures err.Some? ==> Ran(cfg, UserLen, in0, out0, Failed(err.value), conn.input, out0)
      ensures err.None? ==>
                password.Some? &&
                var granted := cfg.valid(username, password.value);
                Ran(cfg, UserLen, in0, out0, if granted then Command else Failed(BadCredentials), conn.input,
                    out0 + Reply(if granted then RES_SUCCESS else RES_FAILURE))
    {
      password := None;
      ghost var in1 := conn.input;
      var passLenBuf := conn.ReadWhole(1);
      if passLenBuf.None? {
        RanDry(cfg, PassLen(username), in1, out0);
        RanThen(cfg, UserLen, in0, out0, PassLen(username), in1, out0, Failed(Io), [], out0);
        return Some(Io), None;
      }
      ghost var in2 := conn.input;
      RanStep(cfg, PassLen(username), in1, out0);
      var passLen := passLenBuf.value[0];
      ghost var mid := if passLen == 0 then Failed(EmptyPassword) else Pass(username, passLen);
      RanThen(cfg, UserLen, in0, out0, PassLen(username), in1, out0, mid, in2, out0);
      if passLen == 0 {
        return Some(EmptyPassword), None;
      }
      password := conn.ReadWhole(passLen);
      if password.None? {
        RanDry(cfg, mid, in2, out0);
        RanThen(cfg, UserLen, in0, out0, mid, in2, out0, Failed(Io), [], out0);
        return Some(Io), None;
      }
      RanStep(cfg, mid, in2, out0);
      var (st', w) := Feed(cfg, mid, password.value);
      RanThen(cfg, UserLen, in0, out0, mid, in2, out0, st', conn.input, out0 + w);
      err := None;
    }

    method HandleAuth(m: byte) returns (r: AuthResult)
      modifies conn
      ensures conn.closed == old(conn.closed)
      ensures r == Unsupported <==> !Acceptable(cfg, m)
      ensures r != Refused(BadSession)
      ensures r == Unsupported ==>
                conn.input == old(conn.input) && conn.output == old(conn.output) && conn.broken == old(conn.broken)
      ensures old(conn.broken) ==> conn.broken
      ensures conn.broken && !old(conn.broken) ==> r.Refused?
      ensures Acceptable(cfg, m) && !conn.broken ==>
                Ran(cfg, if m == NO_AUTH then Command else UserLen, old(conn.input), old(conn.output) + Reply(m),
                    if r.Refused? then Failed(r.why) else Command, conn.input, conn.output)
    {
      if m == NO_AUTH {
        if !cfg.noAuth {
          return Unsupported;
        }
        var ok := conn.Write(Reply(NO_AUTH));
        return if ok then Authenticated else Refused(Io);
      }
      if m == USER_PASS_AUTH {
        if !cfg.userPass {
          return Unsupported;
        }
        var err := HandleUserPassAuth();
        return if err.Some? then Refused(err.value) else Authenticated;
      }
      return Unsupported;
    }

    /** Offers each of the client's methods in turn; stops at the first that is not unsupported. */
    method TryMethods(methods: bytes) returns (err: Option<Failure>)
      modifies conn
      ensures conn.closed == old(conn.closed)
      ensures old(conn.broken) ==> conn.broken
      ensures conn.broken && !old(conn.broken) ==> err.Some?
      ensures err != Some(BadSession)
      ensures !conn.broken ==>
                Ran(cfg, Methods(|methods|), methods + old(conn.input), old(conn.output),
                    After(err, Command), conn.input, conn.output)
    {
      ghost var input, out := conn.input, conn.output;
      assert (methods + input)[..|methods|] == methods && (methods + input)[|methods|..] == input;
      RanStep(cfg, Methods(|methods|), methods + input, out);
      var i := 0;
      while i < |methods|
        invariant 0 <= i <= |methods|
        invariant conn.input == input && conn.output == out
        invariant conn.broken == old(conn.broken) && conn.closed == old(conn.closed)
        invariant Select(cfg, methods) == Select(cfg, methods[i..])
      {
        var m := methods[i];
        assert methods[i..][1..] == methods[i + 1..];
        var r := HandleAuth(m);
        if r == Unsupported {
          i := i + 1;
          continue;
        }
        err := if r.Refused? then Some(r.why) else None;
        if !conn.broken {
          ghost var next := if m == NO_AUTH then Command else UserLen;
          RanThen(cfg, Methods(|methods|), methods + input, out, next, input, out + Reply(m),
                  After(err, Command), conn.input, conn.output);
        }
        return;
      }
      var ok := conn.Write(Reply(NO_ACCEPTABLE_AUTH_METHOD));
      if !ok {
        return Some(Io);
      }
      return Some(NoAcceptableMethod);
    }

    method HandleInit() returns (err: Option<Failure>)
      modifies conn
      ensures conn.closed == old(conn.closed)
      ensures old(conn.broken) ==> conn.broken
      ensures conn.broken && !old(conn.broken) ==> err.Some?
      ensures err != Some(BadSession)
      ensures !conn.broken ==>
                Ran(cfg, Hello, old(conn.input), old(conn.output), After(err, Command), conn.input, conn.output)
    {
      ghost var in0, out := conn.input, conn.output;
      var msg := conn.ReadMsg();
      if |in0| < 2 { RanDry(cfg, Hello, in0, out); } else { RanStep(cfg, Hello, in0, out); }
      if !msg.Code? {
        return Some(MessageFailure(msg));
      }
      ghost var in1 := conn.input;
      var methods := conn.ReadFull(msg.code);
      if methods.None? {
        RanDry(cfg, Methods(msg.code), in1, out);
        RanThen(cfg, Hello, in0, out, Methods(msg.code), in1, out, Failed(Io), [], out);
        return Some(Io);
      }
      assert in1 == methods.value + conn.input;
      err := TryMethods(methods.value);
      if !conn.broken {
        RanThen(cfg, Hello, in0, out, Methods(msg.code), in1, out, After(err, Command), conn.input, conn.output);
      }
    }

    /**
     Stores the identifier, answers, and moves on only if nobody disconnected the server
     meanwhile; the answer has gone out by then.
     */
    method HandleId(cmd: byte) returns (err: Option<Failure>)
      requires cmd == CMD_REGISTER || cmd == CMD_BIND
      modifies this`state, this`id, conn
      ensures conn.closed == old(conn.closed)
      ensures old(conn.broken) ==> conn.broken
      ensures conn.broken && !old(conn.broken) ==> err.Some?
      ensures err.None? <==> state != old(state)
      ensures err.None? ==> old(state) == Processing && state == if cmd == CMD_REGISTER then Registered else Bound
      ensures err == Some(UnexpectedState) ==> old(state) != Processing
      ensures !conn.broken ==>
                Ran(cfg, Body(cmd), old(conn.input), old(conn.output),
                    if err == Some(Io) then Failed(Io) else Done(cmd, id), conn.input, conn.output)
      ensures err.Some? ==> err == Some(Io) || err == Some(UnexpectedState)
    {
      ghost var in0, out := conn.input, conn.output;
      var buf := conn.ReadWhole(16);
      if buf.None? {
        RanDry(cfg, Body(cmd), in0, out);
        return Some(Io);
      }
      RanStep(cfg, Body(cmd), in0, out);
      id := buf.value;
      var ok := conn.Write(Reply(RES_SUCCESS));
      if !ok {
        return Some(Io);
      }
      if state != Processing {
        return Some(UnexpectedState);
      }
      state := if cmd == CMD_REGISTER then Registered else Bound;
      return None;
    }

    /** Reads the client's mux configuration and answers with the server's own. */
    method AnswerMuxInit() returns (err: Option<Failure>)
      modifies conn
      ensures conn.closed == old(conn.closed)
      ensures old(conn.broken) ==> conn.broken
      ensures conn.broken && !old(conn.broken) ==> err.Some?
      ensures err.None? || err == Some(Io)
      ensures !conn.broken ==>
                Ran(cfg, MuxBody, old(conn.input), old(conn.output), After(err, Session), conn.input, conn.output)
    {
      ghost var in0, out := conn.input, conn.output;
      var configBuf := conn.ReadFull(12);
      if configBuf.None? {
        RanDry(cfg, MuxBody, in0, out);
        return Some(Io);
      }
      RanStep(cfg, MuxBody, in0, out);
      ghost var in1 := conn.input;
      assert in1[0..] == in1;
      var ok := conn.Write(Reply(CMD_MUX_READY));
      if !ok {
        return Some(Io);
      }
      ghost var out1 := conn.output;
      RanStep(cfg, MuxAnswer, in1, out);
      RanThen(cfg, MuxBody, in0, out, MuxAnswer, in1, out, MuxAnswerConfig, in1, out1);
      ok := conn.Write(cfg.mux);
      if !ok {
        return Some(Io);
      }
      RanStep(cfg, MuxAnswerConfig, in1, out1);
      RanThen(cfg, MuxBody, in0, out, MuxAnswerConfig, in1, out1, Session, in1, conn.output);
      return None;
    }

    /** Takes the registration off the control stream, which then carries the commands. */
    method RegisterOnControl(control: Conn) returns (err: Option<Failure>)
      requires control != conn
      modifies this`state, this`id, this`conn, control
      ensures err != Some(BadSession)
      ensures control.closed == old(control.closed)
      ensures control.broken && !old(control.broken) ==> err == Some(Io)
      ensures err.None? ==> state == Registered && conn == control
      ensures err.Some? ==> conn == old(conn)
      ensures err.Some? && state != old(state) ==> state == Registered && control.broken
      ensures control.broken && !old(control.broken) ==> state == Registered
      ensures !control.broken ==>
                Ran(cfg, Control, old(control.input), old(control.output),
                    After(err, Done(CMD_REGISTER, id)), control.input, control.output)
    {
      ghost var in0, out := control.input, control.output;
      var msg := control.ReadMsg();
      if |in0| < 2 { RanDry(cfg, Control, in0, out); } else { RanStep(cfg, Control, in0, out); }
      if !msg.Code? {
        return Some(MessageFailure(msg));
      }
      if msg.code != CMD_REGISTER {
        return Some(UnsupportedCommand);
      }
      ghost var in1 := control.input;
      var buf := control.ReadWhole(16);
      if buf.None? {
        RanDry(cfg, ControlId, in1, out);
        RanThen(cfg, Control, in0, out, ControlId, in1, out, Failed(Io), [], out);
        return Some(Io);
      }
      ghost var in2 := control.input;
      RanStep(cfg, ControlId, in1, out);
      RanThen(cfg, Control, in0, out, ControlId, in1, out, Commit(buf.value), in2, out);
      id, state := buf.value, Registered;
      CommitRan(cfg, Control, in0, id, in2, out);
      var ok := control.Write(Reply(RES_SUCCESS));
      if !ok {
        return Some(Io);
      }
      conn := control;
      return None;
    }

    /** The branch of `Process` that upgrades the connection to a mux session. */
    method ProcessV2AfterAuth() returns (err: Option<Failure>)
      requires firstStream != conn && !isV2
      requires firstStream != null ==> !firstStream.broken
      modifies this`state, this`id, this`conn, this`isV2, this`session, conn, firstStream
      ensures var raw := old(conn);
              && raw.closed == old(raw.closed) && (old(raw.broken) ==> raw.broken)
              && (raw.broken && !old(raw.broken) ==> err == Some(Io) && state == old(state))
              && (!raw.broken ==>
                    Ran(cfg, MuxBody, old(raw.input), old(raw.output),
                        if err == Some(Io) && !isV2 then Failed(Io) else Session, raw.input, raw.output))
      ensures firstStream != null ==> firstStream.closed == old(firstStream.closed)
      ensures isV2 ==> cfg.muxUsable && session == old(conn)
      ensures !isV2 ==> session == old(session)
      ensures err == Some(BadSession) ==> !isV2 && !cfg.muxUsable
      ensures err.Some? && !isV2 ==> err == Some(Io) || err == Some(BadSession)
      ensures err.None? ==>
                isV2 && state == Registered && firstStream != null && conn == firstStream && !firstStream.broken
      ensures isV2 && (firstStream == null || firstStream.broken) ==> err == Some(Io)
      ensures firstStream != null && firstStream.broken ==> err == Some(Io)
      ensures isV2 && firstStream != null && !firstStream.broken ==>
                Ran(cfg, Control, old(firstStream.input), old(firstStream.output),
                    After(err, Done(CMD_REGISTER, id)), firstStream.input, firstStream.output)
      ensures err.Some? ==> conn == old(conn)
      ensures err.Some? && state != old(state) ==>
                isV2 && state == Registered && firstStream != null && firstStream.broken
    {
      err := AnswerMuxInit();
      if err.Some? {
        return;
      }
      if !cfg.muxUsable {
        return Some(BadSession);
      }
      isV2, session := true, conn;
      if firstStream == null {
        return Some(Io);
      }
      err := RegisterOnControl(firstStream);
    }

    /** Once the session is up, the machine's run over the control stream decides the outcome. */
    ghost predicate ControlDecides(err: Option<Failure>, control: bytes)
      reads this, firstStream
    {
      if firstStream == null then err == Some(Io)
      else if firstStream.broken then err == Some(Io)
      else
        && Exec(cfg, Control, control).st == After(err, Done(CMD_REGISTER, id))
        && (err.None? ==> state == Registered && conn == firstStream)
    }

    /**
     What a handshake takes: a run of the machine over the connection to the end, or to a usable
     session and then to the end over its first stream.
     */
    ghost predicate Accepts(input: bytes, control: Option<bytes>) {
      var st := Exec(cfg, Hello, input).st;
      st.Done? || (st.Session? && cfg.muxUsable && control.Some? && Exec(cfg, Control, control.value).st.Done?)
    }

    /** Failures of the negotiation and of reading a command: the server closes its connection at once. */
    static predicate ClosedFor(why: Failure) {
      why in {BadVersion, NoAcceptableMethod, EmptyUsername, EmptyPassword, BadCredentials}
    }

    /**
     The whole handshake. On the V1 path the outcome, the identifier, what was written and what
     was left unread are those of the machine; on the V2 path the machine's two runs, over the
     connection and then over the control stream, decide it.
     */
    method Process() returns (err: Option<Failure>)
      requires firstStream != conn && !isV2
      requires firstStream != null ==> !firstStream.broken
      modifies this`state, this`id, this`conn, this`isV2, this`session, conn, firstStream
      ensures old(state) != Connected ==>
                err == Some(UnexpectedState) && state == old(state) && id == old(id) && conn == old(conn)
                && conn.input == old(conn.input) && conn.output == old(conn.output)
      ensures old(conn).broken && !old(conn.broken) ==> err.Some?
      ensures firstStream != null && firstStream.broken ==> err.Some?
      ensures firstStream != null ==> firstStream.closed == old(firstStream.closed)
      ensures err.None? ==> old(conn).closed == old(conn.closed)
      ensures old(state) == Connected && !isV2 && err.Some? && ClosedFor(err.value) ==> old(conn).closed
      ensures err == Some(BadSession) ==> !isV2 && !cfg.muxUsable
      ensures isV2 ==> cfg.muxUsable
      ensures old(state) == Connected && !old(conn).broken && (firstStream != null ==> !firstStream.broken) ==>
                (err.None? <==>
                   Accepts(old(conn.input), old(if firstStream == null then None else Some(firstStream.input))))
      ensures var raw := old(conn);
              old(state) == Connected && !raw.broken ==>
                old(raw.output) <= raw.output
                && Exec(cfg, Hello, old(raw.input))
                   == Trace(Verdict(err, state, id, isV2), raw.input, raw.output[|old(raw.output)|..])
      ensures old(state) == Connected && isV2 ==>
                && session == old(conn)
                && ControlDecides(err, old(if firstStream == null then [] else firstStream.input))
      ensures old(state) == Connected && err.None? ==>
                state == Registered || state == Bound
      ensures old(state) == Connected && err.Some? && state != Processing ==>
                state == Registered && isV2 && firstStream != null && firstStream.broken
    {
      if state != Connected {
        return Some(UnexpectedState);
      }
      state := Processing;
      ghost var raw, in0, out0 := conn, conn.input, conn.output;
      var cmd;
      err, cmd := ReadCommand();
      if err.Some? {
        return;
      }
      ghost var in1, out1, whole := conn.input, conn.output, !conn.broken;
      if cmd == CMD_MUX_INIT {
        err := FinishUpgrade();
        if whole && !raw.broken {
          RanThen(cfg, Hello, in0, out0, MuxBody, in1, out1,
                  if err == Some(Io) && !isV2 then Failed(Io) else Session, raw.input, raw.output);
        }
      } else {
        err := FinishV1(cmd);
        if whole && !raw.broken {
          RanThen(cfg, Hello, in0, out0, Lock(cmd), in1, out1, After(err, Done(cmd, id)), raw.input, raw.output);
        }
      }
    }

    /** The negotiation and the next command; whatever goes wrong so far, the connection is closed. */
    method ReadCommand() returns (err: Option<Failure>, cmd: byte)
      modifies conn
      ensures old(conn.broken) ==> conn.broken
      ensures conn.broken && !old(conn.broken) ==> err.Some?
      ensures conn.closed == (err.Some? || old(conn.closed))
      ensures err != Some(BadSession)
      ensures !conn.broken ==>
                Ran(cfg, Hello, old(conn.input), old(conn.output),
                    After(err, if cmd == CMD_MUX_INIT then MuxBody else Lock(cmd)), conn.input, conn.output)
    {
      ghost var in0, out0 := conn.input, conn.output;
      cmd := 0;
      err := HandleInit();
      if err.Some? {
        conn.Close();
        return;
      }
      ghost var in1, out1 := conn.input, conn.output;
      var msg := conn.ReadMsg();
      if |in1| < 2 { RanDry(cfg, Command, in1, out1); } else { RanStep(cfg, Command, in1, out1); }
      err := if msg.Code? then None else Some(MessageFailure(msg));
      cmd := if msg.Code? then msg.code else 0;
      if !conn.broken {
        RanThen(cfg, Hello, in0, out0, Command, in1, out1,
                After(err, if cmd == CMD_MUX_INIT then MuxBody else Lock(cmd)), conn.input, conn.output);
      }
      if err.Some? {
        conn.Close();
      }
    }

    /** Dispatches a V1 command under the lock. */
    method FinishV1(cmd: byte) returns (err: Option<Failure>)
      requires state == Processing
      modifies this`state, this`id, conn
      ensures old(conn.broken) ==> conn.broken
      ensures conn.broken && !old(conn.broken) ==> err.Some?
      ensures conn.closed == old(conn.closed)
      ensures err.Some? ==> !ClosedFor(err.value)
      ensures err.Some? ==> state == Processing && err != Some(BadSession)
      ensures err.None? ==> (cmd == CMD_REGISTER && state == Registered) || (cmd == CMD_BIND && state == Bound)
      ensures !conn.broken ==>
                Ran(cfg, Lock(cmd), old(conn.input), old(conn.output),
                    After(err, Done(cmd, id)), conn.input, conn.output)
    {
      ghost var in2, out := conn.input, conn.output;
      assert in2[0..] == in2;
      RanStep(cfg, Lock(cmd), in2, out);
      if cmd != CMD_REGISTER && cmd != CMD_BIND {
        return Some(UnsupportedCommand);
      }
      err := HandleId(cmd);
      if !conn.broken {
        RanThen(cfg, Lock(cmd), in2, out, Body(cmd), in2, out, After(err, Done(cmd, id)), conn.input, conn.output);
      }
    }

    /** The upgrade, and what its outcome says about the run over the control stream. */
    method FinishUpgrade() returns (err: Option<Failure>)
      requires firstStream != conn && !isV2 && state == Processing
      requires firstStream != null ==> !firstStream.broken
      modifies this`state, this`id, this`conn, this`isV2, this`session, conn, firstStream
      ensures old(conn.broken) ==> old(conn).broken
      ensures old(conn).broken && !old(conn.broken) ==> err.Some?
      ensures firstStream != null && firstStream.broken ==> err.Some?
      ensures old(conn).closed == old(conn.closed)
      ensures firstStream != null ==> firstStream.closed == old(firstStream.closed)
      ensures isV2 ==> session == old(conn) && cfg.muxUsable
      ensures err == Some(BadSession) ==> !isV2 && !cfg.muxUsable
      ensures !old(conn).broken && !isV2 ==> err == Some(Io) || err == Some(BadSession)
      ensures !isV2 && err.Some? ==> !ClosedFor(err.value)
      ensures !old(conn).broken ==>
                Ran(cfg, MuxBody, old(conn.input), old(conn.output),
                    if err == Some(Io) && !isV2 then Failed(Io) else Session, old(conn).input, old(conn).output)
      ensures err.None? ==> isV2 && state == Registered
      ensures isV2 ==> ControlDecides(err, old(if firstStream == null then [] else firstStream.input))
      ensures err.Some? && state != Processing ==>
                state == Registered && isV2 && firstStream != null && firstStream.broken
    {
      err := ProcessV2AfterAuth();
    }

    /** Closes the mux session first, if there is one: nothing can be accepted on it any more. */
    method Close()
      modifies this`state, conn, session
      ensures state == Disconnected && conn.closed && (session != null ==> session.closed)
      ensures conn.input == old(conn.input) && conn.output == old(conn.output)
    {
      if session != null {
        session.Close();
      }
      state := Disconnected;
      conn.Close();
    }

    // ---------- commands ----------

    /**
     Sends one request and turns its reply into a result. It succeeds exactly when the frame went
     out whole and the next two bytes of the connection were the success reply.
     */
    method Request(body: bytes) returns (ok: bool)
      modifies conn
      ensures ok ==>
                && conn.output == old(conn.output) + Framed(body)
                && old(conn.input) == Reply(RES_SUCCESS) + conn.input
      ensures conn.output == old(conn.output) + Framed(body) || (!ok && conn.output == old(conn.output))
      ensures !ok ==> Unanswered(conn, old(conn.output), old(conn.input))
      ensures conn.closed == old(conn.closed)
    {
      var msg := conn.SendRequest(body);
      ok := msg == Code(RES_SUCCESS);
    }

    method SendConnectCommand(request: Uuid) returns (ok: bool)
      modifies conn
      ensures conn.closed == old(conn.closed)
      ensures state != Registered ==> !ok && conn.output == old(conn.output) && conn.input == old(conn.input)
      ensures state == Registered && !ok ==> Unanswered(conn, old(conn.output), old(conn.input))
      ensures ok ==> Sent(json, Frames.Connect(request),
                          old(conn.output), old(conn.input), conn.output, conn.input)
    {
      if state != Registered {
        return false;
      }
      ok := Request([CMD_CONNECT] + request);
    }

    method SendPingCommand() returns (ok: bool)
      modifies conn
      ensures conn.closed == old(conn.closed)
      ensures state != Registered ==> !ok && conn.output == old(conn.output) && conn.input == old(conn.input)
      ensures state == Registered && !ok ==> Unanswered(conn, old(conn.output), old(conn.input))
      ensures ok ==> Sent(json, Frames.Ping,
                          old(conn.output), old(conn.input), conn.output, conn.input)
    {
      if state != Registered {
        return false;
      }
      ok := Request([CMD_PING]);
    }

    /** `data` is the payload as JSON, or `None` when it has no JSON form. */
    method SendCustomEvent(name: string, data: Option<bytes>) returns (ok: bool)
      modifies conn
      ensures conn.closed == old(conn.closed)
      ensures state != Registered ==> !ok && conn.output == old(conn.output) && conn.input == old(conn.input)
      ensures Frames.NewCustomEvent(name, data) == None
              || !Frames.Encodable(json, Frames.Custom(Frames.Event(name, data.value))) ==>
                !ok && conn.output == old(conn.output) && conn.input == old(conn.input)
      ensures state == Registered && Frames.NewCustomEvent(name, data).Some?
              && Frames.Encodable(json, Frames.Custom(Frames.Event(name, data.value))) && !ok ==>
                Unanswered(conn, old(conn.output), old(conn.input))
      ensures ok ==>
                && data.Some? && Frames.Sendable(Frames.Custom(Frames.Event(name, data.value)))
                && Sent(json, Frames.Custom(Frames.Event(name, data.value)),
                        old(conn.output), old(conn.input), conn.output, conn.input)
    {
      if state != Registered {
        return false;
      }
      var event := Frames.NewCustomEvent(name, data);
      if event.None? {
        return false;
      }
      var d := json.marshal(event.value);
      if d.None? || |d.value| > Frames.MAX_EVENT_LENGTH {
        return false;
      }
      ok := Request([CMD_CUSTOM_EVENT] + PutUint16(|d.value|) + d.value);
    }
  }

  /** A send that was made and failed: the write failed, or the next message in was not the success reply. */
  ghost predicate Unanswered(conn: Conn, out0: bytes, in0: bytes)
    reads conn
  {
    (conn.broken && conn.output == out0) || FirstMessage(in0) != Code(RES_SUCCESS)
  }

  /** Exactly this frame went out, and exactly one success reply was taken in. */
  ghost predicate Sent(j: Frames.Json, f: Frames.Frame, out0: bytes, in0: bytes, out1: bytes, in1: bytes) {
    Frames.Encodable(j, f) && out1 == out0 + Frames.Encode(j, f) && in0 == Reply(RES_SUCCESS) + in1
  }
}
