/**
 The server half of the handshake as a step machine.

 Each state waits for a fixed number of bytes (`Need`) and answers them at once (`Feed`).
 A state holds exactly what the code still remembers at that point. `Exec` runs the
 machine over everything the peer will ever send.
 */
module ServerMachine {
  import opened Wire

  /**
   What the server was configured with: whether it takes clients without credentials, and
   whether it checks credentials, and how.
   */
  datatype Config = Config(noAuth: bool, userPass: bool, valid: (bytes, bytes) -> bool,
                           mux: MuxConfig, muxUsable: bool)

  /** A credentials callback switches the no-authentication method off unless it is asked for as well. */
  function NewConfig(noAuth: bool, check: Option<(bytes, bytes) -> bool>, mux: MuxConfig, muxUsable: bool): Config {
    match check
    case None => Config(true, false, (user, pass) => false, mux, muxUsable)
    case Some(valid) => Config(noAuth, true, valid, mux, muxUsable)
  }

  /** The state that `State()` reports and the send operations check. */
  datatype Life = Connected | Processing | Registered | Bound | Disconnected

  datatype Failure =
    | Io
    | BadVersion
    | NoAcceptableMethod
    | EmptyUsername
    | EmptyPassword
    | BadCredentials
    | UnsupportedCommand
    | UnexpectedState
    | BadSession

  datatype State =
    | Hello
    | Methods(n: nat)
    | UserLen
    | User(ulen: nat)
    | PassLen(user: bytes)
    | Pass(user: bytes, plen: nat)
    | Command
    | Lock(cmd: byte)
    | Body(cmd: byte)
    | MuxBody
    | MuxAnswer
    | MuxAnswerConfig
    | Session
    | Control
    | ControlId
    | Commit(id: Uuid)
    | ControlAck(id: Uuid)
    | Done(cmd: byte, id: Uuid)
    | Failed(why: Failure)

  predicate Final(st: State) {
    st.Done? || st.Failed?
  }

  function Need(st: State): nat {
    match st
    case Hello => 2
    case Methods(n) => n
    case UserLen => 2
    case User(n) => n
    case PassLen(_) => 1
    case Pass(_, n) => n
    case Command => 2
    case Body(_) => 16
    case MuxBody => 12
    case Control => 2
    case ControlId => 16
    case _ => 0
  }

  /** Every answer moves the machine on to a state of smaller rank. */
  function Rank(st: State): nat {
    match st
    case Hello => 18
    case Methods(_) => 17
    case UserLen => 16
    case User(_) => 15
    case PassLen(_) => 14
    case Pass(_, _) => 13
    case Command => 12
    case Lock(_) => 11
    case Body(_) => 10
    case MuxBody => 9
    case MuxAnswer => 8
    case MuxAnswerConfig => 7
    case Session => 6
    case Control => 5
    case ControlId => 4
    case Commit(_) => 3
    case ControlAck(_) => 2
    case Done(_, _) => 0
    case Failed(_) => 0
  }

  predicate Acceptable(c: Config, m: byte) {
    (m == NO_AUTH && c.noAuth) || (m == USER_PASS_AUTH && c.userPass)
  }

  /** The first method of the client's list that this server can act on. */
  function Select(c: Config, methods: bytes): (m: Option<byte>)
    ensures m.Some? ==> Acceptable(c, m.value)
  {
    if methods == [] then None
    else if Acceptable(c, methods[0]) then Some(methods[0])
    else Select(c, methods[1..])
  }

  function Feed(c: Config, st: State, b: bytes): (State, bytes)
    requires !Final(st) && |b| == Need(st)
  {
    match st
    case Hello =>
      if b[0] != VERSION_V1 then (Failed(BadVersion), []) else (Methods(b[1]), [])
    case Methods(_) => (
      match Select(c, b)
      case None => (Failed(NoAcceptableMethod), Reply(NO_ACCEPTABLE_AUTH_METHOD))
      case Some(m) => (if m == NO_AUTH then Command else UserLen, Reply(m))
    )
    case UserLen =>
      if b[0] != VERSION_V1 then (Failed(BadVersion), [])
      else if b[1] == 0 then (Failed(EmptyUsername), [])
      else (User(b[1]), [])
    case User(_) => (PassLen(b), [])
    case PassLen(user) =>
      if b[0] == 0 then (Failed(EmptyPassword), []) else (Pass(user, b[0]), [])
    case Pass(user, _) =>
      if c.valid(user, b) then (Command, Reply(RES_SUCCESS)) else (Failed(BadCredentials), Reply(RES_FAILURE))
    case Command =>
      if b[0] != VERSION_V1 then (Failed(BadVersion), [])
      else if b[1] == CMD_MUX_INIT then (MuxBody, [])
      else (Lock(b[1]), [])
    case Lock(cmd) =>
      if cmd == CMD_REGISTER || cmd == CMD_BIND then (Body(cmd), []) else (Failed(UnsupportedCommand), [])
    case Body(cmd) => (Done(cmd, b), Reply(RES_SUCCESS))
    case MuxBody => (MuxAnswer, [])
    case MuxAnswer => (MuxAnswerConfig, Reply(CMD_MUX_READY))
    case MuxAnswerConfig => (Session, c.mux)
    case Session => (if c.muxUsable then Control else Failed(BadSession), [])
    case Control =>
      if b[0] != VERSION_V1 then (Failed(BadVersion), [])
      else if b[1] != CMD_REGISTER then (Failed(UnsupportedCommand), [])
      else (ControlId, [])
    case ControlId => (Commit(b), [])
    case Commit(id) => (ControlAck(id), [])
    case ControlAck(id) => (Done(CMD_REGISTER, id), Reply(RES_SUCCESS))
  }

  lemma FeedDescends(c: Config, st: State, b: bytes)
    requires !Final(st) && |b| == Need(st)
    ensures Rank(Feed(c, st, b).0) < Rank(st)
  {
  }

  /** Where the machine stops, what it has left unread, and all it has written. */
  datatype Trace = Trace(st: State, rest: bytes, out: bytes)

  /** Before `Session` the machine reads the connection, after it the control stream. */
  predicate Stops(st: State) {
    Final(st) || st.Session?
  }

  function Exec(c: Config, st: State, input: bytes): Trace
    decreases Rank(st)
  {
    if Stops(st) then Trace(st, input, [])
    else if |input| < Need(st) then Trace(Failed(Io), [], [])
    else
      var (st', out) := Feed(c, st, input[..Need(st)]);
      FeedDescends(c, st, input[..Need(st)]);
      var t := Exec(c, st', input[Need(st)..]);
      Trace(t.st, t.rest, out + t.out)
  }

  /** Running from `st` on `input` is writing `w` and then running from `st'` on `input'`. */
  ghost predicate Follows(c: Config, st: State, input: bytes, w: bytes, st': State, input': bytes) {
    var t := Exec(c, st', input');
    Exec(c, st, input) == Trace(t.st, t.rest, w + t.out)
  }

  lemma FollowsStep(c: Config, st: State, input: bytes)
    requires !Stops(st) && Need(st) <= |input|
    ensures var (st', out) := Feed(c, st, input[..Need(st)]);
            Follows(c, st, input, out, st', input[Need(st)..])
  {
  }

  lemma FollowsThen(c: Config, st: State, input: bytes, w: bytes, st': State, input': bytes,
                    w': bytes, st'': State, input'': bytes)
    requires Follows(c, st, input, w, st', input')
    requires Follows(c, st', input', w', st'', input'')
    ensures Follows(c, st, input, w + w', st'', input'')
  {
    var t := Exec(c, st'', input'');
    assert w + (w' + t.out) == (w + w') + t.out;
  }

  /** Reading and writing in between, the machine gets from one state to the other. */
  ghost predicate Ran(c: Config, st: State, in0: bytes, out0: bytes, st': State, in1: bytes, out1: bytes) {
    out0 <= out1 && Follows(c, st, in0, out1[|out0|..], st', in1)
  }

  lemma RanStep(c: Config, st: State, in0: bytes, out0: bytes)
    requires !Stops(st) && Need(st) <= |in0|
    ensures var (st', w) := Feed(c, st, in0[..Need(st)]);
            Ran(c, st, in0, out0, st', in0[Need(st)..], out0 + w)
  {
    FollowsStep(c, st, in0);
  }

  lemma RanDry(c: Config, st: State, in0: bytes, out: bytes)
    requires !Stops(st) && |in0| < Need(st)
    ensures Ran(c, st, in0, out, Failed(Io), [], out)
  {
  }

  lemma RanThen(c: Config, st: State, in0: bytes, out0: bytes, st1: State, in1: bytes, out1: bytes,
                st2: State, in2: bytes, out2: bytes)
    requires Ran(c, st, in0, out0, st1, in1, out1) && Ran(c, st1, in1, out1, st2, in2, out2)
    ensures Ran(c, st, in0, out0, st2, in2, out2)
  {
    FollowsThen(c, st, in0, out1[|out0|..], st1, in1, out2[|out1|..], st2, in2);
    assert out1[|out0|..] + out2[|out1|..] == out2[|out0|..];
  }

  /** The commit of a registration and its answer. */
  lemma CommitRan(c: Config, st: State, in0: bytes, id: Uuid, in1: bytes, out: bytes)
    requires Ran(c, st, in0, out, Commit(id), in1, out)
    ensures Ran(c, st, in0, out, Done(CMD_REGISTER, id), in1, out + Reply(RES_SUCCESS))
  {
    assert in1[0..] == in1;
    RanStep(c, Commit(id), in1, out);
    RanThen(c, st, in0, out, Commit(id), in1, out, ControlAck(id), in1, out);
    RanStep(c, ControlAck(id), in1, out);
    RanThen(c, st, in0, out, ControlAck(id), in1, out, Done(CMD_REGISTER, id), in1, out + Reply(RES_SUCCESS));
  }
}
