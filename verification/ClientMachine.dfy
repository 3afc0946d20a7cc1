/**
 The client half of the handshake as a step machine, in the manner of `ServerMachine`: a
 client that has written waits for the two bytes, or twelve, that answer it.
 */
module ClientMachine {
  import opened Wire

  datatype Goal = Register | Bind | RegisterV2

  /** `mode` is the one authentication method offered; `token` the credentials behind it. */
  datatype Config = Config(mode: byte, token: bytes, goal: Goal, id: Uuid, mux: MuxConfig, muxUsable: bool)

  datatype Failure =
    | Io
    | BadVersion
    | DifferentMethod
    | NoAcceptableMethod
    | UnsupportedMethod
    | AuthRefused
    | CommandRefused
    | NoV2
    | BadSession

  datatype State =
    | Begin
    | Method
    | Auth
    | Ready
    | Answer
    | MuxReady
    | MuxBody
    | Session
    | ControlBegin
    | Control
    | Done
    | Failed(why: Failure)

  predicate Final(st: State) {
    st.Done? || st.Failed?
  }

  /** Before `Session` the machine reads the connection, after it the control stream. */
  predicate Stops(st: State) {
    Final(st) || st.Session?
  }

  function Need(st: State): nat {
    match st
    case Method => 2
    case Auth => 2
    case Answer => 2
    case MuxReady => 2
    case MuxBody => 12
    case Control => 2
    case _ => 0
  }

  function Rank(st: State): nat {
    match st
    case Begin => 10
    case Method => 9
    case Auth => 8
    case Ready => 7
    case Answer => 6
    case MuxReady => 5
    case MuxBody => 4
    case Session => 3
    case ControlBegin => 2
    case Control => 1
    case Done => 0
    case Failed(_) => 0
  }

  function GoalCommand(goal: Goal): byte {
    match goal
    case Register => CMD_REGISTER
    case Bind => CMD_BIND
    case RegisterV2 => CMD_MUX_INIT
  }

  /** What a client sends once it is logged in. */
  function Issue(c: Config): (State, bytes) {
    if c.goal == RegisterV2 then (MuxReady, Framed([CMD_MUX_INIT] + c.mux))
    else (Answer, Framed([GoalCommand(c.goal)] + c.id))
  }

  function FeedMethod(c: Config, m: byte): (State, bytes) {
    if m == NO_AUTH then if c.mode != NO_AUTH then (Failed(DifferentMethod), []) else (Ready, [])
    else if m == USER_PASS_AUTH then
      if c.mode != USER_PASS_AUTH then (Failed(DifferentMethod), []) else (Auth, Framed(c.token))
    else if m == NO_ACCEPTABLE_AUTH_METHOD then (Failed(NoAcceptableMethod), [])
    else (Failed(UnsupportedMethod), [])
  }

  /** The states that wait for a reply, by the code of that reply. */
  function FeedReply(c: Config, st: State, code: byte): (State, bytes) {
    match st
    case Method => FeedMethod(c, code)
    case Auth => (if code == RES_SUCCESS then Ready else Failed(AuthRefused), [])
    case MuxReady => (if code == CMD_MUX_READY then MuxBody else Failed(NoV2), [])
    case _ => (if code == RES_SUCCESS then Done else Failed(CommandRefused), [])
  }

  function Feed(c: Config, st: State, b: bytes): (State, bytes)
    requires !Final(st) && |b| == Need(st)
  {
    match st
    case Begin => (Method, Framed([1, c.mode]))
    case Ready => Issue(c)
    case MuxBody => (Session, [])
    case Session => (if c.muxUsable then ControlBegin else Failed(BadSession), [])
    case ControlBegin => (Control, Framed([CMD_REGISTER] + c.id))
    case _ => if b[0] != VERSION_V1 then (Failed(BadVersion), []) else FeedReply(c, st, b[1])
  }

  lemma FeedDescends(c: Config, st: State, b: bytes)
    requires !Final(st) && |b| == Need(st)
    ensures Rank(Feed(c, st, b).0) < Rank(st)
  {
  }

  datatype Trace = Trace(st: State, rest: bytes, out: bytes)

  function Exec(c: Config, st: State, input: bytes): Trace
    decreases Rank(st)
  {
    if Stops(st) then Trace(st, input, [])
    else if |input| < Need(st) then Trace(Failed(Io), [], [])
    else
      var (st', out) := Feed(c, st, input[..Need(st)]);
      FeedDescends(c, st, input[..Need(st)]);
      var t := Exec(c, st', input[Need(st)..]);
      Trace(t.st, t.rest, out + t.out)
  }

  /** Running from `st` on `input` is writing `w` and then running from `st'` on `input'`. */
  ghost predicate Follows(c: Config, st: State, input: bytes, w: bytes, st': State, input': bytes) {
    var t := Exec(c, st', input');
    Exec(c, st, input) == Trace(t.st, t.rest, w + t.out)
  }

  lemma FollowsThen(c: Config, st: State, input: bytes, w: bytes, st': State, input': bytes,
                    w': bytes, st'': State, input'': bytes)
    requires Follows(c, st, input, w, st', input')
    requires Follows(c, st', input', w', st'', input'')
    ensures Follows(c, st, input, w + w', st'', input'')
  {
    var t := Exec(c, st'', input'');
    assert w + (w' + t.out) == (w + w') + t.out;
  }

  /** Reading and writing in between, the machine gets from one state to the other. */
  ghost predicate Ran(c: Config, st: State, in0: bytes, out0: bytes, st': State, in1: bytes, out1: bytes) {
    out0 <= out1 && Follows(c, st, in0, out1[|out0|..], st', in1)
  }

  lemma RanStep(c: Config, st: State, in0: bytes, out0: bytes)
    requires !Stops(st) && Need(st) <= |in0|
    ensures var (st', w) := Feed(c, st, in0[..Need(st)]);
            Ran(c, st, in0, out0, st', in0[Need(st)..], out0 + w)
  {
  }

  lemma RanDry(c: Config, st: State, in0: bytes, out: bytes)
    requires !Stops(st) && |in0| < Need(st)
    ensures Ran(c, st, in0, out, Failed(Io), [], out)
  {
  }

  lemma RanThen(c: Config, st: State, in0: bytes, out0: bytes, st1: State, in1: bytes, out1: bytes,
                st2: State, in2: bytes, out2: bytes)
    requires Ran(c, st, in0, out0, st1, in1, out1) && Ran(c, st1, in1, out1, st2, in2, out2)
    ensures Ran(c, st, in0, out0, st2, in2, out2)
  {
    FollowsThen(c, st, in0, out1[|out0|..], st1, in1, out2[|out1|..], st2, in2);
    assert out1[|out0|..] + out2[|out1|..] == out2[|out0|..];
  }
}
