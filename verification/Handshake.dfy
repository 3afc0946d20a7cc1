/**
 A client and a server over one connection: every interleaving of their handshake, with
 either end closing the connection at any moment and, after an upgrade, with arbitrary
 session traffic behind the handshake bytes.
 */
module Handshake {
  import opened Wire
  import C = ClientMachine
  import S = ServerMachine
  import Negotiation

  /** Both configurations; `user` and `pass` are what the client's token was built from. */
  datatype Setup = Setup(c: C.Config, s: S.Config, user: bytes, pass: bytes) {
    predicate Valid() {
      && (c.mode == NO_AUTH || c.mode == USER_PASS_AUTH)
      && |user| < 256 && |pass| < 256
      && (c.mode == USER_PASS_AUTH ==> c.token == Negotiation.Credentials(user, pass))
    }

    predicate LoginOk() {
      if c.mode == NO_AUTH then s.noAuth
      else s.userPass && user != [] && pass != [] && s.valid(user, pass)
    }

    /** The two configurations fit each other. */
    predicate Compatible() {
      LoginOk() && (V2() ==> c.muxUsable && s.muxUsable)
    }

    predicate V2() {
      c.goal == C.RegisterV2
    }

    /** What the server is to end up with. */
    function Target(): S.State {
      S.Done(if c.goal == C.Bind then CMD_BIND else CMD_REGISTER, c.id)
    }
  }

  /** Where a session starts in its two pipes: behind what was written, behind what was read. */
  datatype Start = Start(wrote: nat, read: nat)

  /**
   `up` and `down` are the connection, `kup` and `kdown` the control stream. `cErr` and `sErr`
   say that the side gave up on an I/O error; its machine state is then the one it gave up in.
   `aborted` says that a side which had not failed was closed.
   */
  datatype System = System(
    c: C.State, cErr: bool, cClosed: bool,
    s: S.State, sErr: bool, sClosed: bool, started: bool, life: S.Life,
    up: Pipe, down: Pipe, kup: Pipe, kdown: Pipe,
    cStart: Option<Start>, sStart: Option<Start>,
    aborted: bool)

  const INIT := System(C.Begin, false, false, S.Hello, false, false, false, S.Connected,
                       EMPTY_PIPE, EMPTY_PIPE, EMPTY_PIPE, EMPTY_PIPE, None, None, false)

  datatype Action =
    | ClientMove
    | ServerEnter
    | ServerMove
    | ClientFault
    | ServerFault
    | ClientClose
    | ServerConnClose
    | ServerClose
    | ClientSends(data: bytes)
    | ServerSends(data: bytes)
    | ClientTakes(n: nat)
    | ServerTakes(n: nat)

  predicate SessionTraffic(a: Action) {
    a.ClientSends? || a.ServerSends? || a.ClientTakes? || a.ServerTakes?
  }

  predicate ClientLive(y: System) {
    !C.Final(y.c) && !y.cErr
  }

  predicate ServerLive(y: System) {
    y.started && !S.Final(y.s) && !y.sErr
  }

  predicate ClientFailed(y: System) {
    y.c.Failed? || y.cErr
  }

  predicate ServerFailed(y: System) {
    y.s.Failed? || y.sErr
  }

  /** Taking a lock and starting a session need no I/O; everything else reads or writes. */
  predicate ServerIo(st: S.State) {
    !st.Lock? && !st.Commit? && !st.Session?
  }

  ghost predicate PipesValid(y: System) {
    y.up.Valid() && y.down.Valid() && y.kup.Valid() && y.kdown.Valid()
  }

  /** What is there to read for a side: its machine does not know where the handshake ends. */
  function ClientInput(y: System): bytes
    requires PipesValid(y)
  {
    if y.c.Control? then y.kdown.Pending() else y.down.Pending()
  }

  predicate OnControl(st: S.State) {
    st.Control? || st.ControlId? || st.Commit? || st.ControlAck?
  }

  function ServerInput(y: System): bytes
    requires PipesValid(y)
  {
    if OnControl(y.s) then y.kup.Pending() else y.up.Pending()
  }

  predicate Enabled(su: Setup, a: Action, y: System)
    requires PipesValid(y)
  {
    match a
    case ClientMove => ClientLive(y) && (y.c.Session? || !y.cClosed) && C.Need(y.c) <= |ClientInput(y)|
    case ServerEnter => !y.started
    case ServerMove => ServerLive(y) && (ServerIo(y.s) ==> !y.sClosed) && S.Need(y.s) <= |ServerInput(y)|
    case ClientFault => ClientLive(y) && (y.cClosed || y.sClosed)
    case ServerFault => ServerLive(y) && (y.cClosed || y.sClosed) && ServerIo(y.s)
    case ClientClose => !y.cClosed
    case ServerConnClose => !y.sClosed
    case ServerClose => y.life != S.Disconnected && !(y.s.Body? && ServerLive(y))
    case ClientSends(_) => y.cStart.Some? && !y.cClosed
    case ServerSends(_) => y.sStart.Some? && !y.sClosed
    case ClientTakes(n) => y.cStart.Some? && n <= |y.down.Pending()|
    case ServerTakes(n) => y.sStart.Some? && n <= |y.up.Pending()|
  }

  predicate ClientOnStream(st: C.State) {
    st.Control? || st.ControlBegin?
  }

  /** Neither starting its session nor on the control stream. */
  predicate ClientOnConn(st: C.State) {
    !st.Session? && !ClientOnStream(st)
  }

  /** The client's machine has gone to `st` after reading `n` bytes and writing `out`. */
  function ClientApply(y: System, st: C.State, n: nat, out: bytes): System {
    y.(c := st,
       up := if ClientOnConn(y.c) then y.up.Push(out) else y.up,
       down := if ClientOnConn(y.c) then y.down.Pull(n) else y.down,
       kup := if ClientOnStream(y.c) then y.kup.Push(out) else y.kup,
       kdown := if ClientOnStream(y.c) then y.kdown.Pull(n) else y.kdown,
       cStart := if y.c.Session? && !st.Failed? then Some(Start(|y.up.sent|, y.down.got)) else y.cStart)
  }

  /** What an identifier command leaves behind, unless the server was disconnected meanwhile. */
  function LifeAfter(st: S.State, life: S.Life): S.Life {
    if !st.Done? || life != S.Processing then life
    else if st.cmd == CMD_REGISTER then S.Registered
    else S.Bound
  }

  /** The state an identifier command finds must still be the one it was processed in. */
  function Rechecked(st: S.State, life: S.Life): S.State {
    if st.Done? && life != S.Processing then S.Failed(S.UnexpectedState) else st
  }

  predicate ServerOnConn(st: S.State) {
    !st.Session? && !OnControl(st)
  }

  /** The server's machine has gone to `st` after reading `n` bytes and writing `out`. */
  function ServerApply(y: System, st: S.State, n: nat, out: bytes): System {
    y.(s := if ServerOnConn(y.s) then Rechecked(st, y.life) else st,
       life := if ServerOnConn(y.s) then LifeAfter(st, y.life) else if y.s.Commit? then S.Registered else y.life,
       up := if ServerOnConn(y.s) then y.up.Pull(n) else y.up,
       down := if ServerOnConn(y.s) then y.down.Push(out) else y.down,
       kup := if OnControl(y.s) then y.kup.Pull(n) else y.kup,
       kdown := if OnControl(y.s) then y.kdown.Push(out) else y.kdown,
       sStart := if y.s.Session? && !st.Failed? then Some(Start(|y.down.sent|, y.up.got)) else y.sStart)
  }

  function ClientStep(su: Setup, y: System): System
    requires PipesValid(y) && Enabled(su, ClientMove, y)
  {
    var n := C.Need(y.c);
    var (st, out) := C.Feed(su.c, y.c, ClientInput(y)[..n]);
    ClientApply(y, st, n, out)
  }

  function ServerStep(su: Setup, y: System): System
    requires PipesValid(y) && Enabled(su, ServerMove, y)
  {
    var n := S.Need(y.s);
    var (st, out) := S.Feed(su.s, y.s, ServerInput(y)[..n]);
    ServerApply(y, st, n, out)
  }

  function Next(su: Setup, a: Action, y: System): System
    requires PipesValid(y) && Enabled(su, a, y)
  {
    match a
    case ClientMove => ClientStep(su, y)
    case ServerEnter =>
      if y.life == S.Connected then y.(started := true, life := S.Processing) else y.(started := true, sErr := true)
    case ServerMove => ServerStep(su, y)
    case ClientFault => y.(cErr := true)
    case ServerFault => y.(sErr := true)
    case ClientClose => y.(cClosed := true, aborted := y.aborted || !ClientFailed(y))
    case ServerConnClose => y.(sClosed := true, aborted := y.aborted || !ServerFailed(y))
    case ServerClose => y.(life := S.Disconnected, sClosed := true, aborted := y.aborted || !ServerFailed(y))
    case ClientSends(b) => y.(up := y.up.Push(b))
    case ServerSends(b) => y.(down := y.down.Push(b))
    case ClientTakes(n) => y.(down := y.down.Pull(n))
    case ServerTakes(n) => y.(up := y.up.Pull(n))
  }

  // ---------- the invariant ----------

  /** The unread handshake bytes of a pipe: those up to where the writer's session starts. */
  function Hand(p: Pipe, start: Option<Start>): bytes
    requires p.Valid() && (start.Some? ==> start.value.wrote <= |p.sent|)
  {
    var end := if start.Some? then start.value.wrote else |p.sent|;
    if p.got <= end then p.sent[p.got..end] else []
  }

  /** The bytes between the two sides: connection up and down, control stream up and down. */
  datatype Transit = Transit(u: bytes, d: bytes, ku: bytes, kd: bytes)

  const QUIET := Transit([], [], [], [])

  /** The server has answered the mux request; its session has started, failed to, or will start. */
  predicate Upgraded(su: Setup, s: S.State) {
    s.Session? || (s.Control? && su.s.muxUsable) || (s == S.Failed(S.BadSession) && !su.s.muxUsable)
  }

  /**
   The joint states: which server states go with a client state, and exactly which bytes are
   then between the two.
   */
  predicate Joint(su: Setup, c: C.State, s: S.State, t: Transit)
    requires su.Valid()
  {
    match c
    case Begin => s == S.Hello && t == QUIET
    case Method => (
      match s
      case Hello => t == QUIET.(u := Framed([1, su.c.mode]))
      case Methods(n) => n == 1 && t == QUIET.(u := [su.c.mode])
      case UserLen => su.c.mode == USER_PASS_AUTH && su.s.userPass && t == QUIET.(d := Reply(USER_PASS_AUTH))
      case Command => su.c.mode == NO_AUTH && su.LoginOk() && t == QUIET.(d := Reply(NO_AUTH))
      case Failed(why) =>
        why == S.NoAcceptableMethod && !su.LoginOk() && t == QUIET.(d := Reply(NO_ACCEPTABLE_AUTH_METHOD))
      case _ => false
    )
    case Auth => su.c.mode == USER_PASS_AUTH && su.s.userPass && JointAuth(su, s, t)
    case Ready => su.LoginOk() && s == S.Command && t == QUIET
    case Answer => su.LoginOk() && !su.V2() && JointAnswer(su, s, t)
    case MuxReady => su.LoginOk() && su.V2() && JointMux(su, s, t)
    case MuxBody => su.LoginOk() && su.V2() &&
      if s.MuxAnswerConfig? then t == QUIET else Upgraded(su, s) && t == QUIET.(d := su.s.mux)
    case Session => su.LoginOk() && su.V2() && Upgraded(su, s) && t == QUIET
    case ControlBegin => su.LoginOk() && su.V2() && su.c.muxUsable && Upgraded(su, s) && t == QUIET
    case Control => su.LoginOk() && su.V2() && su.c.muxUsable && JointControl(su, s, t)
    case Done => su.Compatible() && s == su.Target() && t == QUIET
    case Failed(why) =>
      if why == C.NoAcceptableMethod then s == S.Failed(S.NoAcceptableMethod) && !su.LoginOk() && t == QUIET
      else if why == C.AuthRefused then s == S.Failed(S.BadCredentials) && !su.LoginOk() && t == QUIET
      else why == C.BadSession && su.V2() && !su.c.muxUsable && Upgraded(su, s) && t == QUIET
  }

  predicate JointAuth(su: Setup, s: S.State, t: Transit)
    requires su.Valid() && su.c.mode == USER_PASS_AUTH
  {
    match s
    case UserLen => t == QUIET.(u := Framed(su.c.token))
    case User(n) => n == |su.user| > 0 && t == QUIET.(u := su.user + [|su.pass|] + su.pass)
    case PassLen(user) => user == su.user != [] && t == QUIET.(u := [|su.pass|] + su.pass)
    case Pass(user, n) => user == su.user != [] && n == |su.pass| > 0 && t == QUIET.(u := su.pass)
    case Command => su.LoginOk() && t == QUIET.(d := Reply(RES_SUCCESS))
    case Failed(why) =>
      if why == S.BadCredentials then !su.LoginOk() && t == QUIET.(d := Reply(RES_FAILURE))
      else (why == S.EmptyUsername || why == S.EmptyPassword) && !su.LoginOk() && t.d == [] && t.ku == [] && t.kd == []
    case _ => false
  }

  predicate JointAnswer(su: Setup, s: S.State, t: Transit)
    requires !su.V2()
  {
    var cmd := C.GoalCommand(su.c.goal);
    match s
    case Command => t == QUIET.(u := Framed([cmd] + su.c.id))
    case Lock(m) => m == cmd && t == QUIET.(u := su.c.id)
    case Body(m) => m == cmd && t == QUIET.(u := su.c.id)
    case Done(_, _) => s == su.Target() && t == QUIET.(d := Reply(RES_SUCCESS))
    case _ => false
  }

  predicate JointMux(su: Setup, s: S.State, t: Transit) {
    match s
    case Command => t == QUIET.(u := Framed([CMD_MUX_INIT] + su.c.mux))
    case MuxBody => t == QUIET.(u := su.c.mux)
    case MuxAnswer => t == QUIET
    case MuxAnswerConfig => t == QUIET.(d := Reply(CMD_MUX_READY))
    case _ => Upgraded(su, s) && t == QUIET.(d := Reply(CMD_MUX_READY) + su.s.mux)
  }

  predicate JointControl(su: Setup, s: S.State, t: Transit) {
    match s
    case ControlId => su.s.muxUsable && t == QUIET.(ku := su.c.id)
    case Commit(id) => su.s.muxUsable && id == su.c.id && t == QUIET
    case ControlAck(id) => su.s.muxUsable && id == su.c.id && t == QUIET
    case Done(_, _) => su.s.muxUsable && s == su.Target() && t == QUIET.(kd := Reply(RES_SUCCESS))
    case _ => Upgraded(su, s) && t == QUIET.(ku := Framed([CMD_REGISTER] + su.c.id))
  }

  /** The client, or the server, has started its session. */
  predicate ClientInSession(su: Setup, c: C.State) {
    c.ControlBegin? || c.Control? || (c.Done? && su.V2())
  }

  predicate ServerInSession(su: Setup, s: S.State) {
    OnControl(s) || (s.Done? && su.V2())
  }

  /**
   Each session starts where the peer's does: nothing of the handshake is left to read, and
   nothing of the peer's session has been read.
   */
  ghost predicate Sessions(su: Setup, y: System)
    requires PipesValid(y)
  {
    && (y.cStart.Some? <==> ClientInSession(su, y.c))
    && (y.sStart.Some? <==> ServerInSession(su, y.s))
    && (y.cStart.Some? ==>
          var cs := y.cStart.value;
          && cs.wrote <= |y.up.sent| && cs.read <= y.down.got
          && cs.read == (if y.sStart.Some? then y.sStart.value.wrote else |y.down.sent|)
          && (y.sStart.None? ==> y.up.got == cs.wrote))
    && (y.sStart.Some? ==>
          var ss := y.sStart.value;
          && ss.wrote <= |y.down.sent| && ss.read <= y.up.got
          && ss.read == (if y.cStart.Some? then y.cStart.value.wrote else |y.up.sent|)
          && (y.cStart.None? ==> y.down.got <= ss.wrote))
  }

  ghost predicate LifeOk(su: Setup, y: System) {
    && (y.cErr ==> !C.Final(y.c)) && (y.sErr ==> !S.Final(y.s))
    && (y.life == S.Connected ==> !y.started)
    && (!y.started ==> y.s == S.Hello && !y.sErr && (y.life == S.Connected || y.life == S.Disconnected))
    && (y.life == S.Disconnected ==> y.sClosed)
    && (y.life == S.Registered ==> y.s.ControlAck? || (y.s.Done? && y.s.cmd == CMD_REGISTER))
    && (y.life == S.Bound ==> y.s.Done? && y.s.cmd == CMD_BIND)
    && (y.life == S.Processing ==> y.started && !y.s.Done? && !y.s.ControlAck?)
  }

  /** Without an abort, nothing goes wrong before a side fails on its own. */
  ghost predicate Calm(y: System) {
    !y.aborted ==>
      && (y.cClosed ==> ClientFailed(y)) && (y.sClosed ==> ServerFailed(y))
      && (y.cErr || y.sErr || y.cClosed || y.sClosed ==> y.c.Failed? || y.s.Failed?)
  }

  function InTransit(y: System): Transit
    requires PipesValid(y)
    requires y.cStart.Some? ==> y.cStart.value.wrote <= |y.up.sent|
    requires y.sStart.Some? ==> y.sStart.value.wrote <= |y.down.sent|
  {
    Transit(Hand(y.up, y.cStart), Hand(y.down, y.sStart), y.kup.Pending(), y.kdown.Pending())
  }

  /** The invariant without the joint states. */
  ghost predicate Frame(su: Setup, y: System) {
    su.Valid() && PipesValid(y) && Sessions(su, y) && LifeOk(su, y) && Calm(y)
  }

  ghost predicate Inv(su: Setup, y: System) {
    Frame(su, y) && Joint(su, y.c, y.s, InTransit(y))
  }
}
