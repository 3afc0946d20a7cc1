/**
 The handshake invariant is kept by every step.
 */
module HandshakeProof {
  import opened Wire
  import C = ClientMachine
  import S = ServerMachine
  import opened Handshake

  // ---------- the joint states, one machine step at a time ----------

  function ClientTransit(c: C.State, t: Transit, n: nat, out: bytes): Transit
    requires n <= |if c.Control? then t.kd else t.d| && (c.ControlBegin? ==> n == 0)
  {
    Transit(if ClientOnConn(c) then t.u + out else t.u,
            if ClientOnConn(c) then t.d[n..] else t.d,
            if ClientOnStream(c) then t.ku + out else t.ku,
            if ClientOnStream(c) then t.kd[n..] else t.kd)
  }

  /** Where a client step can lead, as far as sessions are concerned. */
  predicate ClientShape(su: Setup, c: C.State, s: S.State, c': C.State, out: bytes, t: Transit) {
    && (c.Session? ==> c' == C.ControlBegin || c'.Failed?)
    && (c.ControlBegin? || c.Control? ==> su.V2() && (c' == C.Control || c'.Done?))
    && (ServerInSession(su, s) && !c.ControlBegin? && !c.Control? ==> out == [])
    && (!c.Session? && !c.ControlBegin? && !c.Control? ==> !ClientInSession(su, c'))
    && (c'.Failed? ==> !su.Compatible())
    && (c.Session? ==> t.u == [] && t.d == [])
  }

  /** A client step from one joint state leads to another. */
  predicate ClientGoes(su: Setup, c: C.State, s: S.State, t: Transit)
    requires su.Valid() && !C.Final(c) && C.Need(c) <= |if c.Control? then t.kd else t.d|
  {
    var n := C.Need(c);
    var (c', out) := C.Feed(su.c, c, (if c.Control? then t.kd else t.d)[..n]);
    && Joint(su, c', s, ClientTransit(c, t, n, out))
    && ClientShape(su, c, s, c', out, t)
  }

  lemma ClientJointWrites(su: Setup, c: C.State, s: S.State, t: Transit)
    requires su.Valid() && Joint(su, c, s, t) && (c.Begin? || c.Ready? || c.Session? || c.ControlBegin?)
    ensures ClientGoes(su, c, s, t)
  {
    var (c', out) := C.Feed(su.c, c, (if c.Control? then t.kd else t.d)[..0]);
    assert [] + out == out;
    assert t.d[0..] == t.d && t.kd[0..] == t.kd;
  }

  lemma ClientJointReply(su: Setup, c: C.State, s: S.State, t: Transit)
    requires su.Valid() && Joint(su, c, s, t) && (c.Method? || c.Auth? || c.Answer?) && 2 <= |t.d|
    ensures ClientGoes(su, c, s, t)
  {
    var (c', out) := C.Feed(su.c, c, t.d[..2]);
    assert [] + out == out && t.d[2..] == [];
  }

  lemma ClientJointReady(su: Setup, s: S.State, t: Transit)
    requires su.Valid() && Joint(su, C.MuxReady, s, t) && 2 <= |t.d|
    ensures ClientGoes(su, C.MuxReady, s, t)
  {
    assert t.u + [] == t.u && t.d[..2] == Reply(CMD_MUX_READY);
    if s.MuxAnswerConfig? {
      assert t.d[2..] == [];
    } else {
      assert t.d[2..] == su.s.mux;
    }
  }

  lemma ClientJointMux(su: Setup, s: S.State, t: Transit)
    requires su.Valid() && Joint(su, C.MuxBody, s, t) && 12 <= |t.d|
    ensures ClientGoes(su, C.MuxBody, s, t)
  {
    assert t.u + [] == t.u && t.d[12..] == [];
  }

  lemma ClientJointControl(su: Setup, s: S.State, t: Transit)
    requires su.Valid() && Joint(su, C.Control, s, t) && 2 <= |t.kd|
    ensures ClientGoes(su, C.Control, s, t)
  {
    assert t.ku + [] == t.ku && t.kd[2..] == [];
  }

  lemma ClientJoint(su: Setup, c: C.State, s: S.State, t: Transit)
    requires su.Valid() && Joint(su, c, s, t) && !C.Final(c)
    requires C.Need(c) <= |if c.Control? then t.kd else t.d|
    ensures ClientGoes(su, c, s, t)
  {
    if c.Control? {
      ClientJointControl(su, s, t);
    } else if c.MuxReady? {
      ClientJointReady(su, s, t);
    } else if c.MuxBody? {
      ClientJointMux(su, s, t);
    } else if c.Method? || c.Auth? || c.Answer? {
      ClientJointReply(su, c, s, t);
    } else {
      ClientJointWrites(su, c, s, t);
    }
  }

  function ServerTransit(s: S.State, t: Transit, n: nat, out: bytes): Transit
    requires n <= |if OnControl(s) then t.ku else t.u|
  {
    Transit(if ServerOnConn(s) then t.u[n..] else t.u,
            if ServerOnConn(s) then t.d + out else t.d,
            if OnControl(s) then t.ku[n..] else t.ku,
            if OnControl(s) then t.kd + out else t.kd)
  }

  /** Where a server step can lead, as far as sessions and the reported state are concerned. */
  predicate ServerShape(su: Setup, c: C.State, s: S.State, s': S.State) {
    && (ClientInSession(su, c) ==> s.Session? || OnControl(s))
    && (s.ControlAck? ==> s'.Done?)
    && (s.Session? ==> s'.Control? || s'.Failed?)
    && (OnControl(s) ==> OnControl(s') || (s'.Done? && s'.cmd == CMD_REGISTER && su.V2() && s.ControlAck?))
    && (OnControl(s) ==> (s.Commit? <==> s'.ControlAck?))
    && (!s.Session? && !OnControl(s) ==>
          !ServerInSession(su, s') && (s'.Done? ==> s.Body? && C.GoalCommand(su.c.goal) == s'.cmd))
  }

  /** A server step from one joint state leads to another. */
  predicate ServerGoes(su: Setup, c: C.State, s: S.State, t: Transit)
    requires su.Valid() && !S.Final(s) && S.Need(s) <= |if OnControl(s) then t.ku else t.u|
  {
    var n := S.Need(s);
    var (s', out) := S.Feed(su.s, s, (if OnControl(s) then t.ku else t.u)[..n]);
    && Joint(su, c, s', ServerTransit(s, t, n, out))
    && ServerShape(su, c, s, s')
  }

  lemma ServerJoint(su: Setup, c: C.State, s: S.State, t: Transit)
    requires su.Valid() && Joint(su, c, s, t) && !S.Final(s)
    requires S.Need(s) <= |if OnControl(s) then t.ku else t.u|
    ensures ServerGoes(su, c, s, t)
  {
    if c.Method? {
      ServerJointMethod(su, s, t);
    } else if c.Auth? {
      ServerJointAuth(su, s, t);
    } else if c.Answer? {
      ServerJointAnswer(su, s, t);
    } else if c.MuxReady? {
      ServerJointMux(su, s, t);
    } else if c.Control? {
      ServerJointControl(su, s, t);
    } else {
      ServerJointWrites(su, c, s, t);
    }
  }

  /** The client waits for nothing: the server is still at the start, or takes its own steps after the mux answer. */
  lemma ServerJointWrites(su: Setup, c: C.State, s: S.State, t: Transit)
    requires su.Valid() && Joint(su, c, s, t) && !S.Final(s)
    requires !c.Method? && !c.Auth? && !c.Answer? && !c.MuxReady? && !c.Control?
    requires S.Need(s) <= |if OnControl(s) then t.ku else t.u|
    ensures ServerGoes(su, c, s, t)
  {
    var (s', out) := S.Feed(su.s, s, (if OnControl(s) then t.ku else t.u)[..S.Need(s)]);
    assert [] + out == out;
  }

  lemma ServerJointMethod(su: Setup, s: S.State, t: Transit)
    requires su.Valid() && Joint(su, C.Method, s, t) && !S.Final(s)
    requires S.Need(s) <= |t.u|
    ensures ServerGoes(su, C.Method, s, t)
  {
    var n := S.Need(s);
    var (s', out) := S.Feed(su.s, s, t.u[..n]);
    assert [] + out == out;
    if s.Hello? {
      assert t.u == [VERSION_V1, 1, su.c.mode];
      assert t.u[2..] == [su.c.mode];
    } else {
      assert t.u[..1] == [su.c.mode];
      assert t.u[1..] == [];
      var m := t.u[..1];
      assert m[1..] == [];
      assert S.Select(su.s, m) == if S.Acceptable(su.s, su.c.mode) then Some(su.c.mode) else None;
    }
  }

  lemma ServerJointAuth(su: Setup, s: S.State, t: Transit)
    requires su.Valid() && Joint(su, C.Auth, s, t) && !S.Final(s)
    requires S.Need(s) <= |t.u|
    ensures ServerGoes(su, C.Auth, s, t)
  {
    assert t.d + [] == t.d;
    if s.UserLen? {
      ServerJointUserLen(su, t);
    } else if s.User? {
      ServerJointUser(su, s.ulen, t);
    } else if s.PassLen? {
      ServerJointPassLen(su, s.user, t);
    } else if s.Pass? {
      ServerJointPass(su, s.user, s.plen, t);
    }
  }

  lemma ServerJointUserLen(su: Setup, t: Transit)
    requires su.Valid() && Joint(su, C.Auth, S.UserLen, t)
    ensures 2 <= |t.u| && ServerGoes(su, C.Auth, S.UserLen, t)
  {
    assert t.u == [VERSION_V1, |su.user|] + (su.user + [|su.pass|] + su.pass);
    assert t.u[2..] == su.user + [|su.pass|] + su.pass;
    assert t.d + [] == t.d;
  }

  lemma ServerJointUser(su: Setup, n: nat, t: Transit)
    requires su.Valid() && Joint(su, C.Auth, S.User(n), t)
    ensures n <= |t.u| && ServerGoes(su, C.Auth, S.User(n), t)
  {
    assert t.u == su.user + ([|su.pass|] + su.pass);
    assert t.u[..n] == su.user && t.u[n..] == [|su.pass|] + su.pass;
    assert t.d + [] == t.d;
  }

  lemma ServerJointPassLen(su: Setup, user: bytes, t: Transit)
    requires su.Valid() && Joint(su, C.Auth, S.PassLen(user), t)
    ensures 1 <= |t.u| && ServerGoes(su, C.Auth, S.PassLen(user), t)
  {
    assert t.u[1..] == su.pass;
    assert t.d + [] == t.d;
  }

  lemma ServerJointPass(su: Setup, user: bytes, n: nat, t: Transit)
    requires su.Valid() && Joint(su, C.Auth, S.Pass(user, n), t)
    ensures n <= |t.u| && ServerGoes(su, C.Auth, S.Pass(user, n), t)
  {
    assert t.u[..n] == su.pass && t.u[n..] == [];
    assert t.d == [];
  }

  lemma ServerJointAnswer(su: Setup, s: S.State, t: Transit)
    requires su.Valid() && Joint(su, C.Answer, s, t) && !S.Final(s)
    requires S.Need(s) <= |t.u|
    ensures ServerGoes(su, C.Answer, s, t)
  {
    if s.Command? {
      ServerJointCommand(su, t);
    } else if s.Lock? {
      ServerJointLock(su, s.cmd, t);
    } else {
      ServerJointBody(su, s.cmd, t);
    }
  }

  lemma ServerJointCommand(su: Setup, t: Transit)
    requires su.Valid() && Joint(su, C.Answer, S.Command, t)
    ensures 2 <= |t.u| && ServerGoes(su, C.Answer, S.Command, t)
  {
    assert t.u == [VERSION_V1, C.GoalCommand(su.c.goal)] + su.c.id;
    assert t.u[2..] == su.c.id && t.d + [] == t.d;
  }

  lemma ServerJointLock(su: Setup, cmd: byte, t: Transit)
    requires su.Valid() && Joint(su, C.Answer, S.Lock(cmd), t)
    ensures ServerGoes(su, C.Answer, S.Lock(cmd), t)
  {
    assert t.u[0..] == t.u && t.d + [] == t.d;
  }

  lemma ServerJointBody(su: Setup, cmd: byte, t: Transit)
    requires su.Valid() && Joint(su, C.Answer, S.Body(cmd), t)
    ensures 16 <= |t.u| && ServerGoes(su, C.Answer, S.Body(cmd), t)
  {
    assert t.u[..16] == su.c.id && t.u[16..] == [];
    assert [] + Reply(RES_SUCCESS) == Reply(RES_SUCCESS);
  }

  lemma ServerJointMux(su: Setup, s: S.State, t: Transit)
    requires su.Valid() && Joint(su, C.MuxReady, s, t) && !S.Final(s)
    requires S.Need(s) <= |if OnControl(s) then t.ku else t.u|
    ensures ServerGoes(su, C.MuxReady, s, t)
  {
    if s.Command? {
      ServerJointMuxInit(su, t);
    } else if s.MuxBody? {
      ServerJointMuxBody(su, t);
    } else if s.MuxAnswer? {
      ServerJointMuxAnswer(su, t);
    } else if s.MuxAnswerConfig? {
      ServerJointMuxConfig(su, t);
    } else {
      ServerJointSession(su, C.MuxReady, s, t);
    }
  }

  lemma ServerJointMuxInit(su: Setup, t: Transit)
    requires su.Valid() && Joint(su, C.MuxReady, S.Command, t)
    ensures 2 <= |t.u| && ServerGoes(su, C.MuxReady, S.Command, t)
  {
    assert t.u == [VERSION_V1, CMD_MUX_INIT] + su.c.mux;
    assert t.u[2..] == su.c.mux && t.d + [] == t.d;
  }

  lemma ServerJointMuxBody(su: Setup, t: Transit)
    requires su.Valid() && Joint(su, C.MuxReady, S.MuxBody, t)
    ensures 12 <= |t.u| && ServerGoes(su, C.MuxReady, S.MuxBody, t)
  {
    assert t.u[12..] == [] && t.d + [] == t.d;
  }

  lemma ServerJointMuxAnswer(su: Setup, t: Transit)
    requires su.Valid() && Joint(su, C.MuxReady, S.MuxAnswer, t)
    ensures ServerGoes(su, C.MuxReady, S.MuxAnswer, t)
  {
    assert t.u[0..] == t.u && [] + Reply(CMD_MUX_READY) == Reply(CMD_MUX_READY);
  }

  lemma ServerJointMuxConfig(su: Setup, t: Transit)
    requires su.Valid() && Joint(su, C.MuxReady, S.MuxAnswerConfig, t)
    ensures ServerGoes(su, C.MuxReady, S.MuxAnswerConfig, t)
  {
    assert t.u[0..] == t.u;
  }

  /** Starting its session, the server reads and writes nothing, wherever the client is by then. */
  lemma ServerJointSession(su: Setup, c: C.State, s: S.State, t: Transit)
    requires su.Valid() && Joint(su, c, s, t) && Upgraded(su, s) && (s.Session? || (s.Control? && !c.Control?))
    requires S.Need(s) <= |if OnControl(s) then t.ku else t.u|
    ensures ServerGoes(su, c, s, t)
  {
  }

  lemma ServerJointControl(su: Setup, s: S.State, t: Transit)
    requires su.Valid() && Joint(su, C.Control, s, t) && !S.Final(s)
    requires S.Need(s) <= |if OnControl(s) then t.ku else t.u|
    ensures ServerGoes(su, C.Control, s, t)
  {
    if s.Control? {
      ServerJointRegister(su, t);
    } else if s.ControlId? {
      ServerJointControlId(su, t);
    } else if s.Commit? {
      ServerJointCommit(su, s.id, t);
    } else if s.ControlAck? {
      ServerJointControlAck(su, s.id, t);
    } else {
      ServerJointSession(su, C.Control, s, t);
    }
  }

  lemma ServerJointRegister(su: Setup, t: Transit)
    requires su.Valid() && Joint(su, C.Control, S.Control, t)
    ensures 2 <= |t.ku| && ServerGoes(su, C.Control, S.Control, t)
  {
    assert t.ku == [VERSION_V1, CMD_REGISTER] + su.c.id;
    assert t.ku[2..] == su.c.id && t.kd + [] == t.kd;
  }

  lemma ServerJointControlId(su: Setup, t: Transit)
    requires su.Valid() && Joint(su, C.Control, S.ControlId, t)
    ensures 16 <= |t.ku| && ServerGoes(su, C.Control, S.ControlId, t)
  {
    assert t.ku[..16] == su.c.id && t.ku[16..] == [] && t.kd + [] == t.kd;
  }

  lemma ServerJointCommit(su: Setup, id: Uuid, t: Transit)
    requires su.Valid() && Joint(su, C.Control, S.Commit(id), t)
    ensures ServerGoes(su, C.Control, S.Commit(id), t)
  {
    assert t.ku[0..] == t.ku && t.kd + [] == t.kd;
  }

  lemma ServerJointControlAck(su: Setup, id: Uuid, t: Transit)
    requires su.Valid() && Joint(su, C.Control, S.ControlAck(id), t)
    ensures ServerGoes(su, C.Control, S.ControlAck(id), t)
  {
    assert t.ku[0..] == t.ku && [] + Reply(RES_SUCCESS) == Reply(RES_SUCCESS);
  }

  // ---------- pipes ----------

  /** A side whose session has not started writes handshake bytes. */
  lemma HandPush(p: Pipe, b: bytes)
    requires p.Valid()
    ensures Hand(p.Push(b), None) == Hand(p, None) + b
  {
  }

  lemma SliceTaken(b: bytes, from: nat, n: nat, end: nat)
    requires from + n <= end <= |b|
    ensures b[from..][..n] == b[from..end][..n]
    ensures b[from + n..end] == b[from..end][n..]
  {
  }

  lemma HandPull(p: Pipe, start: Option<Start>, n: nat)
    requires p.Valid() && (start.Some? ==> start.value.wrote <= |p.sent|)
    requires n <= |Hand(p, start)|
    ensures p.Pull(n).Valid() && n <= |p.Pending()|
    ensures p.Pending()[..n] == Hand(p, start)[..n]
    ensures Hand(p.Pull(n), start) == Hand(p, start)[n..]
  {
    var end := if start.Some? then start.value.wrote else |p.sent|;
    if p.got <= end {
      SliceTaken(p.sent, p.got, n, end);
    }
  }

  /** A step that reads `n` bytes of one pipe and writes to the other. */
  lemma Exchanged(p: Pipe, q: Pipe, n: nat, out: bytes)
    requires p.Valid() && q.Valid() && n <= |p.Pending()|
    ensures p.Pull(n).Valid() && p.Pull(n).Pending() == p.Pending()[n..]
    ensures q.Push(out).Valid() && q.Push(out).Pending() == q.Pending() + out
  {
    PullPending(p, n);
    PushPending(q, out);
  }

  lemma HandExchanged(p: Pipe, start: Option<Start>, q: Pipe, n: nat, out: bytes)
    requires p.Valid() && q.Valid() && (start.Some? ==> start.value.wrote <= |p.sent|)
    requires n <= |Hand(p, start)|
    ensures p.Pull(n).Valid() && Hand(p.Pull(n), start) == Hand(p, start)[n..]
    ensures q.Push(out).Valid() && Hand(q.Push(out), None) == Hand(q, None) + out
  {
    HandPull(p, start, n);
    HandPush(q, out);
  }

  lemma HandEmpty(p: Pipe, start: Option<Start>)
    requires p.Valid() && (start.Some? ==> p.got <= start.value.wrote <= |p.sent|)
    requires Hand(p, start) == []
    ensures p.got == if start.Some? then start.value.wrote else |p.sent|
  {
    var end := if start.Some? then start.value.wrote else |p.sent|;
    assert |p.sent[p.got..end]| == end - p.got;
  }

  /** Once the writer's session has started, more traffic does not add handshake bytes. */
  lemma HandSession(p: Pipe, start: Start, b: bytes)
    requires p.Valid() && start.wrote <= |p.sent|
    ensures Hand(p.Push(b), Some(start)) == Hand(p, Some(start))
  {
    assert p.sent <= (p.sent + b);
  }

  // ---------- the steps ----------

  /** While a machine reads the connection, all it needs are handshake bytes. */
  lemma ClientReadsHandshake(su: Setup, y: System)
    requires Inv(su, y) && Enabled(su, ClientMove, y)
    ensures C.Need(y.c) <= |if y.c.Control? then y.kdown.Pending() else InTransit(y).d|
  {
  }

  lemma ServerReadsHandshake(su: Setup, y: System)
    requires Inv(su, y) && Enabled(su, ServerMove, y)
    ensures S.Need(y.s) <= |if OnControl(y.s) then y.kup.Pending() else InTransit(y).u|
  {
  }

  /** The pipes and the sessions are in order, and `t` is what is between the two sides. */
  ghost predicate Wired(su: Setup, y: System, t: Transit) {
    PipesValid(y) && Sessions(su, y) && InTransit(y) == t
  }

  ghost predicate Standing(su: Setup, y: System) {
    LifeOk(su, y) && Calm(y)
  }

  lemma ClientStreamKeeps(su: Setup, y: System, st: C.State, n: nat, out: bytes)
    requires PipesValid(y) && Sessions(su, y) && (y.c.Control? || y.c.ControlBegin?)
    requires n <= |y.kdown.Pending()| && (y.c.ControlBegin? ==> n == 0)
    requires ClientShape(su, y.c, y.s, st, out, InTransit(y))
    ensures Wired(su, ClientApply(y, st, n, out), ClientTransit(y.c, InTransit(y), n, out))
  {
    Exchanged(y.kdown, y.kup, n, out);
  }

  lemma ClientConnSessions(su: Setup, y: System, st: C.State, n: nat, out: bytes)
    requires PipesValid(y) && Sessions(su, y) && ClientOnConn(y.c) && !y.c.Done? && n <= |y.down.Pending()|
    requires y.sStart.Some? ==> y.down.got + n <= y.sStart.value.wrote && out == []
    requires !ClientInSession(su, st)
    ensures var y' := ClientApply(y, st, n, out); PipesValid(y') && Sessions(su, y')
  {
    assert |y.up.sent + []| == |y.up.sent|;
  }

  lemma ClientConnTransit(y: System, st: C.State, n: nat, out: bytes)
    requires PipesValid(y) && y.cStart.None? && (y.sStart.Some? ==> y.sStart.value.wrote <= |y.down.sent|)
    requires ClientOnConn(y.c) && n <= |InTransit(y).d|
    ensures var y' := ClientApply(y, st, n, out);
            PipesValid(y') && InTransit(y') == ClientTransit(y.c, InTransit(y), n, out)
  {
    HandExchanged(y.down, y.sStart, y.up, n, out);
    var y' := ClientApply(y, st, n, out);
    assert y'.down == y.down.Pull(n) && y'.up == y.up.Push(out) && y'.cStart == None && y'.sStart == y.sStart;
  }

  /** A reader that takes handshake bytes only does not run into the session behind them. */
  lemma HandBound(p: Pipe, start: Option<Start>, n: nat)
    requires p.Valid() && (start.Some? ==> p.got <= start.value.wrote <= |p.sent|) && n <= |Hand(p, start)|
    ensures n <= |p.Pending()| && (start.Some? ==> p.got + n <= start.value.wrote)
  {
    if start.Some? {
      assert |p.sent[p.got..start.value.wrote]| == start.value.wrote - p.got;
    }
  }

  lemma ClientConnKeeps(su: Setup, y: System, st: C.State, n: nat, out: bytes)
    requires PipesValid(y) && Sessions(su, y) && ClientOnConn(y.c) && !y.c.Done?
    requires n <= |InTransit(y).d| && ClientShape(su, y.c, y.s, st, out, InTransit(y))
    ensures Wired(su, ClientApply(y, st, n, out), ClientTransit(y.c, InTransit(y), n, out))
  {
    ClientConnTransit(y, st, n, out);
    HandBound(y.down, y.sStart, n);
    ClientConnSessions(su, y, st, n, out);
  }

  lemma ClientStartKeeps(su: Setup, y: System, st: C.State, n: nat, out: bytes)
    requires PipesValid(y) && Sessions(su, y) && y.c.Session? && ClientShape(su, y.c, y.s, st, out, InTransit(y))
    requires n <= |InTransit(y).d|
    ensures Wired(su, ClientApply(y, st, n, out), ClientTransit(y.c, InTransit(y), n, out))
  {
    var y' := ClientApply(y, st, n, out);
    HandEmpty(y.up, None);
    HandEmpty(y.down, y.sStart);
    assert y'.up == y.up && y'.down == y.down && y'.kup == y.kup && y'.kdown == y.kdown && y'.sStart == y.sStart;
    assert Hand(y.up, y'.cStart) == [];
  }

  /** A client that is not final goes on to a state that its error flag and the peer's life agree with. */
  lemma ClientStands(su: Setup, y: System, y': System)
    requires Standing(su, y) && ClientLive(y) && y'.s == y.s
    requires y'.cErr == y.cErr && y'.sErr == y.sErr && y'.cClosed == y.cClosed && y'.sClosed == y.sClosed
    requires y'.started == y.started && y'.life == y.life && y'.aborted == y.aborted
    ensures Standing(su, y')
  {
  }

  lemma ServerStreamKeeps(su: Setup, y: System, st: S.State, n: nat, out: bytes)
    requires PipesValid(y) && Sessions(su, y) && OnControl(y.s) && ServerShape(su, y.c, y.s, st)
    requires n <= |y.kup.Pending()|
    ensures Wired(su, ServerApply(y, st, n, out), ServerTransit(y.s, InTransit(y), n, out))
  {
    Exchanged(y.kup, y.kdown, n, out);
  }

  lemma ServerConnKeeps(su: Setup, y: System, st: S.State, n: nat, out: bytes)
    requires PipesValid(y) && Sessions(su, y) && !OnControl(y.s) && !y.s.Session? && !y.s.Done?
    requires ServerShape(su, y.c, y.s, st) && Rechecked(st, y.life) == st && n <= |InTransit(y).u|
    ensures Wired(su, ServerApply(y, st, n, out), ServerTransit(y.s, InTransit(y), n, out))
  {
    HandExchanged(y.up, y.cStart, y.down, n, out);
  }

  lemma ServerStartKeeps(su: Setup, y: System, st: S.State, n: nat, out: bytes)
    requires PipesValid(y) && Sessions(su, y) && y.s.Session? && ServerShape(su, y.c, y.s, st)
    requires InTransit(y).u == [] && n == 0
    ensures Wired(su, ServerApply(y, st, n, out), ServerTransit(y.s, InTransit(y), n, out))
  {
    var y' := ServerApply(y, st, n, out);
    HandEmpty(y.up, y.cStart);
    assert y'.up == y.up && y'.down == y.down && y'.kup == y.kup && y'.kdown == y.kdown && y'.cStart == y.cStart;
    assert Hand(y.down, y'.sStart) == Hand(y.down, None);
  }

  lemma ServerStreamStands(su: Setup, y: System, st: S.State, n: nat, out: bytes)
    requires Standing(su, y) && ServerLive(y) && OnControl(y.s) && ServerShape(su, y.c, y.s, st)
    requires ServerIo(y.s) ==> !y.sClosed
    ensures Standing(su, ServerApply(y, st, n, out)) && ServerApply(y, st, n, out).s == st
  {
  }

  lemma ServerConnStands(su: Setup, y: System, st: S.State, n: nat, out: bytes)
    requires Standing(su, y) && ServerLive(y) && !OnControl(y.s) && !y.s.Session? && ServerShape(su, y.c, y.s, st)
    requires ServerIo(y.s) ==> !y.sClosed
    ensures Standing(su, ServerApply(y, st, n, out)) && ServerApply(y, st, n, out).s == st == Rechecked(st, y.life)
  {
  }

  lemma ServerStartStands(su: Setup, y: System, st: S.State, n: nat, out: bytes)
    requires Standing(su, y) && ServerLive(y) && y.s.Session? && ServerShape(su, y.c, y.s, st)
    ensures Standing(su, ServerApply(y, st, n, out)) && ServerApply(y, st, n, out).s == st
  {
  }

  lemma Whole(su: Setup, y: System, t: Transit)
    requires su.Valid() && Wired(su, y, t) && Standing(su, y) && Joint(su, y.c, y.s, t)
    ensures Inv(su, y)
  {
  }

  lemma JointMoves(su: Setup, y': System, t: Transit)
    requires Frame(su, y') && Joint(su, y'.c, y'.s, t) && t == InTransit(y')
    ensures Inv(su, y')
  {
  }

  /** What a client step does to the joint state. */
  lemma ClientMoveJoint(su: Setup, y: System)
    requires Inv(su, y) && Enabled(su, ClientMove, y)
    ensures var n, t := C.Need(y.c), InTransit(y);
            && n <= |if y.c.Control? then t.kd else t.d|
            && var (st, out) := C.Feed(su.c, y.c, ClientInput(y)[..n]);
            && Joint(su, st, y.s, ClientTransit(y.c, t, n, out))
            && ClientShape(su, y.c, y.s, st, out, t)
  {
    ClientReadsHandshake(su, y);
    ClientJoint(su, y.c, y.s, InTransit(y));
    var n := C.Need(y.c);
    if !y.c.Control? {
      HandPull(y.down, y.sStart, n);
      assert ClientInput(y)[..n] == InTransit(y).d[..n];
    }
  }

  lemma ServerMoveJoint(su: Setup, y: System)
    requires Inv(su, y) && Enabled(su, ServerMove, y)
    ensures var n, t := S.Need(y.s), InTransit(y);
            && n <= |if OnControl(y.s) then t.ku else t.u|
            && var (st, out) := S.Feed(su.s, y.s, ServerInput(y)[..n]);
            && Joint(su, y.c, st, ServerTransit(y.s, t, n, out)) && (y.s.Session? ==> t.u == [])
            && ServerShape(su, y.c, y.s, st)
  {
    ServerReadsHandshake(su, y);
    ServerJoint(su, y.c, y.s, InTransit(y));
    var n := S.Need(y.s);
    if !OnControl(y.s) {
      HandPull(y.up, y.cStart, n);
      assert ServerInput(y)[..n] == InTransit(y).u[..n];
    }
  }

  /** A client step that leads from one joint state to another keeps the invariant, whatever it read and wrote. */
  lemma ClientArrives(su: Setup, y: System, st: C.State, n: nat, out: bytes)
    requires Frame(su, y) && ClientLive(y) && n <= |if y.c.Control? then y.kdown.Pending() else InTransit(y).d|
    requires y.c.ControlBegin? ==> n == 0
    requires ClientShape(su, y.c, y.s, st, out, InTransit(y))
    requires Joint(su, st, y.s, ClientTransit(y.c, InTransit(y), n, out))
    ensures Inv(su, ClientApply(y, st, n, out))
  {
    if y.c.Session? {
      ClientStartArrives(su, y, st, n, out);
    } else if ClientOnStream(y.c) {
      ClientStreamArrives(su, y, st, n, out);
    } else {
      ClientConnArrives(su, y, st, n, out);
    }
  }

  lemma ClientStartArrives(su: Setup, y: System, st: C.State, n: nat, out: bytes)
    requires Frame(su, y) && ClientLive(y) && y.c.Session? && n <= |InTransit(y).d|
    requires ClientShape(su, y.c, y.s, st, out, InTransit(y))
    requires Joint(su, st, y.s, ClientTransit(y.c, InTransit(y), n, out))
    ensures Inv(su, ClientApply(y, st, n, out))
  {
    ClientStands(su, y, ClientApply(y, st, n, out));
    ClientStartKeeps(su, y, st, n, out);
    Whole(su, ClientApply(y, st, n, out), ClientTransit(y.c, InTransit(y), n, out));
  }

  lemma ClientStreamArrives(su: Setup, y: System, st: C.State, n: nat, out: bytes)
    requires Frame(su, y) && ClientLive(y) && ClientOnStream(y.c)
    requires n <= |y.kdown.Pending()| && (y.c.ControlBegin? ==> n == 0)
    requires ClientShape(su, y.c, y.s, st, out, InTransit(y))
    requires Joint(su, st, y.s, ClientTransit(y.c, InTransit(y), n, out))
    ensures Inv(su, ClientApply(y, st, n, out))
  {
    ClientStands(su, y, ClientApply(y, st, n, out));
    ClientStreamKeeps(su, y, st, n, out);
    Whole(su, ClientApply(y, st, n, out), ClientTransit(y.c, InTransit(y), n, out));
  }

  lemma ClientConnArrives(su: Setup, y: System, st: C.State, n: nat, out: bytes)
    requires Frame(su, y) && ClientLive(y) && ClientOnConn(y.c) && n <= |InTransit(y).d|
    requires ClientShape(su, y.c, y.s, st, out, InTransit(y))
    requires Joint(su, st, y.s, ClientTransit(y.c, InTransit(y), n, out))
    ensures Inv(su, ClientApply(y, st, n, out))
  {
    ClientStands(su, y, ClientApply(y, st, n, out));
    ClientConnKeeps(su, y, st, n, out);
    Whole(su, ClientApply(y, st, n, out), ClientTransit(y.c, InTransit(y), n, out));
  }

  lemma ServerArrives(su: Setup, y: System, st: S.State, n: nat, out: bytes)
    requires Frame(su, y) && ServerLive(y) && n <= |if OnControl(y.s) then y.kup.Pending() else InTransit(y).u|
    requires ServerShape(su, y.c, y.s, st) && (ServerIo(y.s) ==> !y.sClosed)
    requires y.s.Session? ==> InTransit(y).u == [] && n == 0
    requires Joint(su, y.c, st, ServerTransit(y.s, InTransit(y), n, out))
    ensures Inv(su, ServerApply(y, st, n, out))
  {
    if y.s.Session? {
      ServerStartArrives(su, y, st, n, out);
    } else if OnControl(y.s) {
      ServerStreamArrives(su, y, st, n, out);
    } else {
      ServerConnArrives(su, y, st, n, out);
    }
  }

  lemma ServerStartArrives(su: Setup, y: System, st: S.State, n: nat, out: bytes)
    requires Frame(su, y) && ServerLive(y) && y.s.Session? && InTransit(y).u == [] && n == 0
    requires ServerShape(su, y.c, y.s, st)
    requires Joint(su, y.c, st, ServerTransit(y.s, InTransit(y), n, out))
    ensures Inv(su, ServerApply(y, st, n, out))
  {
    ServerStartStands(su, y, st, n, out);
    ServerStartKeeps(su, y, st, n, out);
    Whole(su, ServerApply(y, st, n, out), ServerTransit(y.s, InTransit(y), n, out));
  }

  lemma ServerStreamArrives(su: Setup, y: System, st: S.State, n: nat, out: bytes)
    requires Frame(su, y) && ServerLive(y) && OnControl(y.s) && n <= |y.kup.Pending()| && (ServerIo(y.s) ==> !y.sClosed)
    requires ServerShape(su, y.c, y.s, st)
    requires Joint(su, y.c, st, ServerTransit(y.s, InTransit(y), n, out))
    ensures Inv(su, ServerApply(y, st, n, out))
  {
    ServerStreamStands(su, y, st, n, out);
    ServerStreamKeeps(su, y, st, n, out);
    Whole(su, ServerApply(y, st, n, out), ServerTransit(y.s, InTransit(y), n, out));
  }

  lemma ServerConnArrives(su: Setup, y: System, st: S.State, n: nat, out: bytes)
    requires Frame(su, y) && ServerLive(y) && ServerOnConn(y.s)
    requires n <= |InTransit(y).u| && (ServerIo(y.s) ==> !y.sClosed)
    requires ServerShape(su, y.c, y.s, st)
    requires Joint(su, y.c, st, ServerTransit(y.s, InTransit(y), n, out))
    ensures Inv(su, ServerApply(y, st, n, out))
  {
    ServerConnStands(su, y, st, n, out);
    ServerConnKeeps(su, y, st, n, out);
    Whole(su, ServerApply(y, st, n, out), ServerTransit(y.s, InTransit(y), n, out));
  }

  lemma ClientMoveKeeps(su: Setup, y: System)
    requires Inv(su, y) && Enabled(su, ClientMove, y)
    ensures Inv(su, ClientStep(su, y))
  {
    ClientMoveJoint(su, y);
    var n := C.Need(y.c);
    var (st, out) := C.Feed(su.c, y.c, ClientInput(y)[..n]);
    ClientArrives(su, y, st, n, out);
  }

  lemma ServerMoveKeeps(su: Setup, y: System)
    requires Inv(su, y) && Enabled(su, ServerMove, y)
    ensures Inv(su, ServerStep(su, y))
  {
    ServerMoveJoint(su, y);
    var n := S.Need(y.s);
    var (st, out) := S.Feed(su.s, y.s, ServerInput(y)[..n]);
    ServerArrives(su, y, st, n, out);
  }

  lemma TrafficKeeps(su: Setup, a: Action, y: System)
    requires Frame(su, y) && Enabled(su, a, y) && SessionTraffic(a)
    ensures Frame(su, Next(su, a, y)) && InTransit(Next(su, a, y)) == InTransit(y)
    ensures Next(su, a, y).c == y.c && Next(su, a, y).s == y.s
  {
    match a
    case ClientSends(b) => HandSession(y.up, y.cStart.value, b);
    case ServerSends(b) => HandSession(y.down, y.sStart.value, b);
    case _ =>
  }

  /** The same bytes, machines and sessions. */
  predicate SameWires(y: System, y': System) {
    && y'.up == y.up && y'.down == y.down && y'.kup == y.kup && y'.kdown == y.kdown
    && y'.cStart == y.cStart && y'.sStart == y.sStart && y'.c == y.c && y'.s == y.s
  }

  lemma SameWiresKeep(su: Setup, y: System, y': System)
    requires PipesValid(y) && Sessions(su, y) && SameWires(y, y')
    ensures PipesValid(y') && Sessions(su, y') && InTransit(y') == InTransit(y)
  {
  }

  lemma FlagsKeepLife(su: Setup, a: Action, y: System)
    requires PipesValid(y) && LifeOk(su, y)
    requires Enabled(su, a, y) && !SessionTraffic(a) && !a.ClientMove? && !a.ServerMove?
    ensures LifeOk(su, Next(su, a, y))
  {
  }

  lemma FlagsKeepCalm(su: Setup, a: Action, y: System)
    requires PipesValid(y) && LifeOk(su, y) && Calm(y)
    requires Enabled(su, a, y) && !SessionTraffic(a) && !a.ClientMove? && !a.ServerMove?
    ensures Calm(Next(su, a, y)) && SameWires(y, Next(su, a, y))
  {
  }

  /** Entering, giving up and closing move no bytes and no machine. */
  lemma FlagsKeep(su: Setup, a: Action, y: System)
    requires Frame(su, y) && Enabled(su, a, y) && !SessionTraffic(a) && !a.ClientMove? && !a.ServerMove?
    ensures Frame(su, Next(su, a, y))
    ensures InTransit(Next(su, a, y)) == InTransit(y) && Next(su, a, y).c == y.c && Next(su, a, y).s == y.s
  {
    FlagsKeepLife(su, a, y);
    FlagsKeepCalm(su, a, y);
    SameWiresKeep(su, y, Next(su, a, y));
  }

  /** Steps that move no machine leave the joint state alone. */
  lemma OthersKeep(su: Setup, a: Action, y: System)
    requires Inv(su, y) && Enabled(su, a, y) && !a.ClientMove? && !a.ServerMove?
    ensures Inv(su, Next(su, a, y))
  {
    if SessionTraffic(a) {
      TrafficKeeps(su, a, y);
    } else {
      FlagsKeep(su, a, y);
    }
    JointMoves(su, Next(su, a, y), InTransit(y));
  }

  lemma StepKeeps(su: Setup, a: Action, y: System)
    requires Inv(su, y) && Enabled(su, a, y)
    ensures Inv(su, Next(su, a, y))
  {
    if a.ClientMove? {
      ClientMoveKeeps(su, y);
    } else if a.ServerMove? {
      ServerMoveKeeps(su, y);
    } else {
      OthersKeep(su, a, y);
    }
  }
}
