/**
 What the handshake achieves, over every run.
 */
module HandshakeTheorems {
  import opened Wire
  import C = ClientMachine
  import S = ServerMachine
  import opened Handshake
  import opened HandshakeProof

  /** The state that a run leads to, or `None` when some step of it is not possible. */
  ghost function Play(su: Setup, y: System, run: seq<Action>): Option<System>
    decreases |run|
  {
    if run == [] then Some(y)
    else if PipesValid(y) && Enabled(su, run[0], y) then Play(su, Next(su, run[0], y), run[1..])
    else None
  }

  ghost predicate Reaches(su: Setup, run: seq<Action>, y: System) {
    su.Valid() && Play(su, INIT, run) == Some(y)
  }

  lemma {:induction false} PlayKeepsInv(su: Setup, y: System, run: seq<Action>)
    requires Inv(su, y) && Play(su, y, run).Some?
    ensures Inv(su, Play(su, y, run).value)
    decreases |run|
  {
    if run != [] {
      StepKeeps(su, run[0], y);
      PlayKeepsInv(su, Next(su, run[0], y), run[1..]);
    }
  }

  lemma ReachableInv(su: Setup, run: seq<Action>, y: System)
    requires Reaches(su, run, y)
    ensures Inv(su, y)
  {
    PlayKeepsInv(su, INIT, run);
  }

  lemma {:induction false} PlayOn(su: Setup, y: System, run: seq<Action>, more: seq<Action>)
    requires Play(su, y, run).Some?
    ensures Play(su, y, run + more) == Play(su, Play(su, y, run).value, more)
    decreases |run|
  {
    if run == [] {
      assert run + more == more;
    } else {
      assert (run + more)[1..] == run[1..] + more;
      PlayOn(su, Next(su, run[0], y), run[1..], more);
    }
  }

  // ---------- agreement ----------

  /**
   A client that succeeds agrees with its server: the server has finished the same command
   with the same identifier for an authenticated client, and of what either side wrote as
   handshake the other has left nothing unread.
   */
  lemma Agreement(su: Setup, run: seq<Action>, y: System)
    requires Reaches(su, run, y) && y.c.Done?
    ensures y.s == su.Target() && !y.sErr && su.Compatible()
    ensures y.life == S.Disconnected || y.life == if su.c.goal == C.Bind then S.Bound else S.Registered
    ensures Frame(su, y) && InTransit(y) == QUIET
    ensures !su.V2() ==> y.up.got == |y.up.sent| && y.down.got == |y.down.sent|
    ensures su.V2() ==> y.kup.got == |y.kup.sent| && y.kdown.got == |y.kdown.sent| && y.cStart.Some? && y.sStart.Some?
  {
    ReachableInv(su, run, y);
    if su.V2() {
      assert |y.kup.Pending()| == 0 && |y.kdown.Pending()| == 0;
    } else {
      HandEmpty(y.up, None);
      HandEmpty(y.down, None);
    }
  }

  /** What a session whose reader starts at `from` has seen, and what its writer has written. */
  ghost predicate SeesPrefix(p: Pipe, from: nat, writer: Option<Start>) {
    && from <= p.got <= |p.sent|
    && if writer.Some? then writer.value.wrote <= |p.sent| && p.sent[from..p.got] <= p.sent[writer.value.wrote..]
       else p.got == from
  }

  /**
   After an upgrade each session sees exactly a prefix of what the peer's session wrote, and
   nothing while that has not started: for all configurations no handshake byte reaches a
   session and no session byte is taken for handshake.
   */
  lemma CleanUpgrade(su: Setup, run: seq<Action>, y: System)
    requires Reaches(su, run, y)
    ensures y.cStart.Some? ==> SeesPrefix(y.down, y.cStart.value.read, y.sStart)
    ensures y.sStart.Some? ==> SeesPrefix(y.up, y.sStart.value.read, y.cStart)
  {
    ReachableInv(su, run, y);
  }

  // ---------- progress ----------

  /** Both sides have returned, and whoever returned an error has closed the connection. */
  predicate Settled(y: System) {
    && y.started && !ClientLive(y) && !ServerLive(y)
    && (ClientFailed(y) ==> y.cClosed) && (ServerFailed(y) ==> y.sClosed)
  }

  /** Nobody closes a side that has not failed. */
  predicate Orderly(a: Action, y: System) {
    && !SessionTraffic(a) && !a.ServerClose?
    && (a.ClientClose? ==> ClientFailed(y)) && (a.ServerConnClose? ==> ServerFailed(y))
  }

  /** With both ends open, one of the two machines has all the bytes it waits for. */
  lemma SomeoneMoves(su: Setup, c: C.State, s: S.State, t: Transit)
    requires su.Valid() && Joint(su, c, s, t) && !C.Final(c) && !s.Failed?
    ensures C.Need(c) <= |if c.Control? then t.kd else t.d|
            || (!S.Final(s) && S.Need(s) <= |if OnControl(s) then t.ku else t.u|)
  {
  }

  lemma HandWithin(p: Pipe, start: Option<Start>)
    requires p.Valid() && (start.Some? ==> start.value.wrote <= |p.sent|)
    ensures |Hand(p, start)| <= |p.Pending()|
  {
  }

  lemma MachineMoves(su: Setup, y: System) returns (a: Action)
    requires Inv(su, y) && y.started && ClientLive(y) && !y.s.Failed? && !y.sErr && !y.cClosed && !y.sClosed
    ensures a == ClientMove || a == ServerMove
    ensures Enabled(su, a, y)
  {
    SomeoneMoves(su, y.c, y.s, InTransit(y));
    HandWithin(y.up, y.cStart);
    HandWithin(y.down, y.sStart);
    a := if C.Need(y.c) <= |ClientInput(y)| then ClientMove else ServerMove;
  }

  /** No reachable state is stuck: until all is settled some orderly step is possible. */
  lemma NoDeadlock(su: Setup, y: System) returns (a: Action)
    requires Inv(su, y) && !Settled(y)
    ensures Orderly(a, y) && Enabled(su, a, y)
  {
    if !y.started {
      a := ServerEnter;
    } else if ClientFailed(y) && !y.cClosed {
      a := ClientClose;
    } else if ServerFailed(y) && !y.sClosed {
      a := ServerConnClose;
    } else if ClientLive(y) {
      if y.cClosed || y.sClosed {
        a := ClientFault;
      } else {
        a := MachineMoves(su, y);
      }
    } else {
      a := if ServerIo(y.s) then ServerFault else ServerMove;
    }
  }

  /** What is left to do at most. */
  function Remaining(y: System): nat {
    2 * (C.Rank(y.c) + S.Rank(y.s))
    + (if y.started then 0 else 2) + (if y.cErr then 0 else 1) + (if y.sErr then 0 else 1)
    + (if y.cClosed then 0 else 1) + (if y.sClosed then 0 else 1) + (if y.life == S.Disconnected then 0 else 1)
  }

  lemma ClientMoveShrinks(su: Setup, y: System)
    requires PipesValid(y) && Enabled(su, ClientMove, y)
    ensures Remaining(ClientStep(su, y)) < Remaining(y)
  {
    C.FeedDescends(su.c, y.c, ClientInput(y)[..C.Need(y.c)]);
  }

  lemma ServerMoveShrinks(su: Setup, y: System)
    requires PipesValid(y) && Enabled(su, ServerMove, y)
    ensures Remaining(ServerStep(su, y)) < Remaining(y)
  {
    var n := S.Need(y.s);
    S.FeedDescends(su.s, y.s, ServerInput(y)[..n]);
    var (st, out) := S.Feed(su.s, y.s, ServerInput(y)[..n]);
    ServerApplyShrinks(su, y, st, n, out);
  }

  /** The flags of the two sides are untouched by a server step. */
  lemma ServerApplyFlags(y: System, st: S.State, n: nat, out: bytes)
    ensures var y' := ServerApply(y, st, n, out);
            && y'.c == y.c && y'.started == y.started && y'.cErr == y.cErr && y'.sErr == y.sErr
            && y'.cClosed == y.cClosed && y'.sClosed == y.sClosed
            && (y'.s == st || y'.s == S.Failed(S.UnexpectedState))
  {
  }

  lemma ServerApplyShrinks(su: Setup, y: System, st: S.State, n: nat, out: bytes)
    requires S.Rank(st) < S.Rank(y.s)
    ensures Remaining(ServerApply(y, st, n, out)) < Remaining(y)
  {
    ServerApplyFlags(y, st, n, out);
    assert S.Rank(ServerApply(y, st, n, out).s) <= S.Rank(st) by {
      assert S.Rank(S.Failed(S.UnexpectedState)) == 0;
    }
  }

  /** Giving up, entering and closing shrink it as well, and traffic leaves it alone. */
  lemma OthersShrink(su: Setup, a: Action, y: System)
    requires PipesValid(y) && LifeOk(su, y) && Enabled(su, a, y) && !a.ClientMove? && !a.ServerMove?
    ensures if SessionTraffic(a) then Remaining(Next(su, a, y)) == Remaining(y)
            else Remaining(Next(su, a, y)) < Remaining(y)
  {
  }

  lemma StepsShrink(su: Setup, a: Action, y: System)
    requires Inv(su, y) && Enabled(su, a, y)
    ensures if SessionTraffic(a) then Remaining(Next(su, a, y)) == Remaining(y)
            else Remaining(Next(su, a, y)) < Remaining(y)
  {
    if a.ClientMove? {
      ClientMoveShrinks(su, y);
    } else if a.ServerMove? {
      ServerMoveShrinks(su, y);
    } else {
      OthersShrink(su, a, y);
    }
  }

  function HandshakeSteps(run: seq<Action>): nat {
    if run == [] then 0
    else (if SessionTraffic(run[0]) then 0 else 1) + HandshakeSteps(run[1..])
  }

  lemma {:induction false} StepsBounded(su: Setup, y: System, run: seq<Action>)
    requires Inv(su, y) && Play(su, y, run).Some?
    ensures HandshakeSteps(run) + Remaining(Play(su, y, run).value) <= Remaining(y)
    decreases |run|
  {
    if run != [] {
      StepsShrink(su, run[0], y);
      StepKeeps(su, run[0], y);
      StepsBounded(su, Next(su, run[0], y), run[1..]);
    }
  }

  /** Every run takes at most 63 handshake steps, whatever session traffic lies between them. */
  lemma HandshakeTerminates(su: Setup, run: seq<Action>, y: System)
    requires Reaches(su, run, y)
    ensures HandshakeSteps(run) <= 63
  {
    StepsBounded(su, INIT, run);
  }

  // ---------- outcome ----------

  predicate Success(su: Setup, y: System) {
    y.c.Done? && y.s == su.Target() && !y.cErr && !y.sErr
  }

  /**
   When all is settled, either both sides succeeded or a side that failed has closed the
   connection. If nobody closed a healthy side, both succeed exactly when the configurations
   fit: whether the handshake works does not depend on the interleaving.
   */
  lemma Outcome(su: Setup, run: seq<Action>, y: System)
    requires Reaches(su, run, y) && Settled(y)
    ensures Success(su, y) || y.cClosed || y.sClosed
    ensures !y.aborted ==> (Success(su, y) <==> su.Compatible())
  {
    ReachableInv(su, run, y);
    if su.Compatible() {
      CompatibleNeverFails(su, y);
    }
  }

  lemma CompatibleNeverFails(su: Setup, y: System)
    requires Inv(su, y) && su.Compatible()
    ensures !y.c.Failed? && !y.s.Failed?
  {
  }

  lemma PlayCons(su: Setup, a: Action, y: System, run: seq<Action>)
    requires PipesValid(y) && Enabled(su, a, y)
    ensures Play(su, y, [a] + run) == Play(su, Next(su, a, y), run)
  {
    assert ([a] + run)[0] == a && ([a] + run)[1..] == run;
  }

  /** An orderly step leads to a smaller state of the invariant and aborts nothing. */
  lemma OrderlyStep(su: Setup, a: Action, y: System)
    requires Inv(su, y) && Orderly(a, y) && Enabled(su, a, y)
    ensures var z := Next(su, a, y); Inv(su, z) && Remaining(z) < Remaining(y) && z.aborted == y.aborted
  {
    StepKeeps(su, a, y);
    StepsShrink(su, a, y);
  }

  /** From every reachable state, orderly steps alone lead on to a settled one. */
  lemma CanSettle(su: Setup, y: System) returns (run: seq<Action>, z: System)
    requires Inv(su, y)
    ensures Play(su, y, run) == Some(z) && Settled(z) && z.aborted == y.aborted
    decreases Remaining(y)
  {
    if Settled(y) {
      run, z := [], y;
    } else {
      var a := NoDeadlock(su, y);
      OrderlyStep(su, a, y);
      run, z := CanSettle(su, Next(su, a, y));
      PlayCons(su, a, y, run);
      run := [a] + run;
    }
  }

  // ---------- the reported state ----------

  /** A server that was disconnected becomes anything else by one step only: committing a V2 registration. */
  lemma LeavesDisconnected(su: Setup, a: Action, y: System)
    requires Inv(su, y) && Enabled(su, a, y) && y.life == S.Disconnected
    ensures Next(su, a, y).life != S.Disconnected <==> a == ServerMove && y.s.Commit?
  {
  }

  lemma CommitsFit(su: Setup, y: System)
    requires Inv(su, y) && y.s.Commit?
    ensures su.V2() && su.Compatible() && y.s.id == su.c.id
  {
  }

  /** Without a V2 handshake that fits `Disconnected` is final, even when `Close` comes in the middle of `Process`. */
  lemma {:induction false} DisconnectedStays(su: Setup, y: System, run: seq<Action>)
    requires Inv(su, y) && !(su.V2() && su.Compatible()) && y.life == S.Disconnected && Play(su, y, run).Some?
    ensures Play(su, y, run).value.life == S.Disconnected
    decreases |run|
  {
    if run != [] {
      if y.s.Commit? {
        CommitsFit(su, y);
      }
      LeavesDisconnected(su, run[0], y);
      StepKeeps(su, run[0], y);
      DisconnectedStays(su, Next(su, run[0], y), run[1..]);
    }
  }

  /** Registered and bound are reported only for an authenticated client whose command has been carried out. */
  lemma ReportedStateIsEarned(su: Setup, run: seq<Action>, y: System)
    requires Reaches(su, run, y)
    ensures y.life == S.Registered || y.life == S.Bound ==> su.LoginOk()
    ensures y.life == S.Bound ==> su.c.goal == C.Bind && y.s == su.Target()
    ensures y.life == S.Registered ==> su.c.goal != C.Bind && (y.s == su.Target() || y.s == S.ControlAck(su.c.id))
  {
    ReachableInv(su, run, y);
    if y.s.Done? || y.s.ControlAck? {
      EarnedByInv(su, y.c, y.s, InTransit(y));
    }
  }

  lemma EarnedByInv(su: Setup, c: C.State, s: S.State, t: Transit)
    requires su.Valid() && Joint(su, c, s, t) && (s.Done? || s.ControlAck?)
    ensures su.LoginOk() && (s.Done? ==> s == su.Target()) && (s.ControlAck? ==> su.V2() && s.id == su.c.id)
  {
  }

  lemma ShapeTowardsCommit(su: Setup, c: C.State, s: S.State, s': S.State)
    requires ServerShape(su, c, s, s') && su.V2() && !s'.Failed? && S.Rank(s) > 3
    ensures s'.Commit? || S.Rank(s') > 3
  {
  }

  /** One orderly step of a V2 handshake that fits does not skip the commit. */
  lemma StepTowardsCommit(su: Setup, a: Action, y: System)
    requires Inv(su, y) && su.V2() && su.Compatible() && Orderly(a, y) && Enabled(su, a, y)
    requires !y.aborted && S.Rank(y.s) > 3
    ensures var z := Next(su, a, y);
            Inv(su, z) && !z.aborted && (z.s.Commit? || S.Rank(z.s) > 3) && Remaining(z) < Remaining(y)
  {
    OrderlyStep(su, a, y);
    if a.ServerMove? {
      ServerTowardsCommit(su, y);
    }
  }

  lemma ServerTowardsCommit(su: Setup, y: System)
    requires Inv(su, y) && su.V2() && su.Compatible() && Enabled(su, ServerMove, y) && S.Rank(y.s) > 3
    ensures var s' := Next(su, ServerMove, y).s; s'.Commit? || S.Rank(s') > 3
  {
    ServerStepShape(su, y);
    ServerMoveKeeps(su, y);
    CompatibleNeverFails(su, Next(su, ServerMove, y));
    ShapeTowardsCommit(su, y.c, y.s, Next(su, ServerMove, y).s);
  }

  lemma ServerStepShape(su: Setup, y: System)
    requires Inv(su, y) && Enabled(su, ServerMove, y) && su.Compatible()
    ensures ServerShape(su, y.c, y.s, Next(su, ServerMove, y).s)
  {
    ServerMoveJoint(su, y);
    ServerMoveKeeps(su, y);
    CompatibleNeverFails(su, Next(su, ServerMove, y));
  }

  /** A V2 handshake that fits can be driven to the point just before its registration is committed. */
  lemma ReachesCommit(su: Setup, y: System) returns (run: seq<Action>, z: System)
    requires Inv(su, y) && su.V2() && su.Compatible() && !y.aborted && (y.s.Commit? || S.Rank(y.s) > 3)
    ensures Play(su, y, run) == Some(z) && Inv(su, z) && !z.aborted && z.s.Commit?
    decreases Remaining(y)
  {
    if y.s.Commit? {
      run, z := [], y;
    } else {
      var a := NoDeadlock(su, y);
      StepTowardsCommit(su, a, y);
      run, z := ReachesCommit(su, Next(su, a, y));
      PlayCons(su, a, y, run);
      run := [a] + run;
    }
  }

  /** Closing a server that is about to commit, and the commit itself. */
  lemma CloseThenCommit(su: Setup, y: System)
    requires Inv(su, y) && su.Compatible() && !y.aborted && y.s.Commit?
    ensures Enabled(su, ServerClose, y)
    ensures var y1 := Next(su, ServerClose, y);
            && PipesValid(y1) && y1.life == S.Disconnected && Enabled(su, ServerMove, y1)
            && var y2 := Next(su, ServerMove, y1);
            y2.life == S.Registered && y2.sClosed
  {
    CompatibleNeverFails(su, y);
  }

  lemma PlayOne(su: Setup, a: Action, y: System)
    requires PipesValid(y) && Enabled(su, a, y)
    ensures Play(su, y, [a]) == Some(Next(su, a, y))
  {
    assert [a] + [] == [a];
    PlayCons(su, a, y, []);
  }

  /**
   On the V2 path `Disconnected` is not final: every V2 handshake that fits has a run in which
   the server is closed and afterwards reports that it is registered.
   */
  lemma V2DisconnectedIsNotFinal(su: Setup) returns (run: seq<Action>, y: System, z: System)
    requires su.Valid() && su.V2() && su.Compatible()
    ensures Reaches(su, run, y) && y.life == S.Disconnected
    ensures Play(su, y, [ServerMove]) == Some(z) && z.life == S.Registered && z.sClosed
  {
    var early, c := ReachesCommit(su, INIT);
    CloseThenCommit(su, c);
    run, y := early + [ServerClose], Next(su, ServerClose, c);
    PlayOn(su, INIT, early, [ServerClose]);
    PlayOne(su, ServerClose, c);
    z := Next(su, ServerMove, y);
    PlayOne(su, ServerMove, y);
  }

  /** Once a run has disconnected the server, however it goes on the server stays disconnected. */
  ghost predicate DisconnectedIsFinal(su: Setup) {
    forall run, y, more ::
      Reaches(su, run, y) && y.life == S.Disconnected && Play(su, y, more).Some?
      ==> Play(su, y, more).value.life == S.Disconnected
  }

  /** The exact condition: `Disconnected` is final unless both sides want V2 and their configurations fit. */
  lemma DisconnectedIsFinalIff(su: Setup)
    requires su.Valid()
    ensures DisconnectedIsFinal(su) <==> !(su.V2() && su.Compatible())
  {
    if su.V2() && su.Compatible() {
      var run, y, z := V2DisconnectedIsNotFinal(su);
      assert Reaches(su, run, y) && Play(su, y, [ServerMove]).Some?;
    } else {
      forall run, y, more | Reaches(su, run, y) && y.life == S.Disconnected && Play(su, y, more).Some?
        ensures Play(su, y, more).value.life == S.Disconnected
      {
        ReachableInv(su, run, y);
        DisconnectedStays(su, y, more);
      }
    }
  }
}
