/**
 What a client succeeds on, for every byte string a server can send: exactly one sequence of
 replies, behind which nothing is read, and to which it writes exactly one sequence of requests.
 */
module ClientReplies {
  import opened Wire
  import opened ClientMachine

  predicate KnownMode(c: Config) {
    c.mode == NO_AUTH || c.mode == USER_PASS_AUTH
  }

  function LoginReplies(c: Config): bytes {
    if c.mode == NO_AUTH then Reply(NO_AUTH) else Reply(USER_PASS_AUTH) + Reply(RES_SUCCESS)
  }

  function LoginRequests(c: Config): bytes {
    Framed([1, c.mode]) + if c.mode == NO_AUTH then [] else Framed(c.token)
  }

  /**
   From `st` the machine gets to `target` exactly on inputs that start with `replies` and hold
   `extra` more bytes; it then leaves the rest unread and has written `writes`.
   */
  ghost predicate Wins(c: Config, st: State, input: bytes, target: State, replies: bytes, extra: nat, writes: bytes) {
    var t := Exec(c, st, input);
    && (t.st == target <==> replies <= input && |replies| + extra <= |input|)
    && (t.st == target ==> t.rest == input[|replies| + extra..] && t.out == writes)
  }

  /** A state that waits for one particular reply and fails on every other. */
  ghost predicate WaitsFor(c: Config, st: State, code: byte, st': State, w: bytes) {
    && !Stops(st) && Need(st) == 2 && Feed(c, st, Reply(code)) == (st', w)
    && forall b: bytes :: |b| == 2 && b != Reply(code) ==> Feed(c, st, b).0.Failed?
  }

  lemma WinsReply(c: Config, st: State, code: byte, st': State, w: bytes, input: bytes,
                  target: State, replies: bytes, extra: nat, writes: bytes)
    requires WaitsFor(c, st, code, st', w) && !target.Failed?
    requires |input| >= 2 ==> Wins(c, st', input[2..], target, replies, extra, writes)
    ensures Wins(c, st, input, target, Reply(code) + replies, extra, w + writes)
  {
    if |input| >= 2 {
      assert input == input[..2] + input[2..];
      if input[..2] == Reply(code) {
        assert replies <= input[2..] <==> Reply(code) + replies <= input;
      } else {
        assert !(Reply(code) + replies <= input) by {
          assert (Reply(code) + replies)[..2] == Reply(code);
        }
      }
    }
  }

  /** A state that writes without waiting. */
  lemma WinsWrite(c: Config, st: State, st': State, w: bytes, input: bytes,
                  target: State, replies: bytes, extra: nat, writes: bytes)
    requires !Stops(st) && Need(st) == 0 && Feed(c, st, []) == (st', w)
    requires Wins(c, st', input, target, replies, extra, writes)
    ensures Wins(c, st, input, target, replies, extra, w + writes)
  {
    assert input[..0] == [] && input[0..] == input;
  }

  lemma WinsDone(c: Config, input: bytes)
    ensures Wins(c, Done, input, Done, [], 0, [])
  {
  }

  lemma Waiting(c: Config)
    requires KnownMode(c)
    ensures c.mode == NO_AUTH ==> WaitsFor(c, Method, NO_AUTH, Ready, [])
    ensures c.mode == USER_PASS_AUTH ==> WaitsFor(c, Method, USER_PASS_AUTH, Auth, Framed(c.token))
    ensures WaitsFor(c, Auth, RES_SUCCESS, Ready, [])
    ensures WaitsFor(c, Answer, RES_SUCCESS, Done, [])
    ensures WaitsFor(c, MuxReady, CMD_MUX_READY, MuxBody, [])
    ensures WaitsFor(c, Control, RES_SUCCESS, Done, [])
  {
    TwoBytes(NO_AUTH);
    TwoBytes(USER_PASS_AUTH);
    TwoBytes(RES_SUCCESS);
    TwoBytes(CMD_MUX_READY);
  }

  lemma TwoBytes(code: byte)
    ensures forall b: bytes :: |b| == 2 && b[0] == VERSION_V1 && b[1] == code ==> b == Reply(code)
  {
  }

  lemma {:induction false} AnswerWins(c: Config, input: bytes)
    requires KnownMode(c) && c.goal != RegisterV2
    ensures Wins(c, Ready, input, Done, Reply(RES_SUCCESS), 0, Framed([GoalCommand(c.goal)] + c.id))
  {
    Waiting(c);
    if |input| >= 2 {
      WinsDone(c, input[2..]);
    }
    WinsReply(c, Answer, RES_SUCCESS, Done, [], input, Done, [], 0, []);
    assert Reply(RES_SUCCESS) + [] == Reply(RES_SUCCESS);
    var w := Framed([GoalCommand(c.goal)] + c.id);
    assert w + ([] + []) == w;
    WinsWrite(c, Ready, Answer, w, input, Done, Reply(RES_SUCCESS), 0, [] + []);
  }

  lemma {:induction false} MuxWins(c: Config, input: bytes)
    requires KnownMode(c) && c.goal == RegisterV2
    ensures Wins(c, Ready, input, Session, Reply(CMD_MUX_READY), 12, Framed([CMD_MUX_INIT] + c.mux))
  {
    Waiting(c);
    if |input| >= 2 {
      assert Wins(c, MuxBody, input[2..], Session, [], 12, []);
    }
    WinsReply(c, MuxReady, CMD_MUX_READY, MuxBody, [], input, Session, [], 12, []);
    assert Reply(CMD_MUX_READY) + [] == Reply(CMD_MUX_READY);
    var w := Framed([CMD_MUX_INIT] + c.mux);
    assert w + ([] + []) == w;
    WinsWrite(c, Ready, MuxReady, w, input, Session, Reply(CMD_MUX_READY), 12, [] + []);
  }

  lemma {:induction false} OpenLoginWins(c: Config, input: bytes, target: State,
                                          replies: bytes, extra: nat, writes: bytes)
    requires c.mode == NO_AUTH && !target.Failed?
    requires forall rest :: Wins(c, Ready, rest, target, replies, extra, writes)
    ensures Wins(c, Begin, input, target, LoginReplies(c) + replies, extra, LoginRequests(c) + writes)
  {
    Waiting(c);
    var hello := Framed([1, c.mode]);
    WinsReply(c, Method, NO_AUTH, Ready, [], input, target, replies, extra, writes);
    WinsWrite(c, Begin, Method, hello, input, target, Reply(NO_AUTH) + replies, extra, [] + writes);
    assert hello + ([] + writes) == LoginRequests(c) + writes;
  }

  lemma {:induction false} TokenLoginWins(c: Config, input: bytes, target: State,
                                          replies: bytes, extra: nat, writes: bytes)
    requires c.mode == USER_PASS_AUTH && !target.Failed?
    requires forall rest :: Wins(c, Ready, rest, target, replies, extra, writes)
    ensures Wins(c, Begin, input, target, LoginReplies(c) + replies, extra, LoginRequests(c) + writes)
  {
    Waiting(c);
    var hello, rest, r := Framed([1, c.mode]), if |input| >= 2 then input[2..] else [], Reply(RES_SUCCESS) + replies;
    WinsReply(c, Auth, RES_SUCCESS, Ready, [], rest, target, replies, extra, writes);
    var w := Framed(c.token) + ([] + writes);
    WinsReply(c, Method, USER_PASS_AUTH, Auth, Framed(c.token), input, target, r, extra, [] + writes);
    WinsWrite(c, Begin, Method, hello, input, target, Reply(USER_PASS_AUTH) + r, extra, w);
    assert Reply(USER_PASS_AUTH) + r == LoginReplies(c) + replies;
    assert hello + w == LoginRequests(c) + writes;
  }

  /** The login in front of what wins from there. */
  lemma {:induction false} LoginWins(c: Config, input: bytes, target: State, replies: bytes, extra: nat, writes: bytes)
    requires KnownMode(c) && !target.Failed?
    requires forall rest :: Wins(c, Ready, rest, target, replies, extra, writes)
    ensures Wins(c, Begin, input, target, LoginReplies(c) + replies, extra, LoginRequests(c) + writes)
  {
    if c.mode == NO_AUTH {
      OpenLoginWins(c, input, target, replies, extra, writes);
    } else {
      TokenLoginWins(c, input, target, replies, extra, writes);
    }
  }

  /** A V1 client succeeds exactly when its login and its command are answered with success. */
  lemma {:induction false} V1Succeeds(c: Config, input: bytes)
    requires KnownMode(c) && c.goal != RegisterV2
    ensures Wins(c, Begin, input, Done, LoginReplies(c) + Reply(RES_SUCCESS), 0,
                 LoginRequests(c) + Framed([GoalCommand(c.goal)] + c.id))
  {
    forall rest
      ensures Wins(c, Ready, rest, Done, Reply(RES_SUCCESS), 0, Framed([GoalCommand(c.goal)] + c.id))
    {
      AnswerWins(c, rest);
    }
    LoginWins(c, input, Done, Reply(RES_SUCCESS), 0, Framed([GoalCommand(c.goal)] + c.id));
  }

  /** A V2 client starts its session exactly when its login and its mux request are answered and twelve bytes follow. */
  lemma {:induction false} V2Upgrades(c: Config, input: bytes)
    requires KnownMode(c) && c.goal == RegisterV2
    ensures Wins(c, Begin, input, Session, LoginReplies(c) + Reply(CMD_MUX_READY), 12,
                 LoginRequests(c) + Framed([CMD_MUX_INIT] + c.mux))
  {
    forall rest
      ensures Wins(c, Ready, rest, Session, Reply(CMD_MUX_READY), 12, Framed([CMD_MUX_INIT] + c.mux))
    {
      MuxWins(c, rest);
    }
    LoginWins(c, input, Session, Reply(CMD_MUX_READY), 12, Framed([CMD_MUX_INIT] + c.mux));
  }

  /** On its control stream it is registered exactly when the first reply is success. */
  lemma {:induction false} V2Registers(c: Config, input: bytes)
    requires KnownMode(c)
    ensures Wins(c, ControlBegin, input, Done, Reply(RES_SUCCESS), 0, Framed([CMD_REGISTER] + c.id))
  {
    Waiting(c);
    if |input| >= 2 {
      WinsDone(c, input[2..]);
    }
    WinsReply(c, Control, RES_SUCCESS, Done, [], input, Done, [], 0, []);
    assert Reply(RES_SUCCESS) + [] == Reply(RES_SUCCESS);
    var w := Framed([CMD_REGISTER] + c.id);
    assert w + ([] + []) == w;
    WinsWrite(c, ControlBegin, Control, w, input, Done, Reply(RES_SUCCESS), 0, [] + []);
  }
}
