/**
 What the server accepts, for every byte string a client can send.

 `Opening` spells out the one shape of input that gets a client registered, bound or
 upgraded; the two main results say that the server accepts every opening and nothing else.
 */
module Negotiation {
  import opened Wire
  import opened ServerMachine

  // ---------- method selection ----------

  /** `m` is at `i`, and is the first method of the list that the server can act on. */
  ghost predicate FirstUsable(c: Config, methods: bytes, m: byte, i: nat) {
    i < |methods| && methods[i] == m && Acceptable(c, m) && forall j :: 0 <= j < i ==> !Acceptable(c, methods[j])
  }

  lemma FirstOfTail(c: Config, methods: bytes, m: byte, i: nat)
    requires methods != [] && !Acceptable(c, methods[0])
    ensures FirstUsable(c, methods[1..], m, i) <==> FirstUsable(c, methods, m, i + 1)
  {
    assert forall j :: 0 <= j < |methods| - 1 ==> methods[1..][j] == methods[j + 1];
    if FirstUsable(c, methods, m, i + 1) {
      forall j | 0 <= j < i
        ensures !Acceptable(c, methods[1..][j])
      {
        assert methods[1..][j] == methods[j + 1];
      }
    }
  }

  lemma {:induction false} FirstIsSelected(c: Config, methods: bytes, m: byte, i: nat)
    requires FirstUsable(c, methods, m, i)
    ensures Select(c, methods) == Some(m)
  {
    if i > 0 {
      assert !Acceptable(c, methods[0]);
      FirstOfTail(c, methods, m, i - 1);
      FirstIsSelected(c, methods[1..], m, i - 1);
    }
  }

  lemma {:induction false} SelectedIsFirst(c: Config, methods: bytes, m: byte) returns (i: nat)
    requires Select(c, methods) == Some(m)
    ensures FirstUsable(c, methods, m, i)
  {
    if Acceptable(c, methods[0]) {
      i := 0;
    } else {
      i := SelectedIsFirst(c, methods[1..], m);
      FirstOfTail(c, methods, m, i);
      i := i + 1;
    }
  }

  /** The server acts on the first method of the list that it can act on, in client order. */
  lemma SelectFirst(c: Config, methods: bytes, m: byte)
    ensures Select(c, methods) == Some(m) <==> exists i: nat :: FirstUsable(c, methods, m, i)
  {
    if Select(c, methods) == Some(m) {
      var i := SelectedIsFirst(c, methods, m);
    }
    if i: nat :| FirstUsable(c, methods, m, i) {
      FirstIsSelected(c, methods, m, i);
    }
  }

  lemma {:induction false} SelectNone(c: Config, methods: bytes)
    ensures Select(c, methods) == None <==> forall m :: m in methods ==> !Acceptable(c, m)
  {
    if methods != [] {
      SelectNone(c, methods[1..]);
      assert forall m :: m in methods <==> m == methods[0] || m in methods[1..];
    }
  }

  // ---------- the accepted language ----------

  datatype Login = Login(methods: bytes, user: bytes, pass: bytes)

  predicate Encodable(l: Login) {
    |l.methods| < 256 && 1 <= |l.user| < 256 && 1 <= |l.pass| < 256
  }

  function Greeting(methods: bytes): bytes
    requires |methods| < 256
  {
    [VERSION_V1, |methods|] + methods
  }

  /** A user name and a password, each behind its length. */
  function Credentials(user: bytes, pass: bytes): bytes
    requires |user| < 256 && |pass| < 256
  {
    [|user|] + user + [|pass|] + pass
  }

  function LoginBytes(c: Config, l: Login): bytes
    requires Encodable(l)
  {
    Greeting(l.methods)
    + if Select(c, l.methods) == Some(USER_PASS_AUTH) then Framed(Credentials(l.user, l.pass)) else []
  }

  predicate Authenticates(c: Config, l: Login) {
    match Select(c, l.methods)
    case None => false
    case Some(m) => m == NO_AUTH || c.valid(l.user, l.pass)
  }

  /** The replies a client that authenticates sees. */
  function LoginReplies(c: Config, l: Login): bytes
    requires Authenticates(c, l)
  {
    if Select(c, l.methods) == Some(NO_AUTH) then Reply(NO_AUTH) else Reply(USER_PASS_AUTH) + Reply(RES_SUCCESS)
  }

  predicate IdCommand(cmd: byte) {
    cmd == CMD_REGISTER || cmd == CMD_BIND
  }

  // ---------- every opening is accepted ----------

  /** A step on exactly the bytes it waits for. */
  lemma StepOn(c: Config, st: State, b: bytes, rest: bytes)
    requires !Stops(st) && |b| == Need(st)
    ensures var (st', out) := Feed(c, st, b); Follows(c, st, b + rest, out, st', rest)
  {
    assert (b + rest)[..|b|] == b && (b + rest)[|b|..] == rest;
    FollowsStep(c, st, b + rest);
  }

  /** Two runs of which the first writes nothing. */
  lemma SilentThen(c: Config, st: State, input: bytes, st': State, input': bytes, w: bytes, st'': State, input'': bytes)
    requires Follows(c, st, input, [], st', input') && Follows(c, st', input', w, st'', input'')
    ensures Follows(c, st, input, w, st'', input'')
  {
    FollowsThen(c, st, input, [], st', input', w, st'', input'');
    assert [] + w == w;
  }

  lemma GreetingRuns(c: Config, methods: bytes, rest: bytes)
    requires |methods| < 256
    ensures var (st, out) := Feed(c, Methods(|methods|), methods);
            Follows(c, Hello, Greeting(methods) + rest, out, st, rest)
  {
    var b0: bytes := [VERSION_V1, |methods|];
    assert Greeting(methods) + rest == b0 + (methods + rest);
    StepOn(c, Hello, b0, methods + rest);
    StepOn(c, Methods(|methods|), methods, rest);
    var (st, out) := Feed(c, Methods(|methods|), methods);
    SilentThen(c, Hello, b0 + (methods + rest), Methods(|methods|), methods + rest, out, st, rest);
  }

  lemma CredentialBytes(b0: bytes, user: bytes, b2: bytes, pass: bytes, rest: bytes)
    requires |user| < 256 && |pass| < 256
    requires |b0| == 2 && b0[0] == VERSION_V1 && b0[1] == |user| && |b2| == 1 && b2[0] == |pass|
    ensures b0 + (user + (b2 + (pass + rest))) == Framed(Credentials(user, pass)) + rest
  {
    assert b0 == [VERSION_V1] + [b0[1]] && b2 == [b2[0]];
  }

  /**
   The credentials of a user are checked as sent: valid ones reach the command, invalid ones
   end the handshake, and either way nothing that follows them is read.
   */
  lemma CredentialsRun(c: Config, user: bytes, pass: bytes, rest: bytes)
    requires 1 <= |user| < 256 && 1 <= |pass| < 256
    ensures var (st, out) := Feed(c, Pass(user, |pass|), pass);
            Follows(c, UserLen, Framed(Credentials(user, pass)) + rest, out, st, rest)
  {
    var b0: bytes, b2: bytes := [VERSION_V1, |user|], [|pass|];
    var i2 := b2 + (pass + rest);
    CredentialBytes(b0, user, b2, pass, rest);
    StepOn(c, UserLen, b0, user + i2);
    StepOn(c, User(|user|), user, i2);
    SilentThen(c, UserLen, b0 + (user + i2), User(|user|), user + i2, [], PassLen(user), i2);
    PasswordRuns(c, user, pass, rest);
    var (st, out) := Feed(c, Pass(user, |pass|), pass);
    SilentThen(c, UserLen, b0 + (user + i2), PassLen(user), i2, out, st, rest);
  }

  lemma PasswordRuns(c: Config, user: bytes, pass: bytes, rest: bytes)
    requires 1 <= |pass| < 256
    ensures var (st, out) := Feed(c, Pass(user, |pass|), pass);
            Follows(c, PassLen(user), [|pass|] + (pass + rest), out, st, rest)
  {
    StepOn(c, PassLen(user), [|pass|], pass + rest);
    StepOn(c, Pass(user, |pass|), pass, rest);
    var (st, out) := Feed(c, Pass(user, |pass|), pass);
    SilentThen(c, PassLen(user), [|pass|] + (pass + rest), Pass(user, |pass|), pass + rest, out, st, rest);
  }

  lemma CommandRuns(c: Config, cmd: byte, id: Uuid, rest: bytes)
    requires IdCommand(cmd)
    ensures Follows(c, Command, Framed([cmd] + id) + rest, Reply(RES_SUCCESS), Done(cmd, id), rest)
  {
    var b0: bytes := [VERSION_V1, cmd];
    var i1 := id + rest;
    assert Framed([cmd] + id) + rest == b0 + i1;
    StepOn(c, Command, b0, i1);
    StepOn(c, Lock(cmd), [], i1);
    assert [] + i1 == i1;
    StepOn(c, Body(cmd), id, rest);
    SilentThen(c, Command, b0 + i1, Lock(cmd), i1, [], Body(cmd), i1);
    SilentThen(c, Command, b0 + i1, Body(cmd), i1, Reply(RES_SUCCESS), Done(cmd, id), rest);
  }

  /** An authenticated client is past the login with nothing beyond it read. */
  lemma LoginRuns(c: Config, l: Login, rest: bytes)
    requires Encodable(l) && Authenticates(c, l)
    ensures Follows(c, Hello, LoginBytes(c, l) + rest, LoginReplies(c, l), Command, rest)
  {
    if Select(c, l.methods) == Some(NO_AUTH) {
      assert LoginBytes(c, l) == Greeting(l.methods);
      GreetingRuns(c, l.methods, rest);
    } else {
      var tail := Framed(Credentials(l.user, l.pass)) + rest;
      assert LoginBytes(c, l) + rest == Greeting(l.methods) + tail;
      GreetingRuns(c, l.methods, tail);
      CredentialsRun(c, l.user, l.pass, rest);
      FollowsThen(c, Hello, LoginBytes(c, l) + rest, Reply(USER_PASS_AUTH), UserLen, tail,
                  Reply(RES_SUCCESS), Command, rest);
    }
  }

  /** Every opening is accepted: the command and the identifier are the ones sent. */
  lemma OpeningAccepted(c: Config, l: Login, cmd: byte, id: Uuid, rest: bytes)
    requires Encodable(l) && Authenticates(c, l) && IdCommand(cmd)
    ensures Exec(c, Hello, LoginBytes(c, l) + Framed([cmd] + id) + rest)
         == Trace(Done(cmd, id), rest, LoginReplies(c, l) + Reply(RES_SUCCESS))
  {
    var tail := Framed([cmd] + id) + rest;
    assert LoginBytes(c, l) + Framed([cmd] + id) + rest == LoginBytes(c, l) + tail;
    LoginRuns(c, l, tail);
    CommandRuns(c, cmd, id, rest);
    FollowsThen(c, Hello, LoginBytes(c, l) + tail, LoginReplies(c, l), Command, tail,
                Reply(RES_SUCCESS), Done(cmd, id), rest);
    assert LoginReplies(c, l) + Reply(RES_SUCCESS) + [] == LoginReplies(c, l) + Reply(RES_SUCCESS);
  }

  lemma MuxAnswerRuns(c: Config, rest: bytes)
    ensures Follows(c, MuxAnswer, rest, Reply(CMD_MUX_READY) + c.mux, Session, rest)
  {
    assert [] + rest == rest;
    StepOn(c, MuxAnswer, [], rest);
    StepOn(c, MuxAnswerConfig, [], rest);
    FollowsThen(c, MuxAnswer, rest, Reply(CMD_MUX_READY), MuxAnswerConfig, rest, c.mux, Session, rest);
  }

  lemma MuxRuns(c: Config, cfg: MuxConfig, rest: bytes)
    ensures Follows(c, Command, Framed([CMD_MUX_INIT] + cfg) + rest, Reply(CMD_MUX_READY) + c.mux, Session, rest)
  {
    var b0: bytes := [VERSION_V1, CMD_MUX_INIT];
    var i0, i1 := Framed([CMD_MUX_INIT] + cfg) + rest, cfg + rest;
    assert i0 == b0 + i1;
    StepOn(c, Command, b0, i1);
    StepOn(c, MuxBody, cfg, rest);
    SilentThen(c, Command, i0, MuxBody, i1, [], MuxAnswer, rest);
    MuxAnswerRuns(c, rest);
    SilentThen(c, Command, i0, MuxAnswer, rest, Reply(CMD_MUX_READY) + c.mux, Session, rest);
  }

  /** An authenticated client that asks for a mux session gets one, with the server's own configuration. */
  lemma MuxOpeningAccepted(c: Config, l: Login, cfg: MuxConfig, rest: bytes)
    requires Encodable(l) && Authenticates(c, l)
    ensures Exec(c, Hello, LoginBytes(c, l) + Framed([CMD_MUX_INIT] + cfg) + rest)
         == Trace(Session, rest, LoginReplies(c, l) + (Reply(CMD_MUX_READY) + c.mux))
  {
    var tail := Framed([CMD_MUX_INIT] + cfg) + rest;
    var w := Reply(CMD_MUX_READY) + c.mux;
    assert LoginBytes(c, l) + Framed([CMD_MUX_INIT] + cfg) + rest == LoginBytes(c, l) + tail;
    LoginRuns(c, l, tail);
    MuxRuns(c, cfg, rest);
    FollowsThen(c, Hello, LoginBytes(c, l) + tail, LoginReplies(c, l), Command, tail, w, Session, rest);
    assert LoginReplies(c, l) + w + [] == LoginReplies(c, l) + w;
  }

  lemma CommitRuns(c: Config, id: Uuid, rest: bytes)
    ensures Follows(c, Commit(id), rest, Reply(RES_SUCCESS), Done(CMD_REGISTER, id), rest)
  {
    assert [] + rest == rest;
    StepOn(c, Commit(id), [], rest);
    StepOn(c, ControlAck(id), [], rest);
    SilentThen(c, Commit(id), rest, ControlAck(id), rest, Reply(RES_SUCCESS), Done(CMD_REGISTER, id), rest);
  }

  lemma ControlRuns(c: Config, id: Uuid, rest: bytes)
    ensures Follows(c, Control, Framed([CMD_REGISTER] + id) + rest, Reply(RES_SUCCESS), Done(CMD_REGISTER, id), rest)
  {
    var b0: bytes := [VERSION_V1, CMD_REGISTER];
    var i0, i1 := Framed([CMD_REGISTER] + id) + rest, id + rest;
    assert i0 == b0 + i1;
    StepOn(c, Control, b0, i1);
    StepOn(c, ControlId, id, rest);
    SilentThen(c, Control, i0, ControlId, i1, [], Commit(id), rest);
    CommitRuns(c, id, rest);
    SilentThen(c, Control, i0, Commit(id), rest, Reply(RES_SUCCESS), Done(CMD_REGISTER, id), rest);
  }

  // ---------- nothing else is accepted ----------

  predicate Accepting(st: State) {
    st.Done? || st.Session?
  }

  /** An accepting run found in its input what its first state needed, and went on from there. */
  lemma AcceptingStep(c: Config, st: State, input: bytes) returns (b: bytes, rest: bytes)
    requires !Stops(st) && Accepting(Exec(c, st, input).st)
    ensures |b| == Need(st) && input == b + rest
    ensures Leads(c, st, input, Feed(c, st, b).0, rest)
  {
    b, rest := input[..Need(st)], input[Need(st)..];
  }

  /** Both runs end accepting, in the same state with the same bytes unread. */
  ghost predicate Leads(c: Config, st: State, input: bytes, st': State, rest: bytes) {
    var t, t' := Exec(c, st, input), Exec(c, st', rest);
    Accepting(t'.st) && t.st == t'.st && t.rest == t'.rest
  }

  lemma FailedLeadsNowhere(c: Config, st: State, input: bytes, why: Failure, rest: bytes)
    ensures !Leads(c, st, input, Failed(why), rest)
  {
  }

  lemma Associate(x: bytes, y: bytes, z: bytes, w: bytes)
    ensures x + (y + (z + w)) == (x + y) + z + w
    ensures x + (z + w) == (x + []) + z + w
  {
    assert x + [] == x;
  }

  lemma CommandBytes(b: bytes, cmd: byte, body: bytes, rest: bytes)
    requires |b| == 2 && b[0] == VERSION_V1 && b[1] == cmd
    ensures b + (body + rest) == Framed([cmd] + body) + rest
  {
    assert b == [VERSION_V1] + [cmd];
  }

  lemma IdAcceptsOnly(c: Config, cmd: byte, input: bytes) returns (id: bytes, rest: bytes)
    requires Accepting(Exec(c, Lock(cmd), input).st)
    ensures IdCommand(cmd) && |id| == 16 && input == id + rest
    ensures Leads(c, Lock(cmd), input, Done(cmd, id), rest)
  {
    var b, i1 := AcceptingStep(c, Lock(cmd), input);
    if !IdCommand(cmd) {
      FailedLeadsNowhere(c, Lock(cmd), input, UnsupportedCommand, i1);
    }
    assert input == i1;
    id, rest := BodyAcceptsOnly(c, cmd, i1);
  }

  lemma BodyAcceptsOnly(c: Config, cmd: byte, input: bytes) returns (id: bytes, rest: bytes)
    requires Accepting(Exec(c, Body(cmd), input).st)
    ensures |id| == 16 && input == id + rest && Leads(c, Body(cmd), input, Done(cmd, id), rest)
  {
    id, rest := AcceptingStep(c, Body(cmd), input);
  }

  lemma MuxAcceptsOnly(c: Config, input: bytes) returns (cfg: bytes, rest: bytes)
    requires Accepting(Exec(c, MuxBody, input).st)
    ensures |cfg| == 12 && input == cfg + rest
    ensures Leads(c, MuxBody, input, Session, rest)
  {
    var i1, i2, b;
    cfg, i1 := AcceptingStep(c, MuxBody, input);
    b, i2 := AcceptingStep(c, MuxAnswer, i1);
    b, rest := AcceptingStep(c, MuxAnswerConfig, i2);
  }

  lemma CommandAcceptsOnly(c: Config, input: bytes) returns (cmd: byte, body: bytes, rest: bytes)
    requires Accepting(Exec(c, Command, input).st)
    ensures input == Framed([cmd] + body) + rest
    ensures if cmd == CMD_MUX_INIT then |body| == 12 && Leads(c, Command, input, Session, rest)
            else IdCommand(cmd) && |body| == 16 && Leads(c, Command, input, Done(cmd, body), rest)
  {
    var b, i1 := AcceptingStep(c, Command, input);
    if b[0] != VERSION_V1 {
      FailedLeadsNowhere(c, Command, input, BadVersion, i1);
    }
    cmd := b[1];
    if cmd == CMD_MUX_INIT {
      body, rest := MuxAcceptsOnly(c, i1);
    } else {
      body, rest := IdAcceptsOnly(c, cmd, i1);
    }
    CommandBytes(b, cmd, body, rest);
  }

  lemma CredentialsAcceptOnly(c: Config, input: bytes) returns (user: bytes, pass: bytes, rest: bytes)
    requires Accepting(Exec(c, UserLen, input).st)
    ensures 1 <= |user| < 256 && 1 <= |pass| < 256 && c.valid(user, pass)
    ensures input == Framed(Credentials(user, pass)) + rest
    ensures Leads(c, UserLen, input, Command, rest)
  {
    var b0, i1 := AcceptingStep(c, UserLen, input);
    if b0[0] != VERSION_V1 {
      FailedLeadsNowhere(c, UserLen, input, BadVersion, i1);
    }
    if b0[1] == 0 {
      FailedLeadsNowhere(c, UserLen, input, EmptyUsername, i1);
    }
    var i2;
    user, i2 := AcceptingStep(c, User(b0[1]), i1);
    var b2, i3 := AcceptingStep(c, PassLen(user), i2);
    if b2[0] == 0 {
      FailedLeadsNowhere(c, PassLen(user), i2, EmptyPassword, i3);
    }
    pass, rest := PasswordAcceptsOnly(c, user, b2[0], i3);
    CredentialBytes(b0, user, b2, pass, rest);
  }

  lemma PasswordAcceptsOnly(c: Config, user: bytes, plen: byte, input: bytes) returns (pass: bytes, rest: bytes)
    requires Accepting(Exec(c, Pass(user, plen), input).st)
    ensures |pass| == plen && c.valid(user, pass) && input == pass + rest
    ensures Leads(c, Pass(user, plen), input, Command, rest)
  {
    pass, rest := AcceptingStep(c, Pass(user, plen), input);
    if !c.valid(user, pass) {
      FailedLeadsNowhere(c, Pass(user, plen), input, BadCredentials, rest);
    }
  }

  lemma MethodsAcceptOnly(c: Config, n: byte, input: bytes) returns (methods: bytes, rest: bytes)
    requires Accepting(Exec(c, Methods(n), input).st)
    ensures |methods| == n && Select(c, methods).Some? && input == methods + rest
    ensures Leads(c, Methods(n), input, if Select(c, methods) == Some(NO_AUTH) then Command else UserLen, rest)
  {
    methods, rest := AcceptingStep(c, Methods(n), input);
    if Select(c, methods) == None {
      FailedLeadsNowhere(c, Methods(n), input, NoAcceptableMethod, rest);
    }
  }

  lemma GreetingBytes(b: bytes, methods: bytes, rest: bytes)
    requires |b| == 2 && b[0] == VERSION_V1 && b[1] == |methods|
    ensures b + (methods + rest) == Greeting(methods) + rest
  {
    assert b == [VERSION_V1, |methods|];
  }

  lemma GreetingAcceptsOnly(c: Config, input: bytes) returns (methods: bytes, rest: bytes)
    requires Accepting(Exec(c, Hello, input).st)
    ensures |methods| < 256 && Select(c, methods).Some?
    ensures input == Greeting(methods) + rest
    ensures Leads(c, Hello, input, if Select(c, methods) == Some(NO_AUTH) then Command else UserLen, rest)
  {
    var b, i1 := AcceptingStep(c, Hello, input);
    if b[0] != VERSION_V1 {
      FailedLeadsNowhere(c, Hello, input, BadVersion, i1);
    }
    methods, rest := MethodsAcceptOnly(c, b[1], i1);
    GreetingBytes(b, methods, rest);
  }

  /**
   Only openings are accepted: whatever bytes arrived, a client that is registered, bound or
   upgraded sent a method list whose first usable method is the one it then satisfied, and a
   command with exactly the identifier the server stored; everything after it is unread.
   */
  lemma OnlyOpeningsAccepted(c: Config, input: bytes) returns (l: Login, cmd: byte, body: bytes, rest: bytes)
    requires Accepting(Exec(c, Hello, input).st)
    ensures Encodable(l) && Authenticates(c, l)
    ensures input == LoginBytes(c, l) + Framed([cmd] + body) + rest
    ensures if cmd == CMD_MUX_INIT then |body| == 12 && Leads(c, Hello, input, Session, rest)
            else IdCommand(cmd) && |body| == 16 && Leads(c, Hello, input, Done(cmd, body), rest)
  {
    var methods, i1 := GreetingAcceptsOnly(c, input);
    if Select(c, methods) == Some(NO_AUTH) {
      l := Login(methods, [0], [0]);
      cmd, body, rest := CommandAcceptsOnly(c, i1);
      Associate(Greeting(methods), [], Framed([cmd] + body), rest);
    } else {
      var user, pass, i2 := CredentialsAcceptOnly(c, i1);
      l := Login(methods, user, pass);
      cmd, body, rest := CommandAcceptsOnly(c, i2);
      Associate(Greeting(methods), Framed(Credentials(user, pass)), Framed([cmd] + body), rest);
    }
  }

  lemma ControlIdAcceptsOnly(c: Config, input: bytes) returns (id: bytes, rest: bytes)
    requires Accepting(Exec(c, ControlId, input).st)
    ensures |id| == 16 && input == id + rest
  {
    id, rest := AcceptingStep(c, ControlId, input);
  }

  lemma ControlAcceptsOnly(c: Config, input: bytes) returns (id: bytes, rest: bytes)
    requires Accepting(Exec(c, Control, input).st)
    ensures |id| == 16 && input == Framed([CMD_REGISTER] + id) + rest
  {
    var b, i1 := AcceptingStep(c, Control, input);
    if b[0] != VERSION_V1 {
      FailedLeadsNowhere(c, Control, input, BadVersion, i1);
    }
    if b[1] != CMD_REGISTER {
      FailedLeadsNowhere(c, Control, input, UnsupportedCommand, i1);
    }
    id, rest := ControlIdAcceptsOnly(c, i1);
    CommandBytes(b, CMD_REGISTER, id, rest);
  }

  /** The control stream registers an identifier exactly when it begins with the request to. */
  lemma ControlAcceptedIff(c: Config, input: bytes, id: Uuid)
    ensures Exec(c, Control, input).st == Done(CMD_REGISTER, id) <==> Framed([CMD_REGISTER] + id) <= input
  {
    var request := Framed([CMD_REGISTER] + id);
    if request <= input {
      assert input == request + input[|request|..];
      ControlRuns(c, id, input[|request|..]);
    } else if Exec(c, Control, input).st == Done(CMD_REGISTER, id) {
      var got, rest := ControlAcceptsOnly(c, input);
      ControlRuns(c, got, rest);
    }
  }
}
