/**
 The control connection after registration: any number of goroutines send commands under the
 server's lock, the client's command loop reads them, hands them on and acknowledges them.

 The bytes in between are modelled; an I/O error on a connection is final.
 */
module CommandChannel {
  import opened Wire
  import opened Frames

  datatype Caller = Idle | Waiting(f: Frame) | InFlight(f: Frame)

  /** The command loop: between commands, with one in hand, with one to acknowledge, or ended. */
  datatype Loop = Reading | Holding(f: Frame) | Acking(f: Frame) | Stopped

  /**
   `lock` is the caller that holds the server's lock. The histories: `sent`, the frames written;
   `done`, those the client has dealt with; `oks`, those whose send has returned nil; `put`, the
   commands handed to the channel; `taken`, those received from it.
   */
  datatype System = System(
    callers: seq<Caller>, lock: Option<nat>, dead: bool,
    down: Pipe, up: Pipe, closed: bool,
    loop: Loop, cancelled: bool, queue: seq<Command>,
    sent: seq<Frame>, done: seq<Frame>, oks: seq<Frame>, put: seq<Command>, taken: seq<Command>)

  const CHANNEL_CAPACITY := 10

  function Init(callers: nat): System {
    System(seq(callers, i => Idle), None, false, EMPTY_PIPE, EMPTY_PIPE, false,
           Reading, false, [], [], [], [], [], [])
  }

  datatype Action =
    | Call(i: nat, f: Frame)
    | Send(i: nat)
    | Receive(i: nat)
    | Fail(i: nat)
    | Read
    | Put
    | Skip
    | Ack
    | Stop
    | Take
    | Cancel
    | Close

  ghost predicate PipesValid(y: System) {
    y.down.Valid() && y.up.Valid()
  }

  predicate Enabled(j: Json, a: Action, y: System)
    requires PipesValid(y)
  {
    match a
    case Call(i, f) => i < |y.callers| && y.callers[i].Idle? && Encodable(j, f) && Sendable(f)
    case Send(i) => i < |y.callers| && y.callers[i].Waiting? && y.lock == None && Encodable(j, y.callers[i].f)
    case Receive(i) => i < |y.callers| && y.callers[i].InFlight? && !y.dead && |y.up.Pending()| >= 2
    case Fail(i) => i < |y.callers| && y.callers[i].InFlight? && y.closed
    case Read => y.loop.Reading? && !y.closed && !Parse(j, y.down.Pending()).Incomplete?
    case Put => y.loop.Holding? && (y.loop.f.Ping? || |y.queue| < CHANNEL_CAPACITY)
    case Skip => y.loop.Holding? && !y.loop.f.Ping? && y.cancelled
    case Ack => y.loop.Acking? && !y.closed
    case Stop => (y.loop.Reading? && (y.closed || y.cancelled)) || (y.loop.Acking? && y.closed)
    case Take => y.queue != []
    case Cancel => true
    case Close => true
  }

  /** A send on a connection that has failed before fails at once and writes nothing. */
  function SendStep(j: Json, y: System, i: nat): System
    requires i < |y.callers| && y.callers[i].Waiting? && Encodable(j, y.callers[i].f)
  {
    var f := y.callers[i].f;
    if y.dead then y.(callers := y.callers[i := Idle])
    else
      y.(callers := y.callers[i := InFlight(f)], lock := Some(i),
         down := y.down.Push(Encode(j, f)), sent := y.sent + [f])
  }

  /** Takes the two bytes of a reply off the connection; any reply but success fails the send. */
  function ReceiveStep(y: System, i: nat): System
    requires PipesValid(y) && i < |y.callers| && y.callers[i].InFlight? && |y.up.Pending()| >= 2
  {
    var y' := y.(callers := y.callers[i := Idle], lock := None, up := y.up.Pull(2));
    if y.up.Pending()[..2] == Reply(RES_SUCCESS) then y'.(oks := y.oks + [y.callers[i].f]) else y'.(dead := true)
  }

  function ReadStep(j: Json, y: System): System
    requires PipesValid(y)
  {
    var b := y.down.Pending();
    match Parse(j, b)
    case Parsed(f, rest) => y.(loop := Holding(f), down := y.down.Pull(|b| - |rest|))
    case _ => y.(loop := Stopped)
  }

  function PutStep(y: System): System
    requires y.loop.Holding?
  {
    var f := y.loop.f;
    match Forwarded(f)
    case None => y.(loop := Acking(f), done := y.done + [f])
    case Some(cmd) => y.(loop := Acking(f), done := y.done + [f], queue := y.queue + [cmd], put := y.put + [cmd])
  }

  function Next(j: Json, a: Action, y: System): System
    requires PipesValid(y) && Enabled(j, a, y)
  {
    match a
    case Call(i, f) => y.(callers := y.callers[i := Waiting(f)])
    case Send(i) => SendStep(j, y, i)
    case Receive(i) => ReceiveStep(y, i)
    case Fail(i) => y.(callers := y.callers[i := Idle], lock := None, dead := true)
    case Read => ReadStep(j, y)
    case Put => PutStep(y)
    case Skip => y.(loop := Stopped)
    case Ack => y.(loop := Reading, up := y.up.Push(Reply(RES_SUCCESS)))
    case Stop => y.(loop := Stopped)
    case Take => y.(queue := y.queue[1..], taken := y.taken + [y.queue[0]])
    case Cancel => y.(cancelled := true)
    case Close => y.(closed := true)
  }

  // ---------- the invariant ----------

  /** One caller at most is in flight: the holder of the lock. */
  ghost predicate LockOk(y: System) {
    && (y.lock.Some? ==> y.lock.value < |y.callers| && y.callers[y.lock.value].InFlight?)
    && (forall i :: 0 <= i < |y.callers| && y.callers[i].InFlight? ==> y.lock == Some(i))
    && (y.dead ==> y.lock == None && y.closed)
  }

  /** The frames that can be on the connection: encodable ones, no event under a reserved name. */
  predicate Proper(j: Json, f: Frame) {
    Encodable(j, f) && Sendable(f)
  }

  ghost predicate FramesOk(j: Json, y: System) {
    && (forall i :: 0 <= i < |y.callers| && y.callers[i].Waiting? ==> Proper(j, y.callers[i].f))
    && (forall f :: f in y.sent ==> Proper(j, f))
  }

  /** The histories are prefixes of each other, and the channel carries what the frames say. */
  ghost predicate Ordered(y: System) {
    && y.oks <= y.done <= y.sent
    && |y.sent| <= |y.oks| + 1
    && y.put == ForwardedAll(y.done)
    && y.put == y.taken + y.queue
  }

  /** Between commands nothing is under way. */
  ghost predicate AtRest(y: System)
    requires PipesValid(y)
  {
    && y.oks == y.done == y.sent
    && y.down.Pending() == [] && y.up.Pending() == []
    && (y.loop.Reading? || y.loop.Stopped?)
  }

  /** With a command under way, it is in exactly one place. */
  ghost predicate UnderWay(j: Json, y: System, f: Frame)
    requires PipesValid(y)
  {
    && Encodable(j, f) && y.sent == y.oks + [f]
    && match y.loop
       case Reading =>
         if y.done == y.oks then y.down.Pending() == Encode(j, f) && y.up.Pending() == []
         else y.done == y.sent && y.down.Pending() == [] && y.up.Pending() == Reply(RES_SUCCESS)
       case Holding(g) => g == f && y.done == y.oks && y.down.Pending() == [] && y.up.Pending() == []
       case Acking(g) => g == f && y.done == y.sent && y.down.Pending() == [] && y.up.Pending() == []
       case Stopped =>
         if y.done == y.oks then y.up.Pending() == []
         else
           && y.done == y.sent && y.down.Pending() == []
           && (y.up.Pending() == [] || y.up.Pending() == Reply(RES_SUCCESS))
  }

  /** What the client may still do once the connection has failed under a send. */
  ghost predicate AfterDeath(y: System) {
    match y.loop
    case Holding(g) => y.done == y.oks && y.sent == y.oks + [g]
    case Acking(g) => y.done == y.sent
    case _ => true
  }

  /** The channel has ten places, and the loop ends only when it is made to. */
  predicate LoopOk(y: System) {
    |y.queue| <= CHANNEL_CAPACITY && (y.loop.Stopped? ==> y.closed || y.cancelled)
  }

  ghost predicate Inv(j: Json, y: System) {
    && PipesValid(y) && LockOk(y) && FramesOk(j, y) && Ordered(y) && LoopOk(y)
    && if y.dead then AfterDeath(y)
       else if y.lock == None then AtRest(y)
       else UnderWay(j, y, y.callers[y.lock.value].f)
  }

  // ---------- every step keeps it ----------

  lemma ForwardedOne(fs: seq<Frame>, f: Frame)
    ensures ForwardedAll(fs + [f]) == ForwardedAll(fs) + match Forwarded(f) case None => [] case Some(cmd) => [cmd]
  {
    assert (fs + [f])[..|fs|] == fs;
  }

  lemma SendKeeps(j: Json, y: System, i: nat)
    requires Inv(j, y) && Enabled(j, Send(i), y)
    ensures Inv(j, SendStep(j, y, i))
  {
    if !y.dead {
      var f := y.callers[i].f;
      PushPending(y.down, Encode(j, f));
      assert [] + Encode(j, f) == Encode(j, f);
    }
  }

  lemma ReceiveKeeps(j: Json, y: System, i: nat)
    requires Inv(j, y) && Enabled(j, Receive(i), y)
    ensures Inv(j, ReceiveStep(y, i))
    ensures !ReceiveStep(y, i).dead && ReceiveStep(y, i).oks == y.sent
  {
    PullPending(y.up, 2);
    assert y.up.Pending() == Reply(RES_SUCCESS);
    assert y.up.Pending()[..2] == Reply(RES_SUCCESS);
  }

  lemma ReadKeeps(j: Json, y: System)
    requires Invertible(j) && Inv(j, y) && Enabled(j, Read, y)
    ensures Inv(j, ReadStep(j, y))
  {
    if !y.dead {
      assert y.down.Pending() != [] by {
        assert Parse(j, []).Incomplete?;
      }
      var f := y.callers[y.lock.value].f;
      FrameRoundTrip(j, f, []);
      assert Encode(j, f) + [] == Encode(j, f);
      PullPending(y.down, |y.down.Pending()|);
    }
  }

  /** Dealing with a frame that hands nothing on: a ping. */
  lemma PutNothingKeeps(j: Json, y: System)
    requires Inv(j, y) && Enabled(j, Put, y) && Forwarded(y.loop.f) == None
    ensures Inv(j, PutStep(y))
  {
    ForwardedOne(y.done, y.loop.f);
    assert y.oks == y.done && y.sent == y.done + [y.loop.f];
  }

  lemma PutCommandKeeps(j: Json, y: System, cmd: Command)
    requires Inv(j, y) && Enabled(j, Put, y) && Forwarded(y.loop.f) == Some(cmd)
    ensures Inv(j, PutStep(y))
  {
    ForwardedOne(y.done, y.loop.f);
    assert y.oks == y.done && y.sent == y.done + [y.loop.f];
    assert y.taken + (y.queue + [cmd]) == (y.taken + y.queue) + [cmd];
  }

  lemma PutKeeps(j: Json, y: System)
    requires Inv(j, y) && Enabled(j, Put, y)
    ensures Inv(j, PutStep(y))
  {
    match Forwarded(y.loop.f)
    case None => PutNothingKeeps(j, y);
    case Some(cmd) => PutCommandKeeps(j, y, cmd);
  }

  lemma AckKeeps(j: Json, y: System)
    requires Inv(j, y) && Enabled(j, Ack, y)
    ensures Inv(j, Next(j, Ack, y))
  {
    PushPending(y.up, Reply(RES_SUCCESS));
    if !y.dead {
      assert y.up.Pending() == [];
      assert [] + Reply(RES_SUCCESS) == Reply(RES_SUCCESS);
    }
  }

  lemma CallKeeps(j: Json, y: System, i: nat, f: Frame)
    requires Inv(j, y) && Enabled(j, Call(i, f), y)
    ensures Inv(j, Next(j, Call(i, f), y))
  {
  }

  lemma FailKeeps(j: Json, y: System, i: nat)
    requires Inv(j, y) && Enabled(j, Fail(i), y)
    ensures Inv(j, Next(j, Fail(i), y))
  {
  }

  lemma TakeKeeps(j: Json, y: System)
    requires Inv(j, y) && Enabled(j, Take, y)
    ensures Inv(j, Next(j, Take, y))
  {
    assert y.queue == [y.queue[0]] + y.queue[1..];
  }

  lemma FlagsKeep(j: Json, a: Action, y: System)
    requires Inv(j, y) && Enabled(j, a, y) && (a.Skip? || a.Stop? || a.Cancel? || a.Close?)
    ensures Inv(j, Next(j, a, y))
  {
  }

  lemma StepKeeps(j: Json, a: Action, y: System)
    requires Invertible(j) && Inv(j, y) && Enabled(j, a, y)
    ensures Inv(j, Next(j, a, y))
  {
    match a
    case Send(i) => SendKeeps(j, y, i);
    case Receive(i) => ReceiveKeeps(j, y, i);
    case Read => ReadKeeps(j, y);
    case Put => PutKeeps(j, y);
    case Ack => AckKeeps(j, y);
    case Call(i, f) => CallKeeps(j, y, i, f);
    case Fail(i) => FailKeeps(j, y, i);
    case Take => TakeKeeps(j, y);
    case _ => FlagsKeep(j, a, y);
  }

  // ---------- every run ----------

  ghost function Play(j: Json, y: System, run: seq<Action>): Option<System>
    decreases |run|
  {
    if run == [] then Some(y)
    else if PipesValid(y) && Enabled(j, run[0], y) then Play(j, Next(j, run[0], y), run[1..])
    else None
  }

  lemma {:induction false} PlayKeepsInv(j: Json, y: System, run: seq<Action>)
    requires Invertible(j) && Inv(j, y) && Play(j, y, run).Some?
    ensures Inv(j, Play(j, y, run).value)
    decreases |run|
  {
    if run != [] {
      StepKeeps(j, run[0], y);
      PlayKeepsInv(j, Next(j, run[0], y), run[1..]);
    }
  }

  /**
   However many goroutines send and whenever the connection or the context goes: the commands
   put on the channel are, in order, those of a prefix of the frames sent, that prefix contains
   every send that returned nil, at most one command is ever unanswered, and what `Accept`
   takes off the channel comes in the same order.
   */
  lemma CommandsInOrder(j: Json, callers: nat, run: seq<Action>)
    requires Invertible(j) && Play(j, Init(callers), run).Some?
    ensures var y := Play(j, Init(callers), run).value;
            && y.oks <= y.done <= y.sent && y.put == ForwardedAll(y.done)
            && |y.sent| <= |y.oks| + 1
            && y.taken <= y.put
            && (forall i, k :: 0 <= i < k < |y.callers| ==> !(y.callers[i].InFlight? && y.callers[k].InFlight?))
  {
    PlayKeepsInv(j, Init(callers), run);
  }

  /** The reply a send takes in is the client's answer to that very command, and it is success. */
  lemma AckAnswersItsRequest(j: Json, callers: nat, run: seq<Action>, i: nat)
    requires Invertible(j) && Play(j, Init(callers), run).Some?
    requires var y := Play(j, Init(callers), run).value; PipesValid(y) && Enabled(j, Receive(i), y)
    ensures var y := Play(j, Init(callers), run).value;
            && y.sent == y.oks + [y.callers[i].f] && y.done == y.sent
            && Next(j, Receive(i), y).oks == y.sent && !Next(j, Receive(i), y).dead
  {
    PlayKeepsInv(j, Init(callers), run);
    ReceiveKeeps(j, Play(j, Init(callers), run).value, i);
  }

  /** Every command that `Accept` dispatches as a connection request is one that was sent as such. */
  lemma DispatchIsSound(j: Json, callers: nat, run: seq<Action>, cmd: Command)
    requires Invertible(j) && Play(j, Init(callers), run).Some?
    requires cmd in Play(j, Init(callers), run).value.taken && Type(cmd) == CONNECT_TYPE
    ensures cmd.ConnectCommand? && Connect(cmd.id) in Play(j, Init(callers), run).value.sent
  {
    PlayKeepsInv(j, Init(callers), run);
    var y := Play(j, Init(callers), run).value;
    assert y.done == y.sent[..|y.done|];
    forall f | f in y.done
      ensures f in y.sent && Sendable(f)
    {
      assert f in y.sent[..|y.done|];
      assert Proper(j, f);
    }
    DispatchedAsConnect(y.done, cmd);
  }

  /** The connection requests that `Accept` takes off the channel are a prefix of those sent, in order. */
  lemma DialsInOrder(j: Json, callers: nat, run: seq<Action>)
    requires Invertible(j) && Play(j, Init(callers), run).Some?
    ensures var y := Play(j, Init(callers), run).value; ConnectsIn(y.taken) <= ConnectsSent(y.sent)
  {
    PlayKeepsInv(j, Init(callers), run);
    var y := Play(j, Init(callers), run).value;
    ConnectsHandedOn(y.done);
    ConnectsSplit(y.taken, y.queue);
    ConnectsSentSplit(y.done, y.sent[|y.done|..]);
    assert y.sent == y.done + y.sent[|y.done|..];
  }

  // ---------- progress ----------

  /** Nothing goes on without a new call, a receiver on the channel, or somebody giving up. */
  ghost predicate Blocked(j: Json, y: System)
    requires PipesValid(y)
  {
    forall a :: Enabled(j, a, y) ==> a.Call? || a.Take? || a.Cancel? || a.Close?
  }

  predicate HeldUp(y: System) {
    y.loop.Holding? && !y.loop.f.Ping? && |y.queue| == CHANNEL_CAPACITY
  }

  /** The step that is next while a send is under way, unless the loop is held up. */
  lemma SendGoesOn(j: Json, y: System) returns (a: Action)
    requires Invertible(j) && Inv(j, y) && y.lock.Some? && !y.closed && !y.cancelled && !HeldUp(y)
    ensures Enabled(j, a, y) && (a.Receive? || a.Read? || a.Put? || a.Ack?)
  {
    var f := y.callers[y.lock.value].f;
    match y.loop
    case Reading =>
      if y.done == y.oks {
        FrameRoundTrip(j, f, []);
        assert Encode(j, f) + [] == Encode(j, f);
        a := Read;
      } else {
        a := Receive(y.lock.value);
      }
    case Holding(_) => a := Put;
    case Acking(_) => a := Ack;
  }

  lemma HeldUpBlocks(j: Json, y: System)
    requires Inv(j, y) && y.lock.Some? && !y.closed && !y.cancelled && HeldUp(y)
    ensures Blocked(j, y)
  {
    forall a | Enabled(j, a, y)
      ensures a.Call? || a.Take? || a.Cancel? || a.Close?
    {
    }
  }

  /**
   A send that is under way, with nothing closed and nobody cancelled, is blocked exactly when the
   client has its command in hand and the channel is full: the server's lock is then held until
   somebody takes a command off the channel. Nothing else can block it.
   */
  lemma BlockedIffChannelFull(j: Json, callers: nat, run: seq<Action>)
    requires Invertible(j) && Play(j, Init(callers), run).Some?
    requires var y := Play(j, Init(callers), run).value; y.lock.Some? && !y.closed && !y.cancelled
    ensures var y := Play(j, Init(callers), run).value;
            PipesValid(y) && (Blocked(j, y) <==> HeldUp(y))
  {
    PlayKeepsInv(j, Init(callers), run);
    var y := Play(j, Init(callers), run).value;
    if HeldUp(y) {
      HeldUpBlocks(j, y);
    } else {
      var a := SendGoesOn(j, y);
      assert Enabled(j, a, y);
    }
  }

  /** Whatever other callers do meanwhile, including that a dial gives up, the same send stays blocked. */
  lemma {:induction false} StaysBlocked(j: Json, y: System, run: seq<Action>)
    requires Invertible(j) && Inv(j, y) && y.lock.Some? && !y.closed && !y.cancelled && HeldUp(y)
    requires Play(j, y, run).Some? && forall a :: a in run ==> !a.Take? && !a.Cancel? && !a.Close?
    ensures var z := Play(j, y, run).value; HeldUp(z) && z.lock == y.lock && z.oks == y.oks && z.sent == y.sent
    decreases |run|
  {
    if run != [] {
      HeldUpBlocks(j, y);
      assert run[0] in run && run[0].Call?;
      StepKeeps(j, run[0], y);
      StaysBlocked(j, Next(j, run[0], y), run[1..]);
    }
  }

  lemma PlayCons(j: Json, a: Action, y: System, rest: seq<Action>)
    requires PipesValid(y) && Enabled(j, a, y)
    ensures Play(j, y, [a] + rest) == Play(j, Next(j, a, y), rest)
  {
    assert ([a] + rest)[0] == a && ([a] + rest)[1..] == rest;
  }

  lemma {:induction false} PlayOn(j: Json, y: System, run: seq<Action>, more: seq<Action>)
    requires Play(j, y, run).Some?
    ensures Play(j, y, run + more) == Play(j, Play(j, y, run).value, more)
    decreases |run|
  {
    if run == [] {
      assert run + more == more;
    } else {
      assert (run + more)[0] == run[0] && (run + more)[1..] == run[1..] + more;
      PlayOn(j, Next(j, run[0], y), run[1..], more);
    }
  }

  /** One caller and a client that is reading, between commands. */
  ghost predicate Waits(j: Json, y: System) {
    && Inv(j, y) && |y.callers| == 1 && y.callers[0].Idle? && y.lock == None
    && !y.dead && !y.closed && !y.cancelled && y.loop.Reading?
  }

  /** The client has the caller's connect command in hand. */
  ghost predicate Holds(j: Json, y: System, id: Uuid) {
    && Inv(j, y) && |y.callers| == 1 && y.callers[0] == InFlight(Connect(id)) && y.lock == Some(0)
    && !y.dead && !y.closed && !y.cancelled && y.loop == Holding(Connect(id))
  }

  lemma CallAndSend(j: Json, y: System, id: Uuid)
    requires Invertible(j) && Waits(j, y)
    ensures Enabled(j, Call(0, Connect(id)), y)
    ensures var y1 := Next(j, Call(0, Connect(id)), y);
            && PipesValid(y1) && Enabled(j, Send(0), y1)
            && var y2 := Next(j, Send(0), y1);
            && Inv(j, y2) && y2.callers == [InFlight(Connect(id))] && y2.lock == Some(0) && y2.queue == y.queue
            && !y2.dead && !y2.closed && !y2.cancelled && y2.loop.Reading? && y2.done == y2.oks
  {
    var y1 := Next(j, Call(0, Connect(id)), y);
    StepKeeps(j, Call(0, Connect(id)), y);
    StepKeeps(j, Send(0), y1);
  }

  lemma ReadConnect(j: Json, y: System, id: Uuid)
    requires Invertible(j) && Inv(j, y) && y.callers == [InFlight(Connect(id))] && y.lock == Some(0)
    requires !y.dead && !y.closed && !y.cancelled && y.loop.Reading? && y.done == y.oks
    ensures Enabled(j, Read, y) && Holds(j, Next(j, Read, y), id) && Next(j, Read, y).queue == y.queue
  {
    FrameRoundTrip(j, Connect(id), []);
    assert Encode(j, Connect(id)) + [] == Encode(j, Connect(id));
    StepKeeps(j, Read, y);
  }

  lemma StartSend(j: Json, y: System, id: Uuid) returns (run: seq<Action>, z: System)
    requires Invertible(j) && Waits(j, y)
    ensures Play(j, y, run) == Some(z) && Holds(j, z, id) && z.queue == y.queue
  {
    CallAndSend(j, y, id);
    var y1 := Next(j, Call(0, Connect(id)), y);
    var y2 := Next(j, Send(0), y1);
    ReadConnect(j, y2, id);
    z := Next(j, Read, y2);
    PlayCons(j, Read, y2, []);
    PlayCons(j, Send(0), y1, [Read] + []);
    PlayCons(j, Call(0, Connect(id)), y, [Send(0)] + ([Read] + []));
    run := [Call(0, Connect(id))] + ([Send(0)] + ([Read] + []));
  }

  lemma PutAndAck(j: Json, y: System, id: Uuid)
    requires Invertible(j) && Holds(j, y, id) && |y.queue| < CHANNEL_CAPACITY
    ensures Enabled(j, Put, y)
    ensures var y1 := Next(j, Put, y);
            && PipesValid(y1) && Enabled(j, Ack, y1)
            && var y2 := Next(j, Ack, y1);
            && Inv(j, y2) && y2.callers == y.callers && y2.lock == Some(0) && |y2.queue| == |y.queue| + 1
            && !y2.dead && !y2.closed && !y2.cancelled && y2.loop.Reading? && y2.done != y2.oks
  {
    var y1 := Next(j, Put, y);
    StepKeeps(j, Put, y);
    StepKeeps(j, Ack, y1);
    assert |y1.done| == |y1.oks| + 1;
  }

  lemma FinishSend(j: Json, y: System, id: Uuid) returns (run: seq<Action>, z: System)
    requires Invertible(j) && Holds(j, y, id) && |y.queue| < CHANNEL_CAPACITY
    ensures Play(j, y, run) == Some(z) && Waits(j, z) && |z.queue| == |y.queue| + 1
  {
    PutAndAck(j, y, id);
    var y1 := Next(j, Put, y);
    var y2 := Next(j, Ack, y1);
    assert Enabled(j, Receive(0), y2);
    ReceiveKeeps(j, y2, 0);
    z := Next(j, Receive(0), y2);
    PlayCons(j, Receive(0), y2, []);
    PlayCons(j, Ack, y1, [Receive(0)] + []);
    PlayCons(j, Put, y, [Ack] + ([Receive(0)] + []));
    run := [Put] + ([Ack] + ([Receive(0)] + []));
  }

  /** With nobody receiving, successful sends fill the channel. */
  lemma {:induction false} Filling(j: Json, id: Uuid, n: nat) returns (run: seq<Action>, z: System)
    requires Invertible(j) && n <= CHANNEL_CAPACITY
    ensures Play(j, Init(1), run) == Some(z) && Waits(j, z) && |z.queue| == n
  {
    if n == 0 {
      run, z := [], Init(1);
    } else {
      var early, y := Filling(j, id, n - 1);
      var start, m := StartSend(j, y, id);
      var end, last := FinishSend(j, m, id);
      PlayOn(j, y, start, end);
      PlayOn(j, Init(1), early, start + end);
      run, z := early + (start + end), last;
    }
  }

  /** A full channel does block a send: one caller gets there, with every earlier send answered. */
  lemma ASendCanBlock(j: Json, id: Uuid) returns (run: seq<Action>, z: System)
    requires Invertible(j)
    ensures Play(j, Init(1), run) == Some(z) && PipesValid(z)
    ensures z.lock == Some(0) && !z.closed && !z.cancelled && Blocked(j, z)
  {
    var early, y := Filling(j, id, CHANNEL_CAPACITY);
    var start, m := StartSend(j, y, id);
    PlayOn(j, Init(1), early, start);
    run, z := early + start, m;
    HeldUpBlocks(j, z);
  }
}
