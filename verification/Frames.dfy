/**
 The commands a server sends on a control connection: their names, their framing, and what
 the client makes of the bytes.

 The JSON encoding of an event is a parameter: a partial encoder and a decoder that inverts it.
 */
module Frames {
  import opened Wire

  datatype Event = Event(name: string, data: bytes)

  datatype Frame = Connect(id: Uuid) | Ping | Custom(event: Event)

  datatype Json = Json(marshal: Event -> Option<bytes>, unmarshal: bytes -> Option<Event>)

  ghost predicate Invertible(j: Json) {
    forall e :: j.marshal(e).Some? ==> j.unmarshal(j.marshal(e).value) == Some(e)
  }

  // ---------- names ----------

  const CONNECT_TYPE := "connect"
  const MUX_INIT_TYPE := "mux_init"
  const MUX_READY_TYPE := "mux_ready"

  /** An event may be called anything but the empty name and the three reserved ones. */
  function NewCommandType(name: string): (r: Option<string>)
    ensures r == None <==> name in {"", CONNECT_TYPE, MUX_INIT_TYPE, MUX_READY_TYPE}
    ensures r.Some? ==> r.value == name
  {
    if name == "" then None
    else if name == CONNECT_TYPE || name == MUX_INIT_TYPE || name == MUX_READY_TYPE then None
    else Some(name)
  }

  /** `data` is the payload as JSON, or `None` when it has no JSON form. */
  function NewCustomEvent(name: string, data: Option<bytes>): (r: Option<Event>)
    ensures r.Some? <==> NewCommandType(name).Some? && data.Some?
    ensures r.Some? ==> r.value == Event(name, data.value)
  {
    match NewCommandType(name)
    case None => None
    case Some(typeName) => if data.None? then None else Some(Event(typeName, data.value))
  }

  // ---------- what the client hands on ----------

  datatype Command = ConnectCommand(id: Uuid) | CustomEventCommand(event: Event)

  function Type(cmd: Command): string {
    match cmd
    case ConnectCommand(_) => CONNECT_TYPE
    case CustomEventCommand(e) => e.name
  }

  /** Pings are answered and not handed on. */
  function Forwarded(f: Frame): Option<Command> {
    match f
    case Connect(id) => Some(ConnectCommand(id))
    case Ping => None
    case Custom(e) => Some(CustomEventCommand(e))
  }

  function ForwardedAll(fs: seq<Frame>): seq<Command> {
    if fs == [] then []
    else
      var init := ForwardedAll(fs[..|fs| - 1]);
      match Forwarded(fs[|fs| - 1])
      case None => init
      case Some(cmd) => init + [cmd]
  }

  // ---------- framing ----------

  const MAX_EVENT_LENGTH := 65535

  /** The body of a request, unless the event has no JSON form or too long a one. */
  function Body(j: Json, f: Frame): Option<bytes> {
    match f
    case Connect(id) => Some([CMD_CONNECT] + id)
    case Ping => Some([CMD_PING])
    case Custom(e) => (
      match j.marshal(e)
      case None => None
      case Some(d) => if |d| > MAX_EVENT_LENGTH then None else Some([CMD_CUSTOM_EVENT] + PutUint16(|d|) + d)
    )
  }

  predicate Encodable(j: Json, f: Frame) {
    Body(j, f).Some?
  }

  function Encode(j: Json, f: Frame): bytes
    requires Encodable(j, f)
  {
    Framed(Body(j, f).value)
  }

  datatype Parsed = Parsed(frame: Frame, rest: bytes) | Incomplete | Malformed

  /** What is left is the end of what there was. */
  predicate Tail(p: Parsed, b: bytes) {
    p.Parsed? ==> |p.rest| <= |b| && p.rest == b[|b| - |p.rest|..]
  }

  function ParseConnect(b: bytes): (p: Parsed)
    ensures Tail(p, b)
  {
    if |b| < 16 then Incomplete else Parsed(Connect(b[..16]), b[16..])
  }

  function ParseEvent(j: Json, b: bytes): (p: Parsed)
    ensures Tail(p, b)
  {
    if |b| < 2 then Incomplete
    else
      var n := GetUint16(b[..2]);
      if |b| < 2 + n then Incomplete
      else match j.unmarshal(b[2..2 + n])
        case None => Malformed
        case Some(e) => Parsed(Custom(e), b[2 + n..])
  }

  /** What the command loop makes of the next bytes on its connection. */
  function Parse(j: Json, b: bytes): (p: Parsed)
    ensures Tail(p, b) && (p.Parsed? ==> |p.rest| < |b|)
  {
    if |b| < 2 then Incomplete
    else if b[0] != VERSION_V1 then Malformed
    else if b[1] == CMD_CONNECT then ParseConnect(b[2..])
    else if b[1] == CMD_PING then Parsed(Ping, b[2..])
    else if b[1] == CMD_CUSTOM_EVENT then ParseEvent(j, b[2..])
    else Malformed
  }

  /** A frame is read back as it was sent, and nothing after it is touched. */
  lemma FrameRoundTrip(j: Json, f: Frame, rest: bytes)
    requires Invertible(j) && Encodable(j, f)
    ensures Parse(j, Encode(j, f) + rest) == Parsed(f, rest)
  {
    var b := Encode(j, f) + rest;
    match f
    case Connect(id) =>
      assert b[2..] == id + rest;
      assert (id + rest)[..16] == id && (id + rest)[16..] == rest;
    case Ping =>
      assert b[2..] == rest;
    case Custom(e) =>
      var d := j.marshal(e).value;
      assert b[2..] == PutUint16(|d|) + d + rest;
      EventRoundTrip(j, e, rest);
  }

  lemma EventRoundTrip(j: Json, e: Event, rest: bytes)
    requires Invertible(j) && j.marshal(e).Some? && |j.marshal(e).value| <= MAX_EVENT_LENGTH
    ensures var d := j.marshal(e).value;
            ParseEvent(j, PutUint16(|d|) + d + rest) == Parsed(Custom(e), rest)
  {
    var d := j.marshal(e).value;
    var b := PutUint16(|d|) + d + rest;
    assert b[..2] == PutUint16(|d|);
    assert PutUint16(GetUint16(b[..2])) == b[..2];
    assert GetUint16(b[..2]) == |d|;
    assert b[2..2 + |d|] == d && b[2 + |d|..] == rest;
  }

  /** An unfinished frame is recognised as such: the client keeps waiting and never misreads. */
  lemma PartialFrameWaits(j: Json, f: Frame, k: nat)
    requires Invertible(j) && Encodable(j, f) && k < |Encode(j, f)|
    ensures Parse(j, Encode(j, f)[..k]) == Incomplete
  {
    var whole := Encode(j, f);
    var b := whole[..k];
    if k >= 2 {
      assert b[0] == whole[0] && b[1] == whole[1];
      match f
      case Connect(id) =>
      case Ping =>
      case Custom(e) =>
        var d := j.marshal(e).value;
        if k >= 4 {
          assert b[2..][..2] == whole[2..4] == PutUint16(|d|);
          assert PutUint16(GetUint16(b[2..][..2])) == PutUint16(|d|);
        }
    }
  }

  /** The bytes of an event behind its command byte: its length and an encoding of it. */
  ghost predicate EventBytes(j: Json, b: bytes, d: bytes, e: Event, rest: bytes) {
    |d| <= MAX_EVENT_LENGTH && b == PutUint16(|d|) + d + rest && j.unmarshal(d) == Some(e)
  }

  lemma OnlyEventsParsed(j: Json, b: bytes, f: Frame, rest: bytes) returns (e: Event, d: bytes)
    requires ParseEvent(j, b) == Parsed(f, rest)
    ensures f == Custom(e) && EventBytes(j, b, d, e, rest)
  {
    var n := GetUint16(b[..2]);
    e, d := f.event, b[2..2 + n];
    assert b == b[..2] + d + b[2 + n..];
  }

  lemma OnlyConnectsParsed(b: bytes, f: Frame, rest: bytes)
    requires ParseConnect(b) == Parsed(f, rest)
    ensures f.Connect? && b == f.id + rest
  {
    assert b == b[..16] + b[16..];
  }

  /** Nothing but frames is parsed: what is taken for a frame has the bytes of one. */
  lemma OnlyFramesParsed(j: Json, b: bytes, f: Frame, rest: bytes)
    requires Parse(j, b) == Parsed(f, rest)
    ensures |b| >= 2 && b[0] == VERSION_V1
    ensures match f
            case Connect(id) => b[1] == CMD_CONNECT && b[2..] == id + rest
            case Ping => b[1] == CMD_PING && b[2..] == rest
            case Custom(e) => b[1] == CMD_CUSTOM_EVENT && exists d :: EventBytes(j, b[2..], d, e, rest)
  {
    if b[1] == CMD_CONNECT {
      OnlyConnectsParsed(b[2..], f, rest);
    } else if b[1] == CMD_CUSTOM_EVENT {
      var e, d := OnlyEventsParsed(j, b[2..], f, rest);
    }
  }

  function EncodeAll(j: Json, fs: seq<Frame>): bytes
    requires forall f :: f in fs ==> Encodable(j, f)
  {
    if fs == [] then [] else Encode(j, fs[0]) + EncodeAll(j, fs[1..])
  }

  /** Reads frames until the bytes run out; `None` when they do not divide into frames. */
  function ParseAll(j: Json, b: bytes): Option<seq<Frame>>
    decreases |b|
  {
    if b == [] then Some([])
    else match Parse(j, b)
      case Parsed(f, rest) => (
        match ParseAll(j, rest)
        case None => None
        case Some(fs) => Some([f] + fs)
      )
      case _ => None
  }

  /** Any sequence of commands parses back to the same sequence. */
  lemma {:induction false} FramesRoundTrip(j: Json, fs: seq<Frame>)
    requires Invertible(j) && forall f :: f in fs ==> Encodable(j, f)
    ensures ParseAll(j, EncodeAll(j, fs)) == Some(fs)
  {
    if fs != [] {
      FramesRoundTrip(j, fs[1..]);
      FrameRoundTrip(j, fs[0], EncodeAll(j, fs[1..]));
      assert fs == [fs[0]] + fs[1..];
    }
  }

  // ---------- dispatch ----------

  /** The frames the three send operations produce: no custom event under a reserved name. */
  predicate Sendable(f: Frame) {
    f.Custom? ==> NewCommandType(f.event.name).Some?
  }

  /** The forwarded commands are those of the frames, and no others. */
  lemma {:induction false} ForwardedFrom(fs: seq<Frame>, cmd: Command)
    ensures cmd in ForwardedAll(fs) <==> exists f :: f in fs && Forwarded(f) == Some(cmd)
  {
    if fs != [] {
      var n := |fs| - 1;
      ForwardedFrom(fs[..n], cmd);
      assert fs == fs[..n] + [fs[n]];
    }
  }

  /** A command is handed on for a connect and an event frame, with what the frame carries, and for no ping. */
  lemma ForwardedMeans(f: Frame, cmd: Command)
    ensures Forwarded(f) == Some(cmd) <==>
            match cmd
            case ConnectCommand(id) => f == Connect(id)
            case CustomEventCommand(e) => f == Custom(e)
  {
  }

  /** The identifiers of the connect frames, and of the connect commands, in order. */
  function ConnectsSent(fs: seq<Frame>): seq<Uuid> {
    if fs == [] then []
    else ConnectsSent(fs[..|fs| - 1]) + if fs[|fs| - 1].Connect? then [fs[|fs| - 1].id] else []
  }

  function ConnectsIn(cmds: seq<Command>): seq<Uuid> {
    if cmds == [] then []
    else ConnectsIn(cmds[..|cmds| - 1]) + if cmds[|cmds| - 1].ConnectCommand? then [cmds[|cmds| - 1].id] else []
  }

  lemma {:induction false} ConnectsSplit(xs: seq<Command>, ys: seq<Command>)
    ensures ConnectsIn(xs + ys) == ConnectsIn(xs) + ConnectsIn(ys)
    decreases |ys|
  {
    var n := |ys| - 1;
    if ys == [] {
      assert xs + ys == xs;
    } else {
      assert (xs + ys)[..|xs + ys| - 1] == xs + ys[..n];
      ConnectsSplit(xs, ys[..n]);
    }
  }

  lemma {:induction false} ConnectsSentSplit(xs: seq<Frame>, ys: seq<Frame>)
    ensures ConnectsSent(xs + ys) == ConnectsSent(xs) + ConnectsSent(ys)
    decreases |ys|
  {
    var n := |ys| - 1;
    if ys == [] {
      assert xs + ys == xs;
    } else {
      assert (xs + ys)[..|xs + ys| - 1] == xs + ys[..n];
      ConnectsSentSplit(xs, ys[..n]);
    }
  }

  lemma {:induction false} ConnectsOfOne(cmd: Command)
    ensures ConnectsIn([cmd]) == if cmd.ConnectCommand? then [cmd.id] else []
  {
    assert [cmd][..0] == [];
  }

  /** The client hands on the connection requests that were sent, all of them, in order. */
  lemma {:induction false} ConnectsHandedOn(fs: seq<Frame>)
    ensures ConnectsIn(ForwardedAll(fs)) == ConnectsSent(fs)
  {
    if fs != [] {
      var n := |fs| - 1;
      ConnectsHandedOn(fs[..n]);
      var init := ForwardedAll(fs[..n]);
      if Forwarded(fs[n]).Some? {
        assert (init + [Forwarded(fs[n]).value])[..|init|] == init;
      }
    }
  }

  /** No event goes by a reserved name, as the sender sees to. */
  predicate Clean(cmd: Command) {
    cmd.CustomEventCommand? ==> NewCommandType(cmd.event.name).Some?
  }

  lemma {:induction false} SendableIsClean(fs: seq<Frame>)
    requires forall f :: f in fs ==> Sendable(f)
    ensures forall cmd :: cmd in ForwardedAll(fs) ==> Clean(cmd)
  {
    forall cmd | cmd in ForwardedAll(fs)
      ensures Clean(cmd)
    {
      ForwardedFrom(fs, cmd);
    }
  }

  /** Every command that is dispatched as a connection request is one. */
  lemma DispatchedAsConnect(fs: seq<Frame>, cmd: Command)
    requires forall f :: f in fs ==> Sendable(f)
    requires cmd in ForwardedAll(fs) && Type(cmd) == CONNECT_TYPE
    ensures cmd.ConnectCommand? && Connect(cmd.id) in fs
  {
    ForwardedFrom(fs, cmd);
    var f :| f in fs && Forwarded(f) == Some(cmd);
  }
}
