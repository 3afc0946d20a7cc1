/**
 The vocabulary of the wire protocol: protocol bytes, message framing and byte pipes.

 A message is a version byte followed by a body; every reply is a version byte followed
 by one code byte.
 */
module Wire {
  type byte = b: int | 0 <= b < 256

  type bytes = seq<byte>

  /** A connection or request identifier: the 16 bytes of a UUID. */
  type Uuid = u: bytes | |u| == 16 witness seq<byte>(16, i => 0)

  /** The three big-endian 32-bit numbers of a mux configuration, as they travel. */
  type MuxConfig = m: bytes | |m| == 12 witness seq<byte>(12, i => 0)

  const VERSION_V1: byte := 1

  const NO_AUTH: byte := 0
  const USER_PASS_AUTH: byte := 2
  const NO_ACCEPTABLE_AUTH_METHOD: byte := 255

  const CMD_REGISTER: byte := 1
  const CMD_CONNECT: byte := 2
  const CMD_BIND: byte := 3
  const CMD_PING: byte := 4
  const CMD_CUSTOM_EVENT: byte := 5
  const CMD_MUX_INIT: byte := 10
  const CMD_MUX_READY: byte := 11

  const RES_SUCCESS: byte := 0
  const RES_FAILURE: byte := 1

  datatype Option<+T> = None | Some(value: T)

  /** What `sendRequest` puts on the wire for a request body. */
  function Framed(body: bytes): bytes {
    [VERSION_V1] + body
  }

  /** A reply: the version and one code. */
  function Reply(code: byte): bytes {
    [VERSION_V1, code]
  }

  /** The code carried by a two-byte message, unless its version is not the expected one. */
  function ReplyCode(msg: bytes): Option<byte>
    requires |msg| == 2
  {
    if msg[0] == VERSION_V1 then Some(msg[1]) else None
  }

  /** A 16-bit number in network order, and back. */
  function PutUint16(n: nat): (b: bytes)
    requires n < 65536
    ensures |b| == 2
  {
    [n / 256, n % 256]
  }

  function GetUint16(b: bytes): (n: nat)
    requires |b| == 2
    ensures n < 65536
    ensures PutUint16(n) == b
  {
    var high: int, low: int := b[0], b[1];
    256 * high + low
  }

  /**
   One direction of a reliable byte stream: everything ever written to it, and how much of
   that the other end has taken out.
   */
  datatype Pipe = Pipe(sent: bytes, got: nat) {
    ghost predicate Valid() {
      got <= |sent|
    }

    function Pending(): bytes
      requires Valid()
    {
      sent[got..]
    }

    function Push(b: bytes): Pipe {
      Pipe(sent + b, got)
    }

    function Pull(n: nat): Pipe {
      Pipe(sent, got + n)
    }
  }

  const EMPTY_PIPE := Pipe([], 0)

  lemma PushPending(p: Pipe, b: bytes)
    requires p.Valid()
    ensures p.Push(b).Valid() && p.Push(b).Pending() == p.Pending() + b
  {
  }

  lemma PullPending(p: Pipe, n: nat)
    requires p.Valid() && n <= |p.Pending()|
    ensures p.Pull(n).Valid() && p.Pull(n).Pending() == p.Pending()[n..]
    ensures p.Pending() == p.Pending()[..n] + p.Pull(n).Pending()
  {
  }
}
