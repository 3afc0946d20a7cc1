/**
 A connection end as the blocking handshake code sees it.

 `input` is everything the peer will ever deliver and this end has not read yet; the end
 of `input` is the end of the stream. A write either appends to `output` or reports an
 error, in which case `broken` stays set.
 */
module Connection {
  import opened Wire

  class Conn {
    var input: bytes
    var output: bytes
    var broken: bool
    var closed: bool

    constructor (input: bytes)
      ensures this.input == input && output == [] && !broken && !closed
    {
      this.input, output, broken, closed := input, [], false, false;
    }

    /**
     One read into a buffer of `n` bytes: the network decides how many of the bytes at hand
     it delivers, at least one; `None` is the end of the stream.
     */
    method Read(n: nat) returns (got: Option<bytes>)
      modifies `input
      ensures n == 0 ==> got == Some([]) && input == old(input)
      ensures n > 0 && old(input) == [] ==> got == None && input == []
      ensures n > 0 && old(input) != [] ==>
                got.Some? && 1 <= |got.value| <= n && old(input) == got.value + input
    {
      if n == 0 {
        return Some([]);
      }
      if input == [] {
        return None;
      }
      var k: nat :| 1 <= k <= n && k <= |input|;
      got := Some(input[..k]);
      input := input[k..];
    }

    /**
     Reads until `n` bytes have arrived, however the network cuts the stream into reads;
     fails, with everything consumed, exactly when the stream holds fewer.
     */
    method ReadFull(n: nat) returns (buf: Option<bytes>)
      modifies `input
      ensures buf.Some? <==> n <= |old(input)|
      ensures buf.Some? ==> buf.value == old(input)[..n] && input == old(input)[n..]
      ensures buf.None? ==> input == []
    {
      var acc: bytes := [];
      while |acc| < n
        invariant |acc| <= n
        invariant old(input) == acc + input
        decreases n - |acc|
      {
        var got := Read(n - |acc|);
        if got.None? {
          return None;
        }
        acc := acc + got.value;
      }
      buf := Some(acc);
    }

    /**
     The sites that call the connection's own read once and ignore the count are modelled
     under the assumption that the network delivers the whole request, or ends.
     */
    method ReadWhole(n: nat) returns (buf: Option<bytes>)
      modifies `input
      ensures buf.Some? <==> n <= |old(input)|
      ensures buf.Some? ==> buf.value == old(input)[..n] && input == old(input)[n..]
      ensures buf.None? ==> input == []
    {
      buf := ReadFull(n);
    }

    method Write(b: bytes) returns (ok: bool)
      modifies `output, `broken
      ensures ok ==> output == old(output) + b && broken == old(broken)
      ensures !ok ==> output == old(output) && broken
    {
      ok := *;
      if ok {
        output := output + b;
      } else {
        broken := true;
      }
    }

    /** Reads a message, which ends early when the stream does. */
    method ReadMsg() returns (msg: Message)
      modifies `input
      ensures msg == FirstMessage(old(input)) && input == AfterMessage(old(input))
    {
      var buf := ReadFull(2);
      if buf.None? {
        return Eof;
      }
      if buf.value[0] != VERSION_V1 {
        return WrongVersion;
      }
      return Code(buf.value[1]);
    }

    /** Writes a framed request and waits for the reply to it. */
    method SendRequest(body: bytes) returns (msg: Message)
      modifies `input, `output, `broken
      ensures msg == WriteFailed ==> output == old(output) && input == old(input) && broken
      ensures msg != WriteFailed ==>
                && output == old(output) + Framed(body) && broken == old(broken)
                && msg == FirstMessage(old(input)) && input == AfterMessage(old(input))
    {
      var ok := Write([VERSION_V1] + body);
      if !ok {
        return WriteFailed;
      }
      msg := ReadMsg();
    }

    method Close()
      modifies `closed
      ensures closed
    {
      closed := true;
    }
  }

  /** What waiting for a message ends in. */
  datatype Message = Code(code: byte) | Eof | WrongVersion | WriteFailed

  function FirstMessage(input: bytes): Message {
    if |input| < 2 then Eof
    else match ReplyCode(input[..2])
      case Some(c) => Code(c)
      case None => WrongVersion
  }

  function AfterMessage(input: bytes): bytes {
    if |input| < 2 then [] else input[2..]
  }
}
