/**
 Credentials from the client's option to the server's check.
 */
module Credentials {
  import opened Wire
  import opened ServerMachine
  import Negotiation

  const MAX_LENGTH := 255

  /** A slice under construction: appending past the capacity moves it to a larger array. */
  datatype Slice = Slice(data: bytes, capacity: nat) {
    function Append(b: bytes): Slice {
      var n := |data| + |b|;
      Slice(data + b, if n <= capacity then capacity else n)
    }
  }

  /**
   Builds the token, or refuses over-long input. The requested capacity is computed in bytes
   and wraps; the token does not depend on it.
   */
  method WithUserPass(username: bytes, password: bytes) returns (token: Option<bytes>)
    ensures token.None? <==> |username| > 255 || |password| > 255
    ensures token.Some? ==> token.value == Negotiation.Credentials(username, password)
  {
    if |username| > MAX_LENGTH || |password| > MAX_LENGTH {
      return None;
    }
    var ulen: byte := |username|;
    var plen: byte := |password|;
    var buf := Slice([], (2 + ulen + plen) % 256);
    buf := buf.Append([ulen]);
    buf := buf.Append(username);
    buf := buf.Append([plen]);
    buf := buf.Append(password);
    return Some(buf.data);
  }

  /**
   The server decodes a token to exactly the pair it was built from, with no byte left over,
   unless a part is empty: then it stops at that part without asking whether the pair is valid.
   */
  lemma TokenRoundTrip(c: Config, user: bytes, pass: bytes, rest: bytes)
    requires |user| <= MAX_LENGTH && |pass| <= MAX_LENGTH
    ensures user != [] && pass != [] ==>
              var (st, out) := Feed(c, Pass(user, |pass|), pass);
              Follows(c, UserLen, Framed(Negotiation.Credentials(user, pass)) + rest, out, st, rest)
    ensures user == [] ==>
              Exec(c, UserLen, Framed(Negotiation.Credentials(user, pass)) + rest).st == Failed(EmptyUsername)
    ensures user != [] && pass == [] ==>
              Exec(c, UserLen, Framed(Negotiation.Credentials(user, pass)) + rest).st == Failed(EmptyPassword)
  {
    var input := Framed(Negotiation.Credentials(user, pass)) + rest;
    if user != [] && pass != [] {
      Negotiation.CredentialsRun(c, user, pass, rest);
    } else {
      assert input[..2] == [VERSION_V1, |user|];
      FollowsStep(c, UserLen, input);
      if user != [] {
        var i1 := input[2..];
        assert i1 == user + [0] + rest;
        assert i1[..|user|] == user && i1[|user|..] == [0] + rest;
        FollowsStep(c, User(|user|), i1);
        FollowsStep(c, PassLen(user), [0] + rest);
      }
    }
  }

  // ---------- short reads ----------

  function Zeros(n: nat): bytes {
    seq<byte>(n, i => 0)
  }

  /** A buffer of `n` bytes after one read that delivered `k` of them. */
  function Buffer(input: bytes, k: nat, n: nat): bytes
    requires k <= |input| && k <= n
  {
    input[..k] + Zeros(n - k)
  }

  datatype Decoded = Decoded(user: bytes, pass: bytes, rest: bytes) | Rejected

  /**
   What the server decodes behind a user-name length of `ulen` when its single reads of the
   name and of the password deliver `k1` and at most `k2` bytes.
   */
  function DecodeCut(input: bytes, ulen: nat, k1: nat, k2: nat): Decoded
    requires 1 <= k1 <= ulen && k1 <= |input|
  {
    var i2 := input[k1..];
    if i2 == [] || i2[0] == 0 then Rejected
    else
      var plen: nat, i3 := i2[0], i2[1..];
      if i3 == [] then Rejected
      else
        var k := if k2 <= plen && k2 <= |i3| then k2 else if plen <= |i3| then plen else |i3|;
        Decoded(Buffer(input, k1, ulen), Buffer(i3, k, plen), i3[k..])
  }

  /**
   Reading once and ignoring the count decodes the credentials exactly when both reads were
   whole: no short read can be made good by the zeros it leaves in the buffer.
   */
  lemma DecodesIffWhole(user: bytes, pass: bytes, rest: bytes, k1: nat, k2: nat)
    requires 1 <= |user| < 256 && 1 <= |pass| < 256
    requires 1 <= k1 <= |user| && 1 <= k2 <= |pass|
    ensures DecodeCut(user + [|pass|] + pass + rest, |user|, k1, k2) == Decoded(user, pass, rest)
            <==> k1 == |user| && k2 == |pass|
  {
    var input := user + [|pass|] + pass + rest;
    var d := DecodeCut(input, |user|, k1, k2);
    if k1 < |user| {
      assert input[k1..][0] == user[k1];
      if d.Decoded? {
        assert d.user[k1] == 0 != user[k1];
      }
    } else {
      assert input[k1..][0] == |pass| && input[k1..][1..] == pass + rest;
      assert d.rest == (pass + rest)[k2..];
      if k2 == |pass| {
        assert (pass + rest)[..k2] + Zeros(0) == pass;
        assert input[..k1] + Zeros(0) == user;
        assert d.rest == rest;
      } else {
        assert |d.rest| != |rest|;
      }
    }
  }
}
