/**
 The handshake: one padded, authenticated hello in each direction. HMAC and HKDF under the shared key
 are two functions about which nothing is assumed but the length of a MAC.
 */
module Handshake {
  import opened Bytes
  import Codec
  import Connection

  const NONCE_LEN := 16
  const MAC_LEN := 16
  const MAX_PAD := 255

  datatype Keyed = Keyed(mac: (seq<byte>, string) -> seq<byte>, derive: (seq<byte>, string) -> seq<byte>)

  ghost predicate MacsAreShort(c: Keyed) {
    forall input: seq<byte>, tag: string :: |c.mac(input, tag)| == MAC_LEN
  }

  const HTTP_METHODS: seq<string> :=
    ["GET ", "POST", "HEAD", "PUT ", "DELE", "OPTI", "CONN", "PATC", "TRAC"]

  /** The first four bytes are those of an HTTP request line. */
  predicate LooksLikeHttp(buf: seq<byte>) {
    |buf| >= 4 && exists m <- HTTP_METHODS :: SameBytes(buf[..4], m)
  }

  predicate SameBytes(bs: seq<byte>, s: string) {
    |bs| == |s| && forall k :: 0 <= k < |bs| ==> bs[k] as int == s[k] as int
  }

  /** nonce, padding length, padding: what the MAC covers. */
  function Covered(nonce: seq<byte>, pad: seq<byte>): seq<byte>
    requires |pad| <= MAX_PAD
  {
    nonce + [|pad| as byte] + pad
  }

  function Hello(c: Keyed, tag: string, nonce: seq<byte>, pad: seq<byte>): seq<byte>
    requires |pad| <= MAX_PAD
  {
    Covered(nonce, pad) + c.mac(Covered(nonce, pad), tag)
  }

  datatype Greeting =
    | Nonce(nonce: seq<byte>)
    | HttpProbe    // the prefix of an HTTP request
    | Short        // the connection ended first
    | BadMac

  /** What a reader of a hello makes of the bytes to come, and what it leaves. */
  function Greet(c: Keyed, tag: string, wire: seq<byte>, http: bool): (Greeting, seq<byte>) {
    if |wire| < 4 then (Short, [])
    else if http && LooksLikeHttp(wire[..4]) then (HttpProbe, wire[4..])
    else if |wire| < NONCE_LEN + 1 then (Short, [])
    else
      var padLen := wire[NONCE_LEN] as nat;
      var size := NONCE_LEN + 1 + padLen;
      if |wire| < size + MAC_LEN then (Short, [])
      else if wire[size..size + MAC_LEN] != c.mac(Covered(wire[..NONCE_LEN], wire[NONCE_LEN + 1..size]), tag) then
        (BadMac, wire[size + MAC_LEN..])
      else (Nonce(wire[..NONCE_LEN]), wire[size + MAC_LEN..])
  }

  /** readClientHandshake: four bytes first, so that an HTTP probe is recognised at once. */
  method ReadClientHello(conn: Connection.Conn, c: Keyed) returns (r: Greeting)
    modifies conn
    ensures (r, conn.input) == Greet(c, "c2s-hs", old(conn.input), true)
  {
    ghost var wire := conn.input;
    var prefix, ok := conn.ReadFull(4);
    if !ok {
      return Short;
    }
    if LooksLikeHttp(prefix) {
      return HttpProbe;
    }
    var rest;
    rest, ok := conn.ReadFull(NONCE_LEN + 1 - 4);
    if !ok {
      return Short;
    }
    assert prefix + rest == wire[..NONCE_LEN + 1] && conn.input == wire[NONCE_LEN + 1..];
    r := ReadBody(conn, c, "c2s-hs", prefix + rest, wire);
  }

  /** The client's reading of the server's hello, which makes no exception for HTTP. */
  method ReadServerHello(conn: Connection.Conn, c: Keyed) returns (r: Greeting)
    modifies conn
    ensures (r, conn.input) == Greet(c, "s2c-hs", old(conn.input), false)
  {
    var first, ok := conn.ReadFull(NONCE_LEN + 1);
    if !ok {
      return Short;
    }
    r := ReadBody(conn, c, "s2c-hs", first, old(conn.input));
  }

  /** Padding and MAC, once nonce and padding length have been read. */
  method ReadBody(conn: Connection.Conn, c: Keyed, tag: string, first: seq<byte>, ghost wire: seq<byte>)
    returns (r: Greeting)
    requires |wire| >= NONCE_LEN + 1
    requires first == wire[..NONCE_LEN + 1] && conn.input == wire[NONCE_LEN + 1..]
    modifies conn
    ensures (r, conn.input) == Greet(c, tag, wire, false)
  {
    var padLen := first[NONCE_LEN] as nat;
    var tail, ok := conn.ReadFull(padLen + MAC_LEN);
    if !ok {
      return Short;
    }
    ghost var size := NONCE_LEN + 1 + padLen;
    assert tail[..padLen] == wire[NONCE_LEN + 1..size] && tail[padLen..] == wire[size..size + MAC_LEN];
    assert first[..NONCE_LEN] == wire[..NONCE_LEN] && conn.input == wire[size + MAC_LEN..];
    if tail[padLen..] != c.mac(Covered(first[..NONCE_LEN], tail[..padLen]), tag) {
      return BadMac;
    }
    return Nonce(first[..NONCE_LEN]);
  }

  lemma MacLength(c: Keyed, input: seq<byte>, tag: string)
    requires MacsAreShort(c)
    ensures |c.mac(input, tag)| == MAC_LEN
  {
  }

  /** A hello is read back: the nonce, and exactly its 33 + |pad| bytes, whatever follows. */
  lemma HelloIsRead(c: Keyed, tag: string, nonce: seq<byte>, pad: seq<byte>, rest: seq<byte>, http: bool)
    requires MacsAreShort(c) && |nonce| == NONCE_LEN && |pad| <= MAX_PAD
    ensures |Hello(c, tag, nonce, pad)| == 33 + |pad|
    ensures Greet(c, tag, Hello(c, tag, nonce, pad) + rest, http) ==
            if http && LooksLikeHttp(nonce[..4]) then (HttpProbe, (Hello(c, tag, nonce, pad) + rest)[4..])
            else (Nonce(nonce), rest)
  {
    hide LooksLikeHttp;
    MacLength(c, Covered(nonce, pad), tag);
    var wire := Hello(c, tag, nonce, pad) + rest;
    var size := NONCE_LEN + 1 + |pad|;
    assert wire[..4] == nonce[..4];
    assert wire[..NONCE_LEN] == nonce && wire[NONCE_LEN] as nat == |pad|;
    assert wire[NONCE_LEN + 1..size] == pad;
    assert wire[size..size + MAC_LEN] == c.mac(Covered(nonce, pad), tag);
    assert wire[size + MAC_LEN..] == rest;
  }

  /** And nothing else is accepted: an accepted wire begins with a hello of the accepted nonce. */
  lemma OnlyHellosAreRead(c: Keyed, tag: string, wire: seq<byte>, http: bool) returns (pad: seq<byte>)
    requires MacsAreShort(c) && Greet(c, tag, wire, http).0.Nonce?
    ensures var (r, rest) := Greet(c, tag, wire, http);
            && |r.nonce| == NONCE_LEN && |pad| <= MAX_PAD
            && wire == Hello(c, tag, r.nonce, pad) + rest
            && !(http && LooksLikeHttp(r.nonce[..4]))
  {
    hide LooksLikeHttp;
    var (r, rest) := Greet(c, tag, wire, http);
    var size := NONCE_LEN + 1 + wire[NONCE_LEN] as nat;
    pad := wire[NONCE_LEN + 1..size];
    assert wire[..4] == r.nonce[..4];
    assert wire[..size] == Covered(r.nonce, pad);
    assert wire == wire[..size] + wire[size..size + MAC_LEN] + wire[size + MAC_LEN..];
  }

  /** A hello case by case, on any bytes at all. */
  lemma GreetOutcomes(c: Keyed, tag: string, wire: seq<byte>)
    ensures var (r, rest) := Greet(c, tag, wire, false);
            if |wire| < 17 then r == Short && rest == []
            else
              var end := 17 + wire[16] as nat;
              if |wire| < end + 16 then r == Short && rest == []
              else
                && rest == wire[end + 16..]
                && r == if wire[end..end + 16] == c.mac(wire[..end], tag) then Nonce(wire[..16]) else BadMac
    ensures Greet(c, tag, wire, true) ==
            if |wire| >= 4 && LooksLikeHttp(wire[..4]) then (HttpProbe, wire[4..]) else Greet(c, tag, wire, false)
  {
    if |wire| >= 17 {
      var end := 17 + wire[16] as nat;
      if |wire| >= end + 16 {
        assert Covered(wire[..16], wire[17..end]) == wire[..end];
      }
    }
  }

  function Keys(c: Keyed, nonceC: seq<byte>, nonceS: seq<byte>): (seq<byte>, seq<byte>) {
    (c.derive(nonceC + nonceS, "c2s-key"), c.derive(nonceC + nonceS, "s2c-key"))
  }

  /** How one end comes out of the handshake. */
  datatype Outcome = Agreed(keys: (seq<byte>, seq<byte>)) | Refused

  /** The server: read the client's hello and, if it is one, answer with its own. */
  function ServerSide(c: Keyed, fromClient: seq<byte>, nonceS: seq<byte>, pad: seq<byte>): (Outcome, seq<byte>)
    requires |pad| <= MAX_PAD
  {
    var (r, _) := Greet(c, "c2s-hs", fromClient, true);
    if r.Nonce? then (Agreed(Keys(c, r.nonce, nonceS)), Hello(c, "s2c-hs", nonceS, pad)) else (Refused, [])
  }

  function ClientSide(c: Keyed, nonceC: seq<byte>, fromServer: seq<byte>): Outcome {
    var (r, _) := Greet(c, "s2c-hs", fromServer, false);
    if r.Nonce? then Agreed(Keys(c, nonceC, r.nonce)) else Refused
  }

  /**
   Both ends of a handshake over an honest wire, for every nonce and padding and whatever frames
   follow the hellos: they come out with the same two keys and with the frames untouched exactly when
   the client's nonce does not begin like an HTTP request; otherwise both refuse.
   */
  lemma HandshakeAgrees(c: Keyed, nonceC: seq<byte>, padC: seq<byte>, framesC: seq<byte>,
                        nonceS: seq<byte>, padS: seq<byte>, framesS: seq<byte>)
    requires MacsAreShort(c) && |nonceC| == NONCE_LEN && |nonceS| == NONCE_LEN
    requires |padC| <= MAX_PAD && |padS| <= MAX_PAD
    ensures var fromClient := Hello(c, "c2s-hs", nonceC, padC) + framesC;
            var (server, reply) := ServerSide(c, fromClient, nonceS, padS);
            var fromServer := if server.Agreed? then reply + framesS else [];
            var client := ClientSide(c, nonceC, fromServer);
            && (server.Agreed? <==> !LooksLikeHttp(nonceC[..4]))
            && client == server
            && (server.Agreed? ==>
                  && server.keys.0 == c.derive(nonceC + nonceS, "c2s-key")
                  && server.keys.1 == c.derive(nonceC + nonceS, "s2c-key")
                  && Greet(c, "c2s-hs", fromClient, true).1 == framesC
                  && Greet(c, "s2c-hs", fromServer, false).1 == framesS)
  {
    hide Greet, Hello, LooksLikeHttp;
    HelloIsRead(c, "c2s-hs", nonceC, padC, framesC, true);
    HelloIsRead(c, "s2c-hs", nonceS, padS, framesS, false);
    GreetNobody(c);
  }

  /** A hello byte by byte: nonce, one byte that counts the padding, padding, and the MAC of all that. */
  lemma HelloLayout(c: Keyed, tag: string, nonce: seq<byte>, pad: seq<byte>)
    requires MacsAreShort(c) && |nonce| == NONCE_LEN && |pad| <= MAX_PAD
    ensures var e := Hello(c, tag, nonce, pad);
            && |e| == 16 + 1 + |pad| + 16
            && e[..16] == nonce && e[16] as nat == |pad| && e[17..17 + |pad|] == pad
            && e[17 + |pad|..] == c.mac(e[..17 + |pad|], tag)
  {
    MacLength(c, Covered(nonce, pad), tag);
    assert Hello(c, tag, nonce, pad)[..17 + |pad|] == Covered(nonce, pad);
  }

  /** An HTTP probe is told by the first four characters of nine methods. */
  lemma NineMethods(buf: seq<byte>)
    requires |buf| == 4
    ensures LooksLikeHttp(buf) <==>
            || SameBytes(buf, "GET ") || SameBytes(buf, "POST") || SameBytes(buf, "HEAD")
            || SameBytes(buf, "PUT ") || SameBytes(buf, "DELE") || SameBytes(buf, "OPTI")
            || SameBytes(buf, "CONN") || SameBytes(buf, "PATC") || SameBytes(buf, "TRAC")
  {
    hide SameBytes;
    assert buf[..4] == buf;
    if LooksLikeHttp(buf) {
      var m :| m in HTTP_METHODS && SameBytes(buf, m);
    }
    assert HTTP_METHODS[0] == "GET " && HTTP_METHODS[1] == "POST" && HTTP_METHODS[2] == "HEAD";
    assert HTTP_METHODS[3] == "PUT " && HTTP_METHODS[4] == "DELE" && HTTP_METHODS[5] == "OPTI";
    assert HTTP_METHODS[6] == "CONN" && HTTP_METHODS[7] == "PATC" && HTTP_METHODS[8] == "TRAC";
  }

  /** Different labels give different keys. */
  ghost predicate SeparatesLabels(c: Keyed) {
    forall salt: seq<byte>, a: string, b: string :: a != b ==> c.derive(salt, a) != c.derive(salt, b)
  }

  /**
   No frame of one direction is sealed under the key and nonce of a frame of the other, although both
   directions number their frames from 1: the two keys differ.
   */
  lemma DirectionsApart(c: Keyed, fromClient: seq<byte>, nonceS: seq<byte>, pad: seq<byte>, m: nat, n: nat)
    requires SeparatesLabels(c) && |pad| <= MAX_PAD && ServerSide(c, fromClient, nonceS, pad).0.Agreed?
    ensures var keys := ServerSide(c, fromClient, nonceS, pad).0.keys;
            (keys.0, Codec.FrameNonce(m)) != (keys.1, Codec.FrameNonce(n))
  {
    hide Greet, Hello;
    var salt := Greet(c, "c2s-hs", fromClient, true).0.nonce + nonceS;
    assert "c2s-key"[0] != "s2c-key"[0];
    assert c.derive(salt, "c2s-key") != c.derive(salt, "s2c-key");
  }

  lemma GreetNobody(c: Keyed)
    ensures Greet(c, "s2c-hs", [], false) == (Short, [])
  {
  }
}
