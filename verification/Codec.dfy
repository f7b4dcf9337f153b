/**
 The frame codec: a stream frame inside a padded plaintext inside a length-prefixed ciphertext. The
 cipher is a pair of functions, of which only the round trip and the 16-byte tag are assumed.
 */
module Codec {
  import opened Bytes
  import opened Limits
  import BigEndian
  import Numeral
  import Padding
  import Connection

  const TAG := 16
  const MAX_CIPHERTEXT := Padding.LARGEST + TAG

  /** seal(nonce, plaintext) and open(nonce, ciphertext) under one key. */
  datatype Aead = Aead(seal: (seq<byte>, seq<byte>) -> seq<byte>, unseal: (seq<byte>, seq<byte>) -> Option<seq<byte>>)

  ghost predicate Sound(a: Aead) {
    forall nonce: seq<byte>, x: seq<byte> ::
      a.unseal(nonce, a.seal(nonce, x)) == Some(x) && |a.seal(nonce, x)| == |x| + TAG
  }

  lemma SoundAt(a: Aead, nonce: seq<byte>, x: seq<byte>)
    requires Sound(a)
    ensures a.unseal(nonce, a.seal(nonce, x)) == Some(x) && |a.seal(nonce, x)| == |x| + TAG
  {
  }

  datatype Message = Message(id: StreamId, kind: byte, payload: seq<byte>)

  /** What writeStreamFrame seals, with the random choices that go into one frame. */
  datatype Job = Job(msg: Message, draw: nat, random: seq<byte>)

  // ----- Writing -----------------------------------------------------------------------------

  function FrameNonce(n: nat): (nonce: seq<byte>)
    ensures |nonce| == 12
  {
    [0, 0, 0, 0] + BigEndian.Put(n, 8)
  }

  function Header(m: Message): (h: seq<byte>)
    ensures |h| == FRAME_HEADER
  {
    BigEndian.Put(m.id, 4) + [m.kind] + BigEndian.Put(|m.payload|, 2)
  }

  function Encode(m: Message): seq<byte> {
    Header(m) + m.payload
  }

  function RungFor(pt: seq<byte>, draw: nat): nat {
    Padding.PickPadRung(|pt| + 2, draw)
  }

  function Inner(pt: seq<byte>, random: seq<byte>): seq<byte> {
    BigEndian.Put(|pt|, 2) + pt + random
  }

  function Sealed(a: Aead, n: nat, inner: seq<byte>): seq<byte> {
    a.seal(FrameNonce(n), inner)
  }

  function Enveloped(ct: seq<byte>): seq<byte> {
    BigEndian.Put(|ct|, 2) + ct
  }

  /** The bytes of frame number n on the wire. */
  function FrameBytes(a: Aead, n: nat, pt: seq<byte>, random: seq<byte>): seq<byte> {
    Enveloped(Sealed(a, n, Inner(pt, random)))
  }

  /** The random bytes fill the chosen rung; a payload that is too large is refused before. */
  predicate JobOk(j: Job) {
    && |j.msg.payload| <= MAX_PAYLOAD
    && 2 + |Encode(j.msg)| + |j.random| == RungFor(Encode(j.msg), j.draw)
  }

  // ----- Reading -----------------------------------------------------------------------------

  datatype Read =
    | Got(pt: seq<byte>)
    | Ended          // the connection ended before the frame did
    | BadLength | NotAuthentic | BadInner

  function Unpad(inner: seq<byte>): Read {
    if |inner| < 2 then BadInner
    else
      var size := BigEndian.Get(inner[..2]);
      if size > |inner| - 2 then BadInner else Got(inner[2..2 + size])
  }

  function OpenFrame(a: Aead, n: nat, ct: seq<byte>): Read {
    match a.unseal(FrameNonce(n), ct)
    case None => NotAuthentic
    case Some(inner) => Unpad(inner)
  }

  /** readFrame on the bytes to come: its result and what it leaves unread. */
  function ReadOne(a: Aead, n: nat, wire: seq<byte>): (r: (Read, seq<byte>))
    ensures r.0.Got? ==> |r.1| < |wire|
  {
    if |wire| < 2 then (Ended, [])
    else
      var clen := BigEndian.Get(wire[..2]);
      if clen == 0 || clen > MAX_CIPHERTEXT then (BadLength, wire[2..])
      else if |wire| < 2 + clen then (Ended, [])
      else (OpenFrame(a, n, wire[2..2 + clen]), wire[2 + clen..])
  }

  function Decode(pt: seq<byte>): Option<Message> {
    if |pt| < FRAME_HEADER then None
    else
      var size := BigEndian.Get(pt[5..7]);
      if size > |pt| - FRAME_HEADER then None
      else
        IdFits(pt[..4]);
        Some(Message(BigEndian.Get(pt[..4]), pt[4], pt[FRAME_HEADER..FRAME_HEADER + size]))
  }

  lemma IdFits(bs: seq<byte>)
    requires |bs| == 4
    ensures BigEndian.Get(bs) < TWO32
  {
    BigEndian.PutGet(bs);
    BigEndian.Widths();
  }

  /** The reader's loop: frames in wire order, until the first that does not read or parse. */
  function Received(a: Aead, n: nat, wire: seq<byte>): seq<Message>
    decreases |wire|
  {
    var (r, rest) := ReadOne(a, n, wire);
    if !r.Got? || Decode(r.pt).None? then []
    else [Decode(r.pt).value] + Received(a, n + 1, rest)
  }

  lemma ReceivedOne(a: Aead, n: nat, wire: seq<byte>, msgs: seq<Message>)
    ensures var (r, rest) := ReadOne(a, n, wire);
            msgs + Received(a, n, wire) ==
            if r.Got? && Decode(r.pt).Some? then msgs + [Decode(r.pt).value] + Received(a, n + 1, rest) else msgs
  {
  }

  method ReadFrame(c: Connection.Conn, a: Aead, n: nat) returns (r: Read)
    modifies c
    ensures (r, c.input) == ReadOne(a, n, old(c.input))
  {
    var lenBuf, ok := c.ReadFull(2);
    if !ok {
      return Ended;
    }
    var clen := BigEndian.Get(lenBuf);
    if clen == 0 || clen > MAX_CIPHERTEXT {
      return BadLength;
    }
    var ct;
    ct, ok := c.ReadFull(clen);
    if !ok {
      return Ended;
    }
    assert ct == old(c.input)[2..2 + clen];
    r := OpenFrame(a, n, ct);
  }

  /** The read loop of either end: seqRead starts at 1 and grows with every frame. */
  method ReadAll(c: Connection.Conn, a: Aead) returns (msgs: seq<Message>)
    modifies c
    ensures msgs == Received(a, 1, old(c.input))
  {
    hide Received, ReadOne, Decode;
    msgs := [];
    var seqRead: nat := 1;
    while true
      invariant msgs + Received(a, seqRead, c.input) == Received(a, 1, old(c.input))
      decreases |c.input|
    {
      ReceivedOne(a, seqRead, c.input, msgs);
      var r := ReadFrame(c, a, seqRead);
      if !r.Got? {
        return;
      }
      var m := Decode(r.pt);
      if m.None? {
        return;
      }
      seqRead := seqRead + 1;
      msgs := msgs + [m.value];
    }
  }

  // ----- Layout ------------------------------------------------------------------------------

  /** A stream frame byte by byte: id in four, type in one, length in two, most significant first, then the payload. */
  lemma FrameLayout(m: Message)
    requires |m.payload| <= MAX_PAYLOAD
    ensures var e := Encode(m);
            && |e| == 7 + |m.payload|
            && e[0] as nat * 0x100_0000 + e[1] as nat * 0x1_0000 + e[2] as nat * 0x100 + e[3] as nat == m.id
            && e[4] == m.kind
            && e[5] as nat * 0x100 + e[6] as nat == |m.payload|
            && e[7..] == m.payload
  {
    BigEndian.Widths();
    BigEndian.GetPut(m.id, 4);
    BigEndian.GetPut(|m.payload|, 2);
    BigEndian.GetFour(BigEndian.Put(m.id, 4));
    BigEndian.GetTwo(BigEndian.Put(|m.payload|, 2));
  }

  /** The nonce of frame n: four zero bytes, then n in eight, most significant first. */
  lemma NonceLayout(n: nat)
    requires n < 0x1_0000_0000_0000_0000
    ensures var e := FrameNonce(n);
            && e[0] == e[1] == e[2] == e[3] == 0
            && e[4] as nat * 0x100_0000_0000_0000 + e[5] as nat * 0x1_0000_0000_0000
               + e[6] as nat * 0x100_0000_0000 + e[7] as nat * 0x1_0000_0000
               + e[8] as nat * 0x100_0000 + e[9] as nat * 0x1_0000 + e[10] as nat * 0x100 + e[11] as nat == n
  {
    BigEndian.Widths();
    BigEndian.GetPut(n, 8);
    BigEndian.GetEight(BigEndian.Put(n, 8));
  }

  /**
   A frame on the wire byte by byte: the length of the ciphertext in two bytes and the ciphertext of, under
   the frame's nonce, the length of the plaintext in two bytes, the plaintext and the padding.
   */
  lemma WireLayout(a: Aead, n: nat, pt: seq<byte>, random: seq<byte>)
    requires Sound(a) && |pt| <= MAX_PLAINTEXT && 2 + |pt| + |random| <= Padding.LARGEST
    ensures var f := FrameBytes(a, n, pt, random);
            exists len: seq<byte> ::
              && |len| == 2 && len[0] as nat * 0x100 + len[1] as nat == |pt|
              && |f| == 2 + (2 + |pt| + |random| + 16)
              && f[0] as nat * 0x100 + f[1] as nat == |f| - 2
              && f[2..] == a.seal(FrameNonce(n), len + pt + random)
  {
    var len := BigEndian.Put(|pt|, 2);
    SoundAt(a, FrameNonce(n), len + pt + random);
    hide Sound;
    var ct := a.seal(FrameNonce(n), len + pt + random);
    BigEndian.Widths();
    BigEndian.GetPut(|pt|, 2);
    BigEndian.GetTwo(len);
    BigEndian.GetPut(|ct|, 2);
    BigEndian.GetTwo(BigEndian.Put(|ct|, 2));
    assert FrameBytes(a, n, pt, random)[2..] == ct;
  }

  /** The largest payload makes a frame that fills the largest rung to the last byte. */
  lemma LargestFillsTheTop(m: Message)
    ensures |m.payload| == MAX_PAYLOAD <==> 2 + |Encode(m)| == 16384
  {
  }

  /** readFrame case by case, on any bytes at all. */
  lemma ReadOutcomes(a: Aead, n: nat, wire: seq<byte>)
    ensures var (r, rest) := ReadOne(a, n, wire);
            if |wire| < 2 then r == Ended && rest == []
            else
              var size := wire[0] as nat * 0x100 + wire[1] as nat;
              if size == 0 || size > 16400 then r == BadLength && rest == wire[2..]
              else if |wire| < 2 + size then r == Ended && rest == []
              else rest == wire[2 + size..] && Opens(a.unseal(FrameNonce(n), wire[2..2 + size]), r)
  {
    if |wire| >= 2 {
      BigEndian.GetTwo(wire[..2]);
      var size := wire[0] as nat * 0x100 + wire[1] as nat;
      if 0 < size <= 16400 && |wire| >= 2 + size {
        var inner := a.unseal(FrameNonce(n), wire[2..2 + size]);
        if inner.Some? && |inner.value| >= 2 {
          BigEndian.GetTwo(inner.value[..2]);
        }
      }
    }
  }

  /** What is made of an opened ciphertext: its plaintext, as long as the length in front of it says. */
  predicate Opens(inner: Option<seq<byte>>, r: Read) {
    match inner
    case None => r == NotAuthentic
    case Some(bs) =>
      if |bs| < 2 then r == BadInner
      else
        var size := bs[0] as nat * 0x100 + bs[1] as nat;
        if 2 + size > |bs| then r == BadInner else r == Got(bs[2..2 + size])
  }

  // ----- Round trips -------------------------------------------------------------------------

  /** Parsing a stream frame gives back its id, type and payload. */
  lemma DecodeEncode(m: Message)
    requires |m.payload| <= MAX_PAYLOAD
    ensures Decode(Encode(m)) == Some(m)
  {
    BigEndian.Widths();
    BigEndian.GetPut(m.id, 4);
    BigEndian.GetPut(|m.payload|, 2);
    var pt := Encode(m);
    assert pt[..4] == BigEndian.Put(m.id, 4);
    assert pt[5..7] == BigEndian.Put(|m.payload|, 2);
    assert pt[FRAME_HEADER..FRAME_HEADER + |m.payload|] == m.payload;
  }

  /** Exactly the frames that begin with an encoding of m parse as m; bytes after it are ignored. */
  lemma DecodesExactly(pt: seq<byte>, m: Message)
    requires |m.payload| < 0x1_0000
    ensures Decode(pt) == Some(m) <==> Encode(m) <= pt
  {
    BigEndian.Widths();
    if Encode(m) <= pt {
      BigEndian.GetPut(m.id, 4);
      BigEndian.GetPut(|m.payload|, 2);
      assert pt[..|Encode(m)|] == Encode(m);
      assert Encode(m)[..4] == BigEndian.Put(m.id, 4) && Encode(m)[5..7] == BigEndian.Put(|m.payload|, 2);
      assert pt[..4] == BigEndian.Put(m.id, 4);
      assert pt[5..7] == BigEndian.Put(|m.payload|, 2);
      assert pt[FRAME_HEADER..FRAME_HEADER + |m.payload|] == m.payload;
    }
    if Decode(pt) == Some(m) {
      BigEndian.PutGet(pt[..4]);
      BigEndian.PutGet(pt[5..7]);
      assert pt[..FRAME_HEADER + |m.payload|] == Encode(m);
    }
  }

  lemma UnpadInner(pt: seq<byte>, random: seq<byte>)
    requires |pt| <= MAX_PLAINTEXT
    ensures Unpad(Inner(pt, random)) == Got(pt)
  {
    BigEndian.Widths();
    BigEndian.GetPut(|pt|, 2);
    var inner := Inner(pt, random);
    assert inner[..2] == BigEndian.Put(|pt|, 2);
    assert inner[2..2 + |pt|] == pt;
  }

  /** Every frame the writer makes fits the reader's length check, its own pooled buffer, and the field. */
  lemma FrameFits(j: Job)
    requires JobOk(j)
    ensures var size := RungFor(Encode(j.msg), j.draw);
            && |Inner(Encode(j.msg), j.random)| == size && size in Padding.PAD_SIZES
            && 0 < size + TAG <= MAX_CIPHERTEXT < Numeral.Power(256, 2)
  {
    BigEndian.Widths();
    Padding.PickedRungFits(|Encode(j.msg)| + 2, j.draw);
  }

  lemma ReadEnveloped(a: Aead, n: nat, ct: seq<byte>, rest: seq<byte>)
    requires 0 < |ct| <= MAX_CIPHERTEXT
    ensures ReadOne(a, n, Enveloped(ct) + rest) == (OpenFrame(a, n, ct), rest)
  {
    BigEndian.Widths();
    BigEndian.GetPut(|ct|, 2);
    var wire := Enveloped(ct) + rest;
    assert wire[..2] == BigEndian.Put(|ct|, 2);
    assert wire[2..2 + |ct|] == ct;
    assert wire[2 + |ct|..] == rest;
  }

  /** A frame cut short, anywhere, reads as the end of the connection. */
  lemma ReadTruncated(a: Aead, n: nat, ct: seq<byte>, k: nat)
    requires 0 < |ct| <= MAX_CIPHERTEXT && k < |Enveloped(ct)|
    ensures ReadOne(a, n, Enveloped(ct)[..k]) == (Ended, [])
  {
    if k >= 2 {
      BigEndian.Widths();
      BigEndian.GetPut(|ct|, 2);
      assert Enveloped(ct)[..k][..2] == BigEndian.Put(|ct|, 2);
    }
  }

  lemma JobFrame(a: Aead, n: nat, j: Job)
    requires Sound(a) && JobOk(j)
    ensures var ct := Sealed(a, n, Inner(Encode(j.msg), j.random));
            && 0 < |ct| <= MAX_CIPHERTEXT && OpenFrame(a, n, ct) == Got(Encode(j.msg))
            && |ct| == RungFor(Encode(j.msg), j.draw) + TAG
  {
    hide Sound;
    FrameFits(j);
    SoundAt(a, FrameNonce(n), Inner(Encode(j.msg), j.random));
    UnpadInner(Encode(j.msg), j.random);
  }

  /** Nonces never repeat under one key: different frames, below 2^64, have different nonces. */
  lemma NoncesDiffer(m: nat, n: nat)
    requires m < n < 0x1_0000_0000_0000_0000
    ensures FrameNonce(m) != FrameNonce(n)
  {
    BigEndian.Widths();
    BigEndian.PutIsInjective(m, n, 8);
    assert FrameNonce(m)[4..] == BigEndian.Put(m, 8);
    assert FrameNonce(n)[4..] == BigEndian.Put(n, 8);
  }
}
