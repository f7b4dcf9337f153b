/**
 What the frames of the session machine are on the wire: the eight types of stream frame and the payloads
 that carry a window. The client drops what it cannot use, such as an OPEN_OK without a window.
 */
module FrameTypes {
  import opened Bytes
  import opened Limits
  import BigEndian
  import Codec
  import M = Session
  import S = StreamObject

  const OPEN: byte := 1
  const DATA: byte := 2
  const CLOSE: byte := 3
  const PING: byte := 4
  const PONG: byte := 5
  const OPEN_OK: byte := 6
  const OPEN_ERR: byte := 7
  const WINDOW_UPDATE: byte := 8

  /** A frame of the server; `text` is the reason given in an OPEN_ERR or the padding of a PING or PONG. */
  function Downward(f: S.Down, text: seq<byte>): Codec.Message {
    match f
    case OpenOk(id, window) => Codec.Message(id, OPEN_OK, BigEndian.Put(window, 4))
    case OpenErr(id) => Codec.Message(id, OPEN_ERR, text)
    case Data(id, payload) => Codec.Message(id, DATA, payload)
    case Window(id, credit) => Codec.Message(id, WINDOW_UPDATE, BigEndian.Put(credit, 4))
    case Close(id) => Codec.Message(id, CLOSE, [])
    case Ping(id) => Codec.Message(id, PING, text)
    case Pong(id) => Codec.Message(id, PONG, text)
  }

  /** The client's switch over the type; an OPEN_OK or WINDOW_UPDATE that is too short has no number to offer. */
  function ReadDown(m: Codec.Message): Option<S.Down> {
    if m.kind == OPEN_OK && |m.payload| >= 4 then Some(S.OpenOk(m.id, BigEndian.Get(m.payload[..4])))
    else if m.kind == WINDOW_UPDATE && |m.payload| >= 4 then Some(S.Window(m.id, BigEndian.Get(m.payload[..4])))
    else if m.kind == OPEN_ERR then Some(S.OpenErr(m.id))
    else if m.kind == DATA then Some(S.Data(m.id, m.payload))
    else if m.kind == CLOSE then Some(S.Close(m.id))
    else if m.kind == PING then Some(S.Ping(m.id))
    else if m.kind == PONG then Some(S.Pong(m.id))
    else None
  }

  /** A frame of the client; `text` is the target of an OPEN, or the padding of a PONG. */
  function Upward(f: M.Up, text: seq<byte>): Codec.Message {
    match f
    case OpenFrame(id) => Codec.Message(id, OPEN, text)
    case DataFrame(id, payload) => Codec.Message(id, DATA, payload)
    case CloseFrame(id) => Codec.Message(id, CLOSE, [])
    case OtherFrame => Codec.Message(0, PONG, text)
  }

  /** The server's switch over the type. */
  function ReadUp(m: Codec.Message): M.Up {
    if m.kind == OPEN then M.OpenFrame(m.id)
    else if m.kind == DATA then M.DataFrame(m.id, m.payload)
    else if m.kind == CLOSE then M.CloseFrame(m.id)
    else M.OtherFrame
  }

  /** Windows and credits fit their field, and payloads and texts the frame. */
  predicate Fits(f: S.Down, text: seq<byte>) {
    && (f.OpenOk? ==> f.window < TWO32) && (f.Window? ==> f.credit < TWO32)
    && (f.Data? ==> |f.payload| <= MAX_PAYLOAD) && |text| <= MAX_PAYLOAD
  }

  /** Every frame of the server, encoded, is what the client reads: the same stream, bytes and numbers. */
  lemma ClientReadsIt(f: S.Down, text: seq<byte>)
    requires Fits(f, text)
    ensures var m := Codec.Decode(Codec.Encode(Downward(f, text)));
            m.Some? && ReadDown(m.value) == Some(f)
  {
    var m := Downward(f, text);
    hide Codec.Decode, Codec.Encode;
    Codec.DecodeEncode(m);
    BigEndian.Widths();
    if f.OpenOk? {
      BigEndian.GetPut(f.window, 4);
      assert m.payload[..4] == m.payload;
    } else if f.Window? {
      BigEndian.GetPut(f.credit, 4);
      assert m.payload[..4] == m.payload;
    }
  }

  lemma ServerReadsIt(f: M.Up, text: seq<byte>)
    requires M.FitsFrame(f) && |text| <= MAX_PAYLOAD
    ensures var m := Codec.Decode(Codec.Encode(Upward(f, text)));
            m.Some? && ReadUp(m.value) == f
  {
    hide Codec.Decode, Codec.Encode;
    Codec.DecodeEncode(Upward(f, text));
  }

  /** The frames that carry a number, byte by byte. */
  lemma NumbersOnTheWire(id: StreamId, n: nat)
    requires n < TWO32
    ensures var ok := Codec.Encode(Downward(S.OpenOk(id, n), []));
            && |ok| == 11 && ok[4] == 6
            && ok[7] as nat * 0x100_0000 + ok[8] as nat * 0x1_0000 + ok[9] as nat * 0x100 + ok[10] as nat == n
    ensures var wu := Codec.Encode(Downward(S.Window(id, n), []));
            && |wu| == 11 && wu[4] == 8
            && wu[7] as nat * 0x100_0000 + wu[8] as nat * 0x1_0000 + wu[9] as nat * 0x100 + wu[10] as nat == n
  {
    var ok, wu := Downward(S.OpenOk(id, n), []), Downward(S.Window(id, n), []);
    Codec.FrameLayout(ok);
    Codec.FrameLayout(wu);
    hide Codec.Encode;
    BigEndian.Widths();
    BigEndian.GetPut(n, 4);
    BigEndian.GetFour(BigEndian.Put(n, 4));
    assert Codec.Encode(ok)[7..] == ok.payload && Codec.Encode(wu)[7..] == wu.payload;
  }

  /** The type byte of every frame. */
  lemma TypesOnTheWire(f: S.Down, g: M.Up, text: seq<byte>)
    requires Fits(f, text) && M.FitsFrame(g)
    ensures Codec.Encode(Downward(f, text))[4] ==
            match f {
              case Data(_, _) => 2 case Close(_) => 3 case Ping(_) => 4 case Pong(_) => 5
              case OpenOk(_, _) => 6 case OpenErr(_) => 7 case Window(_, _) => 8
            }
    ensures Codec.Encode(Upward(g, text))[4] ==
            match g { case OpenFrame(_) => 1 case DataFrame(_, _) => 2 case CloseFrame(_) => 3 case OtherFrame => 5 }
  {
    Codec.FrameLayout(Downward(f, text));
    Codec.FrameLayout(Upward(g, text));
  }
}
