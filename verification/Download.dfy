/**
 Downloads: from the upstream through the server's reader, the shared wire, the client's read loop and
 a bounded channel, to the bytes that `Read` hands out. One stream is followed; the wire carries the
 frames of all streams, and closes may come from anywhere at any time.
 */
module Download {
  import opened Bytes
  import opened Limits
  import S = StreamObject

  const CHANNEL := 32

  /** The server's upstream reader: about to read, holding what it read, or gone. */
  datatype Source = Reading | Got(data: Chunk, ended: bool) | Closing | Gone

  /**
   `read` is all the reader took from the upstream, `finished` that the upstream has ended. On the
   client, `table` is the stream's presence in the session's table, `closed` its closed flag (the
   channel is closed with it), `handing` the chunk `deliver` is blocked on, `pending` what is left of
   the chunk being read, `output` all that Read returned and `eof` that Read has returned io.EOF.
   `cut` records that something other than the upstream's own end has closed or broken the stream,
   `lost` that a DATA frame could not be written.
   */
  datatype Pull = Pull(
    id: StreamId, read: seq<byte>, finished: bool, source: Source, wire: seq<S.Down>,
    table: bool, closed: bool, handing: Option<Chunk>, incoming: seq<Chunk>, pending: Option<seq<byte>>,
    output: seq<byte>, eof: bool, cut: bool, lost: bool)

  function Begin(id: StreamId): Pull {
    Pull(id, [], false, Reading, [], true, false, None, [], None, [], false, false, false)
  }

  datatype Step =
    | ReadUpstream(data: Chunk, ended: bool)   // upstream.Read
    | SendData(ok: bool)                       // the DATA frame, if anything was read
    | SendClose(ok: bool)                      // the CLOSE frame after the upstream's end
    | LeaveClosed                              // the reader sees `closing` and leaves without a word
    | OtherClose                               // the pump or the read loop writes this stream's CLOSE
    | OtherFrame(f: S.Down)                    // any frame that is neither DATA nor CLOSE of this stream
    | Take                                     // the client's read loop takes the next frame
    | Hand                                     // deliver's channel send goes through
    | Abandon                                  // open gave up on the stream: it leaves the table
    | Shut                                     // the client's session closes
    | ReadSome(size: nat)                      // Read with a buffer of this size

  predicate Ours(f: S.Down, id: StreamId) {
    f.id == id && (f.Data? || f.Close?)
  }

  predicate Can(p: Pull, a: Step) {
    match a
    case ReadUpstream(data, _) => p.source.Reading? && |data| <= MAX_PAYLOAD
    case SendData(_) => p.source.Got?
    case SendClose(_) => p.source.Closing?
    case LeaveClosed => p.source.Reading?
    case OtherClose => true
    case OtherFrame(f) => !Ours(f, p.id)
    case Take => p.handing.None? && p.wire != []
    case Hand => p.handing.Some? && |p.incoming| < CHANNEL
    case Abandon => p.handing.None?
    case Shut => p.handing.None?
    case ReadSome(_) => p.pending.Some? || p.incoming != [] || p.closed
  }

  /** One call of Read: continue the pending chunk, start the next one, or report the end. */
  function DoRead(p: Pull, size: nat): Pull
    requires p.pending.Some? || p.incoming != [] || p.closed
  {
    if p.pending.None? && p.incoming == [] then p.(eof := true)
    else
      var chunk := if p.pending.Some? then p.pending.value else p.incoming[0];
      var rest := if p.pending.Some? then p.incoming else p.incoming[1..];
      var n := if size < |chunk| then size else |chunk|;
      p.(incoming := rest, output := p.output + chunk[..n],
         pending := if n < |chunk| then Some(chunk[n..]) else None)
  }

  /**
   The client's read loop on the next frame: DATA goes to deliver, which holds closeMu while it waits for
   room in the channel and drops the chunk if the stream is closed; CLOSE closes the channel.
   */
  function DoTake(p: Pull): Pull
    requires p.wire != []
  {
    var f := p.wire[0];
    var q := p.(wire := p.wire[1..]);
    if f.id != p.id || !p.table then q
    else match f
      case Data(_, payload) => if p.closed then q else q.(handing := Some(payload))
      case Close(_) => q.(closed := true, table := false)
      case _ => q
  }

  /** The server's side: its reader, and whoever else writes frames. */
  predicate AtServer(a: Step) {
    a.ReadUpstream? || a.SendData? || a.SendClose? || a.LeaveClosed? || a.OtherClose? || a.OtherFrame?
  }

  /** What a server step does to the reader's end, given what the client's end looks like. */
  function DoServer(p: Pull, a: Step): (q: Pull)
    requires Can(p, a) && AtServer(a)
    ensures q.output == p.output && q.pending == p.pending && q.incoming == p.incoming && q.handing == p.handing
    ensures p.read <= q.read && q.closed == p.closed && q.table == p.table && q.eof == p.eof && q.id == p.id
  {
    match a
    case ReadUpstream(data, ended) =>
      p.(source := Got(data, ended), read := p.read + data, finished := ended)
    case SendData(ok) =>
      var next := if p.source.ended then Closing else Reading;
      if p.source.data == [] then p.(source := next)
      else if ok then p.(source := next, wire := p.wire + [S.Data(p.id, p.source.data)])
      else p.(source := Gone, cut := true, lost := true)
    case SendClose(ok) => p.(source := Gone, wire := p.wire + if ok then [S.Close(p.id)] else [])
    case LeaveClosed => p.(source := Gone, cut := true)
    case OtherClose => p.(wire := p.wire + [S.Close(p.id)], cut := true)
    case OtherFrame(f) => p.(wire := p.wire + [f])
  }

  function Do(p: Pull, a: Step): Pull
    requires Can(p, a)
  {
    if AtServer(a) then DoServer(p, a)
    else match a
      case Take => DoTake(p)
      case Hand => p.(handing := None, incoming := p.incoming + [p.handing.value])
      case Abandon => p.(table := false, cut := true)
      case Shut => p.(closed := true, cut := true)
      case ReadSome(size) => DoRead(p, size)
  }

  // ----- Where the bytes are -----------------------------------------------------------------

  function PayloadOf(f: S.Down, id: StreamId): seq<byte> {
    if f.Data? && f.id == id then f.payload else []
  }

  function DownBytes(wire: seq<S.Down>, id: StreamId): seq<byte> {
    if wire == [] then [] else PayloadOf(wire[0], id) + DownBytes(wire[1..], id)
  }

  lemma {:induction false} DownBytesSnoc(wire: seq<S.Down>, f: S.Down, id: StreamId)
    ensures DownBytes(wire + [f], id) == DownBytes(wire, id) + PayloadOf(f, id)
  {
    if wire == [] {
      assert DownBytes([f], id) == PayloadOf(f, id) + DownBytes([], id);
    } else {
      assert (wire + [f])[1..] == wire[1..] + [f];
      DownBytesSnoc(wire[1..], f, id);
    }
  }

  function OrEmpty(o: Option<seq<byte>>): seq<byte> {
    if o.Some? then o.value else []
  }

  /** What the client has: returned by Read, pending, in the channel, and in deliver's hands. */
  function Arrived(p: Pull): seq<byte> {
    p.output + OrEmpty(p.pending) + Flat(p.incoming) + OrEmpty(p.handing)
  }

  /** What the reader has read and not yet written. */
  function Unsent(p: Pull): seq<byte> {
    if p.source.Got? then p.source.data else []
  }

  /** While the client can still take it, everything read is somewhere, in order. */
  predicate CompleteOk(p: Pull) {
    p.table && !p.closed ==>
      && Arrived(p) + DownBytes(p.wire, p.id) <= p.read
      && (!p.lost ==> Arrived(p) + DownBytes(p.wire, p.id) + Unsent(p) == p.read)
  }

  /** The reader's progress: it has seen the end exactly when it says so. */
  predicate SourceOk(p: Pull) {
    && (p.source.Reading? ==> !p.finished)
    && (p.source.Got? ==> (p.source.ended <==> p.finished))
    && (p.source.Closing? ==> p.finished)
    && (p.source.Gone? && !p.cut ==> p.finished)
    && (p.lost ==> p.cut && p.source.Gone?)
  }

  /** Without a cut the CLOSE follows all DATA, and the client closes only on taking it. */
  ghost predicate OrderlyOk(p: Pull) {
    !p.cut ==>
      && (p.closed <==> !p.table)
      && (p.closed ==> p.source.Gone? && Arrived(p) == p.read)
      && (forall k: nat | k < |p.wire| && p.wire[k] == S.Close(p.id) :: p.source.Gone? && !p.closed)
      && (forall a: nat, b: nat | a < b < |p.wire| && p.wire[a] == S.Close(p.id) :: !Ours(p.wire[b], p.id))
  }

  ghost predicate PullOk(p: Pull) {
    && Arrived(p) <= p.read && CompleteOk(p) && SourceOk(p) && OrderlyOk(p)
    && (p.closed ==> p.handing.None?)
    && (p.pending.Some? ==> p.pending.value != [])
    && |p.incoming| <= 32
    && (p.eof ==> p.closed && p.pending.None? && p.incoming == [])
  }

  // ----- Steps -------------------------------------------------------------------------------

  lemma {:induction false} NothingAfter(wire: seq<S.Down>, id: StreamId)
    requires forall k: nat | k < |wire| :: !Ours(wire[k], id)
    ensures DownBytes(wire, id) == []
  {
    if wire != [] {
      NothingAfter(wire[1..], id);
    }
  }

  lemma Splits(a: seq<byte>, chunk: seq<byte>, n: nat, rest: seq<byte>, tail: seq<byte>)
    requires n <= |chunk|
    ensures a + chunk + rest + tail == (a + chunk[..n]) + chunk[n..] + rest + tail
    ensures a + [] + (chunk + rest) + tail == (a + chunk[..n]) + chunk[n..] + rest + tail
  {
    assert chunk == chunk[..n] + chunk[n..];
    assert a + chunk == (a + chunk[..n]) + chunk[n..];
    assert a + [] + (chunk + rest) == a + chunk + rest;
  }

  /** Read moves bytes from the chunk at hand to the output and loses none, for every buffer size. */
  lemma ReadKeepsArrived(p: Pull, size: nat)
    requires p.pending.Some? || p.incoming != [] || p.closed
    ensures Arrived(DoRead(p, size)) == Arrived(p) && p.output <= DoRead(p, size).output
  {
    if p.pending.Some? || p.incoming != [] {
      var q := DoRead(p, size);
      var chunk := if p.pending.Some? then p.pending.value else p.incoming[0];
      var n := if size < |chunk| then size else |chunk|;
      assert OrEmpty(q.pending) == chunk[n..];
      assert p.pending.None? ==> Flat(p.incoming) == chunk + Flat(q.incoming);
      Splits(p.output, chunk, n, Flat(q.incoming), OrEmpty(p.handing));
      hide Flat, DoRead;
    }
  }

  lemma ReadKeepsOk(p: Pull, size: nat)
    requires PullOk(p) && (p.pending.Some? || p.incoming != [] || p.closed)
    ensures PullOk(DoRead(p, size))
  {
    ReadKeepsArrived(p, size);
    hide Arrived, DownBytes;
  }

  lemma HandKeepsOk(p: Pull)
    requires PullOk(p) && Can(p, Hand)
    ensures PullOk(Do(p, Hand))
  {
    FlatSnoc(p.incoming, p.handing.value);
    assert Arrived(Do(p, Hand)) == Arrived(p);
    hide Arrived, DownBytes;
  }

  lemma Assoc(a: seq<byte>, b: seq<byte>, c: seq<byte>)
    ensures (a + b) + c == a + (b + c)
  {
  }

  /** A frame taken from the wire moves its payload, if it is ours, from the wire to deliver's hands. */
  lemma TakeMovesBytes(p: Pull)
    requires Can(p, Take) && p.table && !p.closed
    ensures Arrived(DoTake(p)) + DownBytes(DoTake(p).wire, p.id) == Arrived(p) + DownBytes(p.wire, p.id)
    ensures Arrived(DoTake(p)) == Arrived(p) + PayloadOf(p.wire[0], p.id)
  {
    hide Flat, DownBytes, DoTake;
    TakeFields(p);
    FirstDown(p.wire, p.id);
    var kept := p.output + OrEmpty(p.pending) + Flat(p.incoming);
    assert kept + [] == kept;
    Assoc(kept, PayloadOf(p.wire[0], p.id), DownBytes(p.wire[1..], p.id));
  }

  lemma TakeFields(p: Pull)
    requires Can(p, Take) && p.table && !p.closed
    ensures var q := DoTake(p);
            && q.output == p.output && q.pending == p.pending && q.incoming == p.incoming && q.wire == p.wire[1..]
            && OrEmpty(q.handing) == PayloadOf(p.wire[0], p.id) && p.handing.None?
  {
  }

  lemma FirstDown(wire: seq<S.Down>, id: StreamId)
    requires wire != []
    ensures DownBytes(wire, id) == PayloadOf(wire[0], id) + DownBytes(wire[1..], id)
  {
  }

  lemma TakeLeavesRest(p: Pull)
    requires Can(p, Take) && (!p.table || p.closed)
    ensures Arrived(DoTake(p)) == Arrived(p)
  {
    hide Flat, DownBytes;
  }

  lemma CloseTaken(p: Pull)
    requires PullOk(p) && Can(p, Take) && !p.cut && p.wire[0] == S.Close(p.id)
    ensures Arrived(p) == p.read
  {
    hide Arrived;
    var rest := p.wire[1..];
    assert forall k: nat | k < |rest| :: rest[k] == p.wire[k + 1];
    NothingAfter(rest, p.id);
    assert DownBytes(p.wire, p.id) == PayloadOf(p.wire[0], p.id) + DownBytes(rest, p.id);
    hide DownBytes;
    assert Arrived(p) + [] + [] == Arrived(p);
  }

  lemma TakeKeepsComplete(p: Pull)
    requires CompleteOk(p) && Can(p, Take)
    ensures CompleteOk(DoTake(p))
  {
    hide DoTake, Arrived, DownBytes;
    TakeIsClients(p);
    if p.table && !p.closed {
      TakeMovesBytes(p);
    }
  }

  lemma TakeIsClients(p: Pull)
    requires Can(p, Take)
    ensures var q := DoTake(p);
            && q.read == p.read && q.source == p.source && q.lost == p.lost && q.id == p.id
            && (q.table ==> p.table) && (p.closed ==> q.closed)
  {
  }

  /** What has arrived is still a prefix after the next frame. */
  lemma TakeKeepsPrefix(p: Pull)
    requires PullOk(p) && Can(p, Take)
    ensures Arrived(DoTake(p)) <= DoTake(p).read
    ensures !p.cut && p.wire[0] == S.Close(p.id) ==> Arrived(p) == p.read
    ensures Arrived(DoTake(p)) == Arrived(p) || (p.table && !p.closed && p.wire[0] != S.Close(p.id))
  {
    var q := DoTake(p);
    if p.table && !p.closed {
      TakeMovesBytes(p);
      var kept := Arrived(p);
      assert kept + [] == kept;
    } else {
      TakeLeavesRest(p);
    }
    if !p.cut && p.wire[0] == S.Close(p.id) {
      CloseTaken(p);
    }
    assert q.read == p.read;
    hide Arrived, DownBytes, OrderlyOk, SourceOk, DoTake;
    assert Arrived(q) <= Arrived(q) + DownBytes(q.wire, p.id);
  }

  lemma TakeKeepsOk(p: Pull)
    requires PullOk(p) && Can(p, Take)
    ensures PullOk(DoTake(p))
  {
    TakeKeepsPrefix(p);
    TakeKeepsComplete(p);
    TakeKeepsOrderly(p);
    hide Arrived, DownBytes, OrderlyOk, CompleteOk;
  }

  lemma TakeKeepsOrderly(p: Pull)
    requires PullOk(p) && Can(p, Take)
    requires !p.cut && p.wire[0] == S.Close(p.id) ==> Arrived(p) == p.read
    requires Arrived(DoTake(p)) == Arrived(p) || (p.table && !p.closed && p.wire[0] != S.Close(p.id))
    ensures OrderlyOk(DoTake(p))
  {
    hide Arrived, DownBytes, CompleteOk, SourceOk;
    var q := DoTake(p);
    assert forall k: nat | k < |q.wire| :: q.wire[k] == p.wire[k + 1];
  }

  lemma Appends(wire: seq<S.Down>, f: S.Down, id: StreamId)
    ensures DownBytes(wire + [f], id) == DownBytes(wire, id) + PayloadOf(f, id)
    ensures !f.Data? ==> DownBytes(wire + [f], id) == DownBytes(wire, id)
    ensures f.id != id ==> DownBytes(wire + [f], id) == DownBytes(wire, id)
  {
    DownBytesSnoc(wire, f, id);
    assert DownBytes(wire, id) + [] == DownBytes(wire, id);
  }

  lemma SameArrived(p: Pull, a: Step)
    requires Can(p, a) && AtServer(a)
    ensures Arrived(Do(p, a)) == Arrived(p)
  {
    hide DoServer, Can, AtServer, Flat;
  }

  /** What sending, or failing to send, does to the bytes on the wire and in the reader's hands. */
  lemma SendMovesBytes(p: Pull, ok: bool)
    requires Can(p, SendData(ok)) && !p.lost
    ensures var q := Do(p, SendData(ok));
            && q.read == p.read && Unsent(q) == []
            && (if q.lost then DownBytes(q.wire, p.id) == DownBytes(p.wire, p.id)
                else DownBytes(q.wire, p.id) == DownBytes(p.wire, p.id) + Unsent(p))
  {
    hide DownBytes, Do;
    SendFields(p, ok);
    Appends(p.wire, S.Data(p.id, p.source.data), p.id);
    assert DownBytes(p.wire, p.id) + [] == DownBytes(p.wire, p.id);
  }

  lemma SendFields(p: Pull, ok: bool)
    requires Can(p, SendData(ok)) && !p.lost
    ensures var q := Do(p, SendData(ok));
            && q.read == p.read && !q.source.Got? && (q.lost ==> q.wire == p.wire)
            && (!q.lost ==> q.wire == if p.source.data == [] then p.wire else p.wire + [S.Data(p.id, p.source.data)])
  {
  }

  /** No other server step touches this stream's bytes on the wire. */
  lemma OthersMoveNothing(p: Pull, a: Step)
    requires Can(p, a) && AtServer(a) && !a.SendData?
    ensures var q := Do(p, a);
            && DownBytes(q.wire, p.id) == DownBytes(p.wire, p.id) && q.lost == p.lost
            && (if a.ReadUpstream? then Unsent(p) == [] && q.read == p.read + Unsent(q)
                else Unsent(q) == Unsent(p) && q.read == p.read)
  {
    hide DownBytes;
    assert p.wire + [] == p.wire;
    var f := if a.OtherFrame? then a.f else S.Close(p.id);
    Appends(p.wire, f, p.id);
  }

  lemma ServerKeepsComplete(p: Pull, a: Step)
    requires CompleteOk(p) && SourceOk(p) && Can(p, a) && AtServer(a)
    ensures CompleteOk(Do(p, a))
  {
    SameArrived(p, a);
    var x, w := Arrived(p), DownBytes(p.wire, p.id);
    if a.SendData? {
      SendMovesBytes(p, a.ok);
      Assoc(x, w, Unsent(p));
    } else {
      OthersMoveNothing(p, a);
    }
    hide Arrived, DownBytes;
    var q := Do(p, a);
    assert x + w + [] == x + w;
    assert x + w <= x + w + Unsent(q);
  }

  lemma ServerKeepsOrderly(p: Pull, a: Step)
    requires PullOk(p) && Can(p, a) && AtServer(a)
    requires Arrived(Do(p, a)) == Arrived(p)
    ensures OrderlyOk(Do(p, a)) && SourceOk(Do(p, a))
  {
    hide Arrived, DownBytes, CompleteOk;
  }

  lemma ServerKeepsOk(p: Pull, a: Step)
    requires PullOk(p) && Can(p, a) && AtServer(a)
    ensures PullOk(Do(p, a))
  {
    hide Arrived, DownBytes, CompleteOk, SourceOk, OrderlyOk, DoServer, Can, AtServer;
    SameArrived(p, a);
    ServerKeepsComplete(p, a);
    ServerKeepsOrderly(p, a);
  }

  lemma StepKeepsOk(p: Pull, a: Step)
    requires PullOk(p) && Can(p, a)
    ensures PullOk(Do(p, a)) && Do(p, a).id == p.id
  {
    hide PullOk;
    match a
    case Take => TakeKeepsOk(p);
    case Hand => HandKeepsOk(p);
    case ReadSome(size) => ReadKeepsOk(p, size);
    case Abandon => LeaveKeepsOk(p, a);
    case Shut => LeaveKeepsOk(p, a);
    case _ => ServerKeepsOk(p, a);
  }

  lemma LeaveKeepsOk(p: Pull, a: Step)
    requires PullOk(p) && Can(p, a) && (a.Abandon? || a.Shut?)
    ensures PullOk(Do(p, a))
  {
    assert Arrived(Do(p, a)) == Arrived(p);
    hide Arrived, DownBytes;
  }

  // ----- Runs --------------------------------------------------------------------------------

  predicate Legal(p: Pull, run: seq<Step>)
    decreases |run|
  {
    run == [] || (Can(p, run[0]) && Legal(Do(p, run[0]), run[1..]))
  }

  function After(p: Pull, run: seq<Step>): Pull
    requires Legal(p, run)
    decreases |run|
  {
    if run == [] then p else After(Do(p, run[0]), run[1..])
  }

  lemma {:induction false} RunKeepsOk(p: Pull, run: seq<Step>)
    requires PullOk(p) && Legal(p, run)
    ensures PullOk(After(p, run)) && After(p, run).id == p.id
    decreases |run|
  {
    hide PullOk, Can, Do;
    if run != [] {
      StepKeepsOk(p, run[0]);
      RunKeepsOk(Do(p, run[0]), run[1..]);
    }
  }

  lemma BeginOk(id: StreamId)
    ensures PullOk(Begin(id)) && EndOk(Begin(id))
  {
  }

  /**
   Download integrity: what Read has returned is always a prefix, in order, of what the upstream
   sent, for any buffer sizes; nothing is missing while the stream is open and no write has failed; and
   if only the upstream's own end closes the stream, io.EOF comes after every byte and only after that end.
   */
  lemma DownloadIntegrity(id: StreamId, run: seq<Step>)
    requires Legal(Begin(id), run)
    ensures var p := After(Begin(id), run);
            && p.output <= p.read
            && (p.table && !p.closed && !p.lost ==> Arrived(p) + DownBytes(p.wire, id) + Unsent(p) == p.read)
            && (p.eof && !p.cut ==> p.output == p.read && p.finished)
  {
    hide Legal, After, Can, Do, Arrived, PullOk;
    BeginOk(id);
    RunKeepsOk(Begin(id), run);
    Conclude(After(Begin(id), run));
  }

  /** What the invariant says to a user of the stream. */
  lemma Conclude(p: Pull)
    requires PullOk(p)
    ensures p.output <= p.read
    ensures p.table && !p.closed && !p.lost ==> Arrived(p) + DownBytes(p.wire, p.id) + Unsent(p) == p.read
    ensures p.eof && !p.cut ==> p.output == p.read && p.finished
  {
    OutputFirst(p);
    if p.eof && !p.cut {
      NothingLeft(p);
    }
    hide Arrived, DownBytes;
  }

  lemma NothingLeft(p: Pull)
    requires p.pending.None? && p.incoming == [] && p.handing.None?
    ensures Arrived(p) == p.output
  {
  }

  lemma OutputFirst(p: Pull)
    ensures p.output <= Arrived(p)
  {
  }

  // ----- The end is heard --------------------------------------------------------------------

  /** Once the reader has left after the upstream's end, the client is closed or its CLOSE is on the wire. */
  ghost predicate EndOk(p: Pull) {
    !p.cut && p.source.Gone? ==> p.closed || S.Close(p.id) in p.wire
  }

  /** A CLOSE stays on the wire until it is taken, and taking it closes a stream that is still listened to. */
  lemma StepKeepsEnd(p: Pull, a: Step)
    requires PullOk(p) && EndOk(p) && Can(p, a) && a != SendClose(false)
    ensures EndOk(Do(p, a))
  {
    hide Arrived, DownBytes, CompleteOk, SourceOk, DoRead;
    if a.Take? {
      if S.Close(p.id) in p.wire {
        assert p.wire[0] == S.Close(p.id) || S.Close(p.id) in p.wire[1..];
      }
    } else if a.ReadSome? {
      ReadLeaves(p, a.size);
    }
  }

  lemma ReadLeaves(p: Pull, size: nat)
    requires p.pending.Some? || p.incoming != [] || p.closed
    ensures var q := DoRead(p, size);
            && q.wire == p.wire && q.closed == p.closed && q.cut == p.cut && q.source == p.source && q.id == p.id
            && q.table == p.table
  {
  }

  lemma {:induction false} RunKeepsEnd(p: Pull, run: seq<Step>)
    requires PullOk(p) && EndOk(p) && Legal(p, run) && SendClose(false) !in run
    ensures EndOk(After(p, run))
    decreases |run|
  {
    hide PullOk, EndOk, Can, Do;
    if run != [] {
      StepKeepsOk(p, run[0]);
      StepKeepsEnd(p, run[0]);
      RunKeepsEnd(Do(p, run[0]), run[1..]);
    }
  }

  /**
   The upstream's end reaches the client. In every run in which that CLOSE could be written and nothing
   else closed or broke the stream: once the reader is gone, the client is closed or the CLOSE is on the
   wire; and once nothing is under way any more, the next Read, of whatever size, returns io.EOF and
   every byte has been returned.
   */
  lemma EndIsHeard(id: StreamId, run: seq<Step>)
    requires Legal(Begin(id), run) && SendClose(false) !in run
    requires !After(Begin(id), run).cut && After(Begin(id), run).source.Gone?
    ensures var p := After(Begin(id), run);
            && p.finished && (p.closed || S.Close(id) in p.wire)
            && (p.wire == [] && p.handing.None? && p.incoming == [] && p.pending.None? ==>
                  forall size: nat ::
                    Can(p, ReadSome(size)) && Do(p, ReadSome(size)).eof && Do(p, ReadSome(size)).output == p.read)
  {
    hide Legal, After, Can, Do, Arrived, PullOk;
    BeginOk(id);
    RunKeepsOk(Begin(id), run);
    RunKeepsEnd(Begin(id), run);
    var p := After(Begin(id), run);
    GoneIsFinished(p);
    forall size: nat | p.wire == [] && p.handing.None? && p.incoming == [] && p.pending.None?
      ensures Can(p, ReadSome(size)) && Do(p, ReadSome(size)).eof && Do(p, ReadSome(size)).output == p.read
    {
      LastRead(p, size);
    }
  }

  lemma GoneIsFinished(p: Pull)
    requires PullOk(p) && !p.cut && p.source.Gone?
    ensures p.finished
  {
    hide Arrived, DownBytes;
  }

  lemma LastRead(p: Pull, size: nat)
    requires PullOk(p) && EndOk(p) && !p.cut && p.source.Gone?
    requires p.wire == [] && p.handing.None? && p.incoming == [] && p.pending.None?
    ensures Can(p, ReadSome(size)) && Do(p, ReadSome(size)).eof && Do(p, ReadSome(size)).output == p.read
  {
    hide DownBytes;
    NothingLeft(p);
  }

  /** The client is closed, or has given the stream up, or will read a CLOSE of it. */
  predicate CloseUnderWay(p: Pull) {
    p.closed || !p.table || S.Close(p.id) in p.wire
  }

  lemma StepKeepsClose(p: Pull, a: Step)
    requires Can(p, a)
    ensures Do(p, a).id == p.id && (CloseUnderWay(p) || a.OtherClose? ==> CloseUnderWay(Do(p, a)))
  {
    hide DoRead;
    if a.Take? && S.Close(p.id) in p.wire {
      assert p.wire[0] == S.Close(p.id) || S.Close(p.id) in p.wire[1..];
    } else if a.ReadSome? {
      ReadLeaves(p, a.size);
    }
  }

  /** Nor is a CLOSE that the pump or the read loop wrote ever lost. */
  lemma {:induction false} OthersCloseIsHeard(p: Pull, run: seq<Step>)
    requires Legal(p, run) && (CloseUnderWay(p) || OtherClose in run)
    ensures CloseUnderWay(After(p, run))
    decreases |run|
  {
    hide CloseUnderWay, Can, Do;
    if run != [] {
      StepKeepsClose(p, run[0]);
      OthersCloseIsHeard(Do(p, run[0]), run[1..]);
    }
  }

  /** The frame that a step has to write, as the client will see it. */
  function Says(p: Pull, a: Step): seq<S.Down>
    requires Can(p, a)
  {
    match a
    case SendData(true) => if p.source.data == [] then [] else [S.Data(p.id, p.source.data)]
    case SendClose(true) => [S.Close(p.id)]
    case OtherClose => [S.Close(p.id)]
    case OtherFrame(f) => [f]
    case _ => []
  }

  function Said(p: Pull, run: seq<Step>): seq<S.Down>
    requires Legal(p, run)
    decreases |run|
  {
    if run == [] then [] else Says(p, run[0]) + Said(Do(p, run[0]), run[1..])
  }

  /** The frames that the client's read loop takes. */
  function Heard(p: Pull, run: seq<Step>): seq<S.Down>
    requires Legal(p, run)
    decreases |run|
  {
    if run == [] then []
    else Takes(p, run[0]) + Heard(Do(p, run[0]), run[1..])
  }

  function Takes(p: Pull, a: Step): seq<S.Down>
    requires Can(p, a)
  {
    if a.Take? then [p.wire[0]] else []
  }

  lemma StepKeepsWire(p: Pull, a: Step)
    requires Can(p, a)
    ensures Takes(p, a) + Do(p, a).wire == p.wire + Says(p, a)
  {
    hide DoRead, DoServer, DoTake;
    assert [] + p.wire == p.wire == p.wire + [];
    if AtServer(a) {
      ServerWrites(p, a);
      assert [] + DoServer(p, a).wire == DoServer(p, a).wire;
    } else if a.ReadSome? {
      ReadLeaves(p, a.size);
    } else if a.Take? {
      TakenOff(p);
      assert [p.wire[0]] + p.wire[1..] == p.wire;
    }
  }

  lemma ServerWrites(p: Pull, a: Step)
    requires Can(p, a) && AtServer(a)
    ensures DoServer(p, a).wire == p.wire + Says(p, a)
  {
    assert p.wire + [] == p.wire;
  }

  lemma TakenOff(p: Pull)
    requires p.wire != []
    ensures DoTake(p).wire == p.wire[1..]
  {
  }

  /** The shared wire is faithful: frames of all streams are taken in the order in which they were written. */
  lemma {:induction false} WireIsFaithful(p: Pull, run: seq<Step>)
    requires Legal(p, run)
    ensures Heard(p, run) + After(p, run).wire == p.wire + Said(p, run)
    decreases |run|
  {
    hide Can, Do, Says, Takes;
    if run == [] {
      assert [] + p.wire == p.wire == p.wire + [];
    } else {
      var q := Do(p, run[0]);
      StepKeepsWire(p, run[0]);
      WireIsFaithful(q, run[1..]);
      var took := Takes(p, run[0]);
      calc {
        Heard(p, run) + After(p, run).wire;
        (took + Heard(q, run[1..])) + After(p, run).wire;
        took + (Heard(q, run[1..]) + After(p, run).wire);
        took + (q.wire + Said(q, run[1..]));
        (took + q.wire) + Said(q, run[1..]);
        (p.wire + Says(p, run[0])) + Said(q, run[1..]);
        p.wire + Said(p, run);
      }
    }
  }

  /** A stream that is closed, or that its user has given up, stays so. */
  lemma {:induction false} ClientEndsStay(p: Pull, run: seq<Step>)
    requires Legal(p, run)
    ensures p.closed || Shut in run ==> After(p, run).closed
    ensures !p.table || Abandon in run ==> !After(p, run).table
    decreases |run|
  {
    hide Can, Do;
    if run != [] {
      StepKeepsEnds(p, run[0]);
      ClientEndsStay(Do(p, run[0]), run[1..]);
    }
  }

  lemma StepKeepsEnds(p: Pull, a: Step)
    requires Can(p, a)
    ensures p.closed || a.Shut? ==> Do(p, a).closed
    ensures !p.table || a.Abandon? ==> !Do(p, a).table
  {
    hide DoRead;
    if a.ReadSome? {
      ReadLeaves(p, a.size);
    }
  }

  // ----- Reading to the end ------------------------------------------------------------------

  function Reads(sizes: seq<nat>): seq<Step> {
    seq(|sizes|, k requires 0 <= k < |sizes| => ReadSome(sizes[k]))
  }

  /** What Read has not returned, of what is in the channel or pending. */
  function Unread(p: Pull): seq<byte> {
    OrEmpty(p.pending) + Flat(p.incoming)
  }

  /** One read with a non-empty buffer returns a byte or uses up an empty chunk. */
  lemma ReadGains(p: Pull, size: nat)
    requires size > 0 && (p.pending.Some? ==> p.pending.value != [])
    requires p.pending.Some? || p.incoming != []
    ensures var q := Do(p, ReadSome(size));
            && q.output + Unread(q) == p.output + Unread(p)
            && |Unread(q)| + |q.incoming| < |Unread(p)| + |p.incoming|
            && (q.pending.Some? ==> q.pending.value != [])
            && q.closed == p.closed && q.eof == p.eof && q.read == p.read
  {
    var chunk := AtHand(p);
    var n := if size < |chunk| then size else |chunk|;
    ReadMoves(p, size);
    AtHandFirst(p);
    hide AtHand, Unread, Do, Flat;
    var q := Do(p, ReadSome(size));
    Regrouped(p.output, chunk, n, Flat(q.incoming));
    UnreadIs(q);
  }

  /** The rest of the pending chunk, or else the next one in the channel. */
  function AtHand(p: Pull): seq<byte>
    requires p.pending.Some? || p.incoming != []
  {
    if p.pending.Some? then p.pending.value else p.incoming[0]
  }

  lemma ReadMoves(p: Pull, size: nat)
    requires p.pending.Some? || p.incoming != []
    ensures var q := Do(p, ReadSome(size));
            var chunk := AtHand(p);
            var n := if size < |chunk| then size else |chunk|;
            && q.output == p.output + chunk[..n] && q.pending == (if n < |chunk| then Some(chunk[n..]) else None)
            && OrEmpty(q.pending) == chunk[n..]
            && q.incoming == (if p.pending.Some? then p.incoming else p.incoming[1..])
            && q.closed == p.closed && q.eof == p.eof && q.read == p.read
  {
  }

  lemma AtHandFirst(p: Pull)
    requires p.pending.Some? || p.incoming != []
    ensures Unread(p) == AtHand(p) + Flat(if p.pending.Some? then p.incoming else p.incoming[1..])
  {
    if p.pending.None? {
      assert [] + Flat(p.incoming) == Flat(p.incoming);
    }
  }

  lemma UnreadIs(p: Pull)
    ensures Unread(p) == OrEmpty(p.pending) + Flat(p.incoming)
  {
  }

  lemma Regrouped(out: seq<byte>, chunk: seq<byte>, n: nat, rest: seq<byte>)
    requires n <= |chunk|
    ensures (out + chunk[..n]) + (chunk[n..] + rest) == out + (chunk + rest)
    ensures |chunk[n..] + rest| + n == |chunk + rest|
  {
    assert chunk == chunk[..n] + chunk[n..];
  }

  /**
   Reading makes progress: on a closed stream any reads with non-empty buffers, one for each byte and each
   chunk that is left and one more, are possible, return every byte in order, and end with io.EOF.
   */
  lemma {:induction false} ReadsFinish(p: Pull, sizes: seq<nat>)
    requires p.closed && (p.pending.Some? ==> p.pending.value != [])
    requires (forall n <- sizes :: n > 0) && |sizes| > |Unread(p)| + |p.incoming|
    ensures Legal(p, Reads(sizes))
    ensures After(p, Reads(sizes)).eof && After(p, Reads(sizes)).output == p.output + Unread(p)
    decreases |sizes|
  {
    hide Unread, Do;
    var run := Reads(sizes);
    assert run[1..] == Reads(sizes[1..]);
    var q := Do(p, run[0]);
    assert sizes[0] in sizes && forall n <- sizes[1..] :: n in sizes;
    if p.pending.Some? || p.incoming != [] {
      ReadGains(p, sizes[0]);
      ReadsFinish(q, sizes[1..]);
    } else {
      NothingUnread(p, sizes[0]);
      OnlyEof(q, sizes[1..]);
    }
  }

  lemma NothingUnread(p: Pull, size: nat)
    requires p.closed && p.pending.None? && p.incoming == []
    ensures Unread(p) == [] && Do(p, ReadSome(size)) == p.(eof := true)
  {
  }

  lemma {:induction false} OnlyEof(p: Pull, sizes: seq<nat>)
    requires p.closed && p.eof && p.pending.None? && p.incoming == []
    ensures Legal(p, Reads(sizes)) && After(p, Reads(sizes)) == p
  {
    if sizes != [] {
      assert Reads(sizes)[1..] == Reads(sizes[1..]);
      OnlyEof(p, sizes[1..]);
    }
  }

  /**
   A download finishes. From every state in which the upstream has ended and nothing has broken the stream,
   the client's read loop, deliver and Read with buffers of any size can go on, whatever the channel holds,
   until Read has returned every byte and io.EOF.
   */
  lemma DownloadFinishes(id: StreamId, run: seq<Step>, size: nat) returns (rest: seq<Step>)
    requires Legal(Begin(id), run) && SendClose(false) !in run && size > 0
    requires !After(Begin(id), run).cut && After(Begin(id), run).source.Gone?
    ensures Legal(After(Begin(id), run), rest)
    ensures forall a <- rest :: a == Take || a == Hand || a == ReadSome(size)
    ensures var p := After(After(Begin(id), run), rest);
            p.eof && p.output == p.read == After(Begin(id), run).read
  {
    hide Legal, After, Can, Do, Arrived, PullOk, EndOk;
    BeginOk(id);
    RunKeepsOk(Begin(id), run);
    RunKeepsEnd(Begin(id), run);
    rest := Finish(After(Begin(id), run), size);
  }

  /** What the client does next: hand over, read to make room, take the next frame, or read on. */
  function NextMove(p: Pull, size: nat): Step {
    if p.handing.Some? && |p.incoming| < 32 then Hand
    else if p.handing.None? && p.wire != [] then Take
    else ReadSome(size)
  }

  /** What is left to do on the client. */
  function Ahead(p: Pull): (nat, nat, nat, nat) {
    (|p.wire|, if p.handing.Some? then 1 else 0, |p.incoming|, |OrEmpty(p.pending)|)
  }

  lemma {:induction false} Finish(p: Pull, size: nat) returns (rest: seq<Step>)
    requires PullOk(p) && EndOk(p) && !p.cut && p.source.Gone? && size > 0
    ensures Legal(p, rest) && forall a <- rest :: a == Take || a == Hand || a == ReadSome(size)
    ensures After(p, rest).eof && After(p, rest).output == p.read
    ensures After(p, rest).read == p.read
    decreases Ahead(p).0, Ahead(p).1, Ahead(p).2, Ahead(p).3
  {
    hide PullOk, EndOk, Do, Arrived, Can;
    var a := NextMove(p, size);
    NextIsPossible(p, size);
    var q := Do(p, a);
    if q.eof {
      rest := [a];
      assert Legal(q, []) && After(q, []) == q;
      assert [a][1..] == [];
      EofIsAll(p, size);
    } else {
      StepKeepsOk(p, a);
      StepKeepsEnd(p, a);
      MovesOn(p, size);
      rest := Finish(q, size);
      assert ([a] + rest)[1..] == rest;
      rest := [a] + rest;
    }
  }

  lemma NextIsPossible(p: Pull, size: nat)
    requires PullOk(p) && EndOk(p) && !p.cut && p.source.Gone?
    ensures Can(p, NextMove(p, size)) && NextMove(p, size) != SendClose(false)
  {
    hide Arrived, DownBytes, CompleteOk, SourceOk, OrderlyOk;
  }

  lemma EofIsAll(p: Pull, size: nat)
    requires PullOk(p) && EndOk(p) && !p.cut && p.source.Gone? && Can(p, NextMove(p, size)) && Do(p, NextMove(p, size)).eof
    ensures Do(p, NextMove(p, size)).output == p.read == Do(p, NextMove(p, size)).read
  {
    hide PullOk, Arrived, DownBytes;
    var a := NextMove(p, size);
    StepKeepsOk(p, a);
    Conclude(Do(p, a));
    ClientKeepsSource(p, a);
  }

  lemma ClientKeepsSource(p: Pull, a: Step)
    requires Can(p, a) && (a.Take? || a.Hand? || a.ReadSome?)
    ensures var q := Do(p, a); q.cut == p.cut && q.source == p.source && q.read == p.read && q.id == p.id
  {
  }

  lemma MovesOn(p: Pull, size: nat)
    requires PullOk(p) && EndOk(p) && !p.cut && p.source.Gone? && size > 0
    requires Can(p, NextMove(p, size)) && !Do(p, NextMove(p, size)).eof
    ensures var a := NextMove(p, size);
            var q := Do(p, a);
            && !q.cut && q.source.Gone? && q.read == p.read
            && (|| Ahead(q).0 < Ahead(p).0
                || (Ahead(q).0 == Ahead(p).0 && Ahead(q).1 < Ahead(p).1)
                || (Ahead(q).0 == Ahead(p).0 && Ahead(q).1 == Ahead(p).1 && Ahead(q).2 < Ahead(p).2)
                || (Ahead(q).0 == Ahead(p).0 && Ahead(q).1 == Ahead(p).1 && Ahead(q).2 == Ahead(p).2
                    && Ahead(q).3 < Ahead(p).3))
  {
    hide Arrived, DownBytes, CompleteOk, SourceOk, OrderlyOk;
    ClientKeepsSource(p, NextMove(p, size));
  }
}
