/**
 The client's stream as an object: Read's reassembly of chunks, the wait for send window, and the
 chunking loop of streamWriter.Write.
 */
module ClientStream {
  import opened Bytes
  import opened Limits
  import D = Download
  import M = Session

  /** What the read loop does to a stream while a writer waits. */
  datatype Event = Credit(c: nat) | Closing

  function CreditSum(es: seq<Event>): nat {
    if es == [] then 0 else (if es[0].Credit? then es[0].c else 0) + CreditSum(es[1..])
  }

  lemma {:induction false} CreditSumAppend(a: seq<Event>, b: seq<Event>)
    ensures CreditSum(a + b) == CreditSum(a) + CreditSum(b)
  {
    if a == [] {
      assert a + b == b;
    } else {
      assert (a + b)[1..] == a[1..] + b;
      CreditSumAppend(a[1..], b);
    }
  }

  lemma CreditSumSnoc(es: seq<Event>, e: Event)
    ensures CreditSum(es + [e]) == CreditSum(es) + (if e.Credit? then e.c else 0)
    ensures (es + [e])[..|es|] == es && (Closing in es + [e] <==> Closing in es || e == Closing)
  {
    CreditSumAppend(es, [e]);
    assert CreditSum([e]) == (if e.Credit? then e.c else 0) + CreditSum([]);
  }

  lemma NoCredit()
    ensures CreditSum([]) == 0
  {
  }

  datatype ReadResult = Bytes(n: nat) | Eof | Blocks
  datatype Wait = Acquired | Refused | Blocks

  class Stream {
    var sendWindow: int
    var flowControlled: bool
    var closed: bool
    var incoming: seq<Chunk>
    var pendingChunk: Option<Chunk>
    var pendingPos: nat
    var inbox: seq<Event>
    ghost var pull: D.Pull

    /** The stream's reading side is that of the download machine. */
    ghost predicate Valid()
      reads this
    {
      && (pendingChunk.Some? ==> pendingPos <= |pendingChunk.value|)
      && pull.incoming == incoming && pull.closed == closed
      && pull.pending == if pendingChunk.Some? then Some(pendingChunk.value[pendingPos..]) else None
    }

    constructor (id: StreamId)
      ensures Valid() && pull == D.Begin(id) && sendWindow == 0 && !flowControlled && inbox == []
    {
      sendWindow, flowControlled, closed, incoming, pendingChunk, pendingPos := 0, false, false, [], None, 0;
      inbox, pull := [], D.Begin(id);
    }

    /** What has arrived and Read has not returned. */
    ghost function Unread(): seq<byte>
      reads this
      requires Valid()
    {
      D.OrEmpty(pull.pending) + Flat(incoming)
    }

    /** The chunk that Read copies from: the rest of the pending one, or else the first in the channel. */
    ghost function AtHand(): Chunk
      reads this
      requires pendingChunk.Some? ==> pendingPos <= |pendingChunk.value|
      requires pendingChunk.Some? || incoming != []
    {
      if pendingChunk.Some? then pendingChunk.value[pendingPos..] else incoming[0]
    }

    /**
     Read into a buffer of any size: as many of the next bytes of what has arrived as the buffer and the
     chunk at hand allow, in order, with none lost or repeated; EOF only when nothing is left of a closed
     stream.
     */
    method Read(p: array<byte>) returns (r: ReadResult)
      requires Valid()
      modifies p, this`pendingChunk, this`pendingPos, this`incoming, this`pull
      ensures Valid() && closed == old(closed)
      ensures r.Blocks? <==> old(pull.pending.None? && incoming == [] && !closed)
      ensures r.Eof? <==> old(pull.pending.None? && incoming == [] && closed)
      ensures r.Bytes? ==> r.n == old(if p.Length < |AtHand()| then p.Length else |AtHand()|)
      ensures r.Bytes? ==> p[..r.n] == old(AtHand())[..r.n] && p[..r.n] + Unread() == old(Unread())
      ensures !r.Bytes? ==> Unread() == old(Unread()) == []
      ensures p[(if r.Bytes? then r.n else 0)..] == old(p[..])[(if r.Bytes? then r.n else 0)..]
      ensures !r.Blocks? ==> pull == D.DoRead(old(pull), p.Length)
      ensures r.Blocks? ==> pull == old(pull)
    {
      ghost var before := p[..];
      if pendingChunk.None? {
        if incoming == [] {
          if closed {
            pull := D.DoRead(pull, p.Length);
            return Eof;
          }
          return ReadResult.Blocks;
        }
        pendingChunk, pendingPos, incoming := Some(incoming[0]), 0, incoming[1..];
      }
      ghost var chunk := pendingChunk.value[pendingPos..];
      ghost var rest := Flat(incoming);
      var n := Copy(p, pendingChunk.value[pendingPos..]);
      pendingPos := pendingPos + n;
      ReadsOn(old(pull), chunk, n, rest);
      pull := D.DoRead(pull, p.Length);
      assert pendingChunk.value[pendingPos..] == chunk[n..];
      if pendingPos >= |pendingChunk.value| {
        pendingChunk, pendingPos := None, 0;
      }
      return Bytes(n);
    }

    /**
     acquireWindow: it waits through no more events than it must, leaves with exactly n bytes of
     window taken or with none, and gives up only on a closed stream whose window is too small.
     */
    method AcquireWindow(n: nat) returns (w: Wait, ghost taken: seq<Event>)
      requires Valid()
      modifies this`sendWindow, this`closed, this`inbox, this`pull
      ensures Valid() && old(inbox) == taken + inbox
      ensures sendWindow == old(sendWindow) + CreditSum(taken) - if w.Acquired? && flowControlled then n else 0
      ensures !flowControlled ==> w.Acquired? && taken == []
      ensures w.Acquired? && flowControlled ==> sendWindow >= 0
      ensures w.Acquired? && taken != [] ==> old(sendWindow) + CreditSum(taken[..|taken| - 1]) < n
      ensures w.Refused? ==> closed && sendWindow < n
      ensures w.Blocks? ==> inbox == [] && !closed && sendWindow < n
      ensures closed <==> old(closed) || Closing in taken
    {
      hide CreditSum, Flat;
      NoCredit();
      taken := [];
      if !flowControlled {
        return Acquired, [];
      }
      while sendWindow < n
        invariant Valid() && old(inbox) == taken + inbox
        invariant sendWindow == old(sendWindow) + CreditSum(taken)
        invariant taken != [] ==> old(sendWindow) + CreditSum(taken[..|taken| - 1]) < n
        invariant closed <==> old(closed) || Closing in taken
        decreases |inbox|
      {
        if closed {
          return Refused, taken;
        }
        if inbox == [] {
          return Wait.Blocks, taken;
        }
        var e := inbox[0];
        CreditSumSnoc(taken, e);
        taken := taken + [e];
        inbox := inbox[1..];
        if e.Credit? {
          sendWindow := sendWindow + e.c;
        } else {
          closed := true;
          pull := pull.(closed := true);
        }
      }
      sendWindow := sendWindow - n;
      return Acquired, taken;
    }
  }

  datatype Written = All | WindowRefused | WindowBlocks | FrameFailed

  class StreamWriter {
    const st: Stream
    var framed: seq<Chunk>
    var room: nat

    constructor (st: Stream, room: nat)
      ensures this.st == st && framed == [] && this.room == room
    {
      this.st, framed, this.room := st, [], room;
    }

    /** writeStreamFrame, which takes `room` more frames before it fails. */
    method SendData(chunk: Chunk) returns (ok: bool)
      modifies this
      ensures ok <==> old(room) > 0
      ensures framed == if ok then old(framed) + [chunk] else old(framed)
      ensures room == if ok then old(room) - 1 else 0
    {
      ok := room > 0;
      if ok {
        framed, room := framed + [chunk], room - 1;
      }
    }

    /**
     streamWriter.Write: the frames sent are the bytes reported as written, in order, in chunks of
     1 to 16375 bytes and all but the last of the full size; each is paid for from the window.
     */
    method Write(p: seq<byte>) returns (off: nat, why: Written, ghost out: seq<Chunk>, ghost taken: seq<Event>)
      requires st.Valid()
      modifies this, st`sendWindow, st`closed, st`inbox, st`pull
      ensures st.Valid() && old(st.inbox) == taken + st.inbox
      ensures off <= |p| && (why.All? <==> off == |p|)
      ensures framed == old(framed) + out && Flat(out) == p[..off] && Chunked(out)
      ensures off < |p| ==> AllFull(off, out)
      ensures st.flowControlled ==>
                st.sendWindow + off + (if why.FrameFailed? then |M.Next(p[off..])| else 0)
                == old(st.sendWindow) + CreditSum(taken)
      ensures why.WindowRefused? ==> st.closed && st.sendWindow < |M.Next(p[off..])|
      ensures why.WindowBlocks? ==> !st.closed && st.inbox == [] && st.sendWindow < |M.Next(p[off..])|
      ensures why.FrameFailed? ==> old(room) == |out|
    {
      hide CreditSum, Flat, Stream.Valid, Chunked, AllFull, M.Next;
      NoCredit();
      off, out, taken := 0, [], [];
      NothingSent();
      while off < |p|
        invariant off <= |p| && st.Valid() && old(st.inbox) == taken + st.inbox
        invariant framed == old(framed) + out && Flat(out) == p[..off] && Chunked(out)
        invariant off < |p| ==> AllFull(off, out)
        invariant st.flowControlled ==> st.sendWindow + off == old(st.sendWindow) + CreditSum(taken)
        invariant room == old(room) - |out|
        decreases |p| - off
      {
        var chunk := |p| - off;
        if chunk > MAX_PAYLOAD {
          chunk := MAX_PAYLOAD;
        }
        NextChunk(p, off);
        var w;
        ghost var more;
        w, more := st.AcquireWindow(chunk);
        CreditSumAppend(taken, more);
        taken := taken + more;
        if !w.Acquired? {
          return off, if w.Refused? then WindowRefused else WindowBlocks, out, taken;
        }
        var ok := SendData(p[off..off + chunk]);
        if !ok {
          return off, FrameFailed, out, taken;
        }
        SendMore(p, off, chunk, out);
        out := out + [p[off..off + chunk]];
        off := off + chunk;
      }
      return off, All, out, taken;
    }
  }

  /** Every chunk but the last is full, and the last is not empty. */
  predicate Chunked(out: seq<Chunk>) {
    forall i :: 0 <= i < |out| ==>
      if i < |out| - 1 then |out[i]| == 16375 else 0 < |out[i]| <= 16375
  }

  /** These chunks are all of the full size and make up so many bytes. */
  predicate AllFull(off: nat, out: seq<Chunk>) {
    off == |out| * 16375
  }

  lemma NextChunk(p: seq<byte>, off: nat)
    requires off < |p|
    ensures var n := if |p| - off > MAX_PAYLOAD then MAX_PAYLOAD else |p| - off;
            M.Next(p[off..]) == p[off..off + n] && |M.Next(p[off..])| == n
  {
  }

  lemma NothingSent()
    ensures Flat([]) == [] && Chunked([]) && AllFull(0, [])
  {
  }

  lemma SendMore(p: seq<byte>, off: nat, chunk: nat, out: seq<Chunk>)
    requires off + chunk <= |p| && 0 < chunk <= MAX_PAYLOAD && (off + chunk < |p| ==> chunk == MAX_PAYLOAD)
    requires Flat(out) == p[..off] && Chunked(out) && AllFull(off, out)
    ensures var out' := out + [p[off..off + chunk]];
            && Flat(out') == p[..off + chunk] && Chunked(out')
            && (off + chunk < |p| ==> AllFull(off + chunk, out'))
  {
    FlatSnoc(out, p[off..off + chunk]);
    assert p[..off] + p[off..off + chunk] == p[..off + chunk];
    LastIsFull(out);
  }

  lemma {:induction false} LastIsFull(out: seq<Chunk>)
    requires Chunked(out) && |Flat(out)| == |out| * 16375
    ensures forall c <- out :: |c| == MAX_PAYLOAD
  {
    if out != [] {
      var front, last := out[..|out| - 1], out[|out| - 1];
      assert out == front + [last];
      FlatSnoc(front, last);
      FlatOfFull(front);
    }
  }

  lemma {:induction false} FlatOfFull(out: seq<Chunk>)
    requires forall i :: 0 <= i < |out| ==> |out[i]| == MAX_PAYLOAD
    ensures |Flat(out)| == |out| * 16375
  {
    if out != [] {
      FlatOfFull(out[1..]);
    }
  }

  /** The builtin copy into the front of a buffer. */
  method Copy(p: array<byte>, src: seq<byte>) returns (n: nat)
    modifies p
    ensures n == if p.Length < |src| then p.Length else |src|
    ensures p[..n] == src[..n] && p[n..] == old(p[..])[n..]
  {
    n := if p.Length < |src| then p.Length else |src|;
    for i := 0 to n
      invariant p[..i] == src[..i] && p[i..] == old(p[..])[i..]
    {
      p[i] := src[i];
    }
  }

  lemma ReadsOn(p: D.Pull, chunk: seq<byte>, n: nat, rest: seq<byte>)
    requires n <= |chunk|
    requires if p.pending.Some? then chunk == p.pending.value && rest == Flat(p.incoming)
             else p.incoming != [] && chunk == p.incoming[0] && rest == Flat(p.incoming[1..])
    ensures D.OrEmpty(p.pending) + Flat(p.incoming) == chunk[..n] + (chunk[n..] + rest)
  {
    assert chunk == chunk[..n] + chunk[n..];
    assert chunk + rest == chunk[..n] + (chunk[n..] + rest);
    assert p.pending.None? ==> [] + Flat(p.incoming) == chunk + rest;
  }
}
