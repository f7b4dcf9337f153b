/**
 The server's stream and session as objects with the fields of v2Stream and v2Session. Each stream
 carries, as ghost state, the stream object of the step machine that it stands for; a method's contract
 says which steps of the machine it is, so what is proved of the machine's runs holds of these loops.
 Each method runs from one lock-free moment to the next without another goroutine in between.
 */
module Server {
  import opened Bytes
  import opened Limits
  import S = StreamObject
  import R = StreamRuns

  /** v2GlobalBuffered. */
  class Counter {
    var value: int

    constructor ()
      ensures value == 0
    {
      value := 0;
    }
  }

  /** The dialled connection, which takes `room` more bytes before a write fails. */
  class Upstream {
    var received: seq<byte>
    var room: nat
    var live: bool

    constructor (room: nat)
      ensures received == [] && this.room == room && live
    {
      received, this.room, live := [], room, true;
    }

    method Write(data: seq<byte>) returns (ok: bool, ghost k: nat)
      modifies this
      ensures k <= |data| && (ok <==> live && k == |data|) && received == old(received) + data[..k]
      ensures ok <==> live && |data| <= old(room)
      ensures live == old(live) && room == old(room) - k
    {
      var n := if !live then 0 else if room < |data| then room else |data|;
      received, room := received + data[..n], room - n;
      ok, k := live && n == |data|, n;
    }

    method Close()
      modifies this
      ensures !live && received == old(received) && room == old(room)
    {
      live := false;
    }
  }

  class Stream {
    const id: StreamId
    const conn: Upstream
    var closed: bool
    var queue: seq<Chunk>
    var qbytes: int
    ghost var obj: S.Obj

    ghost predicate Valid()
      reads this, conn
    {
      && S.Ok(obj) && obj.mu == S.Free
      && obj.id == id && obj.closed == closed && obj.queue == queue && obj.qbytes == qbytes
      && obj.upstream == conn.live && obj.delivered == conn.received
    }

    /** A stream as handleOpen leaves it: announced, both goroutines started. */
    constructor (id: StreamId, conn: Upstream)
      requires conn.live && conn.received == []
      ensures Valid() && this.id == id && this.conn == conn && obj == Launched(id)
    {
      this.id, this.conn := id, conn;
      closed, queue, qbytes := false, [], 0;
      obj := Launched(id);
      LaunchedOk(id);
    }

    ghost predicate IsDown()
      reads this, conn
    {
      closed && queue == [] && !conn.live
    }

    /** The read loop's append under mu, with its signal to the pump. */
    method Enqueue(payload: Chunk)
      requires Valid() && !closed && |payload| <= MAX_PAYLOAD
      modifies this
      ensures Valid() && !closed
      ensures obj == S.PushDone(S.Push(old(obj), payload))
      ensures queue == old(queue) + [payload] && qbytes == old(qbytes) + |payload|
      ensures obj.grab == old(obj).grab
    {
      S.PushKeepsOk(obj, payload);
      S.PushDoneKeepsOk(S.Push(obj, payload));
      hide S.Ok;
      queue := queue + [payload];
      qbytes := qbytes + |payload|;
      obj := S.PushDone(S.Push(obj, payload));
    }

    /** LoadAndDelete has handed this stream to a closer. */
    ghost method MarkLoaded()
      requires Valid()
      modifies this`obj
      ensures Valid() && obj == S.Loaded(old(obj))
    {
      LoadedOk(obj);
      hide S.Ok;
      obj := S.Loaded(obj);
    }
  }

  function Launched(id: StreamId): S.Obj {
    S.Fresh(id).(opener := S.Launched, pump := S.Ready(0), reader := S.Reading)
  }

  /** That object is what the machine makes of a fresh one. */
  lemma LaunchedOk(id: StreamId)
    ensures var stored := S.OpenerChecks(S.Fresh(id), false);
            S.Can(stored, S.OpenerAnnounce(true)) && S.Do(stored, S.OpenerAnnounce(true)) == Launched(id)
    ensures S.Ok(Launched(id))
  {
  }

  datatype Arrival = Unknown | Queued | Shed

  class Session {
    const global: Counter
    var streams: map<StreamId, Stream>
    var buffered: int
    var sent: seq<S.Down>
    var room: nat

    /** The table holds open streams under their own ids, each with a connection to itself. */
    ghost predicate Valid()
      reads this, streams.Values, set st <- streams.Values :: st.conn
    {
      && (forall id <- streams :: streams[id].id == id && streams[id].Valid() && !streams[id].closed)
      && (forall id <- streams :: streams[id].obj.grab.Untouched?)
      && (forall i <- streams, j <- streams | i != j :: streams[i].conn != streams[j].conn)
    }

    constructor (global: Counter, room: nat)
      ensures Valid() && streams == map[] && buffered == 0 && sent == [] && this.room == room && this.global == global
    {
      this.global, streams, buffered, sent, this.room := global, map[], 0, [], room;
    }

    /** The frame writer, which takes `room` more frames before it fails. */
    method Send(f: S.Down) returns (ok: bool)
      modifies this`sent, this`room
      ensures sent == old(sent) + if ok then [f] else []
      ensures ok <==> old(room) > 0
      ensures room == if ok then old(room) - 1 else 0
    {
      ok := room > 0;
      if ok {
        sent, room := sent + [f], room - 1;
      }
    }

    /**
     closeStream: the stream leaves the table; whatever it had queued leaves both counters, once, and
     the connection is closed. An id that is not in the table changes nothing.
     */
    method CloseStream(id: StreamId)
      requires Valid()
      modifies this`streams, this`buffered, global
      modifies if id in streams then {streams[id], streams[id].conn} else {}
      ensures Valid() && streams == old(streams) - {id}
      ensures id !in old(streams) ==> buffered == old(buffered) && global.value == old(global.value)
      ensures id in old(streams) ==>
                var st := old(streams[id]);
                && st.Valid() && st.closed && st.queue == [] && !st.conn.live
                && st.conn.received == old(st.conn.received) && st.conn.room == old(st.conn.room)
                && buffered == old(buffered) - old(st.qbytes) && global.value == old(global.value) - old(st.qbytes)
                && st.obj == R.ClosedOff(S.Loaded(old(st.obj)))
    {
      hide S.Ok, R.Legal, R.After, R.ClosedOff, R.CLOSING, Stream.Valid;
      if id in streams {
        var st := LoadAndDelete(id);
        CloseOff(st);
      } else {
        assert streams == streams - {id};
      }
    }

    method LoadAndDelete(id: StreamId) returns (st: Stream)
      requires Valid() && id in streams
      modifies this`streams, streams[id]
      ensures Valid() && streams == old(streams) - {id}
      ensures st == old(streams[id]) && st.Valid() && st.obj == S.Loaded(old(st.obj))
      ensures !st.closed && st.qbytes == old(st.qbytes)
      ensures forall i <- streams :: streams[i] != st && streams[i].conn != st.conn
    {
      hide S.Ok, Stream.Valid;
      st := streams[id];
      streams := streams - {id};
      st.MarkLoaded();
    }

    /** The part of closeStream after LoadAndDelete, on an open stream. */
    method CloseOff(st: Stream)
      requires st.Valid() && !st.closed && st.obj.grab.Grabbed?
      modifies this`buffered, global, st, st.conn
      ensures st.Valid() && st.closed && st.queue == [] && !st.conn.live
      ensures st.conn.received == old(st.conn.received) && st.conn.room == old(st.conn.room)
      ensures buffered == old(buffered) - old(st.qbytes) && global.value == old(global.value) - old(st.qbytes)
      ensures st.obj == R.ClosedOff(old(st.obj))
      ensures R.Legal(old(st.obj), R.CLOSING) && st.obj == R.After(old(st.obj), R.CLOSING)
    {
      hide S.Ok, R.Legal, R.After, R.SessionSum, R.GlobalSum, R.Frames;
      R.ClosingDoes(st.obj);
      R.KeepsOk(st.obj, R.CLOSING);
      NeverNegative(st.obj);
      st.closed := true;
      if st.qbytes > 0 {
        buffered := buffered - st.qbytes;
        global.value := global.value - st.qbytes;
        st.qbytes := 0;
      }
      st.queue := [];
      st.conn.Close();
      st.obj := R.ClosedOff(st.obj);
    }

    method ShedStream(id: StreamId)
      requires Valid() && id in streams
      modifies this, global, streams[id], streams[id].conn
      ensures Valid() && streams == old(streams) - {id}
      ensures old(room) > 0 ==> sent == old(sent) + [S.Close(id)]
      ensures var st := old(streams[id]);
              && st.Valid() && st.obj == R.ClosedOff(S.Loaded(old(st.obj)))
              && buffered == old(buffered) - old(st.qbytes) && global.value == old(global.value) - old(st.qbytes)
    {
      hide S.Ok, Stream.Valid, R.ClosedOff;
      var _ := Send(S.Close(id));
      CloseStream(id);
    }

    /**
     From the lock of mu on: a stream that somebody has closed since it was looked up gets nothing; an open
     one gets the chunk, and both counters grow by its length.
     */
    method AddChunk(st: Stream, payload: Chunk) returns (added: bool)
      requires st.Valid() && |payload| <= MAX_PAYLOAD
      modifies this`buffered, global, st
      ensures st.Valid() && st.closed == old(st.closed) && (added <==> !st.closed)
      ensures added ==>
                && st.obj == S.PushDone(S.Push(old(st.obj), payload))
                && st.queue == old(st.queue) + [payload] && st.qbytes == old(st.qbytes) + |payload|
                && buffered == old(buffered) + |payload| && global.value == old(global.value) + |payload|
      ensures !added ==>
                && st.obj == old(st.obj) && st.queue == old(st.queue) && st.qbytes == old(st.qbytes)
                && buffered == old(buffered) && global.value == old(global.value)
      ensures st.obj.grab == old(st.obj.grab)
    {
      if st.closed {
        return false;
      }
      st.Enqueue(payload);
      buffered := buffered + |payload|;
      global.value := global.value + |payload|;
      return true;
    }

    /**
     The DATA branch of the read loop. A chunk that fits both budgets is queued and counted in both;
     one that does not costs its stream a CLOSE frame and its place in the table; the read loop never
     waits, and DATA for a stream that is not in the table goes nowhere. Here nothing comes between the
     lookup and the lock; AddChunk is the part from the lock on, for any stream that was looked up.
     */
    method OnData(id: StreamId, payload: Chunk) returns (r: Arrival)
      requires Valid() && |payload| <= MAX_PAYLOAD
      modifies this, global
      modifies if id in streams then {streams[id], streams[id].conn} else {}
      ensures Valid()
      ensures r.Unknown? <==> id !in old(streams)
      ensures r.Shed? <==> id in old(streams) && (old(buffered) + |payload| > 128 * 0x10_0000
                                                  || old(global.value) + |payload| > 256 * 0x10_0000)
      ensures r.Queued? ==>
                var st := old(streams[id]);
                && streams == old(streams) && sent == old(sent)
                && st.obj == S.PushDone(S.Push(old(st.obj), payload))
                && st.queue == old(st.queue) + [payload] && st.qbytes == old(st.qbytes) + |payload|
                && st.conn.live == old(st.conn.live) && st.conn.received == old(st.conn.received)
                && buffered == old(buffered) + |payload| && global.value == old(global.value) + |payload|
      ensures r.Shed? ==>
                var st := old(streams[id]);
                && streams == old(streams) - {id} && (old(room) > 0 ==> sent == old(sent) + [S.Close(id)])
                && st.Valid() && st.obj == R.ClosedOff(S.Loaded(old(st.obj)))
                && buffered == old(buffered) - old(st.qbytes) && global.value == old(global.value) - old(st.qbytes)
      ensures r.Unknown? ==>
                streams == old(streams) && sent == old(sent) && buffered == old(buffered)
                && global.value == old(global.value)
    {
      hide S.Ok, Stream.Valid, R.ClosedOff;
      if id !in streams {
        return Unknown;
      }
      var st := streams[id];
      if buffered + |payload| > SESSION_CAP || global.value + |payload| > GLOBAL_CAP {
        ShedStream(id);
        return Shed;
      }
      var _ := AddChunk(st, payload);
      return Queued;
    }

    /** What closeAll does to one stream: its bytes leave the global counter, not the session's. */
    method SweepOff(st: Stream)
      requires st.Valid() && !st.closed
      modifies global, st, st.conn
      ensures st.Valid() && st.closed && st.queue == [] && !st.conn.live && st.obj == SweptOff(old(st.obj))
      ensures global.value == old(global.value) - old(st.qbytes)
    {
      hide S.Ok, SweptOff;
      NeverNegative(st.obj);
      SweptOk(st.obj);
      st.closed := true;
      if st.qbytes > 0 {
        global.value := global.value - st.qbytes;
        st.qbytes := 0;
      }
      st.queue := [];
      st.conn.Close();
      st.obj := SweptOff(st.obj);
    }

    /** One round of closeAll's Range. */
    method Sweep(id: StreamId)
      requires Valid() && id in streams
      modifies this`streams, global, streams[id], streams[id].conn
      ensures Valid() && streams == old(streams) - {id}
      ensures var st := old(streams[id]);
              st.Valid() && st.closed && st.queue == [] && !st.conn.live && st.obj == SweptOff(old(st.obj))
      ensures global.value == old(global.value) - old(streams[id].qbytes)
    {
      hide S.Ok, SweptOff, Stream.Valid;
      var st := streams[id];
      SweepOff(st);
      streams := streams - {id};
    }

    ghost function Pending(): map<StreamId, int>
      reads this, streams.Values
    {
      map id <- streams :: streams[id].qbytes
    }

    /**
     closeAll: afterwards the table is empty, every stream that was in it is closed and its connection
     too, and the global counter has lost what each of them had queued, in some order, once each.
     */
    method CloseAll() returns (ghost order: seq<StreamId>)
      requires Valid()
      modifies this`streams, global, streams.Values, set st <- streams.Values :: st.conn
      ensures Valid() && streams == map[] && buffered == old(buffered)
      ensures forall id <- old(streams) :: old(streams)[id].IsDown()
      ensures Distinct(order) && forall id :: id in order <==> id in old(streams)
      ensures global.value == old(global.value) - Sum(old(Pending()), order)
    {
      hide S.Ok, SweptOff, Stream.Valid, Session.Valid, Sum, Apart;
      order := [];
      ghost var all, pending := streams, Pending();
      SumOfNone(pending);
      TableApart();
      while streams != map[]
        invariant Valid() && Distinct(order)
        invariant forall id :: id in all <==> id in order || id in streams
        invariant forall id <- order :: id !in streams && all[id].IsDown()
        invariant forall id <- streams :: streams[id] == all[id] && streams[id].qbytes == pending[id]
        invariant global.value == old(global.value) - Sum(pending, order)
        decreases streams.Keys
      {
        var id :| id in streams;
        SumSnoc(pending, order, id);
        assert all[id] in all.Values;
        SweepNext(id, all, order);
        order := order + [id];
      }
    }

    lemma TableApart()
      requires Valid()
      ensures Apart(streams)
    {
      hide S.Ok;
    }

    /** Sweeping one stream leaves those swept before, and those still to come, as they are. */
    method SweepNext(id: StreamId, ghost all: map<StreamId, Stream>, ghost order: seq<StreamId>)
      requires Valid() && id in streams && Apart(all)
      requires forall i <- order :: i in all && i !in streams && all[i].IsDown()
      requires forall i <- streams :: i in all && streams[i] == all[i]
      modifies this`streams, global, streams[id], streams[id].conn
      ensures Valid() && streams == old(streams) - {id} && all[id].IsDown()
      ensures forall i <- order :: all[i].IsDown()
      ensures forall i <- streams :: streams[i].qbytes == old(streams[i].qbytes)
      ensures global.value == old(global.value) - old(streams[id].qbytes)
    {
      hide S.Ok, SweptOff, Stream.Valid;
      Sweep(id);
    }
  }

  /** The streams of a table are different objects, and so are their connections. */
  ghost predicate Apart(table: map<StreamId, Stream>) {
    forall i <- table, j <- table | i != j :: table[i] != table[j] && table[i].conn != table[j].conn
  }

  predicate Distinct(ids: seq<StreamId>) {
    forall i, j :: 0 <= i < j < |ids| ==> ids[i] != ids[j]
  }

  /** The sum of the entries for these ids. */
  function Sum(m: map<StreamId, int>, ids: seq<StreamId>): int {
    if ids == [] then 0
    else
      var id := ids[|ids| - 1];
      Sum(m, ids[..|ids| - 1]) + if id in m then m[id] else 0
  }

  lemma SumOfNone(m: map<StreamId, int>)
    ensures Sum(m, []) == 0
  {
  }

  lemma SumSnoc(m: map<StreamId, int>, ids: seq<StreamId>, id: StreamId)
    ensures Sum(m, ids + [id]) == Sum(m, ids) + if id in m then m[id] else 0
  {
    assert (ids + [id])[..|ids|] == ids;
  }

  /** The stream after the three steps of closeAll's closer that follow its swap. */
  function SweptOff(o: S.Obj): (o': S.Obj)
  {
    o.(closed := true, closings := o.closings + 1, reclaim := S.Reclaimed, pump := S.Wake(o.pump),
       queue := [], qbytes := 0, upstream := false,
       stranded := o.stranded + (if o.qbytes > 0 then o.qbytes else 0),
       refunded := o.refunded + if o.qbytes > 0 then o.qbytes else 0)
  }

  const SWEEPING: seq<S.Act> := [S.CloserBillSession, S.CloserClear, S.CloserHangUp]

  lemma SweepSteps(o: S.Obj) returns (s1: S.Obj, s2: S.Obj)
    requires S.Ok(o) && o.mu == S.Free && !o.closed
    ensures var s := S.Swap(o, true);
            && S.Can(s, S.CloserBillSession) && s1 == S.Do(s, S.CloserBillSession)
            && S.Can(s1, S.CloserClear) && s2 == S.Do(s1, S.CloserClear)
            && S.Can(s2, S.CloserHangUp) && S.Do(s2, S.CloserHangUp) == SweptOff(o)
            && s.reclaim == S.Won(true) && s1.qbytes == o.qbytes
  {
    hide S.CreditOk, S.SizeOk, S.WakeOk, S.LedgerOk;
    s1 := S.Do(S.Swap(o, true), S.CloserBillSession);
    s2 := S.Do(s1, S.CloserClear);
  }

  /** That is the machine's closeAll on the stream: the session's counter keeps the bytes it dies with. */
  lemma SweptByMachine(o: S.Obj)
    requires S.Ok(o) && o.mu == S.Free && !o.closed
    ensures var s := S.Swap(o, true);
            && R.Legal(s, SWEEPING) && R.After(s, SWEEPING) == SweptOff(o)
            && R.SessionSum(s, SWEEPING) == 0 && R.GlobalSum(s, SWEEPING) == -o.qbytes
  {
    hide S.Ok, R.Legal, R.After, R.SessionSum, R.GlobalSum, R.Frames, S.Can, S.Do, S.Swap, SweptOff;
    var s := S.Swap(o, true);
    var s1, s2 := SweepSteps(o);
    R.OneStep(s, S.CloserBillSession);
    R.Snoc(s, [S.CloserBillSession], S.CloserClear);
    R.Snoc(s, [S.CloserBillSession] + [S.CloserClear], S.CloserHangUp);
    assert SWEEPING == [S.CloserBillSession] + [S.CloserClear] + [S.CloserHangUp];
  }

  lemma SweptOk(o: S.Obj)
    requires S.Ok(o) && o.mu == S.Free && !o.closed
    ensures S.Ok(SweptOff(o))
    ensures SweptOff(o).id == o.id && SweptOff(o).closed && SweptOff(o).queue == [] && SweptOff(o).qbytes == 0
    ensures !SweptOff(o).upstream && SweptOff(o).delivered == o.delivered && SweptOff(o).mu == S.Free
  {
  }

  lemma NeverNegative(o: S.Obj)
    requires S.Ok(o)
    ensures o.qbytes >= 0
  {
  }

  lemma LoadedOk(o: S.Obj)
    requires S.Ok(o)
    ensures S.Ok(S.Loaded(o))
  {
  }
}
