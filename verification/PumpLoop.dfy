/**
 The pump goroutine of one stream as the loop it is, run from the moment it has something to do until
 it sleeps or leaves. Its whole run is a run of the stream machine, told back step by step.
 */
module PumpLoop {
  import opened Bytes
  import opened Limits
  import opened Server
  import S = StreamObject
  import R = StreamRuns

  /** `run` leads from o0 to o, writes `frames` and moves the session's and the global counter. */
  ghost predicate Told(o0: S.Obj, run: seq<S.Act>, o: S.Obj, frames: seq<S.Down>, session: int, global: int) {
    && R.Legal(o0, run) && o == R.After(o0, run) && frames == R.Frames(o0, run)
    && session == R.SessionSum(o0, run) && global == R.GlobalSum(o0, run)
  }

  lemma ToldOn(o0: S.Obj, run: seq<S.Act>, o: S.Obj, frames: seq<S.Down>, session: int, global: int, more: seq<S.Act>)
    requires Told(o0, run, o, frames, session, global) && R.Legal(o, more)
    ensures Told(o0, run + more, R.After(o, more), frames + R.Frames(o, more),
                 session + R.SessionSum(o, more), global + R.GlobalSum(o, more))
  {
    hide R.Legal, R.After, R.Frames, R.SessionSum, R.GlobalSum;
    R.Concat(o0, run, more);
  }

  /** One action more. */
  lemma ToldStep(o0: S.Obj, run: seq<S.Act>, o: S.Obj, frames: seq<S.Down>, session: int, global: int, a: S.Act)
    requires Told(o0, run, o, frames, session, global) && S.Can(o, a) && S.Ok(o)
    ensures Told(o0, run + [a], S.Do(o, a), frames + S.Out(o, a),
                 session + S.SessionDelta(o, a), global + S.GlobalDelta(o, a))
    ensures S.Ok(S.Do(o, a))
  {
    hide S.Can, S.Do, S.Out, S.SessionDelta, S.GlobalDelta, S.Ok, R.Legal, R.After, R.Frames, R.SessionSum, R.GlobalSum;
    R.OneStep(o, a);
    ToldOn(o0, run, o, frames, session, global, [a]);
    S.DoKeepsOk(o, a);
  }

  function Credits(fs: seq<S.Down>): nat {
    if fs == [] then 0
    else Credits(fs[..|fs| - 1]) + if fs[|fs| - 1].Window? then fs[|fs| - 1].credit else 0
  }

  lemma CreditsSnoc(fs: seq<S.Down>, f: S.Down)
    ensures Credits(fs + [f]) == Credits(fs) + if f.Window? then f.credit else 0
  {
    assert (fs + [f])[..|fs|] == fs;
  }

  /** How many WINDOW_UPDATEs there are. */
  function Updates(fs: seq<S.Down>): nat {
    if fs == [] then 0 else Updates(fs[..|fs| - 1]) + if fs[|fs| - 1].Window? then 1 else 0
  }

  lemma UpdatesSnoc(fs: seq<S.Down>, f: S.Down)
    ensures Updates(fs + [f]) == Updates(fs) + if f.Window? then 1 else 0
  {
    assert (fs + [f])[..|fs|] == fs;
  }

  /** Half a window for each update, except for one that flushes an empty queue. */
  predicate Batched(updates: nat, credits: nat, queue: seq<Chunk>) {
    if queue != [] then updates * 0x20_0000 <= credits
    else updates == 0 || (updates - 1) * 0x20_0000 <= credits
  }

  lemma BatchedBound(updates: nat, credits: nat, queue: seq<Chunk>, all: nat)
    requires Batched(updates, credits, queue) && credits <= all
    ensures updates <= all / 0x20_0000 + 1
  {
    var q := all / 0x20_0000;
    assert all < (q + 1) * 0x20_0000;
  }

  lemma CreditStep(o: S.Obj, c: nat)
    requires S.Ok(o) && o.pump == S.Crediting(c)
    ensures S.Can(o, S.PumpCredit(true)) && S.Can(o, S.PumpCredit(false)) && c % TWO32 == c
    ensures S.Do(o, S.PumpCredit(true)) == o.(pump := S.Ready(0))
    ensures S.Do(o, S.PumpCredit(false)) == o.(pump := S.PumpHanging)
    ensures S.Out(o, S.PumpCredit(true)) == [S.Window(o.id, c)] && S.Out(o, S.PumpCredit(false)) == []
    ensures forall ok :: S.SessionDelta(o, S.PumpCredit(ok)) == 0 && S.GlobalDelta(o, S.PumpCredit(ok)) == 0
  {
    S.CreditingFits(o);
    hide S.MuOk, S.CloseOk, S.LifeOk, S.CreditOk, S.WakeOk, S.LedgerOk;
  }

  lemma NotifyStep(o: S.Obj)
    requires o.pump == S.Notifying
    ensures forall ok :: S.Can(o, S.PumpNotify(ok)) && S.Do(o, S.PumpNotify(ok)) == o.(pump := S.PumpHanging)
    ensures forall ok :: S.Out(o, S.PumpNotify(ok)) == if ok then [S.Close(o.id)] else []
    ensures forall ok :: S.SessionDelta(o, S.PumpNotify(ok)) == 0 && S.GlobalDelta(o, S.PumpNotify(ok)) == 0
  {
  }

  lemma HangUpStep(o: S.Obj)
    requires o.pump == S.PumpHanging
    ensures S.Can(o, S.PumpHangUp) && S.Do(o, S.PumpHangUp) == o.(pump := S.PumpDropping, upstream := false)
    ensures S.Out(o, S.PumpHangUp) == []
    ensures S.SessionDelta(o, S.PumpHangUp) == 0 && S.GlobalDelta(o, S.PumpHangUp) == 0
  {
  }

  /** How far a pump got: asleep, gone because the stream was closed, or stopped by a failure. */
  datatype Rest = Asleep | Left | Failing

  class Pump {
    const sess: Session
    const st: Stream
    ghost const o0: S.Obj
    ghost const sent0: seq<S.Down>
    ghost const buffered0: int
    ghost const global0: int
    var credited: nat
    ghost var run: seq<S.Act>
    ghost var frames: seq<S.Down>

    /** What the pump has done so far, in the counters, on the wire and in the stream, is its run. */
    ghost predicate Valid()
      reads this`run, this`frames, sess, sess.global, st, st.conn
    {
      && st.Valid()
      && sess.sent == sent0 + frames
      && Told(o0, run, st.obj, frames, sess.buffered - buffered0, sess.global.value - global0)
    }

    constructor (sess: Session, st: Stream)
      requires st.Valid() && st.obj.pump == S.Ready(0)
      ensures Valid() && this.sess == sess && this.st == st && credited == 0
      ensures o0 == st.obj && sent0 == sess.sent && run == [] && frames == []
    {
      this.sess, this.st, credited := sess, st, 0;
      o0, sent0, buffered0, global0 := st.obj, sess.sent, sess.buffered, sess.global.value;
      run, frames := [], [];
      new;
      R.Start(o0);
    }

    /** The section under mu when something is queued. */
    method Take() returns (chunk: Chunk, emptyNow: bool)
      requires Valid() && !st.closed && st.queue != [] && st.obj.pump == S.Ready(credited)
      modifies this`run, st, sess`buffered, sess.global
      ensures Valid() && frames == old(frames)
      ensures st.obj.pump == S.Writing(chunk, emptyNow, credited) && !st.closed
      ensures old(st.queue) == [chunk] + st.queue && (emptyNow <==> st.queue == [])
    {
      hide S.Ok, R.Legal, R.After, R.Frames, R.SessionSum, R.GlobalSum, Told;
      R.TakingDoes(st.obj);
      ToldOn(o0, run, st.obj, frames, sess.buffered - buffered0, sess.global.value - global0, R.TAKING);
      chunk := st.queue[0];
      st.queue := st.queue[1..];
      emptyNow := st.queue == [];
      var n := |chunk|;
      st.qbytes := st.qbytes - n;
      sess.buffered := sess.buffered - n;
      sess.global.value := sess.global.value - n;
      run := run + R.TAKING;
      st.obj := R.Taken(st.obj);
      assert frames + [] == frames;
    }

    /** upstream.Write, outside the mutex. */
    method Deliver(chunk: Chunk, emptyNow: bool) returns (ok: bool)
      requires Valid() && st.obj.pump == S.Writing(chunk, emptyNow, credited)
      modifies this`run, st`obj, st.conn
      ensures Valid() && frames == old(frames)
      ensures ok ==> st.obj.pump == S.AfterWrite(|chunk|, emptyNow, credited)
                     && st.conn.received == old(st.conn.received) + chunk
      ensures !ok ==> st.obj.pump == S.Notifying
                      && old(st.conn.received) <= st.conn.received <= old(st.conn.received) + chunk
      ensures st.conn.live == old(st.conn.live)
      ensures old(st.conn.live) && |chunk| <= old(st.conn.room) ==> ok && st.conn.room == old(st.conn.room) - |chunk|
    {
      hide S.Ok, Told, S.AfterWrite;
      ghost var k: nat;
      ok, k := st.conn.Write(chunk);
      ghost var a := if ok then S.PumpWrite else S.PumpWriteFail(k);
      ToldStep(o0, run, st.obj, frames, sess.buffered - buffered0, sess.global.value - global0, a);
      assert chunk[..|chunk|] == chunk;
      assert frames + [] == frames;
      run := run + [a];
      st.obj := S.Do(st.obj, a);
    }

    /** The WINDOW_UPDATE for everything delivered since the last one. */
    method Credit() returns (ok: bool)
      requires Valid() && st.obj.pump == S.Crediting(credited)
      modifies this`run, this`frames, this`credited, st`obj, sess`sent, sess`room
      ensures Valid() && (ok <==> old(sess.room) > 0)
      ensures ok ==> credited == 0 && st.obj.pump == S.Ready(0)
                     && frames == old(frames) + [S.Window(st.id, old(credited))] && sess.room == old(sess.room) - 1
      ensures !ok ==> credited == old(credited) && st.obj.pump == S.PumpHanging && frames == old(frames) && sess.room == 0
    {
      hide S.Ok, Told, S.Do, S.Can, S.Out, S.SessionDelta, S.GlobalDelta;
      CreditStep(st.obj, credited);
      ok := sess.Send(S.Window(st.id, credited % TWO32));
      ghost var a := S.PumpCredit(ok);
      ToldStep(o0, run, st.obj, frames, sess.buffered - buffered0, sess.global.value - global0, a);
      assert frames + [] == frames;
      frames := frames + if ok then [S.Window(st.id, credited % TWO32)] else [];
      run := run + [a];
      st.obj := S.Do(st.obj, a);
      if ok {
        credited := 0;
      }
    }

    /** After a failed write: a CLOSE tells the client. */
    method Notify()
      requires Valid() && st.obj.pump == S.Notifying
      modifies this`run, this`frames, st`obj, sess`sent, sess`room
      ensures Valid() && st.obj.pump == S.PumpHanging && Credits(frames) == old(Credits(frames))
      ensures Updates(frames) == old(Updates(frames))
      ensures frames == old(frames) + if old(sess.room) > 0 then [S.Close(st.id)] else []
      ensures old(sess.room) == 0 ==> sess.room == 0
    {
      hide S.Ok, Told, S.Do, S.Can, S.Out, S.SessionDelta, S.GlobalDelta;
      NotifyStep(st.obj);
      var ok := sess.Send(S.Close(st.id));
      ghost var a := S.PumpNotify(ok);
      ToldStep(o0, run, st.obj, frames, sess.buffered - buffered0, sess.global.value - global0, a);
      CreditsSnoc(frames, S.Close(st.id));
      UpdatesSnoc(frames, S.Close(st.id));
      assert frames + [] == frames;
      frames := frames + if ok then [S.Close(st.id)] else [];
      run := run + [a];
      st.obj := S.Do(st.obj, a);
    }

    method HangUp()
      requires Valid() && st.obj.pump == S.PumpHanging
      modifies this`run, st`obj, st.conn
      ensures Valid() && st.obj.pump == S.PumpDropping
      ensures st.conn.received == old(st.conn.received) && frames == old(frames) && !st.conn.live
    {
      hide S.Ok, Told, S.Do, S.Can, S.Out, S.SessionDelta, S.GlobalDelta;
      HangUpStep(st.obj);
      ToldStep(o0, run, st.obj, frames, sess.buffered - buffered0, sess.global.value - global0, S.PumpHangUp);
      assert frames + [] == frames;
      st.conn.Close();
      run := run + [S.PumpHangUp];
      st.obj := S.Do(st.obj, S.PumpHangUp);
    }

    /** Leaving the loop head: asleep in Wait on an open stream, out of the loop on a closed one. */
    method Settle()
      requires Valid() && st.obj.pump == S.Ready(credited) && (st.closed || st.queue == [])
      modifies this`run, st`obj
      ensures Valid() && frames == old(frames)
      ensures st.obj.pump == if st.closed then S.Exited else S.Parked(0)
      ensures !st.closed ==> credited == 0
    {
      hide S.Ok, Told, R.Legal, R.After, R.Frames, R.SessionSum, R.GlobalSum;
      assert frames + [] == frames;
      if st.closed {
        ToldStep(o0, run, st.obj, frames, sess.buffered - buffered0, sess.global.value - global0, S.PumpLock);
        run := run + [S.PumpLock];
        st.obj := S.Do(st.obj, S.PumpLock);
      } else {
        R.ParkingDoes(st.obj);
        ToldOn(o0, run, st.obj, frames, sess.buffered - buffered0, sess.global.value - global0, R.PARKING);
        run := run + R.PARKING;
        st.obj := st.obj.(pump := S.Parked(0));
      }
    }

    /** Once round the loop on an open stream with something queued. */
    method Round() returns (ok: bool)
      requires Valid() && st.obj.pump == S.Ready(credited) && !st.closed && st.queue != []
      modifies this, st, st.conn, sess`buffered, sess`sent, sess`room, sess.global
      ensures Valid() && !st.closed
      ensures old(credited) < 0x20_0000 && Batched(old(Updates(frames)), old(Credits(frames)), old(st.queue)) ==>
                credited < 0x20_0000 + |old(st.queue)[0]| && (ok ==> credited < 0x20_0000)
                && Batched(Updates(frames), Credits(frames), if ok then st.queue else [])
      ensures !ok ==> !st.conn.live && (sess.room == 0 || S.Close(st.id) in frames)
      ensures ok ==>
                && st.obj.pump == S.Ready(credited) && st.queue == old(st.queue)[1..]
                && st.conn.received == old(st.conn.received) + old(st.queue)[0]
                && Credits(frames) + credited == old(Credits(frames)) + old(credited) + |old(st.queue)[0]|
      ensures !ok ==>
                && st.obj.pump == S.PumpDropping
                && old(st.conn.received) <= st.conn.received <= old(st.conn.received) + old(st.queue)[0]
                && Credits(frames) == old(Credits(frames))
      ensures old(st.conn.live) && |old(st.queue)[0]| <= old(st.conn.room) && old(sess.room) > 0 ==>
                ok && st.conn.live && st.conn.room == old(st.conn.room) - |old(st.queue)[0]|
                && sess.room >= old(sess.room) - 1
    {
      hide S.Ok, Told, S.Do, Pump.Valid, Credits;
      var chunk, emptyNow := Take();
      ok := Deliver(chunk, emptyNow);
      if !ok {
        Notify();
        HangUp();
        return;
      }
      credited := credited + |chunk|;
      if credited >= CREDIT_THRESHOLD || (emptyNow && credited > 0) {
        CreditsSnoc(frames, S.Window(st.id, credited));
        UpdatesSnoc(frames, S.Window(st.id, credited));
        ok := Credit();
        if !ok {
          HangUp();
        }
      }
    }

    /**
     The loop. It ends asleep with everything queued delivered in order and credited to the last byte,
     or out of a closed stream, or at the first failure with a prefix delivered, no byte credited that was
     not, the upstream hung up and, if the wire takes it, a CLOSE written; and it fails only if the upstream
     or the wire refuses something. Credits go out in batches of half a window, the last one excepted.
     */
    method Run() returns (rest: Rest)
      requires Valid() && st.obj.pump == S.Ready(0) && credited == 0 && frames == []
      modifies this, st, st.conn, sess`buffered, sess`sent, sess`room, sess.global
      ensures Valid()
      ensures st.obj.pump == match rest { case Asleep => S.Parked(0) case Left => S.Exited case Failing => S.PumpDropping }
      ensures rest.Left? <==> old(st.closed)
      ensures old(st.conn.received) <= st.conn.received <= old(st.conn.received) + old(Flat(st.queue))
      ensures rest.Asleep? ==> st.queue == [] && st.conn.received == old(st.conn.received) + old(Flat(st.queue))
                               && Credits(frames) == |old(Flat(st.queue))|
      ensures Credits(frames) <= |st.conn.received| - |old(st.conn.received)|
      ensures Updates(frames) <= |old(Flat(st.queue))| / 0x20_0000 + 1
      ensures rest.Failing? ==> !st.conn.live && (S.Close(st.id) in frames || sess.room == 0)
      ensures old(st.conn.live && |Flat(st.queue)| <= st.conn.room && |st.queue| <= sess.room) ==> !rest.Failing?
    {
      hide S.Ok, Told, S.Do, Pump.Valid, Credits, Flat;
      ghost var all, was := Flat(st.queue), st.conn.received;
      Nothing();
      while true
        invariant Valid() && st.obj.pump == S.Ready(credited) && st.closed == old(st.closed)
        invariant was <= st.conn.received && st.conn.received + Flat(st.queue) == was + all
        invariant Credits(frames) + credited == |st.conn.received| - |was|
        invariant credited < 0x20_0000 && Batched(Updates(frames), Credits(frames), st.queue)
        invariant old(st.conn.live && |all| <= st.conn.room && |st.queue| <= sess.room) ==>
                    st.conn.live && |Flat(st.queue)| <= st.conn.room && |st.queue| <= sess.room
        decreases |st.queue|
      {
        if st.closed || st.queue == [] {
          BatchedBound(Updates(frames), Credits(frames), st.queue, |all|);
          Settle();
          return if st.closed then Left else Asleep;
        }
        HeadOfFlat(st.queue, st.conn.received);
        var ok := Round();
        if !ok {
          BatchedBound(Updates(frames), Credits(frames), [], |all|);
          return Failing;
        }
      }
    }
  }

  lemma Nothing()
    ensures Credits([]) == 0 && Updates([]) == 0 && Flat([]) == []
  {
  }

  lemma HeadOfFlat(queue: seq<Chunk>, before: seq<byte>)
    requires queue != []
    ensures Flat(queue) == queue[0] + Flat(queue[1..])
    ensures before + Flat(queue) == (before + queue[0]) + Flat(queue[1..])
    ensures before + queue[0] <= before + Flat(queue)
  {
    var rest := Flat(queue[1..]);
    assert Flat(queue) == queue[0] + rest;
    hide Flat;
    Assoc(before, queue[0], rest);
  }

  lemma Assoc(a: seq<byte>, b: seq<byte>, c: seq<byte>)
    ensures a + (b + c) == (a + b) + c && a + b <= a + (b + c)
  {
  }
}
