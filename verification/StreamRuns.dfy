/** Runs of one stream object: what a sequence of its actions does to it, to the counters and to the wire. */
module StreamRuns {
  import S = StreamObject

  predicate Legal(o: S.Obj, run: seq<S.Act>)
    decreases |run|, 0
  {
    run == [] || (Legal(o, run[..|run| - 1]) && S.Can(After(o, run[..|run| - 1]), run[|run| - 1]))
  }

  function After(o: S.Obj, run: seq<S.Act>): S.Obj
    requires Legal(o, run)
    decreases |run|, 1
  {
    if run == [] then o else S.Do(After(o, run[..|run| - 1]), run[|run| - 1])
  }

  /** The frames a run writes. */
  function Frames(o: S.Obj, run: seq<S.Act>): seq<S.Down>
    requires Legal(o, run)
  {
    if run == [] then []
    else Frames(o, run[..|run| - 1]) + S.Out(After(o, run[..|run| - 1]), run[|run| - 1])
  }

  /** What a run adds to the session's counter and to the global one. */
  function SessionSum(o: S.Obj, run: seq<S.Act>): int
    requires Legal(o, run)
  {
    if run == [] then 0
    else SessionSum(o, run[..|run| - 1]) + S.SessionDelta(After(o, run[..|run| - 1]), run[|run| - 1])
  }

  function GlobalSum(o: S.Obj, run: seq<S.Act>): int
    requires Legal(o, run)
  {
    if run == [] then 0
    else GlobalSum(o, run[..|run| - 1]) + S.GlobalDelta(After(o, run[..|run| - 1]), run[|run| - 1])
  }

  lemma Snoc(o: S.Obj, run: seq<S.Act>, a: S.Act)
    requires Legal(o, run) && S.Can(After(o, run), a)
    ensures Legal(o, run + [a]) && After(o, run + [a]) == S.Do(After(o, run), a)
    ensures Frames(o, run + [a]) == Frames(o, run) + S.Out(After(o, run), a)
    ensures SessionSum(o, run + [a]) == SessionSum(o, run) + S.SessionDelta(After(o, run), a)
    ensures GlobalSum(o, run + [a]) == GlobalSum(o, run) + S.GlobalDelta(After(o, run), a)
  {
    hide S.Can, S.Do, S.Out, S.SessionDelta, S.GlobalDelta;
    assert (run + [a])[..|run|] == run;
  }

  lemma {:induction false} KeepsOk(o: S.Obj, run: seq<S.Act>)
    requires S.Ok(o) && Legal(o, run)
    ensures S.Ok(After(o, run))
  {
    hide S.Ok, S.Can, S.Do;
    if run != [] {
      KeepsOk(o, run[..|run| - 1]);
      S.DoKeepsOk(After(o, run[..|run| - 1]), run[|run| - 1]);
    }
  }

  // ----- The closer --------------------------------------------------------------------------

  /** The four steps of the closer that wins the swap. */
  const CLOSING: seq<S.Act> := [S.CloserSwap, S.CloserBillSession, S.CloserClear, S.CloserHangUp]

  /** closeStream on a stream that it finds open: everything queued is dropped, once, from both counters. */
  function ClosedOff(o: S.Obj): S.Obj {
    o.(grab := S.Settled, closed := true, closings := o.closings + 1, reclaim := S.Reclaimed,
       pump := S.Wake(o.pump), queue := [], qbytes := 0, upstream := false,
       refunded := o.refunded + if o.qbytes > 0 then o.qbytes else 0)
  }

  /** The closer after each of its steps. */
  lemma ClosingSteps(o: S.Obj) returns (o1: S.Obj, o2: S.Obj, o3: S.Obj)
    requires S.Ok(o) && o.mu == S.Free && !o.closed && o.grab.Grabbed?
    ensures S.Can(o, S.CloserSwap) && o1 == S.Do(o, S.CloserSwap)
    ensures S.Can(o1, S.CloserBillSession) && o2 == S.Do(o1, S.CloserBillSession)
    ensures S.Can(o2, S.CloserClear) && o3 == S.Do(o2, S.CloserClear)
    ensures S.Can(o3, S.CloserHangUp) && S.Do(o3, S.CloserHangUp) == ClosedOff(o)
    ensures !o1.reclaim.viaAll && o1.qbytes == o.qbytes == o2.qbytes
  {
    hide S.CreditOk, S.SizeOk, S.WakeOk, S.LedgerOk;
    o1 := S.Swap(o, false).(grab := S.Settled);
    o2 := o1.(reclaim := S.SessionBilled(false), mu := S.ByCloser);
    o3 := o2.(reclaim := S.Hanging, mu := S.Free, pump := S.Wake(o.pump), queue := [], qbytes := 0,
              refunded := o.refunded + if o.qbytes > 0 then o.qbytes else 0);
  }

  lemma FourSteps(o: S.Obj, a: S.Act, b: S.Act, c: S.Act, d: S.Act, o1: S.Obj, o2: S.Obj, o3: S.Obj)
    requires S.Can(o, a) && o1 == S.Do(o, a) && S.Can(o1, b) && o2 == S.Do(o1, b)
    requires S.Can(o2, c) && o3 == S.Do(o2, c) && S.Can(o3, d)
    ensures var run := [a, b, c, d];
            && Legal(o, run) && After(o, run) == S.Do(o3, d)
            && SessionSum(o, run) == S.SessionDelta(o, a) + S.SessionDelta(o1, b) + S.SessionDelta(o2, c) + S.SessionDelta(o3, d)
            && GlobalSum(o, run) == S.GlobalDelta(o, a) + S.GlobalDelta(o1, b) + S.GlobalDelta(o2, c) + S.GlobalDelta(o3, d)
            && Frames(o, run) == [] + S.Out(o, a) + S.Out(o1, b) + S.Out(o2, c) + S.Out(o3, d)
  {
    hide *;
    Start(o);
    Snoc(o, [], a);
    Snoc(o, [] + [a], b);
    Snoc(o, [] + [a] + [b], c);
    Snoc(o, [] + [a] + [b] + [c], d);
    assert [a, b, c, d] == [] + [a] + [b] + [c] + [d];
  }

  lemma ClosingDoes(o: S.Obj)
    requires S.Ok(o) && o.mu == S.Free && !o.closed && o.grab.Grabbed?
    ensures Legal(o, CLOSING) && After(o, CLOSING) == ClosedOff(o)
    ensures SessionSum(o, CLOSING) == GlobalSum(o, CLOSING) == -o.qbytes && Frames(o, CLOSING) == []
  {
    hide S.Ok, S.Do, Legal, After, SessionSum, GlobalSum, Frames, ClosedOff, S.Can;
    var o1, o2, o3 := ClosingSteps(o);
    FourSteps(o, S.CloserSwap, S.CloserBillSession, S.CloserClear, S.CloserHangUp, o1, o2, o3);
  }

  lemma Start(o: S.Obj)
    ensures Legal(o, []) && After(o, []) == o && Frames(o, []) == [] && SessionSum(o, []) == 0 && GlobalSum(o, []) == 0
  {
  }

  /** A run followed by a run of what it leaves. */
  lemma {:induction false} Concat(o: S.Obj, run: seq<S.Act>, more: seq<S.Act>)
    requires Legal(o, run) && Legal(After(o, run), more)
    ensures Legal(o, run + more) && After(o, run + more) == After(After(o, run), more)
    ensures Frames(o, run + more) == Frames(o, run) + Frames(After(o, run), more)
    ensures SessionSum(o, run + more) == SessionSum(o, run) + SessionSum(After(o, run), more)
    ensures GlobalSum(o, run + more) == GlobalSum(o, run) + GlobalSum(After(o, run), more)
    decreases |more|
  {
    hide S.Can, S.Do, S.Out, S.SessionDelta, S.GlobalDelta;
    if more == [] {
      assert run + more == run;
    } else {
      var front, a := more[..|more| - 1], more[|more| - 1];
      Concat(o, run, front);
      assert run + more == (run + front) + [a];
      Snoc(o, run + front, a);
    }
  }

  lemma OneStep(o: S.Obj, a: S.Act)
    requires S.Can(o, a)
    ensures Legal(o, [a]) && After(o, [a]) == S.Do(o, a) && Frames(o, [a]) == S.Out(o, a)
    ensures SessionSum(o, [a]) == S.SessionDelta(o, a) && GlobalSum(o, [a]) == S.GlobalDelta(o, a)
  {
    hide S.Can, S.Do, S.Out, S.SessionDelta, S.GlobalDelta;
    Start(o);
    Snoc(o, [], a);
    assert [] + [a] == [a];
  }

  // ----- The pump's locked section -----------------------------------------------------------

  const TAKING: seq<S.Act> := [S.PumpLock, S.PumpBillSession, S.PumpBillGlobal]

  function Taken(o: S.Obj): S.Obj
    requires o.pump.Ready? && o.queue != []
  {
    o.(pump := S.Writing(o.queue[0], o.queue[1..] == [], o.pump.credited), queue := o.queue[1..],
       qbytes := o.qbytes - |o.queue[0]|, refunded := o.refunded + |o.queue[0]|)
  }

  lemma TakingSteps(o: S.Obj) returns (o1: S.Obj, o2: S.Obj)
    requires S.Ok(o) && o.mu == S.Free && !o.closed && o.pump.Ready? && o.queue != []
    ensures S.Can(o, S.PumpLock) && o1 == S.Do(o, S.PumpLock)
    ensures S.Can(o1, S.PumpBillSession) && o2 == S.Do(o1, S.PumpBillSession)
    ensures S.Can(o2, S.PumpBillGlobal) && S.Do(o2, S.PumpBillGlobal) == Taken(o)
    ensures o1.pump.Popped? && o2.pump.HalfBilled? && o1.pump.chunk == o2.pump.chunk == o.queue[0]
  {
    hide S.Ok;
    o1 := S.PumpDecides(o);
    o2 := o1.(pump := S.HalfBilled(o1.pump.chunk, o1.pump.emptyNow, o1.pump.credited));
  }

  /** One chunk leaves the queue and both counters. */
  lemma TakingDoes(o: S.Obj)
    requires S.Ok(o) && o.mu == S.Free && !o.closed && o.pump.Ready? && o.queue != []
    ensures Legal(o, TAKING) && After(o, TAKING) == Taken(o) && Frames(o, TAKING) == []
    ensures SessionSum(o, TAKING) == GlobalSum(o, TAKING) == -|o.queue[0]|
    ensures S.Ok(Taken(o))
  {
    hide S.Ok, S.Do, Legal, After, SessionSum, GlobalSum, Frames, Taken, S.Can;
    var o1, o2 := TakingSteps(o);
    OneStep(o, S.PumpLock);
    Snoc(o, [S.PumpLock], S.PumpBillSession);
    Snoc(o, [S.PumpLock] + [S.PumpBillSession], S.PumpBillGlobal);
    assert TAKING == [S.PumpLock] + [S.PumpBillSession] + [S.PumpBillGlobal];
    KeepsOk(o, TAKING);
  }

  const PARKING: seq<S.Act> := [S.PumpLock, S.PumpPark]

  /** With nothing queued the pump goes to sleep, and holds no credit back when it does. */
  lemma ParkingDoes(o: S.Obj)
    requires S.Ok(o) && o.mu == S.Free && !o.closed && o.pump.Ready? && o.queue == []
    ensures o.pump.credited == 0
    ensures Legal(o, PARKING) && After(o, PARKING) == o.(pump := S.Parked(0)) && Frames(o, PARKING) == []
    ensures SessionSum(o, PARKING) == GlobalSum(o, PARKING) == 0
    ensures S.Ok(o.(pump := S.Parked(0)))
  {
    var o1 := S.Do(o, S.PumpLock);
    assert S.Can(o, S.PumpLock) && S.Can(o1, S.PumpPark) && S.Do(o1, S.PumpPark) == o.(pump := S.Parked(0));
    hide S.Ok, S.Do, Legal, After, SessionSum, GlobalSum, Frames;
    OneStep(o, S.PumpLock);
    Snoc(o, [S.PumpLock], S.PumpPark);
    assert PARKING == [S.PumpLock] + [S.PumpPark];
    KeepsOk(o, PARKING);
  }
}
