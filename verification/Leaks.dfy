/**
 Two runs in which a peer that does not follow the client code leaves something behind after its
 session is completely torn down: DATA sent before OPEN_OK, and an id used for two streams.
 */
module Leaks {
  import opened Limits
  import opened Session
  import opened Host
  import opened Tightness
  import opened Teardown
  import S = StreamObject

  const ID: StreamId := 1

  /** One place of the semaphore for each object, the last of them listed; no frame under way. */
  function Opened(objs: seq<S.Obj>, b: int): Session
    requires objs != []
  {
    Session(objs, map[ID := |objs| - 1], map[ID := |objs| - 1], b, false, NotBegun, Idle, [], |objs|, 0, [], [],
            map[], 0, false, true)
  }

  lemma OpenOnce() returns (run: seq<Event>)
    ensures Legal(Boot(1), run) && After(Boot(1), run) == Single(Opened([S.Fresh(ID)], 0), 0)
  {
    hide Legal, After, Boot;
    run := Begin();
    run := Step1(run, START, 0, Rogue(OpenFrame(ID)));
    var s1 := START.(c2s := [OpenFrame(ID)], rogue := true);
    assert Do(START, 0, Rogue(OpenFrame(ID))) == s1;
    run := Step1(run, s1, 0, LoopDoes(LoopRecv));
    var s2 := s1.(c2s := [], dialing := [ID], slots := 1);
    assert Do(s1, 0, LoopDoes(LoopRecv)) == s2;
    run := Step1(run, s2, 0, OpenerDoes(DialStore(0)));
    assert Do(s2, 0, OpenerDoes(DialStore(0))) == Opened([S.Fresh(ID)], 0);
  }

  /** The state after DATA of one byte was queued on the stream before its OPEN_OK. */
  function EarlyObj(): S.Obj {
    S.PushDone(S.Push(S.Fresh(ID), [0]))
  }

  lemma QueueEarly(run: seq<Event>) returns (run': seq<Event>)
    requires Legal(Boot(1), run) && After(Boot(1), run) == Single(Opened([S.Fresh(ID)], 0), 0)
    ensures Legal(Boot(1), run') && After(Boot(1), run') == Single(Opened([EarlyObj()], 1), 1)
  {
    hide Legal, After, Boot;
    var s := Opened([S.Fresh(ID)], 0);
    run' := Step1(run, s, 0, Rogue(DataFrame(ID, [0])));
    var s1 := s.(c2s := [DataFrame(ID, [0])]);
    assert Do(s, 0, Rogue(DataFrame(ID, [0]))) == s1;
    run' := Step1(run', s1, 0, LoopDoes(LoopRecv));
    var s2 := s.(loop := Looked(0, [0]));
    assert Do(s1, 0, LoopDoes(LoopRecv)) == s2;
    var s3;
    run', s3 := QueueChunk(run', s2, 0, 0);
    assert s3 == Opened([EarlyObj()], 1);
  }

  /** closeAll raises its flag; handleOpen sees it, takes its entry out and hangs up; Range finds nothing. */
  lemma CleanUp(run: seq<Event>, s: Session, g: int) returns (run': seq<Event>, s': Session)
    requires s.loop.Idle? && s.all.NotBegun? && s.objs != [] && s.objs[0].opener.Stored? && s.objs[0].id == ID
    requires s.table.Keys == {ID}
    requires Legal(Boot(1), run) && After(Boot(1), run) == Single(s, g)
    ensures Legal(Boot(1), run') && After(Boot(1), run') == Single(s', g)
    ensures s' == s.(closed := true, loop := Ended, all := Finished, table := map[], leaving := s.leaving + 1,
                     objs := s.objs[0 := s.objs[0].(opener := S.Returned, upstream := false)])
  {
    hide Legal, After, Boot;
    run' := Step1(run, s, g, LoopDoes(LoopEnd));
    var s1 := s.(loop := Ended);
    run' := Step1(run', s1, g, AllDoes(AllFlag));
    var s2 := s1.(closed := true, all := Flagged);
    assert Do(s1, g, AllDoes(AllFlag)) == s2;
    run', s' := CleanOwn(run', s2, g);
  }

  /** With the flag up, the handleOpen call that is still before its check takes its entry out and hangs up. */
  lemma CleanOwn(run: seq<Event>, s2: Session, g: int) returns (run': seq<Event>, s': Session)
    requires s2.all.Flagged? && s2.closed && s2.loop.Ended? && s2.table.Keys == {ID}
    requires s2.objs != [] && s2.objs[0].opener.Stored? && s2.objs[0].id == ID
    requires Legal(Boot(1), run) && After(Boot(1), run) == Single(s2, g)
    ensures Legal(Boot(1), run') && After(Boot(1), run') == Single(s', g)
    ensures s' == s2.(all := Finished, table := map[], leaving := s2.leaving + 1,
                      objs := s2.objs[0 := s2.objs[0].(opener := S.Returned, upstream := false)])
  {
    hide Legal, After, Boot;
    var o := s2.objs[0];
    run' := Step1(run, s2, g, OpenerDoes(OpenerCheck(0)));
    var s3 := s2.(objs := s2.objs[0 := o.(opener := S.Cleaning)]);
    assert Do(s2, g, OpenerDoes(OpenerCheck(0))) == s3;
    run' := Step1(run', s3, g, OpenerDoes(OpenerClean(0)));
    var s4 := s3.(table := map[], objs := s2.objs[0 := o.(opener := S.OpenerHanging)]);
    assert Do(s3, g, OpenerDoes(OpenerClean(0))) == s4 by {
      assert s2.table - {ID} == map[];
    }
    run', s' := FinishEmpty(run', s4, g);
  }

  lemma FinishEmpty(run: seq<Event>, s: Session, g: int) returns (run': seq<Event>, s': Session)
    requires s.all.Flagged? && s.objs != [] && s.objs[0].opener.OpenerHanging? && s.table == map[]
    requires Legal(Boot(1), run) && After(Boot(1), run) == Single(s, g)
    ensures Legal(Boot(1), run') && After(Boot(1), run') == Single(s', g)
    ensures s' == s.(all := Finished, leaving := s.leaving + 1,
                     objs := s.objs[0 := s.objs[0].(opener := S.Returned, upstream := false)])
  {
    hide Legal, After, Boot;
    run' := Step1(run, s, g, Local(0, S.OpenerHangUp));
    var s1 := s.(leaving := s.leaving + 1, objs := s.objs[0 := s.objs[0].(opener := S.Returned, upstream := false)]);
    assert Do(s, g, Local(0, S.OpenerHangUp)) == s1 by {
      assert s.s2c + [] == s.s2c;
    }
    run' := Step1(run', s1, g, AllDoes(AllStart));
    var s2 := s1.(all := Ranging(map[]));
    run' := Step1(run', s2, g, AllDoes(AllFinish));
    s' := s2.(all := Finished);
  }

  /**
   DATA before OPEN_OK leaks: the session is at rest, its table empty and its upstream closed, and one
   byte is still counted in v2GlobalBuffered for ever.
   */
  lemma EarlyDataLeaks() returns (run: seq<Event>)
    ensures Legal(Boot(1), run)
    ensures var h := After(Boot(1), run);
            |h.sessions| == 1 && AtRest(h.sessions[0]) && h.sessions[0].table == map[] && h.global == 1
  {
    hide Legal, After, Boot;
    run := OpenOnce();
    run := QueueEarly(run);
    var s;
    run, s := CleanUp(run, Opened([EarlyObj()], 1), 1);
  }

  // ----- A reused id -------------------------------------------------------------------------

  /** The first stream after a CLOSE, while its handleOpen is still before its look at the session's closed flag. */
  function Closed(): S.Obj {
    S.Fresh(ID).(grab := S.Settled, closed := true, closings := 1, reclaim := S.Reclaimed, upstream := false)
  }

  /** A silent step of a session's only stream, at no cost to the counters. */
  lemma Acts(run: seq<Event>, s: Session, a: S.Act) returns (run': seq<Event>, s': Session)
    requires |s.objs| == 1 && S.Can(s.objs[0], a) && S.Out(s.objs[0], a) == [] && !Returns(a)
    requires S.SessionDelta(s.objs[0], a) == 0 && S.GlobalDelta(s.objs[0], a) == 0
    requires Legal(Boot(1), run) && After(Boot(1), run) == Single(s, 0)
    ensures Legal(Boot(1), run') && After(Boot(1), run') == Single(s', 0)
    ensures s' == s.(objs := [S.Do(s.objs[0], a)])
  {
    hide Legal, After, Boot, S.Do, S.Can, S.Out, S.SessionDelta, S.GlobalDelta;
    run' := Step1(run, s, 0, Local(0, a));
    s' := s.(objs := [S.Do(s.objs[0], a)]);
    assert s.s2c + [] == s.s2c;
    assert s.objs[0 := S.Do(s.objs[0], a)] == [S.Do(s.objs[0], a)];
    assert Do(s, 0, Local(0, a)) == s';
  }

  /** The read loop's closeStream. */
  lemma CloseFirst(run: seq<Event>, s: Session) returns (run': seq<Event>)
    requires s.objs == [S.Fresh(ID).(grab := S.Grabbed)] && s.loop == LoopClosing(0)
    requires Legal(Boot(1), run) && After(Boot(1), run) == Single(s, 0)
    ensures Legal(Boot(1), run') && After(Boot(1), run') == Single(s.(objs := [Closed()], loop := Idle), 0)
  {
    hide Legal, After, Boot;
    var s1;
    run', s1 := Acts(run, s, S.CloserSwap);
    run', s1 := Acts(run', s1, S.CloserBillSession);
    run', s1 := Acts(run', s1, S.CloserClear);
    run', s1 := Acts(run', s1, S.CloserHangUp);
    assert s1 == s.(objs := [Closed()]);
    run' := Step1(run', s1, 0, LoopDoes(LoopDone));
  }

  /** CLOSE and OPEN again, for the same id. */
  lemma Reuse(run: seq<Event>) returns (run': seq<Event>)
    requires Legal(Boot(1), run) && After(Boot(1), run) == Single(Opened([S.Fresh(ID)], 0), 0)
    ensures Legal(Boot(1), run')
    ensures After(Boot(1), run') == Single(Opened([Closed(), S.Fresh(ID)], 0), 0)
  {
    hide Legal, After, Boot;
    var s := Opened([S.Fresh(ID)], 0);
    run' := Step1(run, s, 0, Rogue(CloseFrame(ID)));
    var s1 := s.(c2s := [CloseFrame(ID)]);
    assert Do(s, 0, Rogue(CloseFrame(ID))) == s1;
    run' := Step1(run', s1, 0, LoopDoes(LoopRecv));
    var s2 := s.(loop := LoopDropping(ID));
    assert Do(s1, 0, LoopDoes(LoopRecv)) == s2;
    run' := Step1(run', s2, 0, LoopDoes(LoopDrop));
    var s3 := s.(table := map[], objs := [S.Fresh(ID).(grab := S.Grabbed)], loop := LoopClosing(0));
    assert Do(s2, 0, LoopDoes(LoopDrop)) == s3 by {
      assert s.table - {ID} == map[];
    }
    run' := CloseFirst(run', s3);
    run' := OpenAgain(run', s3.(objs := [Closed()], loop := Idle));
  }

  lemma OpenAgain(run: seq<Event>, s: Session) returns (run': seq<Event>)
    requires s == Opened([S.Fresh(ID)], 0).(table := map[], objs := [Closed()])
    requires Legal(Boot(1), run) && After(Boot(1), run) == Single(s, 0)
    ensures Legal(Boot(1), run')
    ensures After(Boot(1), run') == Single(Opened([Closed(), S.Fresh(ID)], 0), 0)
  {
    hide Legal, After, Boot;
    run' := Step1(run, s, 0, Rogue(OpenFrame(ID)));
    var s1 := s.(c2s := [OpenFrame(ID)]);
    assert Do(s, 0, Rogue(OpenFrame(ID))) == s1;
    run' := Step1(run', s1, 0, LoopDoes(LoopRecv));
    var s2 := s.(dialing := [ID], slots := 2);
    assert Do(s1, 0, LoopDoes(LoopRecv)) == s2;
    run' := Step1(run', s2, 0, OpenerDoes(DialStore(0)));
    assert Do(s2, 0, OpenerDoes(DialStore(0))) == Opened([Closed(), S.Fresh(ID)], 0);
  }

  /** The second stream after OPEN_OK, with its pump parked. */
  function Running(): S.Obj {
    S.Fresh(ID).(opener := S.Launched, pump := S.Parked(0), reader := S.Reading)
  }

  lemma LaunchSecond(run: seq<Event>, first: S.Obj) returns (run': seq<Event>, s': Session)
    requires Legal(Boot(1), run) && After(Boot(1), run) == Single(Opened([first, S.Fresh(ID)], 0), 0)
    ensures Legal(Boot(1), run') && After(Boot(1), run') == Single(s', 0)
    ensures s' == Opened([first, Running()], 0).(leaving := 1, s2c := [S.OpenOk(ID, WINDOW)])
  {
    hide Legal, After, Boot;
    var s := Opened([first, S.Fresh(ID)], 0);
    run' := Step1(run, s, 0, OpenerDoes(OpenerCheck(1)));
    var s1 := s.(objs := [first, S.Fresh(ID).(opener := S.Cleared)]);
    assert Do(s, 0, OpenerDoes(OpenerCheck(1))) == s1;
    run' := Step1(run', s1, 0, Local(1, S.OpenerAnnounce(true)));
    var s2 := s.(objs := [first, Running().(pump := S.Ready(0))], leaving := 1, s2c := [S.OpenOk(ID, WINDOW)]);
    assert Do(s1, 0, Local(1, S.OpenerAnnounce(true))) == s2;
    run' := Step1(run', s2, 0, Local(1, S.PumpLock));
    var s3 := s2.(objs := [first, Running().(pump := S.Deciding(0), mu := S.ByPump)]);
    assert Do(s2, 0, Local(1, S.PumpLock)) == s3;
    run' := Step1(run', s3, 0, Local(1, S.PumpPark));
    s' := s2.(objs := [first, Running()]);
    assert Do(s3, 0, Local(1, S.PumpPark)) == s';
  }

  /**
   A reused id leaks: the first handleOpen's cleanup removes the second stream's entry, closeAll never
   visits it, and after everything has come to rest its upstream is open and its pump parked for ever.
   */
  lemma ReusedIdLeaks() returns (run: seq<Event>)
    ensures Legal(Boot(1), run)
    ensures var h := After(Boot(1), run);
            && |h.sessions| == 1 && AtRest(h.sessions[0]) && h.sessions[0].table == map[]
            && |h.sessions[0].objs| == 2
            && var o := h.sessions[0].objs[1]; o.upstream && o.pump.Parked? && !o.closed
  {
    hide Legal, After, Boot;
    run := OpenOnce();
    run := Reuse(run);
    var s;
    run, s := LaunchSecond(run, Closed());
    run, s := CleanUp(run, s, 0);
  }
}
