/**
 Uploads do not stall: where nothing is left to happen but what slow upstreams may yet accept, every other
 healthy stream has delivered all its client wanted to send.
 */
module Stalls {
  import opened Limits
  import opened Session
  import opened Shape
  import opened StreamView
  import opened Flow
  import opened BackPressure
  import S = StreamObject

  /** A pump that can take no step, on an open stream with an open upstream, is parked and owes nothing. */
  lemma StuckPump(s: Session, slow: set<nat>, i: nat)
    requires StuckBut(s, slow) && ObjsOk(s) && LoopOk(s) && s.loop.Idle? && i < |s.objs| && i !in slow
    requires var o := s.objs[i]; Alive(o.pump) && !o.pump.Unstarted? && !o.closed && o.upstream
    ensures var o := s.objs[i]; o.pump == S.Parked(0) && o.queue == []
  {
    StuckAtAnyCapacity(s, slow, 0);
    QuietMutex(s, slow, 0, i);
    assert S.Ok(s.objs[i]);
    assert !Can(s, Local(i, S.PumpLock));
    assert !Can(s, Local(i, S.PumpPark));
    assert !Can(s, Local(i, S.PumpBillSession));
    assert !Can(s, Local(i, S.PumpBillGlobal));
    assert !Can(s, Local(i, S.PumpWrite));
    assert !Can(s, Local(i, S.PumpCredit(true)));
  }

  /** A stream is served while it is healthy and its upstream is still open. */
  predicate Served(v: View) {
    Healthy(v) && v.obj.value.upstream
  }

  lemma DrainedView(v: View)
    requires ViewOk(v) && Healthy(v) && v.obj.value.pump == S.Parked(0) && v.obj.value.queue == []
    requires v.hand == [] && v.wire == [] && v.credit == 0 && v.c.writer.Quiet?
    ensures v.c.window == WINDOW && v.obj.value.delivered == v.c.framed
  {
    Conservation(v);
    FullWindowMeansDelivered(v);
  }

  /**
   No stalled upload, and a slow stream stops no other. Where every move that is left waits for room on
   a wire of any capacity, or for the upstreams of some slow streams, which may never accept what they are
   offered, and the session is not wedged: no other served stream's client waits for window or has
   anything left to write, and everything it framed has been delivered.
   */
  lemma StuckMeansDelivered(s: Session, slow: set<nat>, cap: nat, id: StreamId)
    requires cap > 0 && StuckWithin(s, slow, cap) && !Wedged(s, cap)
    requires ObjsOk(s) && LoopOk(s) && FlowOk(s) && !s.loop.Ended?
    requires id in s.clients && Served(ViewOf(s, id)) && (id in s.home ==> s.home[id] !in slow)
    ensures var c := s.clients[id];
            && c.todo == [] && c.writer.Quiet? && c.window == WINDOW
            && ViewOf(s, id).obj.value.delivered == c.framed
  {
    hide FlowOk, LoopOk, ObjsOk, ViewOk, CanClient, StuckBut, StuckWithin, S.Ok;
    var v := ViewOf(s, id);
    SticksShort(s, slow, cap);
    EmptyWires(s, slow, cap);
    ViewFacts(s, id);
    LaunchedPump(s, s.home[id]);
    StuckPump(s, slow, s.home[id]);
    StuckWriter(s, slow, id);
    DrainedView(v);
    NextFits(v.c.todo);
  }

  /** The read loop is between frames and both wires are empty. */
  lemma EmptyWires(s: Session, slow: set<nat>, cap: nat)
    requires cap > 0 && StuckBut(s, slow) && LoopOk(s) && ObjsOk(s) && !s.loop.Ended?
    ensures s.loop.Idle? && s.c2s == [] && s.s2c == []
  {
    hide LoopOk, ObjsOk, StuckWithin;
    StuckAtAnyCapacity(s, slow, cap);
    assert !Can(s, LoopDoes(LoopShed(true))) && !Can(s, LoopDoes(LoopRefuse(true)));
    QuietLoop(s, slow, cap);
    QuietClient(s, slow, cap);
  }

  lemma LaunchedPump(s: Session, i: nat)
    requires ObjsOk(s) && i < |s.objs| && s.objs[i].opener.Launched?
    ensures !s.objs[i].pump.Unstarted?
  {
    assert S.Ok(s.objs[i]);
  }

  lemma ViewFacts(s: Session, id: StreamId)
    requires FlowOk(s) && id in s.clients && Healthy(ViewOf(s, id))
    ensures ViewOk(ViewOf(s, id))
    ensures id in s.home && s.home[id] < |s.objs| && ViewOf(s, id).obj.value == s.objs[s.home[id]]
    ensures s.objs[s.home[id]].opener.Launched?
  {
    hide HomesOk, PendingOk, FramesOk;
  }

  lemma StuckWriter(s: Session, slow: set<nat>, id: StreamId)
    requires StuckBut(s, slow) && id in s.clients
    ensures !s.clients[id].writer.Holding?
    ensures Wants(s.clients[id]) ==> !WindowFits(s.clients[id])
  {
    hide WindowFits;
    assert !Can(s, ClientDoes(ClientFrame(id, true)));
    assert !Can(s, ClientDoes(ClientAcquire(id)));
  }
}
