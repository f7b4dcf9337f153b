/**
 Order on the server-to-client wire: a stream's OPEN_OK comes before every DATA, WINDOW_UPDATE and
 CLOSE of that stream, although they are written by different goroutines.
 */
module Order {
  import opened Bytes
  import opened Limits
  import opened Session
  import opened Shape
  import opened StreamView
  import opened Flow
  import opened Host
  import opened Upload
  import S = StreamObject

  predicate Speaks(f: S.Down) {
    f.Data? || f.Window? || f.Close?
  }

  /** The stream's OPEN_OK has been written. */
  predicate Announced(s: Session, id: StreamId) {
    id in s.home && s.home[id] < |s.objs| && s.objs[s.home[id]].opener.Launched?
  }

  ghost predicate OrderOk(s: Session) {
    && (forall k: nat | k < |s.s2c| && Speaks(s.s2c[k]) :: Announced(s, s.s2c[k].id))
    && (forall a: nat, b: nat | a < b < |s.s2c| && Speaks(s.s2c[a]) && s.s2c[b].OpenOk? :: s.s2c[a].id != s.s2c[b].id)
    && (s.loop.Shedding? ==> Announced(s, s.loop.id))
  }

  /** Announcements are never taken back. */
  predicate Grows(s: Session, s': Session) {
    forall id: StreamId :: Announced(s, id) ==> Announced(s', id)
  }

  /** One frame at most is appended: it is quiet, or of an announced stream, or a first OPEN_OK. */
  lemma AppendKeepsOrder(s: Session, s': Session, out: seq<S.Down>)
    requires OrderOk(s) && Grows(s, s') && |out| <= 1 && s'.s2c == s.s2c + out
    requires |out| == 1 && Speaks(out[0]) ==> Announced(s', out[0].id)
    requires |out| == 1 && out[0].OpenOk? ==> !Announced(s, out[0].id)
    requires s'.loop.Shedding? ==> Announced(s', s'.loop.id)
    ensures OrderOk(s')
  {
    hide Announced;
  }

  lemma LocalSpeaks(o: S.Obj, a: S.Act)
    requires S.Ok(o) && S.Can(o, a)
    ensures |S.Out(o, a)| <= 1
    ensures |S.Out(o, a)| == 1 ==>
              && S.Out(o, a)[0].id == o.id
              && (Speaks(S.Out(o, a)[0]) ==> o.opener.Launched?)
              && (S.Out(o, a)[0].OpenOk? ==> !o.opener.Launched?)
    ensures o.opener.Launched? ==> S.Do(o, a).opener.Launched?
  {
  }

  lemma LocalKeepsOrder(s: Session, i: nat, act: S.Act)
    requires ObjsOk(s) && HomesOk(s) && OrderOk(s) && i < |s.objs| && S.Can(s.objs[i], act)
    ensures OrderOk(DoLocal(s, i, act))
  {
    hide S.Ok, S.Do, S.Can, S.Out, S.SessionDelta, OrderOk;
    var o := s.objs[i];
    LocalSpeaks(o, act);
    S.DoIsSteady(o, act);
    var s' := DoLocal(s, i, act);
    assert Grows(s, s');
    assert Announced(s, o.id) <==> o.opener.Launched?;
    assert s.loop.Shedding? ==> Announced(s, s.loop.id) by { Shed(s); }
    AppendKeepsOrder(s, s', S.Out(o, act));
  }

  lemma Shed(s: Session)
    requires OrderOk(s)
    ensures s.loop.Shedding? ==> Announced(s, s.loop.id)
  {
  }

  /** Steps that emit nothing that speaks and shed nothing new. */
  lemma QuietKeepsOrder(s: Session, s': Session, out: seq<S.Down>)
    requires OrderOk(s) && Grows(s, s') && |out| <= 1 && s'.s2c == s.s2c + out
    requires |out| == 1 ==> !Speaks(out[0]) && !out[0].OpenOk?
    requires s'.loop.Shedding? ==> s'.loop == s.loop
    ensures OrderOk(s')
  {
    Shed(s);
    AppendKeepsOrder(s, s', out);
  }

  /** Streams that hold a payload in the read loop's hands have been announced. */
  lemma ServedIsAnnounced(s: Session)
    requires FlowOk(s) && LoopOk(s) && Serving(s.loop)
    ensures Announced(s, s.objs[s.loop.i].id)
  {
    hide PendingOk, ViewOk, S.Ok, UpBytes, Credits, Oks;
    var id := s.objs[s.loop.i].id;
    ObjView(s, s.loop.i);
    HandMeansLaunched(ViewOf(s, id));
  }

  lemma HandMeansLaunched(v: View)
    requires ViewOk(v) && v.obj.Some? && v.hand != []
    ensures v.obj.value.opener.Launched?
  {
  }

  predicate SameLaunches(s: Session, s': Session) {
    && s'.home == s.home && |s'.objs| == |s.objs|
    && forall i: nat | i < |s.objs| :: s'.objs[i].opener.Launched? <==> s.objs[i].opener.Launched?
  }

  lemma DropKeepsOrder(s: Session, m: DropMove)
    requires OrderOk(s) && CanDrop(s, m)
    ensures OrderOk(DoDrop(s, m))
  {
    hide OrderOk;
    var s' := DoDrop(s, m);
    assert SameLaunches(s, s');
    assert s'.s2c == s.s2c + [];
    QuietKeepsOrder(s, s', []);
  }

  lemma OpenerKeepsOrder(s: Session, m: OpenerMove)
    requires FlowOk(s) && OrderOk(s) && CanOpener(s, m)
    ensures OrderOk(DoOpener(s, m))
  {
    hide OrderOk, HomesOk, FramesOk, ViewsOk, PendingOk;
    var s' := DoOpener(s, m);
    if m.DialFail? {
      QuietKeepsOrder(s, s', if m.ok then [S.OpenErr(s.dialing[m.k])] else []);
    } else {
      assert s'.s2c == s.s2c + [];
      if m.DialStore? {
        DialledPending(s, m.k);
        assert Grows(s, s');
      } else {
        assert SameLaunches(s, s');
      }
      QuietKeepsOrder(s, s', []);
    }
  }

  lemma LoopLaunches(s: Session, global: int, m: LoopMove)
    requires CanLoop(s, m)
    ensures SameLaunches(s, DoLoop(s, global, m))
  {
    hide DoRecv, LoadAndDelete, S.Push, S.PushDone, S.Loaded;
    if m.LoopDrop? {
      LoadKeepsLaunches(s, s.loop.id);
    } else if m.LoopLock? {
      PushKeepsOpener(s.objs[s.loop.i], s.loop.payload);
    } else if m.LoopBillGlobal? {
      PushKeepsOpener(s.objs[s.loop.i], []);
    }
  }

  lemma PushKeepsOpener(o: S.Obj, p: Chunk)
    ensures S.Push(o, p).opener == o.opener && S.PushDone(o).opener == o.opener
  {
  }

  lemma LoadKeepsLaunches(s: Session, id: StreamId)
    ensures SameLaunches(s, LoadAndDelete(s, id))
  {
  }

  lemma TestKeepsOrder(s: Session, global: int, m: LoopMove)
    requires FlowOk(s) && LoopOk(s) && OrderOk(s) && CanLoop(s, m) && (m.LoopTestSession? || m.LoopTestGlobal?)
    ensures OrderOk(DoLoop(s, global, m))
  {
    hide FlowOk, OrderOk, LoopOk;
    assert s.s2c + [] == s.s2c;
    ServedIsAnnounced(s);
    AppendKeepsOrder(s, DoLoop(s, global, m), []);
  }

  lemma LoopKeepsOrder(s: Session, global: int, m: LoopMove)
    requires FlowOk(s) && LoopOk(s) && OrderOk(s) && CanLoop(s, m)
    ensures OrderOk(DoLoop(s, global, m))
  {
    hide FlowOk, OrderOk, LoopOk, LoadAndDelete;
    LoopLaunches(s, global, m);
    assert s.s2c + [] == s.s2c;
    if m.LoopRefuse? {
      QuietKeepsOrder(s, DoLoop(s, global, m), if m.ok then [S.OpenErr(s.loop.id)] else []);
    } else if m.LoopTestSession? || m.LoopTestGlobal? {
      TestKeepsOrder(s, global, m);
    } else if m.LoopShed? {
      Shed(s);
      AppendKeepsOrder(s, DoLoop(s, global, m), if m.ok then [S.Close(s.loop.id)] else []);
    } else {
      assert DoLoop(s, global, m).s2c == s.s2c by { LoopSilent(s, global, m); }
      QuietKeepsOrder(s, DoLoop(s, global, m), []);
    }
  }

  lemma LoopSilent(s: Session, global: int, m: LoopMove)
    requires CanLoop(s, m) && !m.LoopRefuse? && !m.LoopShed?
    ensures DoLoop(s, global, m).s2c == s.s2c
    ensures DoLoop(s, global, m).loop.Shedding? ==> m.LoopTestSession? || m.LoopTestGlobal?
  {
    hide DoRecv, S.Push, S.PushDone, S.Loaded;
    if m.LoopRecv? {
      RecvShedsNothing(s);
    }
  }

  lemma RecvShedsNothing(s: Session)
    requires s.loop.Idle? && s.c2s != []
    ensures !DoRecv(s).loop.Shedding?
  {
  }

  lemma AllKeepsOrder(s: Session, m: AllMove)
    requires OrderOk(s) && CanAll(s, m)
    ensures OrderOk(DoAll(s, m))
  {
    hide OrderOk;
    assert SameLaunches(s, DoAll(s, m));
    assert s.s2c + [] == s.s2c;
    QuietKeepsOrder(s, DoAll(s, m), []);
  }

  lemma ClientKeepsOrder(s: Session, m: ClientMove)
    requires OrderOk(s) && CanClient(s, m)
    ensures OrderOk(DoClient(s, m))
  {
    hide Act, Sent, Receive, WindowFits;
    assert SameLaunches(s, DoClient(s, m));
    if !m.ClientRecv? {
      assert s.s2c + [] == s.s2c;
      QuietKeepsOrder(s, DoClient(s, m), []);
    }
  }

  lemma BeatKeepsOrder(s: Session, m: BeatMove)
    requires OrderOk(s) && CanBeat(s, m)
    ensures OrderOk(DoBeat(s, m))
  {
    hide OrderOk;
    var s' := DoBeat(s, m);
    assert SameLaunches(s, s') && s.s2c + [] == s.s2c;
    QuietKeepsOrder(s, s', match m case ServerPing => [S.Ping(0)] case ServerPong => [S.Pong(0)] case _ => []);
  }

  lemma DoKeepsOrder(s: Session, global: int, m: Move)
    requires ShapeOk(s) && Can(s, m)
    requires !s.rogue ==> FlowOk(s) && OrderOk(s)
    ensures !Do(s, global, m).rogue ==> OrderOk(Do(s, global, m))
  {
    hide FlowOk, OrderOk, TableOk, ObjsOk, LoopOk, DoLocal, DoDrop, DoOpener, DoLoop, DoAll, NextId;
    if !Do(s, global, m).rogue {
      match m
      case Local(i, act) => LocalKeepsOrder(s, i, act) by { FlowHomesOk(s); }
      case DropBy(drop) => DropKeepsOrder(s, drop);
      case OpenerDoes(opener) => OpenerKeepsOrder(s, opener);
      case LoopDoes(step) => LoopKeepsOrder(s, global, step);
      case AllDoes(sweep) => AllKeepsOrder(s, sweep);
      case ClientDoes(client) => ClientKeepsOrder(s, client);
      case BeatDoes(beat) => BeatKeepsOrder(s, beat);
    }
  }

  lemma FlowHomesOk(s: Session)
    requires FlowOk(s)
    ensures HomesOk(s)
  {
    hide HomesOk, PendingOk, FramesOk, ViewsOk;
  }

  // ----- Runs --------------------------------------------------------------------------------

  ghost predicate OrdersOk(h: Host) {
    forall k: nat | k < |h.sessions| :: !h.sessions[k].rogue ==> OrderOk(h.sessions[k])
  }

  lemma EventKeepsOrders(h: Host, e: Event)
    requires SessionsOk(h) && FlowsOk(h) && OrdersOk(h) && CanHost(h, e)
    ensures OrdersOk(DoHost(h, e))
  {
    hide FlowOk, Can, Do, ShapeOk, WritersOk;
    if e.Step? {
      assert SessionOk(h.sessions[e.k]);
      hide OrderOk;
      DoKeepsOrder(h.sessions[e.k], h.global, e.move);
    }
  }

  lemma {:induction false} RunKeepsOrders(h: Host, run: seq<Event>)
    requires HostOk(h) && FlowsOk(h) && OrdersOk(h) && Legal(h, run)
    ensures OrdersOk(After(h, run))
    decreases |run|
  {
    hide SessionOk, FlowOk, OrderOk, GlobalExact, GlobalBounded, DoHost, CanHost;
    if run != [] {
      EventKeepsOk(h, run[0]);
      EventKeepsFlows(h, run[0]);
      EventKeepsOrders(h, run[0]);
      RunKeepsOrders(DoHost(h, run[0]), run[1..]);
    }
  }

  lemma {:induction false} FindOk(s2c: seq<S.Down>, id: StreamId) returns (k: nat)
    requires Oks(s2c, id) >= 1
    ensures k < |s2c| && s2c[k].OpenOk? && s2c[k].id == id
  {
    if s2c[0].id == id && s2c[0].OpenOk? {
      k := 0;
    } else {
      k := FindOk(s2c[1..], id);
      k := k + 1;
    }
  }

  lemma FirstIsOpenOk(s: Session)
    requires FlowOk(s) && OrderOk(s) && s.s2c != [] && Speaks(s.s2c[0])
    requires s.s2c[0].id in s.clients && s.clients[s.s2c[0].id].registered
    ensures s.clients[s.s2c[0].id].flow
  {
    hide HomesOk, PendingOk, FramesOk, UpBytes, Oks, Credits;
    var id := s.s2c[0].id;
    assert ViewOk(ViewOf(s, id));
    if !s.clients[id].flow {
      var k := FindOk(s.s2c, id);
    }
  }

  /**
   When a client that keeps to the protocol takes a DATA, WINDOW_UPDATE or CLOSE of a stream it still
   listens to, it has already taken that stream's OPEN_OK; and on the wire none stands before it.
   */
  lemma OpenOkComesFirst(limit: nat, run: seq<Event>, k: nat)
    requires Legal(Boot(limit), run) && k < |After(Boot(limit), run).sessions|
    requires !After(Boot(limit), run).sessions[k].rogue
    ensures var s := After(Boot(limit), run).sessions[k];
            && (forall a: nat, b: nat | a < b < |s.s2c| && Speaks(s.s2c[a]) && s.s2c[b].OpenOk? :: s.s2c[a].id != s.s2c[b].id)
            && (s.s2c != [] && Speaks(s.s2c[0]) && s.s2c[0].id in s.clients && s.clients[s.s2c[0].id].registered ==>
                  s.clients[s.s2c[0].id].flow)
  {
    hide Legal, After, FlowOk, ShapeOk, WritersOk, SessionOk, GlobalExact, GlobalBounded, Announced;
    BootOk(limit);
    ReachableFlows(limit, run, k);
    RunKeepsOrders(Boot(limit), run);
    var s := After(Boot(limit), run).sessions[k];
    if s.s2c != [] && Speaks(s.s2c[0]) && s.s2c[0].id in s.clients && s.clients[s.s2c[0].id].registered {
      FirstIsOpenOk(s);
    }
  }
}
