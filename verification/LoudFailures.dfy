/**
 No client is left waiting. A stream that has come to an end on the server is closed at the client; and an
 upload either arrives whole, or fails loudly: its writer gets an error instead of waiting for window.
 */
module LoudFailures {
  import opened Bytes
  import opened Limits
  import opened Session
  import opened Shape
  import opened StreamView
  import opened Flow
  import opened Host
  import opened Upload
  import opened Teardown
  import opened Aftermath
  import opened BackPressure
  import opened Stalls
  import opened SlowStreams
  import opened Traffic
  import opened Hearing
  import opened Endings
  import S = StreamObject

  // ----- What is assumed of a run ------------------------------------------------------------

  predicate Succeeds(a: S.Act) {
    match a
    case ReaderData(_, ok) => ok
    case ReaderClose(ok) => ok
    case PumpCredit(ok) => ok
    case PumpNotify(ok) => ok
    case OpenerAnnounce(ok) => ok
    case _ => true
  }

  /** The server's frames go out, the client keeps to the protocol, and its user leaves stream id open. */
  predicate Candid(m: Move, id: StreamId) {
    match m
    case Local(_, act) => Succeeds(act)
    case LoopDoes(step) => step.LoopShed? ==> step.ok
    case ClientDoes(client) => client.ClientClose? || client.ClientGiveUp? ==> client.id != id
    case Rogue(_) => false
    case _ => true
  }

  // ----- The invariant -----------------------------------------------------------------------

  /** The OPEN of the stream has not been answered yet. */
  ghost predicate Underway(s: Session, id: StreamId) {
    id in s.dialing || s.loop == Refusing(id) || OpenFrame(id) in s.c2s
  }

  /** The client knows that its stream has ended, or will hear of it. */
  predicate Told(s: Session, id: StreamId)
    requires id in s.clients
  {
    || s.clients[id].closed || S.Close(id) in s.s2c || s.loop == Shedding(id)
    || (id in s.home && s.home[id] < |s.objs|
        && (s.objs[s.home[id]].reader.Ending? || s.objs[s.home[id]].pump.Notifying?))
  }

  /** A stream that is stored or under way gets no OPEN_ERR, and only a CLOSE takes it from the client's table. */
  ghost predicate HopeOk(s: Session, id: StreamId) {
    if id in s.clients then
      id in s.home || Underway(s, id) ==>
        S.OpenErr(id) !in s.s2c && (s.clients[id].registered || s.clients[id].closed)
    else S.OpenErr(id) !in s.s2c
  }

  ghost predicate LoudOk(s: Session, id: StreamId) {
    && CloseFrame(id) !in s.c2s && HopeOk(s, id)
    && (s.loop == Shedding(id) || s.loop == LoopDropping(id) ==> id in s.home)
    && (id in s.clients && id in s.home && s.home[id] < |s.objs| && !s.loop.Ended? ==>
          (Sick(s.objs[s.home[id]]) || s.loop == LoopDropping(id) ==> Told(s, id)))
  }

  // ----- Open and refused --------------------------------------------------------------------

  lemma {:induction false} OpenIdsAre(c2s: seq<Up>, id: StreamId)
    ensures id in OpenIds(c2s) <==> OpenFrame(id) in c2s
  {
    if c2s != [] {
      OpenIdsAre(c2s[1..], id);
      assert OpenFrame(id) in c2s <==> c2s[0] == OpenFrame(id) || OpenFrame(id) in c2s[1..];
    }
  }

  lemma UnderwayIsPending(s: Session, id: StreamId)
    ensures Underway(s, id) <==> id in Pending(s)
  {
    hide OpenIds;
    OpenIdsAre(s.c2s, id);
  }

  /** An id that was neither stored nor under way stays so, but for a new stream. */
  lemma NoNewcomer(s: Session, global: int, m: Move, id: StreamId)
    requires Can(s, m) && id !in s.home && !Underway(s, id)
    ensures id in Do(s, global, m).home || Underway(Do(s, global, m), id) ==>
              (m == ClientDoes(ClientOpen) && id == NextId(s.opens)) || m == Rogue(OpenFrame(id))
  {
    hide DoLocal, DoDrop, DoOpener, DoLoop, DoAll, DoClient, DoBeat, S.Can, NextId;
    match m
    case Local(i, act) => LocalKeepsRest(s, i, act);
    case DropBy(drop) => DropKeepsRest(s, drop);
    case OpenerDoes(opener) => OpenerBringsNobody(s, opener, id);
    case LoopDoes(step) => LoopBringsNobody(s, global, step, id);
    case AllDoes(sweep) => AllKeepsRest(s, sweep);
    case ClientDoes(client) => ClientBringsNobody(s, client, id);
    case BeatDoes(beat) => BeatBringsNobody(s, beat, id);
    case Rogue(_) =>
  }

  lemma OpenerBringsNobody(s: Session, m: OpenerMove, id: StreamId)
    requires CanOpener(s, m) && id !in s.home && !Underway(s, id)
    ensures id !in DoOpener(s, m).home && !Underway(DoOpener(s, m), id)
  {
  }

  lemma AllKeepsRest(s: Session, m: AllMove)
    requires CanAll(s, m)
    ensures var s' := DoAll(s, m);
            s'.home == s.home && s'.dialing == s.dialing && s'.c2s == s.c2s && s'.clients == s.clients && s'.loop == s.loop
  {
  }

  lemma BeatBringsNobody(s: Session, m: BeatMove, id: StreamId)
    requires CanBeat(s, m) && id !in s.home && !Underway(s, id)
    ensures id !in DoBeat(s, m).home && !Underway(DoBeat(s, m), id)
  {
  }

  lemma LocalKeepsRest(s: Session, i: nat, act: S.Act)
    requires i < |s.objs| && S.Can(s.objs[i], act)
    ensures var s' := DoLocal(s, i, act);
            && s'.home == s.home && s'.dialing == s.dialing && s'.c2s == s.c2s && s'.clients == s.clients
            && s'.loop == s.loop && s'.table == s.table
            && s'.objs == s.objs[i := S.Do(s.objs[i], act)]
  {
    hide S.Can, S.Do, S.Out, S.SessionDelta;
  }

  lemma DropKeepsRest(s: Session, m: DropMove)
    requires CanDrop(s, m)
    ensures var s' := DoDrop(s, m);
            && s'.home == s.home && s'.dialing == s.dialing && s'.c2s == s.c2s && s'.s2c == s.s2c && s'.clients == s.clients
            && s'.loop == s.loop
  {
    hide Dropped;
  }

  lemma LoopBringsNobody(s: Session, global: int, m: LoopMove, id: StreamId)
    requires CanLoop(s, m) && id !in s.home && !Underway(s, id)
    ensures id !in DoLoop(s, global, m).home && !Underway(DoLoop(s, global, m), id)
  {
    hide LoadAndDelete, S.Push, S.PushDone;
    if m.LoopDrop? {
      LoadKeepsWires(s, s.loop.id);
      LoadKeepsDialing(s, s.loop.id);
    }
  }

  lemma LoadKeepsDialing(s: Session, id: StreamId)
    ensures LoadAndDelete(s, id).dialing == s.dialing && LoadAndDelete(s, id).clients == s.clients
  {
  }

  lemma ClientBringsNobody(s: Session, m: ClientMove, id: StreamId)
    requires CanClient(s, m) && id !in s.home && !Underway(s, id)
    ensures (m.ClientOpen? && id == NextId(s.opens)) || (id !in DoClient(s, m).home && !Underway(DoClient(s, m), id))
  {
    hide Act, Receive, WindowFits, NextId;
  }

  /** An OPEN that is answered with OPEN_ERR is neither stored nor under way any more. */
  lemma ErrorEndsIt(s: Session, global: int, m: Move, id: StreamId)
    requires FlowOk(s) && Can(s, m) && S.OpenErr(id) in Says(s, m)
    ensures id in s.clients && id !in Do(s, global, m).home && !Underway(Do(s, global, m), id)
  {
    hide HomesOk, FramesOk, ViewsOk, OpenIds, S.Can, DoLocal, DoClient, DoDrop, DoAll, Distinct;
    if m.OpenerDoes? {
      DialFailsFor(s, m.opener, id);
    } else if m.LoopDoes? {
      LoopErrs(s, m.step, id);
      RefusedFor(s, global, id);
    } else if m.Local? {
      LocalNeverErrs(s.objs[m.i], m.act, id);
    }
  }

  lemma LocalNeverErrs(o: S.Obj, a: S.Act, id: StreamId)
    requires S.Can(o, a)
    ensures S.OpenErr(id) !in SaysOf(o, a)
  {
  }

  lemma DialFailsFor(s: Session, m: OpenerMove, id: StreamId)
    requires FlowOk(s) && CanOpener(s, m) && S.OpenErr(id) in Says(s, OpenerDoes(m))
    ensures id in s.clients && id !in DoOpener(s, m).home && !Underway(DoOpener(s, m), id)
  {
    hide HomesOk, FramesOk, ViewsOk, OpenIds, Underway, Pending;
    DialledPending(s, m.k);
    UnderwayIsPending(Dialled(s, m.k), id);
    SameUnderway(Dialled(s, m.k), DoOpener(s, m), id);
  }

  lemma SameUnderway(s: Session, s': Session, id: StreamId)
    requires s'.dialing == s.dialing && s'.loop == s.loop && s'.c2s == s.c2s
    ensures Underway(s', id) <==> Underway(s, id)
  {
  }

  lemma LoopErrs(s: Session, m: LoopMove, id: StreamId)
    requires CanLoop(s, m) && S.OpenErr(id) in Says(s, LoopDoes(m))
    ensures m == LoopRefuse(true) && s.loop == Refusing(id)
  {
  }

  lemma RefusedFor(s: Session, global: int, id: StreamId)
    requires FlowOk(s) && s.loop == Refusing(id)
    ensures var s' := DoLoop(s, global, LoopRefuse(true)); id in s.clients && id !in s'.home && !Underway(s', id)
  {
    hide HomesOk, FramesOk, ViewsOk, OpenIds, Underway;
    var s' := DoLoop(s, global, LoopRefuse(true));
    var n := |s.dialing|;
    var p, p' := Pending(s), Pending(s');
    assert p[n] == id;
    assert p[..n] + p[n + 1..] == p' by {
      assert p[..n] == s.dialing && p[n + 1..] == OpenIds(s.c2s);
      assert s.dialing + [] == s.dialing;
    }
    RemoveKeepsDistinct(p, n);
    UnderwayIsPending(s', id);
  }

  /** What the wires hold afterwards was there or has just been said. */
  lemma OnTheWires(s: Session, global: int, m: Move)
    requires ObjsOk(s) && Can(s, m)
    ensures forall f <- Do(s, global, m).s2c :: f in s.s2c || f in Says(s, m)
    ensures forall f <- Do(s, global, m).c2s :: f in s.c2s || f in Requests(s, m)
    ensures m != ClientDoes(ClientRecv) ==> forall f <- s.s2c :: f in Do(s, global, m).s2c
    ensures forall f <- Says(s, m) :: f in Do(s, global, m).s2c || f in Takes(s, m)
  {
    hide ObjsOk, Can, Do, Says, Requests;
    MoveIsOrderly(s, global, m);
    var s' := Do(s, global, m);
    forall f <- s'.s2c
      ensures f in s.s2c || f in Says(s, m)
    {
      assert f in Takes(s, m) + s'.s2c;
    }
    forall f <- s'.c2s
      ensures f in s.c2s || f in Requests(s, m)
    {
      assert f in Gets(s, m) + s'.c2s;
    }
    assert forall f <- s.s2c + Says(s, m) :: f in Takes(s, m) + s'.s2c;
    assert forall f <- s.s2c :: f in s.s2c + Says(s, m);
    assert forall f <- Says(s, m) :: f in s.s2c + Says(s, m);
  }

  lemma NoCloseSent(s: Session, m: Move, id: StreamId)
    requires Can(s, m) && Candid(m, id)
    ensures CloseFrame(id) !in Requests(s, m)
  {
    hide S.Can, NextId, WindowFits;
  }

  /** The client's end of the stream under a candid move. */
  lemma ClientFollows(s: Session, global: int, m: Move, id: StreamId)
    requires FlowOk(s) && Can(s, m) && Candid(m, id) && id in s.clients && !Do(s, global, m).rogue
    requires S.OpenErr(id) !in s.s2c
    ensures var c, s' := s.clients[id], Do(s, global, m);
            && id in s'.clients
            && (c.closed ==> s'.clients[id].closed)
            && (c.registered || c.closed ==> s'.clients[id].registered || s'.clients[id].closed)
            && (m == ClientDoes(ClientRecv) && s.s2c[0] == S.Close(id) && c.registered ==> s'.clients[id].closed)
  {
    hide FlowOk, DoLocal, DoDrop, DoOpener, DoLoop, DoAll, DoClient, DoBeat, NextId, S.Can, WindowFits, Next;
    if m.ClientDoes? {
      OwnClientFollows(s, m.client, id);
    } else {
      OthersKeepClients(s, global, m);
    }
  }

  lemma OwnClientFollows(s: Session, m: ClientMove, id: StreamId)
    requires CanClient(s, m) && id in s.clients && !DoClient(s, m).rogue && S.OpenErr(id) !in s.s2c
    requires m.ClientGiveUp? ==> m.id != id
    ensures var c, s' := s.clients[id], DoClient(s, m);
            && id in s'.clients
            && (c.closed ==> s'.clients[id].closed)
            && (c.registered || c.closed ==> s'.clients[id].registered || s'.clients[id].closed)
            && (m == ClientRecv && s.s2c[0] == S.Close(id) && c.registered ==> s'.clients[id].closed)
  {
    hide NextId, WindowFits, Act, Receive, Sent;
    if m.ClientRecv? {
      if s.s2c[0].id == id {
        ReceiveFollows(s.clients[id], s.s2c[0], id);
      }
    } else if !m.ClientOpen? && m.id == id {
      ActFollows(s.clients[id], m);
    }
  }

  lemma ReceiveFollows(c: Client, f: S.Down, id: StreamId)
    requires f != S.OpenErr(id) && f.id == id
    ensures c.closed ==> Receive(c, f).closed
    ensures c.registered || c.closed ==> Receive(c, f).registered || Receive(c, f).closed
    ensures f == S.Close(id) && c.registered ==> Receive(c, f).closed
  {
  }

  lemma ActFollows(c: Client, m: ClientMove)
    requires !m.ClientOpen? && !m.ClientRecv? && (m.ClientFrame? ==> c.writer.Holding?)
    ensures Act(c, m).closed == c.closed && (m.ClientGiveUp? || Act(c, m).registered == c.registered)
  {
  }

  lemma HopeStays(s: Session, global: int, m: Move, id: StreamId)
    requires ShapeOk(s) && FlowOk(s) && Can(s, m) && Candid(m, id) && HopeOk(s, id) && !Do(s, global, m).rogue
    ensures HopeOk(Do(s, global, m), id)
  {
    hide ShapeOk, FlowOk, Can, Do, Candid, Underway, NextId, Says, Requests;
    var s' := Do(s, global, m);
    SessionObjs(s);
    OnTheWires(s, global, m);
    if S.OpenErr(id) in Says(s, m) {
      ErrorEndsIt(s, global, m, id);
    }
    if id in s.clients {
      if S.OpenErr(id) !in s.s2c {
        ClientFollows(s, global, m, id);
      }
      if id !in s.home && !Underway(s, id) {
        NoNewcomer(s, global, m, id);
        if m == ClientDoes(ClientOpen) && id == NextId(s.opens) {
          ReopenIsRogue(s, global);
        }
        NoRogueMove(m, id);
      }
      ClientsStay(s, global, m, id);
    } else if id in s'.clients {
      NewIsOpen(s, global, m, id);
    }
  }

  lemma ClientsStay(s: Session, global: int, m: Move, id: StreamId)
    requires Can(s, m) && id in s.clients
    ensures id in Do(s, global, m).clients
  {
    hide DoLocal, DoDrop, DoOpener, DoLoop, DoAll, DoClient, DoBeat, NextId, S.Can;
    if m.ClientDoes? {
      OwnClientsStay(s, m.client, id);
    } else {
      OthersKeepClients(s, global, m);
    }
  }

  lemma OwnClientsStay(s: Session, m: ClientMove, id: StreamId)
    requires CanClient(s, m)
    ensures id in s.clients ==> id in DoClient(s, m).clients
    ensures id !in s.clients && id in DoClient(s, m).clients ==> m.ClientOpen? && DoClient(s, m).clients[id] == NEW_CLIENT
  {
    hide NextId, WindowFits, Act, Receive, Sent;
  }

  lemma ReopenIsRogue(s: Session, global: int)
    requires NextId(s.opens) in s.clients
    ensures Do(s, global, ClientDoes(ClientOpen)).rogue
  {
    hide NextId;
  }

  lemma NoRogueMove(m: Move, id: StreamId)
    requires Candid(m, id)
    ensures !m.Rogue?
  {
  }

  lemma NewIsOpen(s: Session, global: int, m: Move, id: StreamId)
    requires Can(s, m) && id !in s.clients && id in Do(s, global, m).clients
    ensures Do(s, global, m).clients[id].registered && m == ClientDoes(ClientOpen)
  {
    hide DoLocal, DoDrop, DoOpener, DoLoop, DoAll, DoClient, DoBeat, S.Can;
    if m.ClientDoes? {
      OwnClientsStay(s, m.client, id);
    } else {
      OthersKeepClients(s, global, m);
    }
  }

  // ----- The client is told ------------------------------------------------------------------

  /** A goroutine that is about to write a CLOSE is still about to. */
  predicate Still(o: S.Obj, o': S.Obj) {
    (o.reader.Ending? ==> o'.reader.Ending?) && (o.pump.Notifying? ==> o'.pump.Notifying?)
  }

  lemma LocalVoice(o: S.Obj, a: S.Act)
    requires S.Ok(o) && S.Can(o, a) && Succeeds(a)
    ensures Still(o, S.Do(o, a)) || S.Close(o.id) in SaysOf(o, a)
    ensures Sick(S.Do(o, a)) && !Sick(o) ==> S.Do(o, a).reader.Ending? || S.Do(o, a).pump.Notifying?
  {
    hide S.MuOk, S.SizeOk, S.CreditOk, S.WakeOk, S.LedgerOk;
  }

  lemma OthersStill(s: Session, global: int, m: Move, j: nat)
    requires Can(s, m) && !m.Local? && j < |s.objs|
    ensures j < |Do(s, global, m).objs| && Still(s.objs[j], Do(s, global, m).objs[j])
  {
    hide S.Can, DoDrop, DoOpener, DoLoop, DoAll, DoClient;
    match m
    case DropBy(drop) => DropStill(s, drop, j);
    case OpenerDoes(opener) => OpenerStill(s, opener, j);
    case LoopDoes(step) => LoopStill(s, global, step, j);
    case AllDoes(sweep) => AllStill(s, sweep, j);
    case ClientDoes(client) => ClientKeepsObjs(s, client);
    case BeatDoes(_) =>
    case Rogue(_) =>
  }

  lemma DropStill(s: Session, m: DropMove, j: nat)
    requires CanDrop(s, m) && j < |s.objs|
    ensures |DoDrop(s, m).objs| == |s.objs| && Still(s.objs[j], DoDrop(s, m).objs[j])
  {
  }

  lemma OpenerStill(s: Session, m: OpenerMove, j: nat)
    requires CanOpener(s, m) && j < |s.objs|
    ensures j < |DoOpener(s, m).objs| && Still(s.objs[j], DoOpener(s, m).objs[j])
  {
  }

  lemma LoopStill(s: Session, global: int, m: LoopMove, j: nat)
    requires CanLoop(s, m) && j < |s.objs|
    ensures |DoLoop(s, global, m).objs| == |s.objs| && Still(s.objs[j], DoLoop(s, global, m).objs[j])
  {
    hide DoRecv, LoadAndDelete, S.Push, S.PushDone, Still;
    StillItself(s.objs[j]);
    if m.LoopLock? {
      PushStill(s.objs[s.loop.i], s.loop.payload);
    } else if m.LoopBillGlobal? {
      PushStill(s.objs[s.loop.i], []);
    } else if m.LoopDrop? {
      LoadStill(s, s.loop.id, j);
    }
  }

  lemma PushStill(o: S.Obj, p: Chunk)
    ensures Still(o, S.Push(o, p)) && Still(o, S.PushDone(o))
  {
  }

  lemma LoadStill(s: Session, id: StreamId, j: nat)
    requires j < |s.objs|
    ensures |LoadAndDelete(s, id).objs| == |s.objs| && Still(s.objs[j], LoadAndDelete(s, id).objs[j])
  {
  }

  lemma AllStill(s: Session, m: AllMove, j: nat)
    requires CanAll(s, m) && j < |s.objs|
    ensures |DoAll(s, m).objs| == |s.objs| && Still(s.objs[j], DoAll(s, m).objs[j])
  {
  }

  /** Who is about to write the stream's CLOSE goes on to do so, and the client to take it. */
  lemma ToldStays(s: Session, global: int, m: Move, id: StreamId)
    requires ShapeOk(s) && FlowOk(s) && Can(s, m) && Candid(m, id) && HopeOk(s, id) && !Do(s, global, m).rogue
    requires id in s.clients && id in s.home && Told(s, id)
    ensures id in Do(s, global, m).clients && Told(Do(s, global, m), id)
  {
    hide ShapeOk, FlowOk, Can, Do, Candid, Underway, Says, Requests;
    var s' := Do(s, global, m);
    SessionObjs(s);
    HomeOf(s, id);
    OnTheWires(s, global, m);
    ClientFollows(s, global, m, id);
    HomeStays(s, global, m, id);
    if S.Close(id) in s.s2c && m == ClientDoes(ClientRecv) {
      CloseIsTaken(s, global, id);
    }
    if s.loop == Shedding(id) {
      ShedIsSaid(s, global, m, id);
    }
    VoiceStays(s, global, m, s.home[id]);
  }

  lemma HomeOf(s: Session, id: StreamId)
    requires FlowOk(s) && id in s.home
    ensures s.home[id] < |s.objs| && s.objs[s.home[id]].id == id && id in s.clients
  {
    hide PendingOk, FramesOk, ViewsOk;
  }

  lemma CloseIsTaken(s: Session, global: int, id: StreamId)
    requires Can(s, ClientDoes(ClientRecv)) && S.Close(id) in s.s2c
    ensures s.s2c[0] == S.Close(id) || S.Close(id) in Do(s, global, ClientDoes(ClientRecv)).s2c
  {
    hide Receive;
    assert s.s2c[0] == S.Close(id) || S.Close(id) in s.s2c[1..];
  }

  lemma ShedIsSaid(s: Session, global: int, m: Move, id: StreamId)
    requires Can(s, m) && Candid(m, id) && s.loop == Shedding(id)
    ensures Do(s, global, m).loop == Shedding(id) || (S.Close(id) in Says(s, m) && m != ClientDoes(ClientRecv))
  {
    hide DoLocal, DoDrop, DoOpener, DoLoop, DoAll, DoClient, DoBeat, S.Can;
    if m.LoopDoes? {
      ShedIsNext(s, m.step, id);
    }
  }

  lemma ShedIsNext(s: Session, m: LoopMove, id: StreamId)
    requires CanLoop(s, m) && Candid(LoopDoes(m), id) && s.loop == Shedding(id)
    ensures m == LoopShed(true) && S.Close(id) in Says(s, LoopDoes(m))
  {
  }

  lemma VoiceStays(s: Session, global: int, m: Move, j: nat)
    requires ObjsOk(s) && Can(s, m) && j < |s.objs| && Candid(m, s.objs[j].id)
    ensures j < |Do(s, global, m).objs|
    ensures Still(s.objs[j], Do(s, global, m).objs[j]) || (S.Close(s.objs[j].id) in Says(s, m) && m != ClientDoes(ClientRecv))
  {
    hide ObjsOk, S.Can, S.Do, SaysOf, Still, DoDrop, DoOpener, DoLoop, DoAll, DoClient, DoBeat;
    if m.Local? {
      LocalKeepsRest(s, m.i, m.act);
      StillItself(s.objs[j]);
      if m.i == j {
        OneObj(s, j);
        LocalVoice(s.objs[j], m.act);
      }
    } else {
      OthersStill(s, global, m, j);
    }
  }

  lemma OneObj(s: Session, j: nat)
    requires ObjsOk(s) && j < |s.objs|
    ensures S.Ok(s.objs[j])
  {
    hide S.Ok;
  }

  lemma StillItself(o: S.Obj)
    ensures Still(o, o)
  {
  }

  // ----- What ends is told -------------------------------------------------------------------

  /** A stream that comes to its end in this step: somebody is about to tell, or is told already. */
  lemma SickIsTold(s: Session, global: int, m: Move, id: StreamId)
    requires ShapeOk(s) && FlowOk(s) && Can(s, m) && Candid(m, id) && LoudOk(s, id) && !s.loop.Ended?
    requires id in s.clients && id in s.home && s.home[id] < |s.objs| && s.objs[s.home[id]].id == id
    requires !Sick(s.objs[s.home[id]])
    ensures var j, s' := s.home[id], Do(s, global, m);
            j < |s'.objs|
            && (Sick(s'.objs[j]) ==> s.loop == LoopDropping(id) || s'.objs[j].reader.Ending? || s'.objs[j].pump.Notifying?)
  {
    hide FlowOk, ObjsOk, WireOk, SweepOk, LoudOk, S.Can, S.Do, Sick, DoDrop, DoOpener, DoLoop, DoAll, DoClient;
    var j := s.home[id];
    match m
    case Local(i, act) =>
      LocalKeepsRest(s, i, act);
      if i == j {
        OneObj(s, j);
        LocalVoice(s.objs[j], act);
      }
    case DropBy(drop) =>
      OneObj(s, drop.i);
      DropLeavesWell(s, drop, j) by { FlowIsHomes(s); }
    case OpenerDoes(opener) => OpenerLeavesWell(s, opener, j);
    case LoopDoes(step) => LoopLeavesWell(s, global, step, j);
    case AllDoes(_) =>
    case ClientDoes(client) => ClientKeepsObjs(s, client);
    case BeatDoes(_) =>
    case Rogue(_) =>
  }

  lemma DropLeavesWell(s: Session, m: DropMove, j: nat)
    requires TableOk(s) && HomesOk(s) && CanDrop(s, m) && S.Ok(s.objs[m.i]) && j < |s.objs| && !Sick(s.objs[j])
    ensures j < |DoDrop(s, m).objs| && DoDrop(s, m).objs[j] == s.objs[j]
  {
    hide TableOk, HomesOk, Dropped, DoDrop, Loose, Sick, S.Ok;
    DroppingIsSick(s.objs[m.i], m);
    OwnEntry(s, m.i);
    DropEffect(s, m);
  }

  lemma DroppingIsSick(o: S.Obj, m: DropMove)
    requires S.Ok(o)
    requires match m {
               case ByPump(_) => o.pump.PumpDropping?
               case ByReader(_) => o.reader.ReaderDropping?
               case ByOpener(_) => o.opener.OpenerDropping?
             }
    ensures Sick(o)
  {
    hide S.MuOk, S.SizeOk, S.CreditOk, S.WakeOk, S.LedgerOk;
  }

  lemma OpenerLeavesWell(s: Session, m: OpenerMove, j: nat)
    requires CanOpener(s, m) && j < |s.objs| && !Sick(s.objs[j]) && !s.closed
    ensures j < |DoOpener(s, m).objs| && !Sick(DoOpener(s, m).objs[j])
  {
  }

  lemma LoopLeavesWell(s: Session, global: int, m: LoopMove, j: nat)
    requires TableOk(s) && CanLoop(s, m) && j < |s.objs| && !Sick(s.objs[j])
    ensures |DoLoop(s, global, m).objs| == |s.objs|
    ensures Sick(DoLoop(s, global, m).objs[j]) ==> s.loop == LoopDropping(s.objs[j].id)
  {
    hide DoRecv, LoadAndDelete, Sick, TableOk, S.Push, S.PushDone;
    if m.LoopLock? {
      PushLeavesWell(s.objs[s.loop.i], s.loop.payload);
    } else if m.LoopBillGlobal? {
      PushLeavesWell(s.objs[s.loop.i], []);
    } else if m.LoopDrop? {
      LoadLeavesOthers(s, s.loop.id, j);
    }
  }

  lemma PushLeavesWell(o: S.Obj, p: Chunk)
    ensures (Sick(S.Push(o, p)) <==> Sick(o)) && (Sick(S.PushDone(o)) <==> Sick(o))
  {
  }

  lemma LoadLeavesOthers(s: Session, id: StreamId, j: nat)
    requires TableOk(s) && j < |s.objs|
    ensures |LoadAndDelete(s, id).objs| == |s.objs|
    ensures s.objs[j].id != id ==> LoadAndDelete(s, id).objs[j] == s.objs[j]
  {
  }

  /** How the read loop comes to shed or drop a stream. */
  lemma LoopTells(s: Session, global: int, m: LoopMove, id: StreamId)
    requires LoopOk(s) && HomesOk(s) && CanLoop(s, m) && Candid(LoopDoes(m), id) && CloseFrame(id) !in s.c2s
    requires s.loop == Shedding(id) || s.loop == LoopDropping(id) ==> id in s.home
    ensures var l := DoLoop(s, global, m).loop;
            && (l == LoopDropping(id) && s.loop != LoopDropping(id) ==> S.Close(id) in Says(s, LoopDoes(m)))
            && (l == Shedding(id) || l == LoopDropping(id) ==> id in s.home)
  {
    hide LoadAndDelete, S.Push, S.PushDone, S.Ok;
    if m.LoopRecv? {
      assert s.c2s[0] in s.c2s;
    }
  }

  lemma LoudStays(s: Session, global: int, m: Move, id: StreamId)
    requires ShapeOk(s) && FlowOk(s) && Can(s, m) && Candid(m, id) && LoudOk(s, id) && !Do(s, global, m).rogue
    ensures LoudOk(Do(s, global, m), id)
  {
    hide ShapeOk, FlowOk, Can, Do, Candid, HopeOk, Says, Requests, Sick, Told;
    var s' := Do(s, global, m);
    SessionObjs(s);
    OnTheWires(s, global, m);
    NoCloseSent(s, m, id);
    HopeStays(s, global, m, id);
    LoopOf(s, global, m, id);
    if id in s.home {
      HomeOf(s, id);
      HomeStays(s, global, m, id);
      ToldNow(s, global, m, id);
    } else if id in s'.home {
      StoredIsWell(s, global, m, id);
    }
  }

  /** The read loop is where it was, or at its next step. */
  lemma LoopOf(s: Session, global: int, m: Move, id: StreamId)
    requires ShapeOk(s) && FlowOk(s) && Can(s, m) && Candid(m, id) && LoudOk(s, id)
    ensures var s' := Do(s, global, m);
            && (s.loop.Ended? ==> s'.loop.Ended?)
            && (s'.loop == LoopDropping(id) && s.loop != LoopDropping(id) ==> S.Close(id) in Says(s, m) && m.LoopDoes?)
            && (s'.loop == Shedding(id) || s'.loop == LoopDropping(id) ==> id in s.home)
  {
    hide TableOk, ObjsOk, WireOk, SweepOk, FlowOk, LoopOk, HopeOk, Told, Sick, Says, S.Can, DoLocal, DoDrop, DoOpener, DoAll,
         DoClient, DoBeat, DoLoop;
    if m.LoopDoes? {
      FlowIsHomes(s);
      LoopTells(s, global, m.step, id);
      EndedStays(s, m.step);
    }
  }

  lemma EndedStays(s: Session, m: LoopMove)
    requires CanLoop(s, m)
    ensures !s.loop.Ended?
  {
  }

  lemma ToldNow(s: Session, global: int, m: Move, id: StreamId)
    requires ShapeOk(s) && FlowOk(s) && Can(s, m) && Candid(m, id) && LoudOk(s, id) && !Do(s, global, m).rogue
    requires id in s.clients && id in s.home && s.home[id] < |s.objs| && s.objs[s.home[id]].id == id
    requires id in Do(s, global, m).home && Do(s, global, m).home[id] == s.home[id]
    ensures var s' := Do(s, global, m);
            id in s'.clients && s.home[id] < |s'.objs|
            && (!s'.loop.Ended? && (Sick(s'.objs[s.home[id]]) || s'.loop == LoopDropping(id)) ==> Told(s', id))
  {
    hide ShapeOk, FlowOk, Can, Do, Candid, HopeOk, Says, Requests, Sick;
    var s' := Do(s, global, m);
    LoopOf(s, global, m, id);
    ClientsStay(s, global, m, id);
    VoiceStays(s, global, m, s.home[id]) by { SessionObjs(s); }
    if !s'.loop.Ended? {
      if Told(s, id) {
        ToldStays(s, global, m, id);
      } else {
        SickIsTold(s, global, m, id);
        SessionObjs(s);
        OnTheWires(s, global, m);
      }
    }
  }

  /** A stream that is stored in this step is well, and was not in the read loop's hands. */
  lemma StoredIsWell(s: Session, global: int, m: Move, id: StreamId)
    requires Can(s, m) && id !in s.home && id in Do(s, global, m).home
    ensures var s' := Do(s, global, m);
            s'.home[id] < |s'.objs| && !Sick(s'.objs[s'.home[id]]) && s'.loop == s.loop
  {
    hide DoLocal, DoDrop, DoOpener, DoLoop, DoAll, DoClient, DoBeat, S.Can, Sick;
    match m
    case Local(i, act) => LocalKeepsRest(s, i, act);
    case DropBy(drop) => DropKeepsRest(s, drop);
    case OpenerDoes(opener) => OpenerStores(s, opener, id);
    case LoopDoes(step) => LoopKeepsHomes(s, global, step);
    case AllDoes(sweep) => AllKeepsRest(s, sweep);
    case ClientDoes(client) => ClientKeepsObjs(s, client);
    case BeatDoes(beat) => BeatKeepsHomes(s, beat);
    case Rogue(_) =>
  }

  lemma OpenerStores(s: Session, m: OpenerMove, id: StreamId)
    requires CanOpener(s, m) && id !in s.home && id in DoOpener(s, m).home
    ensures var s' := DoOpener(s, m);
            s'.home[id] < |s'.objs| && !Sick(s'.objs[s'.home[id]])
  {
  }

  lemma LoopKeepsHomes(s: Session, global: int, m: LoopMove)
    requires CanLoop(s, m)
    ensures DoLoop(s, global, m).home.Keys == s.home.Keys
  {
    hide DoRecv, LoadAndDelete, S.Push, S.PushDone;
  }

  lemma BeatKeepsHomes(s: Session, m: BeatMove)
    requires CanBeat(s, m)
    ensures DoBeat(s, m).home == s.home
  {
  }

  // ----- Runs --------------------------------------------------------------------------------

  predicate CandidRun(run: seq<Event>, k: nat, id: StreamId) {
    forall e <- run :: Own(e, k) ==> Candid(e.move, id)
  }

  lemma StartLoud(id: StreamId)
    ensures LoudOk(START, id)
  {
  }

  lemma {:induction false} ReachableLoud(limit: nat, run: seq<Event>, k: nat, id: StreamId)
    requires Legal(Boot(limit), run) && k < |After(Boot(limit), run).sessions|
    requires !After(Boot(limit), run).sessions[k].rogue && CandidRun(run, k, id)
    ensures LoudOk(After(Boot(limit), run).sessions[k], id)
    decreases |run|
  {
    hide Legal, After, Can, Do, ShapeOk, FlowOk, WritersOk, LoudOk, START, Boot, Candid;
    SessionBefore(limit, run, k);
    var front, e := run[..|run| - 1], run[|run| - 1];
    var h := After(Boot(limit), front);
    assert e in run && forall x <- front :: x in run;
    if k < |h.sessions| {
      if Own(e, k) {
        NotRogueBefore(h.sessions[k], h.global, e.move);
      }
      ReachableLoud(limit, front, k, id);
      if Own(e, k) {
        ReachableFlows(limit, front, k);
        LoudStays(h.sessions[k], h.global, e.move, id);
      }
    } else {
      StartLoud(id);
    }
  }

  // ----- Theorems ----------------------------------------------------------------------------

  /** A writer that has work and can do nothing waits for window, on a stream that is open. */
  lemma StuckCannotRefuse(s: Session, slow: set<nat>, id: StreamId)
    requires StuckBut(s, slow) && id in s.clients && s.clients[id].todo != [] && !s.clients[id].writer.Failed?
    ensures !s.clients[id].closed
  {
    hide WindowFits;
    assert !Can(s, ClientDoes(ClientFrame(id, true))) && !Can(s, ClientDoes(ClientAcquire(id)));
    assert !Can(s, ClientDoes(ClientRefuse(id)));
  }

  /**
   A CLOSE fails the upload at once. In every run of a client that keeps to the protocol: a client whose first
   CLOSE or OPEN_ERR was a CLOSE is closed, and once the session is at rest, for any capacity and any slow
   streams, its writer has nothing left to write or has been told that the stream is closed.
   */
  lemma CloseFailsTheWriter(limit: nat, run: seq<Event>, k: nat, id: StreamId, slow: set<nat>, cap: nat)
    requires Legal(Boot(limit), run) && k < |After(Boot(limit), run).sessions| && cap > 0
    requires var s := After(Boot(limit), run).sessions[k];
             !s.rogue && !s.loop.Ended? && StuckWithin(s, slow, cap) && !Wedged(s, cap) && id in s.clients
    requires var hist := HeardOf(Boot(limit), run, k, id);
             |Until(hist)| < |hist| && hist[|Until(hist)|].Close?
    ensures var c := After(Boot(limit), run).sessions[k].clients[id];
            && (!c.gaveUp ==> c.closed) && (c.todo == [] || c.writer.Failed?)
  {
    hide Legal, After, HeardOf, Until, ShapeOk, FlowOk, WritersOk, StuckWithin, StuckBut, Wedged, Credited;
    ReachableFlows(limit, run, k);
    var s := After(Boot(limit), run).sessions[k];
    SlowStreams.ShapeParts(s);
    SticksShort(s, slow, cap);
    ClientFacts(s, id);
    if !s.clients[id].gaveUp {
      ClientKnowsWhatItHeard(limit, run, k, id);
    }
    if s.clients[id].todo != [] && !s.clients[id].writer.Failed? {
      StuckCannotRefuse(s, slow, id);
    }
  }

  lemma ClientFacts(s: Session, id: StreamId)
    requires FlowOk(s) && id in s.clients
    ensures var c := s.clients[id];
            && (c.todo != [] ==> c.returned && c.flow && !c.gaveUp)
            && (c.flow ==> id in s.home && s.home[id] < |s.objs| && s.objs[s.home[id]].opener.Launched?)
            && (c.closed ==> !c.registered)
  {
    hide PendingOk, FramesOk, HomesOk, UpBytes, Credits, Oks;
    assert ViewOk(ViewOf(s, id));
  }

  /** A stream that is well on the server and listened to is served. */
  lemma WellIsServed(s: Session, id: StreamId)
    requires ShapeOk(s) && FlowOk(s) && OwnedOk(s) && !s.closed && s.loop.Idle?
    requires id in s.clients && s.clients[id].flow && s.clients[id].registered && !s.clients[id].writer.Failed?
    requires id in s.home && s.home[id] < |s.objs| && s.objs[s.home[id]].id == id
    requires s.objs[s.home[id]].opener.Launched? && !Sick(s.objs[s.home[id]])
    ensures Served(ViewOf(s, id))
  {
    hide ShapeOk, FlowOk, UpBytes, Credits, Oks, Left;
  }

  /**
   Uploads end whole or loudly. In every run in which the connection takes the server's frames, the client keeps
   to the protocol and the user leaves the stream open: once the session is at rest, for any capacity and any
   slow streams, this one not among them, the client's writer has nothing left to write or has been told that
   the stream is closed; unless the client was told, the upstream has received all that was framed; and if
   anything at all has ended the stream on the server, the client knows.
   */
  lemma UploadsEndLoudly(limit: nat, run: seq<Event>, k: nat, id: StreamId, slow: set<nat>, cap: nat)
    requires Legal(Boot(limit), run) && k < |After(Boot(limit), run).sessions| && cap > 0 && CandidRun(run, k, id)
    requires var s := After(Boot(limit), run).sessions[k];
             && !s.rogue && !s.loop.Ended? && StuckWithin(s, slow, cap) && !Wedged(s, cap)
             && id in s.clients && (id in s.home ==> s.home[id] !in slow)
    ensures var s := After(Boot(limit), run).sessions[k];
            var c := s.clients[id];
            && (c.todo == [] || c.writer.Failed?)
            && (c.flow && !c.closed && !c.writer.Failed? ==>
                  c.window == 4 * 0x10_0000 && ViewOf(s, id).obj.Some? && ViewOf(s, id).obj.value.delivered == c.framed)
            && (id in s.home && s.home[id] < |s.objs| && Sick(s.objs[s.home[id]]) ==> c.closed)
  {
    hide Legal, After, ShapeOk, FlowOk, OwnedOk, ReadersOk, CleanersOk, StuckWithin, Wedged, LoudOk, CandidRun,
         Sick, Served, ViewOf;
    ReachableRest(limit, run, k);
    ReachableLoud(limit, run, k, id);
    LoudAtRest(After(Boot(limit), run).sessions[k], id, slow, cap);
  }

  lemma LoudAtRest(s: Session, id: StreamId, slow: set<nat>, cap: nat)
    requires ShapeOk(s) && FlowOk(s) && OwnedOk(s) && LoudOk(s, id)
    requires cap > 0 && !s.loop.Ended? && StuckWithin(s, slow, cap) && !Wedged(s, cap)
    requires id in s.clients && (id in s.home ==> s.home[id] !in slow)
    ensures var c := s.clients[id];
            && (c.todo == [] || c.writer.Failed?)
            && (c.flow && !c.closed && !c.writer.Failed? ==>
                  c.window == WINDOW && ViewOf(s, id).obj.Some? && ViewOf(s, id).obj.value.delivered == c.framed)
            && (id in s.home && s.home[id] < |s.objs| && Sick(s.objs[s.home[id]]) ==> c.closed)
  {
    hide ShapeOk, FlowOk, OwnedOk, StuckBut, StuckWithin, Wedged, LoudOk, Sick, Served, ViewOf;
    var c := s.clients[id];
    SlowStreams.ShapeParts(s);
    SticksShort(s, slow, cap);
    EmptyWires(s, slow, cap);
    ClientFacts(s, id);
    if id in s.home {
      HomeOf(s, id);
      NobodyLeaving(s, slow, s.home[id]);
      ToldAtRest(s, id);
    }
    if c.flow && !c.closed && !c.writer.Failed? {
      WellIsServed(s, id) by { OpenAtRest(s); }
      StuckMeansDelivered(s, slow, cap, id);
      ServedHasObj(s, id);
    }
    if c.todo != [] && !c.writer.Failed? {
      StuckCannotRefuse(s, slow, id);
    }
  }

  lemma ServedHasObj(s: Session, id: StreamId)
    requires id in s.clients && Served(ViewOf(s, id))
    ensures ViewOf(s, id).obj.Some?
  {
    hide ViewOf;
  }

  lemma OpenAtRest(s: Session)
    requires ShapeOk(s) && !s.loop.Ended?
    ensures !s.closed
  {
    hide ObjsOk, TableOk, WireOk, SweepOk;
  }

  lemma ToldAtRest(s: Session, id: StreamId)
    requires LoudOk(s, id) && s.loop.Idle? && s.s2c == []
    requires id in s.clients && id in s.home && s.home[id] < |s.objs|
    requires !s.objs[s.home[id]].reader.Ending? && !s.objs[s.home[id]].pump.Notifying?
    ensures Sick(s.objs[s.home[id]]) ==> s.clients[id].closed
    ensures s.clients[id].registered || s.clients[id].closed
  {
    hide Sick;
  }
}
