/**
 End-to-end delivery: a stream that nobody closes stays served under every driven move, so a finite
 upload is delivered whole as soon as its session has nothing left to do, and that is soon.
 */
module Delivery {
  import opened Bytes
  import opened Limits
  import opened Session
  import opened Shape
  import opened StreamView
  import opened Flow
  import opened Host
  import opened Upload
  import opened Progress
  import opened BackPressure
  import opened Stalls
  import S = StreamObject

  /** An object in full service: launched, listed with its own grab unused, open, its goroutines working. */
  predicate Calm(o: S.Obj) {
    o.opener.Launched? && o.reader.Reading? && o.grab.Untouched? && !o.closed && o.upstream && Alive(o.pump)
  }

  predicate Ends(f: S.Down) {
    f.Close? || f.OpenErr?
  }

  predicate Listening(c: Client) {
    c.flow && c.registered && !c.writer.Failed?
  }

  function Held(c: Client): seq<byte> {
    if c.writer.Holding? then c.writer.chunk else []
  }

  /** All that the client's user has asked to upload so far: framed, in the writer's hands, still to do. */
  function Whole(c: Client): seq<byte> {
    c.framed + Held(c) + c.todo
  }

  /** Nothing that would end the stream is under way at either end or on either wire. */
  ghost predicate Undisturbed(s: Session, id: StreamId) {
    && id in s.clients && Listening(s.clients[id])
    && id in s.home && s.home[id] < |s.objs| && s.objs[s.home[id]].id == id && Calm(s.objs[s.home[id]])
    && id in s.table && !DoomedBy(s.loop, id) && !s.loop.Ended?
    && (forall k: nat | k < |s.c2s| :: !(s.c2s[k].CloseFrame? && s.c2s[k].id == id))
    && (forall k: nat | k < |s.s2c| :: !(Ends(s.s2c[k]) && s.s2c[k].id == id))
  }

  /** The move is a budget test that this stream fails. */
  predicate Sheds(s: Session, global: int, m: Move, id: StreamId)
    requires Can(s, m)
  {
    m.LoopDoes? && (m.step.LoopTestSession? || m.step.LoopTestGlobal?) && DoLoop(s, global, m.step).loop == Shedding(id)
  }

  /** The failures and ends that an action of the stream's own object can bring about. */
  predicate Breaks(a: S.Act) {
    a.PumpWriteFail? || (a.PumpCredit? && !a.ok) || (a.ReaderData? && !a.ok) || a.ReaderEnd?
  }

  /**
   The move does not end stream `id` by its own nature: its upstream and its frames do not fail or end, its
   client does not close it or fail to write, the client's connection stays, and its peer keeps to the
   protocol. Whatever other streams do, and however slow they are, is free.
   */
  predicate Spares(s: Session, m: Move, id: StreamId) {
    match m
    case Local(j, act) => id in s.home && j == s.home[id] ==> !Breaks(act)
    case DropBy(_) => true
    case OpenerDoes(_) => true
    case LoopDoes(step) => !step.LoopEnd?
    case AllDoes(_) => true
    case ClientDoes(client) =>
      && (client.ClientOpen? ==> s.opens < MAX_OPENS)
      && ((client.ClientGiveUp? || client.ClientClose?) ==> client.id != id)
      && (client.ClientFrame? && client.id == id ==> client.ok)
    case BeatDoes(_) => true
    case Rogue(_) => false
  }

  /** The upload that the move asks of stream `id`. */
  function Asks(m: Move, id: StreamId): seq<byte> {
    if m.ClientDoes? && m.client.ClientWrite? && m.client.id == id then m.client.data else []
  }

  lemma CalmStays(o: S.Obj, a: S.Act)
    requires S.Ok(o) && Calm(o) && S.Can(o, a) && !Breaks(a)
    ensures Calm(S.Do(o, a)) && S.Do(o, a).id == o.id
    ensures |S.Out(o, a)| <= 1 && forall k: nat | k < |S.Out(o, a)| :: !Ends(S.Out(o, a)[k])
  {
  }

  /** One object steps, and emits nothing that ends the stream: the stream stays. */
  lemma PatchStays(s: Session, j: nat, o: S.Obj, out: seq<S.Down>, b: int, id: StreamId)
    requires HomesOk(s) && Undisturbed(s, id) && j < |s.objs| && o.id == s.objs[j].id
    requires j == s.home[id] ==> Calm(o) && forall k: nat | k < |out| :: !Ends(out[k])
    requires forall k: nat | k < |out| :: out[k].id == o.id
    ensures Undisturbed(Emit(SetObj(s, j, o), out).(buffered := b), id)
  {
    hide Calm, Ends;
    if j != s.home[id] {
      assert o.id != id;
    }
  }

  lemma LocalStays(s: Session, j: nat, act: S.Act, id: StreamId)
    requires ObjsOk(s) && HomesOk(s) && Undisturbed(s, id)
    requires j < |s.objs| && S.Can(s.objs[j], act) && (j == s.home[id] ==> !Breaks(act))
    ensures Undisturbed(DoLocal(s, j, act), id)
  {
    hide S.Ok, S.Can, S.Do, S.Out, S.SessionDelta, Calm, Ends, Breaks, HomesOk;
    var o := s.objs[j];
    LocalOut(o, act);
    S.DoIsSteady(o, act);
    if j == s.home[id] {
      CalmStays(o, act);
    }
    PatchStays(s, j, S.Do(o, act), S.Out(o, act), s.buffered + S.SessionDelta(o, act), id);
  }

  lemma LoadAndDeleteStays(s: Session, other: StreamId, id: StreamId)
    requires TableOk(s) && HomesOk(s) && Undisturbed(s, id) && other != id
    ensures Undisturbed(LoadAndDelete(s, other), id)
  {
    hide Calm, Ends;
  }

  lemma SetObjStays(s: Session, j: nat, o: S.Obj, id: StreamId)
    requires HomesOk(s) && Undisturbed(s, id) && j < |s.objs| && o.id == s.objs[j].id
    requires j == s.home[id] ==> Calm(o)
    ensures Undisturbed(SetObj(s, j, o), id) && HomesOk(SetObj(s, j, o))
  {
    hide Calm, Ends;
  }

  lemma DropStays(s: Session, m: DropMove, id: StreamId)
    requires TableOk(s) && HomesOk(s) && Undisturbed(s, id) && CanDrop(s, m)
    ensures Undisturbed(DoDrop(s, m), id)
  {
    hide HomesOk, Ends, LoadAndDelete;
    var o := s.objs[m.i];
    var s1 := SetObj(s, m.i, Dropped(o, m));
    SetObjStays(s, m.i, Dropped(o, m), id);
    assert o.id != id by { OtherObject(s, m.i, id); }
    assert TableOk(s1);
    LoadAndDeleteStays(s1, o.id, id);
  }

  lemma OtherObject(s: Session, j: nat, id: StreamId)
    requires HomesOk(s) && id in s.home && j < |s.objs| && j != s.home[id]
    ensures s.objs[j].id != id
  {
  }

  lemma OpenerStays(s: Session, m: OpenerMove, id: StreamId)
    requires HomesOk(s) && PendingOk(s) && Undisturbed(s, id) && CanOpener(s, m)
    ensures Undisturbed(DoOpener(s, m), id)
  {
    hide HomesOk, PendingOk, Ends;
    if m.OpenerCheck? {
      SetObjStays(s, m.i, S.OpenerChecks(s.objs[m.i], s.closed), id);
    } else if m.OpenerClean? {
      SetObjStays(s, m.i, S.OpenerDrops(s.objs[m.i]), id);
      OtherObject(s, m.i, id);
    } else if !m.OpenerRelease? {
      DialledPending(s, m.k);
    }
  }

  lemma RecvStays(s: Session, id: StreamId)
    requires Undisturbed(s, id) && s.loop.Idle? && s.c2s != []
    ensures Undisturbed(DoRecv(s), id)
  {
    hide Calm;
    var f := s.c2s[0];
    assert !(f.CloseFrame? && f.id == id);
  }

  /** An OPEN that is refused is of an id that was never stored. */
  lemma RefuseStays(s: Session, ok: bool, id: StreamId)
    requires PendingOk(s) && Undisturbed(s, id) && s.loop.Refusing?
    ensures Undisturbed(DoLoop(s, 0, LoopRefuse(ok)), id)
  {
    hide Calm, OpenIds;
    assert Pending(s)[|s.dialing|] == s.loop.id;
  }

  lemma CalmPush(o: S.Obj, p: Chunk)
    ensures S.Push(o, p).id == S.PushDone(o).id == o.id
    ensures Calm(o) ==> Calm(S.Push(o, p)) && Calm(S.PushDone(o))
  {
  }

  lemma LoopStays(s: Session, global: int, m: LoopMove, id: StreamId)
    requires TableOk(s) && HomesOk(s) && PendingOk(s) && LoopOk(s) && Undisturbed(s, id)
    requires CanLoop(s, m) && !m.LoopEnd? && !Sheds(s, global, LoopDoes(m), id)
    ensures Undisturbed(DoLoop(s, global, m), id)
  {
    hide HomesOk, PendingOk, S.Ok, LoadAndDelete, DoRecv, S.Push, S.PushDone, Calm;
    if m.LoopRecv? {
      RecvStays(s, id);
    } else if m.LoopRefuse? {
      RefuseStays(s, m.ok, id);
    } else if m.LoopLock? && !s.objs[s.loop.i].closed {
      CalmPush(s.objs[s.loop.i], s.loop.payload);
      SetObjStays(s, s.loop.i, S.Push(s.objs[s.loop.i], s.loop.payload), id);
    } else if m.LoopBillGlobal? {
      CalmPush(s.objs[s.loop.i], []);
      SetObjStays(s, s.loop.i, S.PushDone(s.objs[s.loop.i]), id);
    } else if m.LoopDrop? {
      LoadAndDeleteStays(s, s.loop.id, id);
    }
  }

  lemma ListeningStays(c: Client, m: ClientMove)
    requires Listening(c) && !c.closed && CanAct(c, m)
    requires !m.ClientGiveUp? && !m.ClientClose? && (m.ClientFrame? ==> m.ok)
    ensures Listening(Act(c, m))
    ensures Whole(Act(c, m)) == Whole(c) + if m.ClientWrite? then m.data else []
  {
    if m.ClientAcquire? {
      NextFits(c.todo);
      assert c.todo == Next(c.todo) + c.todo[|Next(c.todo)|..];
    }
    var c' := Act(c, m);
    assert Whole(c') == c'.framed + (Held(c') + c'.todo) && Whole(c) == c.framed + (Held(c) + c.todo);
  }

  lemma OpenStays(s: Session, id: StreamId)
    requires IdsOk(s) && s.opens < MAX_OPENS && Undisturbed(s, id)
    ensures Undisturbed(DoClient(s, ClientOpen), id)
    ensures DoClient(s, ClientOpen).clients[id] == s.clients[id]
  {
    hide IdsOk, Calm, NextId;
    FreshIsOther(s, id);
  }

  lemma RecvLeaves(s: Session, id: StreamId)
    requires Undisturbed(s, id) && s.s2c != [] && !s.ponging
    ensures Undisturbed(DoClient(s, ClientRecv), id)
    ensures Whole(DoClient(s, ClientRecv).clients[id]) == Whole(s.clients[id])
  {
    hide Calm, Whole, Receive, Listening;
    assert !(Ends(s.s2c[0]) && s.s2c[0].id == id);
    ReceiveStays(s.clients[id], s.s2c[0]);
  }

  lemma ActStays(s: Session, m: ClientMove, id: StreamId)
    requires FlowOk(s) && Undisturbed(s, id) && CanClient(s, m) && !m.ClientOpen? && !m.ClientRecv?
    requires Spares(s, ClientDoes(m), id)
    ensures Undisturbed(DoClient(s, m), id)
    ensures Whole(DoClient(s, m).clients[id]) == Whole(s.clients[id]) + Asks(ClientDoes(m), id)
  {
    hide FlowOk, Calm, WindowFits, Act, Whole, CanAct;
    var whole := Whole(s.clients[id]);
    assert whole + [] == whole;
    if m.id == id {
      NotClosed(s, id);
      CanActOf(s, m);
      ListeningStays(s.clients[id], m);
    }
  }

  lemma ClientStays(s: Session, m: ClientMove, id: StreamId)
    requires FlowOk(s) && IdsOk(s) && Undisturbed(s, id) && CanClient(s, m) && Spares(s, ClientDoes(m), id)
    ensures Undisturbed(DoClient(s, m), id)
    ensures Whole(DoClient(s, m).clients[id]) == Whole(s.clients[id]) + Asks(ClientDoes(m), id)
  {
    hide FlowOk, IdsOk, Undisturbed, DoClient, Whole, NextId;
    if m.ClientOpen? {
      OpenStays(s, id);
    } else if m.ClientRecv? {
      RecvLeaves(s, id);
    } else {
      ActStays(s, m, id);
    }
    InClients(s, id);
    var whole := Whole(s.clients[id]);
    assert whole + [] == whole;
  }

  lemma InClients(s: Session, id: StreamId)
    requires Undisturbed(s, id)
    ensures id in s.clients
  {
    hide Calm;
  }

  lemma FreshIsOther(s: Session, id: StreamId)
    requires IdsOk(s) && s.opens < MAX_OPENS && id in s.clients
    ensures NextId(s.opens) != id
  {
    hide NextId;
    var j: nat :| j < s.opens && NextId(j) == id;
    IdsAreFresh(j, s.opens);
  }

  lemma CanActOf(s: Session, m: ClientMove)
    requires !m.ClientOpen? && !m.ClientRecv? && CanClient(s, m)
    ensures CanAct(s.clients[m.id], m)
  {
    hide WindowFits;
  }

  lemma ReceiveStays(c: Client, f: S.Down)
    ensures Listening(c) && !Ends(f) ==> Listening(Receive(c, f))
    ensures Whole(Receive(c, f)) == Whole(c)
  {
  }

  lemma NotClosed(s: Session, id: StreamId)
    requires FlowOk(s) && id in s.clients && s.clients[id].registered
    ensures !s.clients[id].closed
  {
    hide HomesOk, PendingOk, FramesOk;
    assert ViewOk(ViewOf(s, id));
  }

  lemma BeatStays(s: Session, m: BeatMove, id: StreamId)
    requires Undisturbed(s, id) && CanBeat(s, m)
    ensures Undisturbed(DoBeat(s, m), id)
    ensures DoBeat(s, m).clients == s.clients
  {
    hide Calm;
  }

  /** An undisturbed stream stays so under every move that spares it and is no budget test it fails. */
  lemma SparedStays(s: Session, global: int, m: Move, id: StreamId)
    requires ShapeOk(s) && FlowOk(s) && IdsOk(s) && Undisturbed(s, id)
    requires Can(s, m) && Spares(s, m, id) && !Sheds(s, global, m, id)
    ensures Undisturbed(Do(s, global, m), id)
    ensures Whole(Do(s, global, m).clients[id]) == Whole(s.clients[id]) + Asks(m, id)
  {
    hide TableOk, ObjsOk, HomesOk, PendingOk, ViewsOk, Whole, Calm, Ends, DoLocal, DoDrop, DoOpener, DoLoop, DoClient, DoBeat,
         Sheds, IdsOk;
    var whole := Whole(s.clients[id]);
    assert whole + [] == whole;
    match m
    case Local(i, act) => LocalStays(s, i, act, id);
    case DropBy(drop) => DropStays(s, drop, id);
    case OpenerDoes(opener) => OpenerStays(s, opener, id);
    case LoopDoes(step) => LoopStays(s, global, step, id);
    case AllDoes(_) => assert false;
    case ClientDoes(client) => ClientStays(s, client, id);
    case BeatDoes(beat) => BeatStays(s, beat, id);
  }

  // ----- Runs --------------------------------------------------------------------------------

  /** From `h` on, every move of session k spares stream `id` and does not shed it; others do anything. */
  predicate SparingRun(h: Host, run: seq<Event>, k: nat, id: StreamId)
    decreases |run|
  {
    run == [] ||
    (&& CanHost(h, run[0])
     && (run[0].Step? && run[0].k == k ==>
           Spares(h.sessions[k], run[0].move, id) && !Sheds(h.sessions[k], h.global, run[0].move, id))
     && SparingRun(DoHost(h, run[0]), run[1..], k, id))
  }

  /** How many driven moves of session k a run contains. */
  function DrivenMoves(run: seq<Event>, k: nat): nat {
    if run == [] then 0 else (if Own(run[0], k) && Driven(run[0].move) then 1 else 0) + DrivenMoves(run[1..], k)
  }

  /** What the other moves of session k in a run add to its measure. */
  function AddedBy(run: seq<Event>, k: nat): nat {
    if run == [] then 0 else (if Own(run[0], k) && !Driven(run[0].move) then Adds(run[0].move) else 0) + AddedBy(run[1..], k)
  }

  /** What a run asks of stream `id` of session k. */
  function Asked(run: seq<Event>, k: nat, id: StreamId): seq<byte> {
    if run == [] then [] else (if Own(run[0], k) then Asks(run[0].move, id) else []) + Asked(run[1..], k, id)
  }

  /** What the induction over a sparing run carries. */
  ghost predicate OnCourse(h: Host, k: nat, id: StreamId) {
    && HostOk(h) && FlowsOk(h) && k < |h.sessions|
    && IdsOk(h.sessions[k]) && h.sessions[k].opens <= MAX_OPENS && Undisturbed(h.sessions[k], id)
  }

  lemma OwnStep(s: Session, global: int, m: Move, id: StreamId)
    requires SessionOk(s) && IdsOk(s) && s.opens <= MAX_OPENS && FlowOk(s) && Undisturbed(s, id)
    requires Can(s, m) && Spares(s, m, id) && !Sheds(s, global, m, id)
    ensures var s' := Do(s, global, m);
            && IdsOk(s') && s'.opens <= MAX_OPENS && Undisturbed(s', id)
            && Measure(s') + (if Driven(m) then 1 else 0) <= Measure(s) + (if Driven(m) then 0 else Adds(m))
            && Whole(s'.clients[id]) == Whole(s.clients[id]) + Asks(m, id)
  {
    hide FlowOk, IdsOk, Sheds, TableOk, ObjsOk, WireOk, WritersOk, Measure, Whole, Calm, Ends, Listening, Adds, Do;
    MoveKeepsIds(s, global, m);
    SparedStays(s, global, m, id);
    OpensStay(s, global, m);
    assert !m.AllDoes?;
    if Driven(m) {
      DrivenLowers(s, global, m);
    } else {
      OthersAdd(s, global, m);
    }
  }

  lemma OpensStay(s: Session, global: int, m: Move)
    requires Can(s, m)
    ensures Do(s, global, m).opens == s.opens + if m == ClientDoes(ClientOpen) then 1 else 0
  {
    hide DoLocal, DoDrop, DoOpener, DoLoop, DoAll, DoBeat, DoClient;
    if m == ClientDoes(ClientOpen) {
      OpenCounts(s);
    } else if m.ClientDoes? {
      ClientKeys(s, m.client);
    }
  }

  lemma OpenCounts(s: Session)
    ensures DoClient(s, ClientOpen).opens == s.opens + 1
  {
  }

  lemma CourseStep(h: Host, e: Event, k: nat, id: StreamId)
    requires OnCourse(h, k, id) && CanHost(h, e)
    requires Own(e, k) ==> Spares(h.sessions[k], e.move, id) && !Sheds(h.sessions[k], h.global, e.move, id)
    ensures var h' := DoHost(h, e);
            && OnCourse(h', k, id)
            && Whole(h'.sessions[k].clients[id])
               == Whole(h.sessions[k].clients[id]) + (if Own(e, k) then Asks(e.move, id) else [])
            && Measure(h'.sessions[k]) + (if Own(e, k) && Driven(e.move) then 1 else 0)
               <= Measure(h.sessions[k]) + (if Own(e, k) && !Driven(e.move) then Adds(e.move) else 0)
  {
    hide SessionOk, FlowOk, IdsOk, GlobalExact, GlobalBounded, Driven, Can, Do, GlobalDelta, Measure, Whole, Sheds, Spares, Adds, Asks;
    var whole := Whole(h.sessions[k].clients[id]);
    assert whole + [] == whole;
    EventKeepsOk(h, e);
    EventKeepsFlows(h, e);
    if Own(e, k) {
      NotRogue(h.sessions[k]);
      OwnStep(h.sessions[k], h.global, e.move, id);
    }
  }

  lemma NotRogue(s: Session)
    requires IdsOk(s) && s.opens <= MAX_OPENS
    ensures !s.rogue
  {
  }

  lemma {:induction false} CourseRun(h: Host, run: seq<Event>, k: nat, id: StreamId)
    requires OnCourse(h, k, id) && SparingRun(h, run, k, id)
    ensures Legal(h, run)
    ensures var h' := After(h, run);
            && OnCourse(h', k, id)
            && Whole(h'.sessions[k].clients[id]) == Whole(h.sessions[k].clients[id]) + Asked(run, k, id)
            && Measure(h'.sessions[k]) + DrivenMoves(run, k) <= Measure(h.sessions[k]) + AddedBy(run, k)
    decreases |run|
  {
    hide HostOk, FlowsOk, IdsOk, Undisturbed, CanHost, DoHost, Driven, Measure, Whole, Sheds, Spares, Adds, Asks;
    HasHome(h, k, id);
    var whole := Whole(h.sessions[k].clients[id]);
    if run == [] {
      assert whole + [] == whole;
    } else {
      CourseStep(h, run[0], k, id);
      HasHome(DoHost(h, run[0]), k, id);
      CourseRun(DoHost(h, run[0]), run[1..], k, id);
      var asks := if Own(run[0], k) then Asks(run[0].move, id) else [];
      assert (whole + asks) + Asked(run[1..], k, id) == whole + (asks + Asked(run[1..], k, id));
    }
  }

  lemma UndisturbedIsServed(s: Session, id: StreamId)
    requires TableOk(s) && HomesOk(s) && Undisturbed(s, id)
    ensures Served(ViewOf(s, id))
  {
    hide UpBytes, Credits, Oks;
  }

  /**
   Every finite upload is delivered, whatever other streams do. Take any reachable state in which a
   stream is undisturbed, any continuation in which its session's moves spare it, interleaved with
   anything in the other sessions, any capacity of the wires and any set of slow streams. The
   continuation's driven moves number at most the measure plus what its other moves add; and once every
   driven move that is left waits for room on its wire or for a slow upstream, which may never come, and
   the session is not wedged, the upstream has received exactly what the client's user has asked to
   upload, and the client sees its full window.
   */
  lemma FiniteUploadIsDelivered(limit: nat, run: seq<Event>, tail: seq<Event>, k: nat, id: StreamId, slow: set<nat>, cap: nat)
    requires cap > 0
    requires Legal(Boot(limit), run) && Behaved(run, k)
    requires var h := After(Boot(limit), run);
             && k < |h.sessions| && h.sessions[k].opens <= MAX_OPENS && Undisturbed(h.sessions[k], id)
             && SparingRun(h, tail, k, id)
    ensures var h := After(Boot(limit), run);
            && Legal(h, tail) && k < |After(h, tail).sessions|
            && DrivenMoves(tail, k) <= Measure(h.sessions[k]) + AddedBy(tail, k)
            && var s' := After(h, tail).sessions[k];
               && Undisturbed(s', id)
               && (StuckWithin(s', slow, cap) && !Wedged(s', cap) && s'.home[id] !in slow ==>
                     && ViewOf(s', id).obj.value.delivered == Whole(h.sessions[k].clients[id]) + Asked(tail, k, id)
                     && s'.clients[id].window == WINDOW)
  {
    hide HostOk, FlowsOk, IdsOk, CanHost, DoHost, SparingRun, Legal, After, StuckWithin, Wedged, Whole, Undisturbed, Boot, Measure;
    var h := After(Boot(limit), run);
    ReachableCourse(limit, run, k, id);
    CourseRun(h, tail, k, id);
    MeasureIsNatural(After(h, tail).sessions[k]);
    HasHome(After(h, tail), k, id);
    var s' := After(h, tail).sessions[k];
    if StuckWithin(s', slow, cap) && !Wedged(s', cap) && s'.home[id] !in slow {
      Conclude(After(h, tail), k, id, slow, cap);
    }
  }

  lemma ReachableCourse(limit: nat, run: seq<Event>, k: nat, id: StreamId)
    requires Legal(Boot(limit), run) && Behaved(run, k)
    requires var h := After(Boot(limit), run);
             k < |h.sessions| && h.sessions[k].opens <= MAX_OPENS && Undisturbed(h.sessions[k], id)
    ensures OnCourse(After(Boot(limit), run), k, id)
  {
    hide HostOk, FlowsOk, IdsOk, CanHost, DoHost, Legal, After, Undisturbed, Boot;
    BootOk(limit);
    ReachableOk(limit, run);
    RunFlows(limit, run);
    RunKeepsIds(Boot(limit), run, k) by { NoSessions(limit, k); }
  }

  lemma HasHome(h: Host, k: nat, id: StreamId)
    requires OnCourse(h, k, id)
    ensures id in h.sessions[k].home && id in h.sessions[k].clients
  {
    hide HostOk, FlowsOk, IdsOk, Calm;
  }

  lemma NoSessions(limit: nat, k: nat)
    ensures IdsOkAt(Boot(limit), k)
  {
  }

  lemma Conclude(h: Host, k: nat, id: StreamId, slow: set<nat>, cap: nat)
    requires OnCourse(h, k, id) && cap > 0 && StuckWithin(h.sessions[k], slow, cap) && !Wedged(h.sessions[k], cap)
    requires id in h.sessions[k].home && h.sessions[k].home[id] !in slow
    ensures var s := h.sessions[k];
            && id in s.clients && ViewOf(s, id).obj.Some?
            && ViewOf(s, id).obj.value.delivered == Whole(s.clients[id])
            && s.clients[id].window == WINDOW
  {
    hide FlowOk, TableOk, ObjsOk, LoopOk, IdsOk, StuckWithin, Wedged, Served, WritersOk, GlobalExact, GlobalBounded;
    var s := h.sessions[k];
    NotRogue(s);
    assert SessionOk(s);
    UndisturbedIsServed(s, id) by { FlowHomes(s); }
    StuckMeansDelivered(s, slow, cap, id);
    assert Whole(s.clients[id]) == s.clients[id].framed;
  }

  lemma FlowHomes(s: Session)
    requires FlowOk(s)
    ensures HomesOk(s)
  {
    hide ViewsOk, PendingOk, FramesOk, HomesOk;
  }
}
