/**
 Flow control, delivery and back pressure together. Within the limits no budget test ever sheds a client
 that keeps to the protocol and no OPEN of it is refused, so its uploads are delivered without further
 conditions on the server; and however many upstreams stop accepting, and however little the wires hold,
 every other upload of the session can still be completed.
 */
module SlowStreams {
  import opened Bytes
  import opened Limits
  import opened Session
  import opened Shape
  import opened Sums
  import opened Flow
  import opened Host
  import opened Upload
  import opened Order
  import opened Shedding
  import opened Progress
  import opened BackPressure
  import opened Delivery
  import S = StreamObject

  // ----- Within the limits nothing is shed and nothing refused --------------------------------

  /**
   Every client keeps to the protocol, the streams that may hold bytes are within the limits, and no OPEN
   meets a full semaphore.
   */
  ghost predicate Modest(h: Host, k: nat) {
    && k < |h.sessions| && (forall j: nat | j < |h.sessions| :: !h.sessions[j].rogue)
    && Charge(h.sessions[k]) <= SESSION_STREAMS
    && Total(ChargesAll(h.sessions)) <= GLOBAL_STREAMS
    && !Saturated(h.sessions[k])
  }

  lemma ModestNeverSheds(h: Host, k: nat, m: Move, id: StreamId)
    requires HostOk(h) && FlowsOk(h) && Modest(h, k) && Can(h.sessions[k], m)
    ensures !Sheds(h.sessions[k], h.global, m, id)
  {
    hide SessionOk, FlowOk, Charge, GlobalBounded, Total;
    var s := h.sessions[k];
    if m == LoopDoes(LoopTestSession) {
      assert SessionOk(s);
      SessionTestPasses(s);
    } else if m == LoopDoes(LoopTestGlobal) {
      GlobalTestPasses(h, k);
    }
  }

  /** So the read loop has nothing to write to the wire itself. */
  lemma ModestNeverWrites(h: Host, k: nat, m: Move)
    requires HostOk(h) && FlowsOk(h) && Modest(h, k) && Can(h.sessions[k], m) && !AtWireWrite(h.sessions[k].loop)
    ensures !AtWireWrite(Do(h.sessions[k], h.global, m).loop)
  {
    hide HostOk, FlowsOk, DoLocal, DoDrop, DoOpener, DoLoop, DoAll, DoClient, DoBeat, Charge, ChargesAll, Total;
    var s := h.sessions[k];
    if m.LoopDoes? {
      if Serving(s.loop) && s.loop.i < |s.objs| {
        ModestNeverSheds(h, k, m, s.objs[s.loop.i].id);
      }
      LoopWrites(s, h.global, m.step);
    }
  }

  /** Only a failed budget test or a full semaphore brings the read loop to a write of its own. */
  lemma LoopWrites(s: Session, global: int, m: LoopMove)
    requires CanLoop(s, m) && !AtWireWrite(s.loop) && !Saturated(s)
    ensures var l := DoLoop(s, global, m).loop;
            AtWireWrite(l) ==>
              Serving(s.loop) && s.loop.i < |s.objs| && Sheds(s, global, LoopDoes(m), s.objs[s.loop.i].id)
  {
    hide DoRecv, LoadAndDelete, S.Push, S.PushDone;
    if m.LoopRecv? {
      RecvWrites(s);
    }
  }

  lemma RecvWrites(s: Session)
    requires s.loop.Idle? && s.c2s != [] && !Saturated(s)
    ensures !AtWireWrite(DoRecv(s).loop)
  {
  }

  /** A sparing run in which session k moves only in modest states. */
  ghost predicate ModestRun(h: Host, run: seq<Event>, k: nat, id: StreamId)
    decreases |run|
  {
    run == [] ||
    (&& CanHost(h, run[0])
     && (Own(run[0], k) ==> Spares(h.sessions[k], run[0].move, id) && Modest(h, k))
     && ModestRun(DoHost(h, run[0]), run[1..], k, id))
  }

  lemma {:induction false} ModestIsSparing(h: Host, run: seq<Event>, k: nat, id: StreamId)
    requires HostOk(h) && FlowsOk(h) && ModestRun(h, run, k, id)
    requires k < |h.sessions| && !AtWireWrite(h.sessions[k].loop)
    ensures SparingRun(h, run, k, id) && Legal(h, run)
    ensures k < |After(h, run).sessions| && !AtWireWrite(After(h, run).sessions[k].loop)
    decreases |run|
  {
    hide SessionsOk, FlowsOk, GlobalExact, GlobalBounded, Do, Can, Spares, Sheds, Modest, GlobalDelta, AtWireWrite;
    if run != [] {
      if Own(run[0], k) {
        ModestNeverSheds(h, k, run[0].move, id);
        ModestNeverWrites(h, k, run[0].move);
      }
      SessionsOf(h);
      EventKeepsOk(h, run[0]);
      EventKeepsFlows(h, run[0]);
      ModestIsSparing(DoHost(h, run[0]), run[1..], k, id);
    }
  }

  lemma SessionsOf(h: Host)
    requires HostOk(h)
    ensures SessionsOk(h)
  {
    hide SessionsOk, GlobalExact, GlobalBounded;
  }

  /**
   A flow-controlled upload is delivered. With at most 32 streams of the session and 64 in all that may
   hold bytes, and no OPEN that meets a full semaphore, neither the condition that the server does not shed
   the stream is needed, nor the one that the session is not wedged.
   */
  lemma FlowControlledUploadIsDelivered(
      limit: nat, run: seq<Event>, tail: seq<Event>, k: nat, id: StreamId, slow: set<nat>, cap: nat)
    requires cap > 0
    requires Legal(Boot(limit), run) && Behaved(run, k)
    requires var h := After(Boot(limit), run);
             && k < |h.sessions| && h.sessions[k].opens <= MAX_OPENS && Undisturbed(h.sessions[k], id)
             && !AtWireWrite(h.sessions[k].loop) && ModestRun(h, tail, k, id)
    ensures var h := After(Boot(limit), run);
            && Legal(h, tail) && k < |After(h, tail).sessions|
            && DrivenMoves(tail, k) <= Measure(h.sessions[k]) + AddedBy(tail, k)
            && var s' := After(h, tail).sessions[k];
               && Undisturbed(s', id)
               && (StuckWithin(s', slow, cap) && s'.home[id] !in slow ==>
                     && ViewOf(s', id).obj.value.delivered == Whole(h.sessions[k].clients[id]) + Asked(tail, k, id)
                     && s'.clients[id].window == WINDOW)
  {
    hide HostOk, FlowsOk, IdsOk, CanHost, DoHost, ModestRun, SparingRun, Legal, After, StuckWithin, Whole, Undisturbed, Boot,
         Measure, AtWireWrite;
    ReachableCourse(limit, run, k, id);
    ModestIsSparing(After(Boot(limit), run), tail, k, id);
    FiniteUploadIsDelivered(limit, run, tail, k, id, slow, cap);
  }

  // ----- Streams that exist or are on their way ----------------------------------------------

  /** A stream that is stored, not given up by its handleOpen, and not reclaimed. */
  predicate Counted(o: S.Obj) {
    (o.opener.Stored? || o.opener.Cleared? || o.opener.Launched?) && !o.reclaim.Hanging? && !o.reclaim.Reclaimed?
  }

  /** Such a stream, or one that the read loop is about to add to. */
  function One(l: Loop, i: nat, o: S.Obj): int {
    if Counted(o) || (Serving(l) && l.i == i) then 1 else 0
  }

  function Counts(l: Loop, objs: seq<S.Obj>): seq<int> {
    seq(|objs|, i requires 0 <= i < |objs| => One(l, i, objs[i]))
  }

  function Population(s: Session): int {
    Total(Counts(s.loop, s.objs)) + |s.dialing| + |OpenIds(s.c2s)|
  }

  /** No stream starts to count. */
  predicate NoneAdded(s: Session, s': Session) {
    |s'.objs| == |s.objs| && forall i: nat | i < |s.objs| :: One(s'.loop, i, s'.objs[i]) <= One(s.loop, i, s.objs[i])
  }

  lemma NoneAddedCounts(s: Session, s': Session)
    requires NoneAdded(s, s')
    ensures Total(Counts(s'.loop, s'.objs)) <= Total(Counts(s.loop, s.objs))
  {
    hide One;
    TotalMono(Counts(s'.loop, s'.objs), Counts(s.loop, s.objs));
  }

  lemma LocalCounts(o: S.Obj, a: S.Act)
    requires S.Ok(o) && S.Can(o, a)
    ensures Counted(S.Do(o, a)) ==> Counted(o)
  {
    hide S.MuOk, S.LifeOk, S.CreditOk, S.SizeOk, S.WakeOk, S.LedgerOk;
  }

  lemma LocalAddsNone(s: Session, i: nat, act: S.Act)
    requires i < |s.objs| && S.Ok(s.objs[i]) && S.Can(s.objs[i], act)
    ensures NoneAdded(s, DoLocal(s, i, act))
  {
    hide S.Ok, S.Can, S.Do, S.Out, S.SessionDelta, Counted;
    LocalCounts(s.objs[i], act);
  }

  lemma LoadAddsNone(s: Session, id: StreamId)
    ensures NoneAdded(s, LoadAndDelete(s, id))
  {
  }

  lemma DropAddsNone(s: Session, m: DropMove)
    requires CanDrop(s, m)
    ensures NoneAdded(s, DoDrop(s, m))
  {
    hide LoadAndDelete, One;
    var o := s.objs[m.i];
    var s1 := SetObj(s, m.i, Dropped(o, m));
    DroppedCounts(s.loop, m.i, o, m);
    LoadAddsNone(s1, o.id);
  }

  lemma DroppedCounts(l: Loop, i: nat, o: S.Obj, m: DropMove)
    requires match m {
               case ByPump(_) => o.pump.PumpDropping?
               case ByReader(_) => o.reader.ReaderDropping?
               case ByOpener(_) => o.opener.OpenerDropping?
             }
    ensures One(l, i, Dropped(o, m)) <= One(l, i, o)
  {
  }

  /** A stream that the table lists in an open session is open, and one that gets DATA was announced. */
  lemma ServedCounts(s: Session)
    requires ShapeOk(s) && FlowOk(s) && s.loop.Idle? && s.c2s != [] && Serving(DoRecv(s).loop)
    ensures DoRecv(s).loop.i < |s.objs| && Counted(s.objs[DoRecv(s).loop.i])
  {
    hide FlowOk, S.Ok, WireOk;
    var s' := DoRecv(s);
    RecvKeepsFlow(s);
    RecvKeepsShape(s);
    hide DoRecv;
    ServedIsAnnounced(s');
    ServedIsOpen(s);
    ObjView(s', s'.loop.i);
  }

  lemma ServedIsOpen(s: Session)
    requires ShapeOk(s) && s.loop.Idle? && s.c2s != [] && Serving(DoRecv(s).loop)
    ensures var s' := DoRecv(s);
            s'.objs == s.objs && s'.loop.i < |s.objs| && s.objs[s'.loop.i].reclaim.Unclaimed?
  {
    hide S.MuOk, S.LifeOk, S.CreditOk, S.SizeOk, S.WakeOk, S.LedgerOk, WireOk;
    assert S.Ok(s.objs[DoRecv(s).loop.i]) && S.Unswept(s.objs[DoRecv(s).loop.i]);
  }

  lemma RecvAddsNone(s: Session)
    requires ShapeOk(s) && FlowOk(s) && s.loop.Idle? && s.c2s != []
    ensures NoneAdded(s, DoRecv(s))
  {
    hide ShapeOk, FlowOk, Counted, Dispatch;
    if Serving(DoRecv(s).loop) {
      ServedCounts(s);
    }
  }

  lemma PushCounts(o: S.Obj, p: Chunk)
    ensures Counted(S.Push(o, p)) <==> Counted(o)
    ensures Counted(S.PushDone(o)) <==> Counted(o)
  {
  }

  lemma LoopAddsNone(s: Session, global: int, m: LoopMove)
    requires ShapeOk(s) && FlowOk(s) && CanLoop(s, m)
    ensures NoneAdded(s, DoLoop(s, global, m))
  {
    hide ShapeOk, FlowOk, LoadAndDelete, DoRecv, Counted, S.Push, S.PushDone;
    if m.LoopRecv? {
      RecvAddsNone(s);
    } else if m.LoopDrop? {
      LoadAddsNone(s, s.loop.id);
    } else if m.LoopLock? {
      PushCounts(s.objs[s.loop.i], s.loop.payload);
    } else if m.LoopBillGlobal? {
      PushCounts(s.objs[s.loop.i], []);
    }
  }

  lemma StoreCounts(l: Loop, objs: seq<S.Obj>, id: StreamId)
    requires Serving(l) ==> l.i < |objs|
    ensures Total(Counts(l, objs + [S.Fresh(id)])) == Total(Counts(l, objs)) + 1
  {
    TotalSnoc(Counts(l, objs), 1);
    assert Counts(l, objs + [S.Fresh(id)]) == Counts(l, objs) + [1];
  }

  lemma StoreAddsOne(s: Session, k: nat)
    requires LoopOk(s) && k < |s.dialing|
    ensures Population(DoOpener(s, DialStore(k))) <= Population(s)
  {
    hide Counts, S.Ok;
    StoreCounts(s.loop, s.objs, s.dialing[k]);
  }

  /** The OPENs that wait for a place in the semaphore, and the places that are taken. */
  function Places(s: Session): nat {
    s.slots + |OpenIds(s.c2s)|
  }

  lemma RecvOpens(s: Session)
    requires s.loop.Idle? && s.c2s != []
    ensures var s' := DoRecv(s);
            && Places(s') <= Places(s) && |s'.dialing| + |OpenIds(s'.c2s)| <= |s.dialing| + |OpenIds(s.c2s)|
  {
    hide Dispatch;
    FirstOpen(s.c2s);
  }

  lemma ClientOpens(s: Session, m: ClientMove)
    requires CanClient(s, m) && Driven(ClientDoes(m))
    ensures var s' := DoClient(s, m);
            OpenIds(s'.c2s) == OpenIds(s.c2s) && s'.dialing == s.dialing && s'.slots == s.slots && s'.objs == s.objs
  {
    hide WindowFits, Act, Receive;
    if m.ClientFrame? {
      UpSnoc(s.c2s, DataFrame(m.id, s.clients[m.id].writer.chunk), 0);
      assert OpenIds(s.c2s) + [] == OpenIds(s.c2s);
    } else {
      assert s.c2s + [] == s.c2s;
    }
  }

  lemma PongOpens(s: Session)
    requires s.ponging
    ensures OpenIds(DoBeat(s, ClientPong(true)).c2s) == OpenIds(s.c2s)
  {
    UpSnoc(s.c2s, OtherFrame, 0);
    assert OpenIds(s.c2s) + [] == OpenIds(s.c2s);
  }

  /** No driven move adds a stream or an OPEN. */
  lemma DrivenCounts(s: Session, global: int, m: Move)
    requires ShapeOk(s) && FlowOk(s) && Can(s, m) && Driven(m)
    ensures Population(Do(s, global, m)) <= Population(s) && Places(Do(s, global, m)) <= Places(s)
  {
    hide ShapeOk, FlowOk, DoDrop, DoLocal, DoRecv, DoClient, S.Can, Counts, OpenIds, LoadAndDelete, NoneAdded, WindowFits;
    var s' := Do(s, global, m);
    ShapeParts(s);
    match m
    case Local(i, act) =>
      LocalAddsNone(s, i, act);
      NoneAddedCounts(s, s');
      LocalKeepsOpens(s, i, act);
    case DropBy(drop) =>
      DropAddsNone(s, drop);
      NoneAddedCounts(s, s');
      DropKeepsOpens(s, drop);
    case OpenerDoes(opener) => OpenerCounts(s, opener);
    case LoopDoes(step) =>
      LoopAddsNone(s, global, step);
      NoneAddedCounts(s, s');
      LoopOpens(s, global, step);
    case ClientDoes(client) => ClientOpens(s, client);
    case BeatDoes(beat) => PongOpens(s);
  }

  lemma ShapeParts(s: Session)
    requires ShapeOk(s)
    ensures ObjsOk(s) && LoopOk(s)
    ensures forall i: nat | i < |s.objs| :: S.Ok(s.objs[i])
  {
    hide LoopOk, TableOk, WireOk, SweepOk, S.Ok;
  }

  lemma LocalKeepsOpens(s: Session, i: nat, act: S.Act)
    requires i < |s.objs| && S.Can(s.objs[i], act)
    ensures var s' := DoLocal(s, i, act); s'.c2s == s.c2s && s'.dialing == s.dialing && s'.slots == s.slots
  {
    hide S.Can, S.Do, S.Out, S.SessionDelta;
  }

  lemma DropKeepsOpens(s: Session, m: DropMove)
    requires CanDrop(s, m)
    ensures var s' := DoDrop(s, m); s'.c2s == s.c2s && s'.dialing == s.dialing && s'.slots == s.slots
  {
    hide Dropped;
  }

  lemma OpenerCounts(s: Session, m: OpenerMove)
    requires LoopOk(s) && CanOpener(s, m) && !m.DialFail?
    ensures Population(DoOpener(s, m)) <= Population(s) && Places(DoOpener(s, m)) <= Places(s)
  {
    hide OpenIds, Counts, LoopOk;
    if m.DialStore? {
      StoreAddsOne(s, m.k);
    } else {
      assert NoneAdded(s, DoOpener(s, m));
      NoneAddedCounts(s, DoOpener(s, m));
    }
  }

  lemma LoopOpens(s: Session, global: int, m: LoopMove)
    requires CanLoop(s, m)
    ensures var s' := DoLoop(s, global, m);
            && Places(s') <= Places(s) && |s'.dialing| + |OpenIds(s'.c2s)| <= |s.dialing| + |OpenIds(s.c2s)|
  {
    hide OpenIds, DoRecv, S.Push, S.PushDone;
    if m.LoopRecv? {
      RecvOpens(s);
    }
  }

  // ----- Completing the other uploads --------------------------------------------------------

  /**
   Room in the limits for session k's streams that exist or are on their way, and all others' charged
   ones, and a place in the semaphore for each of its OPENs.
   */
  ghost predicate Roomy(h: Host, k: nat) {
    && k < |h.sessions| && (forall j: nat | j < |h.sessions| :: !h.sessions[j].rogue)
    && Population(h.sessions[k]) <= SESSION_STREAMS
    && Population(h.sessions[k]) + Total(ChargesAll(h.sessions)) - Charge(h.sessions[k]) <= GLOBAL_STREAMS
    && Places(h.sessions[k]) <= MAX_CONCURRENT_OPENS
  }

  lemma RoomyIsModest(h: Host, k: nat)
    requires Roomy(h, k)
    ensures Modest(h, k)
  {
    var s := h.sessions[k];
    TotalMono(Charges(s), Counts(s.loop, s.objs));
    if Saturated(s) {
      FirstOpen(s.c2s);
    }
  }

  lemma RoomStays(h: Host, k: nat, m: Move)
    requires Roomy(h, k) && ShapeOk(h.sessions[k]) && FlowOk(h.sessions[k]) && Can(h.sessions[k], m) && Driven(m)
    requires !Do(h.sessions[k], h.global, m).rogue
    ensures Roomy(DoHost(h, Step(k, m)), k)
  {
    hide Population, Places, Charge, Do, Can, GlobalDelta, ShapeOk, FlowOk;
    var s' := Do(h.sessions[k], h.global, m);
    DrivenCounts(h.sessions[k], h.global, m);
    var all := ChargesAll(h.sessions);
    TotalUpdate(all, k, Charge(s'));
    assert ChargesAll(h.sessions[k := s']) == all[k := Charge(s')];
  }

  lemma DrivenAsksNothing(s: Session, m: Move, id: StreamId)
    requires Driven(m)
    ensures Spares(s, m, id) && Asks(m, id) == []
  {
  }

  /** Driven moves of session k only, none of which writes to a slow upstream. */
  predicate Patient(tail: seq<Event>, k: nat, slow: set<nat>) {
    forall e <- tail :: Own(e, k) && Driven(e.move) && !SlowWrite(e.move, slow)
  }

  /** What one patient move does to its session. */
  ghost predicate Advances(s: Session, global: int, m: Move, id: StreamId, s': Session)
    requires Can(s, m)
  {
    && 0 <= Measure(s') < Measure(s)
    && Spares(s, m, id) && !Sheds(s, global, m, id) && Asks(m, id) == []
    && id in s.home && id in s'.home && s'.home[id] == s.home[id]
  }

  ghost predicate InRoom(h: Host, k: nat, id: StreamId) {
    OnCourse(h, k, id) && Roomy(h, k)
  }

  lemma RoomyNeverSheds(h: Host, k: nat, m: Move, id: StreamId)
    requires InRoom(h, k, id) && k < |h.sessions| && Can(h.sessions[k], m)
    ensures !Sheds(h.sessions[k], h.global, m, id)
    ensures !AtWireWrite(h.sessions[k].loop) ==> !AtWireWrite(Do(h.sessions[k], h.global, m).loop)
  {
    hide HostOk, FlowsOk, IdsOk, Undisturbed, Roomy, Modest, Can, Do, Sheds;
    RoomyIsModest(h, k);
    ModestNeverSheds(h, k, m, id);
    if !AtWireWrite(h.sessions[k].loop) {
      ModestNeverWrites(h, k, m);
    }
  }

  lemma PatientKeeps(h: Host, k: nat, m: Move, id: StreamId)
    requires InRoom(h, k, id) && k < |h.sessions| && Can(h.sessions[k], m) && Driven(m)
    ensures InRoom(DoHost(h, Step(k, m)), k, id)
  {
    hide HostOk, FlowsOk, IdsOk, Undisturbed, Roomy, Can, Do, Driven, Measure, Whole, Sheds, Spares, GlobalDelta, Asks, ShapeOk,
         FlowOk;
    RoomyNeverSheds(h, k, m, id);
    DrivenAsksNothing(h.sessions[k], m, id);
    CourseStep(h, Step(k, m), k, id);
    NotRogue(h.sessions[k]);
    NotRogue(Do(h.sessions[k], h.global, m));
    CourseParts(h, k);
    RoomStays(h, k, m);
  }

  lemma PatientAdvances(h: Host, k: nat, m: Move, id: StreamId)
    requires InRoom(h, k, id) && k < |h.sessions| && Can(h.sessions[k], m) && Driven(m)
    ensures Advances(h.sessions[k], h.global, m, id, Do(h.sessions[k], h.global, m))
  {
    hide HostOk, FlowsOk, IdsOk, Undisturbed, Roomy, Can, Do, Driven, Measure, Whole, Sheds, Spares, GlobalDelta, Asks, ShapeOk,
         FlowOk;
    var s := h.sessions[k];
    HasHome(h, k, id);
    RoomyNeverSheds(h, k, m, id);
    DrivenAsksNothing(s, m, id);
    CourseStep(h, Step(k, m), k, id);
    NotRogue(s);
    CourseParts(h, k);
    MeasureIsNatural(Do(s, h.global, m));
    HomeStays(s, h.global, m, id);
  }

  lemma CourseParts(h: Host, k: nat)
    requires HostOk(h) && FlowsOk(h) && k < |h.sessions| && !h.sessions[k].rogue
    ensures ShapeOk(h.sessions[k]) && FlowOk(h.sessions[k])
  {
    hide FlowOk, ShapeOk, WritersOk, GlobalExact, GlobalBounded;
    assert SessionOk(h.sessions[k]);
  }

  /** The wires are within their capacity, and the two read loops do not wait for each other. */
  predicate Flowing(s: Session, cap: nat) {
    Within(s, cap) && !Wedged(s, cap)
  }

  /** A patient move that need not wait, if there is one; a read loop at its own write comes first. */
  lemma PickMove(h: Host, k: nat, id: StreamId, slow: set<nat>, cap: nat) returns (m: Move)
    requires InRoom(h, k, id) && k < |h.sessions| && cap > 0
    requires Flowing(h.sessions[k], cap) && !StuckWithin(h.sessions[k], slow, cap)
    ensures var s := h.sessions[k];
            && Driven(m) && !SlowWrite(m, slow) && Can(s, m) && !Jammed(s, m, cap)
            && Flowing(Do(s, h.global, m), cap)
  {
    hide InRoom, Can, Do, Driven, SlowWrite;
    var s := h.sessions[k];
    if AtWireWrite(s.loop) {
      m := PickForWrite(s, h.global, slow, cap);
    } else {
      m :| Driven(m) && !SlowWrite(m, slow) && Can(s, m) && !Jammed(s, m, cap);
      RoomyNeverSheds(h, k, m, id);
    }
    hide SendsUp, SendsDown;
    FramesCount(s, h.global, m);
  }

  lemma PickForWrite(s: Session, global: int, slow: set<nat>, cap: nat) returns (m: Move)
    requires cap > 0 && Flowing(s, cap) && AtWireWrite(s.loop)
    ensures Driven(m) && !SlowWrite(m, slow) && Can(s, m) && !Jammed(s, m, cap) && !Wedged(Do(s, global, m), cap)
  {
    if |s.s2c| < cap {
      m := NextStep(s);
    } else if s.ponging {
      m := BeatDoes(ClientPong(true));
    } else {
      m := ClientDoes(ClientRecv);
    }
  }

  lemma {:induction false} Exhaust(h: Host, k: nat, id: StreamId, slow: set<nat>, cap: nat) returns (tail: seq<Event>)
    requires InRoom(h, k, id) && k < |h.sessions| && cap > 0 && Flowing(h.sessions[k], cap)
    ensures Patient(tail, k, slow) && SparingRun(h, tail, k, id) && Asked(tail, k, id) == []
    ensures Legal(h, tail) && Capped(h, tail, k, cap)
    ensures k < |After(h, tail).sessions|
    ensures StuckWithin(After(h, tail).sessions[k], slow, cap) && !Wedged(After(h, tail).sessions[k], cap)
    ensures var s, s' := h.sessions[k], After(h, tail).sessions[k];
            id in s.home && id in s'.home && s'.home[id] == s.home[id]
    decreases Measure(h.sessions[k])
  {
    hide InRoom, Can, Do, Driven, Measure, Sheds, Spares, SlowWrite, GlobalDelta, Asks, StuckWithin, Jammed, Within, Wedged;
    KnownSession(h, k, id);
    if StuckWithin(h.sessions[k], slow, cap) {
      tail := [];
    } else {
      var m := PickMove(h, k, id, slow, cap);
      PatientKeeps(h, k, m, id);
      PatientAdvances(h, k, m, id);
      var rest := Exhaust(DoHost(h, Step(k, m)), k, id, slow, cap);
      tail := [Step(k, m)] + rest;
      assert tail[1..] == rest;
    }
  }

  lemma KnownSession(h: Host, k: nat, id: StreamId)
    requires InRoom(h, k, id)
    ensures k < |h.sessions| && id in h.sessions[k].home
  {
    hide Roomy, HostOk, FlowsOk, IdsOk, Listening, Calm;
  }

  /** A stream keeps its object: an id that is still pending was never stored. */
  lemma HomeStays(s: Session, global: int, m: Move, id: StreamId)
    requires FlowOk(s) && Can(s, m) && id in s.home
    ensures id in Do(s, global, m).home && Do(s, global, m).home[id] == s.home[id]
  {
    hide HomesOk, PendingOk, FramesOk, ViewsOk, S.Can, DoLocal, DoDrop, DoOpener, DoLoop, DoClient;
    if m.Local? {
      LocalKeepsHome(s, m.i, m.act);
    } else if m.DropBy? {
      DropKeepsHome(s, m.drop);
    } else if m.OpenerDoes? {
      OpenerKeepsHome(s, m.opener, id);
    } else if m.LoopDoes? {
      LoopKeepsHome(s, global, m.step, id);
    } else if m.ClientDoes? {
      ClientKeepsHome(s, m.client);
    }
  }

  lemma LocalKeepsHome(s: Session, i: nat, act: S.Act)
    requires i < |s.objs| && S.Can(s.objs[i], act)
    ensures DoLocal(s, i, act).home == s.home
  {
    hide S.Can, S.Do, S.Out, S.SessionDelta;
  }

  lemma DropKeepsHome(s: Session, m: DropMove)
    requires CanDrop(s, m)
    ensures DoDrop(s, m).home == s.home
  {
    hide Dropped;
  }

  lemma OpenerKeepsHome(s: Session, m: OpenerMove, id: StreamId)
    requires PendingOk(s) && CanOpener(s, m) && id in s.home
    ensures id in DoOpener(s, m).home && DoOpener(s, m).home[id] == s.home[id]
  {
    hide OpenIds;
    if m.DialStore? {
      assert Pending(s)[m.k] == s.dialing[m.k];
    }
  }

  lemma LoopKeepsHome(s: Session, global: int, m: LoopMove, id: StreamId)
    requires CanLoop(s, m) && id in s.home
    ensures id in DoLoop(s, global, m).home && DoLoop(s, global, m).home[id] == s.home[id]
  {
    hide DoRecv, S.Push, S.PushDone, LoadAndDelete;
  }

  lemma ClientKeepsHome(s: Session, m: ClientMove)
    requires CanClient(s, m)
    ensures DoClient(s, m).home == s.home
  {
    hide Act, Sent, Receive, WindowFits;
  }

  /**
   A slow stream stops no other, and neither do small wires. From every state that a run within the
   capacity of the wires reaches, with room within the limits, and for every set of slow streams, the
   session can go on by driven moves alone, none of them a write to a slow upstream or to a full wire,
   until every undisturbed upload of the other streams is delivered whole; and it takes no more such moves
   than the measure of the state. Only a session that is wedged already is excepted.
   */
  lemma SlowStreamsStopNobody(limit: nat, run: seq<Event>, k: nat, id: StreamId, slow: set<nat>, cap: nat)
    returns (tail: seq<Event>)
    requires cap > 0
    requires Legal(Boot(limit), run) && Behaved(run, k) && Capped(Boot(limit), run, k, cap)
    requires var h := After(Boot(limit), run);
             && k < |h.sessions| && h.sessions[k].opens <= MAX_OPENS && Roomy(h, k) && !Wedged(h.sessions[k], cap)
             && Undisturbed(h.sessions[k], id) && h.sessions[k].home[id] !in slow
    ensures var h := After(Boot(limit), run);
            && Patient(tail, k, slow) && Legal(h, tail) && Capped(h, tail, k, cap) && k < |After(h, tail).sessions|
            && |tail| <= Measure(h.sessions[k])
            && var s' := After(h, tail).sessions[k];
               && Undisturbed(s', id)
               && ViewOf(s', id).obj.value.delivered == Whole(h.sessions[k].clients[id])
               && s'.clients[id].window == WINDOW
  {
    hide HostOk, FlowsOk, IdsOk, CanHost, DoHost, SparingRun, Legal, After, StuckWithin, Whole, Undisturbed, Boot, Measure,
         Roomy, Driven, SlowWrite, Adds, Capped, Wedged;
    var h := After(Boot(limit), run);
    ReachableCourse(limit, run, k, id);
    RunStaysWithin(Boot(limit), run, k, cap) by { NobodyYet(limit, k, cap); }
    HasHome(h, k, id);
    assert InRoom(h, k, id);
    tail := Exhaust(h, k, id, slow, cap);
    FiniteUploadIsDelivered(limit, run, tail, k, id, slow, cap);
    PatientCounts(tail, k, slow);
    var whole := Whole(h.sessions[k].clients[id]);
    assert whole + [] == whole;
  }

  lemma NobodyYet(limit: nat, k: nat, cap: nat)
    ensures WithinAt(Boot(limit), k, cap)
  {
  }

  lemma {:induction false} PatientCounts(tail: seq<Event>, k: nat, slow: set<nat>)
    requires Patient(tail, k, slow)
    ensures DrivenMoves(tail, k) == |tail| && AddedBy(tail, k) == 0
  {
    hide Driven, SlowWrite, Adds;
    if tail != [] {
      PatientCounts(tail[1..], k, slow);
    }
  }
}
