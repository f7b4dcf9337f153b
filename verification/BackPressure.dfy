/**
 Wires that fill up. A write blocks while its wire holds as many frames as it can, and two of the writers
 are read loops: the server's, for a CLOSE that sheds a stream or an OPEN_ERR that refuses one, and the
 client's, for a PONG. What each of them waits for, and the one way in which they wait for each other.
 */
module BackPressure {
  import opened Limits
  import opened Session
  import opened Shape
  import opened Flow
  import opened Host
  import opened Upload
  import opened Progress
  import S = StreamObject

  // ----- Capacity ----------------------------------------------------------------------------

  /** The move puts a frame on the client-to-server wire. */
  predicate SendsUp(m: Move) {
    match m
    case ClientDoes(client) => client.ClientOpen? || client.ClientClose? || (client.ClientFrame? && client.ok)
    case BeatDoes(beat) => beat == ClientPong(true)
    case Rogue(_) => true
    case _ => false
  }

  /** The move puts a frame on the server-to-client wire. */
  predicate SendsDown(s: Session, m: Move)
    requires Can(s, m)
  {
    match m
    case Local(i, act) => S.Out(s.objs[i], act) != []
    case OpenerDoes(opener) => opener.DialFail? && opener.ok
    case LoopDoes(step) => (step.LoopShed? || step.LoopRefuse?) && step.ok
    case BeatDoes(beat) => !beat.ClientPong?
    case _ => false
  }

  /** The move writes to a wire that already holds `cap` frames, so it has to wait. */
  predicate Jammed(s: Session, m: Move, cap: nat)
    requires Can(s, m)
  {
    (SendsUp(m) && |s.c2s| >= cap) || (SendsDown(s, m) && |s.s2c| >= cap)
  }

  predicate Within(s: Session, cap: nat) {
    |s.c2s| <= cap && |s.s2c| <= cap
  }

  lemma OutIsShort(o: S.Obj, a: S.Act)
    requires S.Can(o, a)
    ensures |S.Out(o, a)| <= 1
  {
  }

  /** What a move does to the number of frames on the wires. */
  lemma FramesCount(s: Session, global: int, m: Move)
    requires Can(s, m)
    ensures var s' := Do(s, global, m);
            && |s'.c2s| == |s.c2s| + (if SendsUp(m) then 1 else 0) - (if m == LoopDoes(LoopRecv) then 1 else 0)
            && |s'.s2c| == |s.s2c| + (if SendsDown(s, m) then 1 else 0) - (if m == ClientDoes(ClientRecv) then 1 else 0)
  {
    hide S.Can, DoLocal, DoDrop, DoOpener, DoLoop, DoAll, DoClient, DoBeat, S.Out;
    match m
    case Local(i, act) => LocalFramesCount(s, i, act);
    case DropBy(drop) => DropKeepsWires(s, drop);
    case OpenerDoes(opener) => OpenerFramesCount(s, opener);
    case LoopDoes(step) => LoopFramesCount(s, global, step);
    case AllDoes(sweep) => AllKeepsWires(s, sweep);
    case ClientDoes(client) => ClientFramesCount(s, client);
    case BeatDoes(beat) => BeatFramesCount(s, beat);
    case Rogue(_) =>
  }

  lemma LocalFramesCount(s: Session, i: nat, act: S.Act)
    requires i < |s.objs| && S.Can(s.objs[i], act)
    ensures var s' := DoLocal(s, i, act);
            s'.c2s == s.c2s && |s'.s2c| == |s.s2c| + if S.Out(s.objs[i], act) != [] then 1 else 0
  {
    hide S.Can, S.Do, S.Out, S.SessionDelta;
    OutIsShort(s.objs[i], act);
  }

  lemma DropKeepsWires(s: Session, m: DropMove)
    requires CanDrop(s, m)
    ensures DoDrop(s, m).c2s == s.c2s && DoDrop(s, m).s2c == s.s2c
  {
    hide LoadAndDelete, Dropped;
    LoadKeepsWires(SetObj(s, m.i, Dropped(s.objs[m.i], m)), s.objs[m.i].id);
  }

  lemma OpenerFramesCount(s: Session, m: OpenerMove)
    requires CanOpener(s, m)
    ensures var s' := DoOpener(s, m);
            s'.c2s == s.c2s && |s'.s2c| == |s.s2c| + if m.DialFail? && m.ok then 1 else 0
  {
  }

  lemma LoadKeepsWires(s: Session, id: StreamId)
    ensures LoadAndDelete(s, id).c2s == s.c2s && LoadAndDelete(s, id).s2c == s.s2c
  {
  }

  lemma LoopFramesCount(s: Session, global: int, m: LoopMove)
    requires CanLoop(s, m)
    ensures var s' := DoLoop(s, global, m);
            && |s'.c2s| == |s.c2s| - (if m.LoopRecv? then 1 else 0)
            && |s'.s2c| == |s.s2c| + (if SendsDown(s, LoopDoes(m)) then 1 else 0)
  {
    hide S.Push, S.PushDone, LoadAndDelete, Dispatch;
    if m.LoopDrop? {
      LoadKeepsWires(s, s.loop.id);
    }
  }

  lemma ClientFramesCount(s: Session, m: ClientMove)
    requires CanClient(s, m)
    ensures var s' := DoClient(s, m);
            && |s'.c2s| == |s.c2s| + (if SendsUp(ClientDoes(m)) then 1 else 0)
            && |s'.s2c| == |s.s2c| - (if m.ClientRecv? then 1 else 0)
  {
    hide Act, Receive, WindowFits;
  }

  lemma AllKeepsWires(s: Session, m: AllMove)
    requires CanAll(s, m)
    ensures DoAll(s, m).c2s == s.c2s && DoAll(s, m).s2c == s.s2c
  {
  }

  lemma BeatFramesCount(s: Session, m: BeatMove)
    requires CanBeat(s, m)
    ensures var s' := DoBeat(s, m);
            && |s'.c2s| == |s.c2s| + (if m == ClientPong(true) then 1 else 0)
            && |s'.s2c| == |s.s2c| + (if m.ClientPong? then 0 else 1)
  {
  }

  predicate Own(e: Event, k: nat) {
    e.Step? && e.k == k
  }

  /** No move of session k in the run writes to a full wire. */
  predicate Capped(h: Host, run: seq<Event>, k: nat, cap: nat)
    requires Legal(h, run)
    decreases |run|
  {
    run == [] ||
    (&& (Own(run[0], k) ==> !Jammed(h.sessions[k], run[0].move, cap))
     && Capped(DoHost(h, run[0]), run[1..], k, cap))
  }

  predicate WithinAt(h: Host, k: nat, cap: nat) {
    k < |h.sessions| ==> Within(h.sessions[k], cap)
  }

  lemma EventStaysWithin(h: Host, e: Event, k: nat, cap: nat)
    requires CanHost(h, e) && WithinAt(h, k, cap)
    requires Own(e, k) ==> !Jammed(h.sessions[k], e.move, cap)
    ensures WithinAt(DoHost(h, e), k, cap)
  {
    hide Can, Do, SendsUp, SendsDown, GlobalDelta;
    if Own(e, k) {
      FramesCount(h.sessions[k], h.global, e.move);
    }
  }

  /** A run that respects the capacity never has more than that on a wire. */
  lemma {:induction false} RunStaysWithin(h: Host, run: seq<Event>, k: nat, cap: nat)
    requires Legal(h, run) && Capped(h, run, k, cap) && WithinAt(h, k, cap)
    ensures WithinAt(After(h, run), k, cap)
    decreases |run|
  {
    hide WithinAt, CanHost, DoHost, Jammed;
    if run != [] {
      EventStaysWithin(h, run[0], k, cap);
      RunStaysWithin(DoHost(h, run[0]), run[1..], k, cap);
    }
  }

  // ----- Stuck within the capacity -----------------------------------------------------------

  /** The pump of a slow stream gets its chunk accepted by the upstream. */
  predicate SlowWrite(m: Move, slow: set<nat>) {
    m.Local? && m.act.PumpWrite? && m.i in slow
  }

  /** No driven move is left, except that the upstreams of the slow streams may yet take a chunk. */
  ghost predicate StuckBut(s: Session, slow: set<nat>) {
    forall m: Move :: Driven(m) && !SlowWrite(m, slow) ==> !Can(s, m)
  }

  /** Every driven move that is left waits for room on its wire, or for a slow upstream. */
  ghost predicate StuckWithin(s: Session, slow: set<nat>, cap: nat) {
    forall m: Move :: Driven(m) && !SlowWrite(m, slow) && Can(s, m) ==> Jammed(s, m, cap)
  }

  lemma StuckAtAnyCapacity(s: Session, slow: set<nat>, cap: nat)
    requires StuckBut(s, slow)
    ensures StuckWithin(s, slow, cap)
  {
    hide Can, Driven, SlowWrite;
  }

  /** The read loop is about to write to the wire itself. */
  predicate AtWireWrite(l: Loop) {
    l.Shedding? || l.Refusing?
  }

  /** Both read loops are at a write, and both wires are full. */
  predicate Wedged(s: Session, cap: nat) {
    AtWireWrite(s.loop) && |s.s2c| >= cap && s.ponging && |s.c2s| >= cap
  }

  lemma QuietSteps(s: Session, slow: set<nat>, cap: nat)
    requires StuckWithin(s, slow, cap) && LoopOk(s) && !s.loop.Ended? && !AtWireWrite(s.loop)
    ensures
      || s.loop.Idle? || (s.loop.Admitted? && !s.objs[s.loop.i].mu.Free?)
      || (s.loop.LoopClosing? && !s.objs[s.loop.i].reclaim.Reclaimed?)
    ensures s.loop.Idle? ==> s.c2s == []
  {
    hide S.Ok;
    assert Can(s, LoopDoes(LoopRecv)) ==> Jammed(s, LoopDoes(LoopRecv), cap);
    assert Can(s, LoopDoes(LoopTestSession)) ==> Jammed(s, LoopDoes(LoopTestSession), cap);
    assert Can(s, LoopDoes(LoopTestGlobal)) ==> Jammed(s, LoopDoes(LoopTestGlobal), cap);
    assert Can(s, LoopDoes(LoopLock)) ==> Jammed(s, LoopDoes(LoopLock), cap);
    assert Can(s, LoopDoes(LoopBillSession)) ==> Jammed(s, LoopDoes(LoopBillSession), cap);
    assert Can(s, LoopDoes(LoopBillGlobal)) ==> Jammed(s, LoopDoes(LoopBillGlobal), cap);
    assert Can(s, LoopDoes(LoopDrop)) ==> Jammed(s, LoopDoes(LoopDrop), cap);
    assert Can(s, LoopDoes(LoopDone)) ==> Jammed(s, LoopDoes(LoopDone), cap);
  }

  lemma QuietActs(s: Session, slow: set<nat>, cap: nat, i: nat, a: S.Act)
    requires StuckWithin(s, slow, cap) && i < |s.objs|
    requires MutexAct(a) || a.CloserSwap? || a.CloserBillSession? || a.CloserHangUp?
    ensures !S.Can(s.objs[i], a)
  {
    var m := Local(i, a);
    assert Driven(m) && !SlowWrite(m, slow);
    assert Can(s, m) ==> Jammed(s, m, cap);
  }

  /** A mutex is only held by someone who can go on. */
  lemma HolderMoves(o: S.Obj)
    requires S.Ok(o) && !o.mu.Free? && !o.mu.ByLoop?
    ensures o.mu.ByPump? ==> S.Can(o, S.PumpPark) || S.Can(o, S.PumpBillSession) || S.Can(o, S.PumpBillGlobal)
    ensures o.mu.ByCloser? ==> S.Can(o, S.CloserClear)
  {
  }

  lemma QuietMutex(s: Session, slow: set<nat>, cap: nat, i: nat)
    requires StuckWithin(s, slow, cap) && ObjsOk(s) && i < |s.objs| && !s.objs[i].mu.ByLoop?
    ensures s.objs[i].mu.Free?
  {
    hide S.Ok, S.Can, StuckWithin;
    QuietActs(s, slow, cap, i, S.PumpPark);
    QuietActs(s, slow, cap, i, S.PumpBillSession);
    QuietActs(s, slow, cap, i, S.PumpBillGlobal);
    QuietActs(s, slow, cap, i, S.CloserClear);
    if !s.objs[i].mu.Free? {
      HolderMoves(s.objs[i]);
    }
  }

  lemma QuietCloser(s: Session, slow: set<nat>, cap: nat, i: nat)
    requires StuckWithin(s, slow, cap) && i < |s.objs| && !s.objs[i].grab.Untouched? && s.objs[i].mu.Free?
    requires S.Ok(s.objs[i])
    ensures s.objs[i].reclaim.Reclaimed?
  {
    hide StuckWithin, S.LifeOk, S.CreditOk, S.SizeOk, S.WakeOk, S.LedgerOk;
    QuietActs(s, slow, cap, i, S.CloserSwap);
    QuietActs(s, slow, cap, i, S.CloserBillSession);
    QuietActs(s, slow, cap, i, S.CloserClear);
    QuietActs(s, slow, cap, i, S.CloserHangUp);
  }

  /** A read loop that is not at a write of its own gets through the frames on its wire. */
  lemma QuietLoop(s: Session, slow: set<nat>, cap: nat)
    requires StuckWithin(s, slow, cap) && LoopOk(s) && ObjsOk(s) && !s.loop.Ended? && !AtWireWrite(s.loop)
    ensures s.loop.Idle? && s.c2s == []
  {
    hide S.Ok, StuckWithin;
    QuietSteps(s, slow, cap);
    if s.loop.Admitted? || s.loop.LoopClosing? {
      QuietMutex(s, slow, cap, s.loop.i);
    }
    if s.loop.LoopClosing? {
      QuietCloser(s, slow, cap, s.loop.i);
    }
  }

  /** With room for its PONG, the client's read loop gets through the frames on its own wire. */
  lemma QuietClient(s: Session, slow: set<nat>, cap: nat)
    requires StuckWithin(s, slow, cap) && |s.c2s| < cap
    ensures !s.ponging && s.s2c == []
  {
    assert Can(s, BeatDoes(ClientPong(true))) ==> Jammed(s, BeatDoes(ClientPong(true)), cap);
    assert Can(s, ClientDoes(ClientRecv)) ==> Jammed(s, ClientDoes(ClientRecv), cap);
  }

  lemma QuietWrite(s: Session, slow: set<nat>, cap: nat)
    requires StuckWithin(s, slow, cap) && AtWireWrite(s.loop)
    ensures |s.s2c| >= cap && (s.s2c != [] ==> s.ponging)
  {
    assert Can(s, LoopDoes(LoopShed(true))) ==> Jammed(s, LoopDoes(LoopShed(true)), cap);
    assert Can(s, LoopDoes(LoopRefuse(true))) ==> Jammed(s, LoopDoes(LoopRefuse(true)), cap);
    assert Can(s, ClientDoes(ClientRecv)) ==> Jammed(s, ClientDoes(ClientRecv), cap);
  }

  lemma RoomMeansStuck(s: Session, slow: set<nat>, cap: nat)
    requires StuckWithin(s, slow, cap) && |s.c2s| < cap && |s.s2c| < cap
    ensures StuckBut(s, slow)
  {
    hide Can, Driven, SlowWrite;
    forall m: Move | Driven(m) && !SlowWrite(m, slow)
      ensures !Can(s, m)
    {
    }
  }

  lemma WedgedCanWrite(s: Session, slow: set<nat>, cap: nat)
    requires Wedged(s, cap)
    ensures !StuckBut(s, slow)
  {
    assert Can(s, LoopDoes(LoopShed(true))) || Can(s, LoopDoes(LoopRefuse(true)));
  }

  lemma SticksShort(s: Session, slow: set<nat>, cap: nat)
    requires cap > 0 && LoopOk(s) && ObjsOk(s) && !s.loop.Ended? && StuckWithin(s, slow, cap)
    ensures !StuckBut(s, slow) <==> Wedged(s, cap)
  {
    hide StuckWithin, StuckBut, LoopOk, ObjsOk;
    if Wedged(s, cap) {
      WedgedCanWrite(s, slow, cap);
    } else {
      if AtWireWrite(s.loop) {
        QuietWrite(s, slow, cap);
      } else {
        QuietLoop(s, slow, cap);
      }
      QuietClient(s, slow, cap);
      RoomMeansStuck(s, slow, cap);
    }
  }

  /**
   Back pressure stops a session short in exactly one way. Take any reachable state, any peer, any
   capacity of the wires and any slow streams, such that every move that is left waits for room or for a
   slow upstream. Then some move is left waiting for room if and only if the server's read loop is writing
   a CLOSE that sheds a stream or an OPEN_ERR that refuses one, the client's read loop is writing a PONG,
   and both wires are full.
   */
  lemma SticksShortExactly(limit: nat, run: seq<Event>, k: nat, slow: set<nat>, cap: nat)
    requires Legal(Boot(limit), run) && k < |After(Boot(limit), run).sessions| && cap > 0
    requires var s := After(Boot(limit), run).sessions[k]; !s.loop.Ended? && StuckWithin(s, slow, cap)
    ensures var s := After(Boot(limit), run).sessions[k]; !StuckBut(s, slow) <==> Wedged(s, cap)
  {
    hide Legal, After, TableOk, WireOk, SweepOk, WritersOk, FlowOk, ObjsOk, LoopOk, StuckWithin, StuckBut, Wedged;
    ReachableFlows(limit, run, k);
    SticksShort(After(Boot(limit), run).sessions[k], slow, cap);
  }

  // ----- A wedged session stays wedged -------------------------------------------------------

  /** One of the two writes that a wedged session waits in fails, as it does when the connection is cut. */
  predicate CutsWrite(m: Move) {
    m == LoopDoes(LoopShed(false)) || m == LoopDoes(LoopRefuse(false)) || m == BeatDoes(ClientPong(false))
  }

  /** Neither wire, neither read loop and nothing that any client has framed is different. */
  predicate Frozen(s: Session, s': Session) {
    && s'.c2s == s.c2s && s'.s2c == s.s2c && s'.loop == s.loop && s'.ponging == s.ponging && s'.rogue == s.rogue
    && s'.clients.Keys == s.clients.Keys && forall id <- s.clients.Keys :: s'.clients[id].framed == s.clients[id].framed
  }

  lemma WedgeStays(s: Session, global: int, m: Move, cap: nat)
    requires Wedged(s, cap) && Can(s, m) && !Jammed(s, m, cap) && !CutsWrite(m)
    ensures Frozen(s, Do(s, global, m))
  {
    hide S.Can, S.Do, S.Out, S.SessionDelta, DoDrop, DoAll, DoClient;
    if m.Local? {
      assert s.s2c + [] == s.s2c;
    } else if m.DropBy? {
      DropKeepsWires(s, m.drop);
    } else if m.AllDoes? {
      AllKeepsWires(s, m.sweep);
    } else if m.ClientDoes? {
      ClientStaysFrozen(s, m.client);
    } else if m.OpenerDoes? {
      assert s.s2c + [] == s.s2c;
    }
  }

  lemma ClientStaysFrozen(s: Session, m: ClientMove)
    requires s.ponging && CanClient(s, m) && !SendsUp(ClientDoes(m))
    ensures Frozen(s, DoClient(s, m))
  {
    hide WindowFits;
    assert s.c2s + [] == s.c2s;
  }

  /**
   A wedged session never moves on by itself: as long as neither of the two writes fails, every
   continuation that respects the capacity leaves both wires and both read loops as they are, and no
   client frames another byte.
   */
  lemma {:induction false} WedgedForGood(h: Host, tail: seq<Event>, k: nat, cap: nat)
    requires k < |h.sessions| && Wedged(h.sessions[k], cap) && Legal(h, tail) && Capped(h, tail, k, cap)
    requires forall e <- tail :: Own(e, k) ==> !CutsWrite(e.move)
    ensures k < |After(h, tail).sessions|
    ensures Frozen(h.sessions[k], After(h, tail).sessions[k]) && Wedged(After(h, tail).sessions[k], cap)
    decreases |tail|
  {
    hide Can, Do, Jammed, CutsWrite, GlobalDelta;
    if tail != [] {
      var h' := DoHost(h, tail[0]);
      if Own(tail[0], k) {
        WedgeStays(h.sessions[k], h.global, tail[0].move, cap);
      }
      assert Frozen(h.sessions[k], h'.sessions[k]);
      WedgedForGood(h', tail[1..], k, cap);
    }
  }

  // ----- What the read loop waits for --------------------------------------------------------

  /** Steps inside a stream's critical sections, which touch neither an upstream nor the wire. */
  predicate MutexAct(a: S.Act) {
    a.PumpPark? || a.PumpBillSession? || a.PumpBillGlobal? || a.CloserClear?
  }

  /** After these mutex steps of stream i the move is possible, and writes nothing to the wire. */
  predicate Unlocks(s: Session, i: nat, acts: seq<S.Act>, m: Move)
    decreases |acts|
  {
    if acts == [] then Can(s, m) && !SendsDown(s, m)
    else
      && i < |s.objs| && MutexAct(acts[0]) && S.Can(s.objs[i], acts[0])
      && Unlocks(DoLocal(s, i, acts[0]), i, acts[1..], m)
  }

  /** The next step of closeStream on the object it has loaded. */
  function NextClosing(i: nat, o: S.Obj): Move {
    if o.grab.Grabbed? then Local(i, S.CloserSwap)
    else match o.reclaim {
      case Won(_) => Local(i, S.CloserBillSession)
      case SessionBilled(_) => Local(i, S.CloserClear)
      case Hanging => Local(i, S.CloserHangUp)
      case _ => LoopDoes(LoopDone)
    }
  }

  /** What the read loop does next, its own closeStream included. */
  function NextStep(s: Session): Move
    requires s.loop.LoopClosing? ==> s.loop.i < |s.objs|
  {
    match s.loop
    case Idle => LoopDoes(LoopRecv)
    case Looked(_, _) => LoopDoes(LoopTestSession)
    case SessionFits(_, _) => LoopDoes(LoopTestGlobal)
    case Admitted(_, _) => LoopDoes(LoopLock)
    case Adding(_, _) => LoopDoes(LoopBillSession)
    case Added(_, _) => LoopDoes(LoopBillGlobal)
    case Shedding(_) => LoopDoes(LoopShed(true))
    case Refusing(_) => LoopDoes(LoopRefuse(true))
    case LoopDropping(_) => LoopDoes(LoopDrop)
    case LoopClosing(i) => NextClosing(i, s.objs[i])
    case Ended => LoopDoes(LoopEnd)
  }

  /** The steps that free a stream's mutex, if the read loop does not hold it. */
  function Release(o: S.Obj): seq<S.Act> {
    if o.pump.Deciding? then [S.PumpPark]
    else if o.pump.Popped? then [S.PumpBillSession, S.PumpBillGlobal]
    else if o.pump.HalfBilled? then [S.PumpBillGlobal]
    else if o.reclaim.SessionBilled? then [S.CloserClear]
    else []
  }

  /** The read loop is about to take the mutex of stream i, to queue a payload or to reclaim the stream. */
  predicate AwaitsMutex(s: Session, i: nat, m: Move) {
    && i < |s.objs|
    && (|| (m == LoopDoes(LoopLock) && s.loop.Admitted? && s.loop.i == i)
        || (m == Local(i, S.CloserBillSession) && s.objs[i].reclaim.Won?))
  }

  lemma MutexActWaits(s: Session, i: nat, a: S.Act, m: Move)
    requires AwaitsMutex(s, i, m) && MutexAct(a) && S.Can(s.objs[i], a)
    ensures AwaitsMutex(DoLocal(s, i, a), i, m) && DoLocal(s, i, a).objs[i] == S.Do(s.objs[i], a)
  {
    hide S.Out;
  }

  lemma {:induction false} ReleaseUnlocks(s: Session, i: nat, acts: seq<S.Act>, m: Move)
    requires AwaitsMutex(s, i, m) && Releases(s.objs[i], acts)
    ensures Unlocks(s, i, acts, m)
    decreases |acts|
  {
    hide S.Do, MutexAct, DoLocal;
    if acts != [] {
      hide S.Out;
      MutexActWaits(s, i, acts[0], m);
      ReleaseUnlocks(DoLocal(s, i, acts[0]), i, acts[1..], m);
    }
  }

  /** The steps can be taken one after the other, and leave the mutex free. */
  predicate Releases(o: S.Obj, acts: seq<S.Act>)
    decreases |acts|
  {
    if acts == [] then o.mu.Free?
    else MutexAct(acts[0]) && S.Can(o, acts[0]) && Releases(S.Do(o, acts[0]), acts[1..])
  }

  lemma HolderReleases(o: S.Obj)
    requires S.Ok(o) && !o.mu.ByLoop?
    ensures |Release(o)| <= 2 && Releases(o, Release(o))
  {
    hide S.CloseOk, S.LifeOk, S.CreditOk, S.SizeOk, S.WakeOk, S.LedgerOk;
    if o.pump.Popped? {
      assert [S.PumpBillSession, S.PumpBillGlobal][1..] == [S.PumpBillGlobal];
      assert Releases(S.Do(S.Do(o, S.PumpBillSession), S.PumpBillGlobal), []);
      assert Releases(S.Do(o, S.PumpBillSession), [S.PumpBillGlobal]);
    }
  }

  lemma ClosingCanGoOn(s: Session)
    requires LoopOk(s) && s.loop.LoopClosing? && S.Ok(s.objs[s.loop.i])
    ensures var m := NextStep(s);
            AwaitsMutex(s, s.loop.i, m) || (Can(s, m) && !SendsDown(s, m))
  {
    hide S.LifeOk, S.CreditOk, S.SizeOk, S.WakeOk, S.LedgerOk, S.MuOk;
  }

  lemma ServingCanGoOn(s: Session)
    requires LoopOk(s) && !s.loop.LoopClosing? && !s.loop.Ended? && !AtWireWrite(s.loop)
    requires s.loop.Idle? ==> s.c2s != []
    ensures var m := NextStep(s);
            (s.loop.Admitted? && AwaitsMutex(s, s.loop.i, m)) || (Can(s, m) && !SendsDown(s, m))
  {
    hide S.Ok;
  }

  /**
   The read loop never waits for a slow stream. In every reachable state, for any peer, unless it has no
   frame to work on or is at one of its two writes to the wire, its next step is possible after at most
   two steps that others take inside the critical section of the stream at hand; none of them writes to
   an upstream or to the wire. That holds for the whole of its own closeStream.
   */
  lemma ReadLoopNeverWaits(limit: nat, run: seq<Event>, k: nat) returns (i: nat, acts: seq<S.Act>)
    requires Legal(Boot(limit), run) && k < |After(Boot(limit), run).sessions|
    requires var s := After(Boot(limit), run).sessions[k];
             !s.loop.Ended? && !AtWireWrite(s.loop) && !(s.loop.Idle? && s.c2s == [])
    ensures var s := After(Boot(limit), run).sessions[k];
            && (s.loop.LoopClosing? ==> s.loop.i < |s.objs|)
            && |acts| <= 2 && Unlocks(s, i, acts, NextStep(s))
  {
    hide Legal, After, TableOk, WireOk, SweepOk, WritersOk, FlowOk, S.Ok, NextStep, SendsDown, Can;
    ReachableFlows(limit, run, k);
    var s := After(Boot(limit), run).sessions[k];
    i, acts := 0, [];
    if s.loop.Admitted? || s.loop.LoopClosing? {
      i := s.loop.i;
    }
    if s.loop.LoopClosing? {
      ClosingCanGoOn(s);
    } else {
      ServingCanGoOn(s);
    }
    if AwaitsMutex(s, i, NextStep(s)) && (s.loop.Admitted? || s.loop.LoopClosing?) {
      acts := Release(s.objs[i]);
      HolderReleases(s.objs[i]);
      ReleaseUnlocks(s, i, acts, NextStep(s));
    }
  }

  /** After these steps of the client's read loop, none of which has to wait, the read loop's write has room. */
  predicate MakesRoom(s: Session, acts: seq<Move>, cap: nat)
    requires AtWireWrite(s.loop)
    decreases |acts|
  {
    if acts == [] then !Jammed(s, NextStep(s), cap)
    else
      && (acts[0] == BeatDoes(ClientPong(true)) || acts[0] == ClientDoes(ClientRecv))
      && Can(s, acts[0]) && !Jammed(s, acts[0], cap)
      && MakesRoom(Do(s, 0, acts[0]), acts[1..], cap)
  }

  lemma RecvMakesRoom(s: Session, cap: nat)
    requires AtWireWrite(s.loop) && !s.ponging && |s.s2c| == cap > 0
    ensures MakesRoom(s, [ClientDoes(ClientRecv)], cap)
  {
    var s' := Do(s, 0, ClientDoes(ClientRecv));
    assert |s'.s2c| < cap && s'.loop == s.loop;
    assert MakesRoom(s', [], cap);
  }

  lemma PongMakesRoom(s: Session, cap: nat)
    requires AtWireWrite(s.loop) && s.ponging && |s.c2s| < cap && |s.s2c| == cap
    ensures MakesRoom(s, [BeatDoes(ClientPong(true)), ClientDoes(ClientRecv)], cap)
  {
    var acts := [BeatDoes(ClientPong(true)), ClientDoes(ClientRecv)];
    assert acts[1..] == [ClientDoes(ClientRecv)];
    RecvMakesRoom(Do(s, 0, acts[0]), cap);
  }

  /**
   And what the read loop's own two writes wait for: while the session is not wedged, at most two steps of
   the client's read loop, none of which waits for anything. In a wedged session no such steps exist.
   */
  lemma OwnWriteWaits(limit: nat, run: seq<Event>, k: nat, cap: nat) returns (acts: seq<Move>)
    requires Legal(Boot(limit), run) && k < |After(Boot(limit), run).sessions| && cap > 0
    requires Capped(Boot(limit), run, k, cap) && AtWireWrite(After(Boot(limit), run).sessions[k].loop)
    ensures var s := After(Boot(limit), run).sessions[k];
            && (!Wedged(s, cap) ==> |acts| <= 2 && MakesRoom(s, acts, cap))
            && (Wedged(s, cap) ==> forall other: seq<Move> :: !MakesRoom(s, other, cap))
  {
    hide Legal, After, Capped, MakesRoom;
    RunStaysWithin(Boot(limit), run, k, cap);
    var s := After(Boot(limit), run).sessions[k];
    acts := RoomFor(s, cap);
    forall other: seq<Move> | Wedged(s, cap)
      ensures !MakesRoom(s, other, cap)
    {
      NoRoom(s, other, cap);
    }
  }

  lemma NoRoom(s: Session, acts: seq<Move>, cap: nat)
    requires Wedged(s, cap)
    ensures !MakesRoom(s, acts, cap)
  {
  }

  lemma RoomFor(s: Session, cap: nat) returns (acts: seq<Move>)
    requires AtWireWrite(s.loop) && Within(s, cap) && cap > 0
    ensures !Wedged(s, cap) ==> |acts| <= 2 && MakesRoom(s, acts, cap)
  {
    acts := [];
    if |s.s2c| == cap && !s.ponging {
      acts := [ClientDoes(ClientRecv)];
      RecvMakesRoom(s, cap);
    } else if |s.s2c| == cap && |s.c2s| < cap {
      acts := [BeatDoes(ClientPong(true)), ClientDoes(ClientRecv)];
      PongMakesRoom(s, cap);
    }
  }
}
