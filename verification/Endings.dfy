/**
 How a stream ends. Whatever ends it on the server, nothing of it stays there; a CLOSE from the client does
 the same; and the client is never left waiting: an upload arrives whole or fails loudly.
 */
module Endings {
  import opened Bytes
  import opened Limits
  import opened Session
  import opened Shape
  import opened StreamView
  import opened Flow
  import opened Host
  import opened Upload
  import opened Teardown
  import opened Aftermath
  import opened BackPressure
  import opened Stalls
  import opened SlowStreams
  import opened Traffic
  import opened Hearing
  import S = StreamObject

  // ----- What cannot be undone ---------------------------------------------------------------

  /** One of the stream's goroutines has given it up, or somebody has taken it to close it. */
  predicate Sick(o: S.Obj) {
    || o.opener.OpenerDropping? || o.opener.OpenerHanging? || o.opener.Returned? || o.opener.Cleaning?
    || (o.opener.Launched? && (!o.reader.Reading? || !Alive(o.pump)))
    || !Loose(o) || !o.upstream
  }

  predicate Follows(o: S.Obj, o': S.Obj) {
    o'.id == o.id && (!Loose(o) ==> !Loose(o')) && (Sick(o) ==> Sick(o'))
  }

  ghost predicate ObjsFollow(s: Session, s': Session) {
    |s.objs| <= |s'.objs| && forall j: nat | j < |s.objs| :: Follows(s.objs[j], s'.objs[j])
  }

  lemma LocalFollows(o: S.Obj, a: S.Act)
    requires S.Ok(o) && S.Can(o, a)
    ensures Follows(o, S.Do(o, a))
  {
    hide S.SizeOk, S.CreditOk, S.WakeOk, S.LedgerOk, S.MuOk;
  }

  lemma OthersFollow(o: S.Obj, p: Chunk)
    ensures Follows(o, S.Push(o, p)) && Follows(o, S.PushDone(o)) && Follows(o, S.Loaded(o)) && Follows(o, S.Swap(o, true))
    ensures o.opener.Stored? ==> Follows(o, S.OpenerChecks(o, true)) && Follows(o, S.OpenerChecks(o, false))
    ensures o.opener.Cleaning? || o.opener.OpenerDropping? ==> Follows(o, S.OpenerDrops(o))
    ensures o.pump.PumpDropping? ==> Follows(o, S.PumpDrops(o))
    ensures o.reader.ReaderDropping? ==> Follows(o, S.ReaderDrops(o))
  {
  }

  lemma SetObjFollows(s: Session, i: nat, o: S.Obj)
    requires i < |s.objs| && Follows(s.objs[i], o)
    ensures ObjsFollow(s, SetObj(s, i, o))
  {
    hide Loose;
  }

  lemma LoadFollows(s: Session, id: StreamId)
    ensures ObjsFollow(s, LoadAndDelete(s, id))
  {
    hide Follows;
    FollowsSelf(s);
    if id in s.table && s.table[id] < |s.objs| {
      OthersFollow(s.objs[s.table[id]], []);
    }
  }

  lemma FollowsSelf(s: Session)
    ensures ObjsFollow(s, s) && forall j: nat | j < |s.objs| :: Follows(s.objs[j], s.objs[j])
  {
  }

  lemma FollowsOn(s: Session, t: Session, u: Session)
    requires ObjsFollow(s, t) && ObjsFollow(t, u)
    ensures ObjsFollow(s, u)
  {
    hide Sick, Loose;
  }

  lemma DropFollows(s: Session, m: DropMove)
    requires CanDrop(s, m)
    ensures ObjsFollow(s, DoDrop(s, m))
  {
    hide ObjsFollow, Follows, LoadAndDelete;
    var o := s.objs[m.i];
    OthersFollow(o, []);
    SetObjFollows(s, m.i, Dropped(o, m));
    LoadFollows(SetObj(s, m.i, Dropped(o, m)), o.id);
    FollowsOn(s, SetObj(s, m.i, Dropped(o, m)), DoDrop(s, m));
  }

  lemma OpenerFollows(s: Session, m: OpenerMove)
    requires CanOpener(s, m)
    ensures ObjsFollow(s, DoOpener(s, m))
  {
    hide Follows;
    FollowsSelf(s);
    if m.OpenerCheck? || m.OpenerClean? {
      OthersFollow(s.objs[m.i], []);
    }
  }

  lemma LoopFollows(s: Session, global: int, m: LoopMove)
    requires CanLoop(s, m)
    ensures ObjsFollow(s, DoLoop(s, global, m))
  {
    hide Follows, DoRecv, LoadAndDelete, S.Push, S.PushDone;
    FollowsSelf(s);
    if m.LoopLock? || m.LoopBillGlobal? {
      OthersFollow(s.objs[s.loop.i], if m.LoopLock? then s.loop.payload else []);
    } else if m.LoopDrop? {
      LoadFollows(s, s.loop.id);
    }
  }

  lemma MoveFollows(s: Session, global: int, m: Move)
    requires ObjsOk(s) && Can(s, m)
    ensures ObjsFollow(s, Do(s, global, m))
  {
    hide S.Ok, Follows, DoLocal, DoDrop, DoOpener, DoLoop, DoAll, DoClient, S.Can;
    FollowsSelf(s);
    match m
    case Local(i, act) => ActFollowsAll(s, i, act);
    case DropBy(drop) => DropFollows(s, drop);
    case OpenerDoes(opener) => OpenerFollows(s, opener);
    case LoopDoes(step) => LoopFollows(s, global, step);
    case AllDoes(sweep) => SweepFollows(s, sweep);
    case ClientDoes(client) => ClientKeepsObjs(s, client);
    case BeatDoes(_) =>
    case Rogue(_) =>
  }

  lemma ActFollowsAll(s: Session, i: nat, act: S.Act)
    requires i < |s.objs| && S.Ok(s.objs[i]) && S.Can(s.objs[i], act)
    ensures ObjsFollow(s, DoLocal(s, i, act))
  {
    hide S.Ok, Follows, S.Can, S.Do, S.Out, S.SessionDelta;
    FollowsSelf(s);
    LocalFollows(s.objs[i], act);
  }

  lemma SweepFollows(s: Session, m: AllMove)
    requires CanAll(s, m)
    ensures ObjsFollow(s, DoAll(s, m))
  {
    hide Follows, S.Swap;
    FollowsSelf(s);
    if m.AllSwap? {
      OthersFollow(s.objs[s.all.i], []);
    }
  }

  lemma ClientKeepsObjs(s: Session, m: ClientMove)
    requires CanClient(s, m)
    ensures var s' := DoClient(s, m); s'.objs == s.objs && s'.table == s.table && s'.home == s.home
  {
    hide Act, Sent, Receive, WindowFits;
  }

  // ----- On an open session ------------------------------------------------------------------

  /** Nobody has a stream that is not listed, and its goroutines are all there. */
  ghost predicate OwnedOk(s: Session) {
    !s.closed ==> forall j: nat | j < |s.objs| && Loose(s.objs[j]) :: Listed(s, j) && !Left(s.objs[j])
  }

  /** A reader that has left has left to somebody. */
  ghost predicate ReadersOk(s: Session) {
    !s.closed ==> forall j: nat | j < |s.objs| && Loose(s.objs[j]) :: !s.objs[j].reader.ReaderHanging? && !s.objs[j].reader.Gone?
  }

  lemma LocalReaders(o: S.Obj, a: S.Act)
    requires S.Ok(o) && S.Can(o, a)
    ensures S.Do(o, a).reader.ReaderHanging? || S.Do(o, a).reader.Gone? ==>
              o.reader.ReaderHanging? || o.reader.Gone? || !Loose(S.Do(o, a))
  {
    hide S.SizeOk, S.CreditOk, S.WakeOk, S.LedgerOk, S.MuOk;
  }

  /** One object steps, and no reader leaves but to somebody. */
  lemma ReadersFollow(s: Session, s': Session)
    requires ReadersOk(s) && ObjsFollow(s, s') && (s.closed ==> s'.closed)
    requires forall j: nat | j < |s.objs| && (s'.objs[j].reader.ReaderHanging? || s'.objs[j].reader.Gone?) ::
               s.objs[j].reader.ReaderHanging? || s.objs[j].reader.Gone? || !Loose(s'.objs[j])
    requires forall j: nat | |s.objs| <= j < |s'.objs| :: s'.objs[j].reader.Unborn?
    ensures ReadersOk(s')
  {
    hide Sick, Loose;
  }

  /** closeStream by the reader goes to its own stream, or the stream was in other hands already. */
  lemma ReaderLeaves(s: Session, i: nat)
    requires TableOk(s) && HomesOk(s) && OwnedOk(s) && !s.closed && CanDrop(s, ByReader(i))
    ensures !Loose(DoDrop(s, ByReader(i)).objs[i])
  {
    hide Left, TableOk, HomesOk;
    OwnEntry(s, i);
    LoadsOwn(SetObj(s, i, S.ReaderDrops(s.objs[i])), i, s.objs[i].id);
  }

  lemma LoadsOwn(s: Session, i: nat, id: StreamId)
    requires i < |s.objs| && (id in s.table ==> s.table[id] == i)
    requires Loose(s.objs[i]) ==> id in s.table
    ensures |LoadAndDelete(s, id).objs| == |s.objs| && !Loose(LoadAndDelete(s, id).objs[i])
  {
  }

  lemma DropReaders(s: Session, m: DropMove)
    requires CanDrop(s, m)
    ensures var s' := DoDrop(s, m);
            && |s'.objs| == |s.objs| && s'.closed == s.closed
            && forall j: nat | j < |s.objs| && !(m.ByReader? && m.i == j) :: s'.objs[j].reader == s.objs[j].reader
  {
  }

  lemma DropKeepsReaders(s: Session, m: DropMove)
    requires TableOk(s) && HomesOk(s) && OwnedOk(s) && ReadersOk(s) && CanDrop(s, m)
    ensures ReadersOk(DoDrop(s, m))
  {
    hide ObjsFollow, TableOk, HomesOk, DoDrop, Dropped;
    DropFollows(s, m);
    DropReaders(s, m);
    if m.ByReader? && !s.closed {
      ReaderLeaves(s, m.i);
    }
    if !s.closed {
      ReadersFollow(s, DoDrop(s, m));
    }
  }

  lemma OpenerReaders(s: Session, m: OpenerMove)
    requires CanOpener(s, m)
    ensures var s' := DoOpener(s, m);
            && |s.objs| <= |s'.objs| && s'.closed == s.closed
            && (forall j: nat | j < |s.objs| :: s'.objs[j].reader == s.objs[j].reader)
            && (forall j: nat | |s.objs| <= j < |s'.objs| :: s'.objs[j].reader.Unborn?)
  {
  }

  lemma LoopReaders(s: Session, global: int, m: LoopMove)
    requires CanLoop(s, m)
    ensures var s' := DoLoop(s, global, m);
            && |s'.objs| == |s.objs| && s'.closed == s.closed
            && forall j: nat | j < |s.objs| :: s'.objs[j].reader == s.objs[j].reader
  {
    hide DoRecv;
  }

  lemma AllReaders(s: Session, m: AllMove)
    requires CanAll(s, m)
    ensures var s' := DoAll(s, m);
            && |s'.objs| == |s.objs| && (s.closed ==> s'.closed)
            && forall j: nat | j < |s.objs| :: s'.objs[j].reader == s.objs[j].reader
  {
  }

  lemma MoveKeepsReaders(s: Session, global: int, m: Move)
    requires ShapeOk(s) && FlowOk(s) && OwnedOk(s) && ReadersOk(s) && Can(s, m)
    ensures ReadersOk(Do(s, global, m))
  {
    hide FlowOk, S.Ok, LoopOk, WireOk, SweepOk, ObjsFollow, DoDrop, DoOpener, DoLoop, DoAll, DoClient, OwnedOk, S.Can, S.Do,
         S.Out, S.SessionDelta, Loose;
    MoveFollows(s, global, m);
    match m
    case Local(i, act) =>
      LocalReaders(s.objs[i], act);
      ReadersFollow(s, Do(s, global, m));
    case DropBy(drop) => DropKeepsReaders(s, drop) by { FlowIsHomes(s); }
    case OpenerDoes(opener) =>
      OpenerReaders(s, opener);
      ReadersFollow(s, Do(s, global, m));
    case LoopDoes(step) =>
      LoopReaders(s, global, step);
      ReadersFollow(s, Do(s, global, m));
    case AllDoes(sweep) =>
      AllReaders(s, sweep);
      ReadersFollow(s, Do(s, global, m));
    case ClientDoes(client) =>
      ClientKeepsObjs(s, client);
      ReadersFollow(s, Do(s, global, m));
    case BeatDoes(_) => ReadersFollow(s, Do(s, global, m));
    case Rogue(_) => ReadersFollow(s, Do(s, global, m));
  }

  lemma FlowIsHomes(s: Session)
    requires FlowOk(s)
    ensures HomesOk(s)
  {
    hide HomesOk, PendingOk, FramesOk, ViewsOk;
  }

  // ----- Runs, from their last step ----------------------------------------------------------

  /** The run without its last event, and what that event does. */
  lemma LastEvent(limit: nat, run: seq<Event>)
    requires Legal(Boot(limit), run) && run != []
    ensures var front := run[..|run| - 1];
            && Legal(Boot(limit), front) && CanHost(After(Boot(limit), front), run[|run| - 1])
            && After(Boot(limit), run) == DoHost(After(Boot(limit), front), run[|run| - 1])
  {
    hide CanHost, DoHost, Boot;
    var n := |run| - 1;
    Prefix(Boot(limit), run, n);
    var h := After(Boot(limit), run[..n]);
    assert run[n..] == [run[n]] && run[n..][1..] == [];
    assert After(DoHost(h, run[n]), []) == DoHost(h, run[n]);
  }

  /** Session k before the last event of a run, and how it came to what it is now. */
  lemma SessionBefore(limit: nat, run: seq<Event>, k: nat)
    requires Legal(Boot(limit), run) && k < |After(Boot(limit), run).sessions|
    ensures run != []
    ensures var front, e := run[..|run| - 1], run[|run| - 1];
            && Legal(Boot(limit), front)
            && var h, s' := After(Boot(limit), front), After(Boot(limit), run).sessions[k];
               if k < |h.sessions| then
                 if Own(e, k) then Can(h.sessions[k], e.move) && s' == Do(h.sessions[k], h.global, e.move)
                 else s' == h.sessions[k]
               else s' == START
  {
    hide Can, Do, GlobalDelta, Legal, After, START;
    if run == [] {
      NobodyAtBoot(limit);
    } else {
      LastEvent(limit, run);
    }
  }

  lemma NobodyAtBoot(limit: nat)
    ensures Legal(Boot(limit), []) && After(Boot(limit), []).sessions == []
  {
  }

  lemma ReachableOwned(limit: nat, run: seq<Event>, k: nat)
    requires Legal(Boot(limit), run) && k < |After(Boot(limit), run).sessions|
    ensures OwnedOk(After(Boot(limit), run).sessions[k])
  {
    hide Legal, After, Loose, Left, Listed, WasStruck, WasSpent;
    var s := After(Boot(limit), run).sessions[k];
    forall j: nat | j < |s.objs| && Loose(s.objs[j]) && !s.closed
      ensures Listed(s, j) && !Left(s.objs[j])
    {
      ReachableFate(limit, run, k, j);
    }
  }

  lemma {:induction false} ReachableReaders(limit: nat, run: seq<Event>, k: nat)
    requires Legal(Boot(limit), run) && k < |After(Boot(limit), run).sessions|
    requires !After(Boot(limit), run).sessions[k].rogue
    ensures ReadersOk(After(Boot(limit), run).sessions[k])
    decreases |run|
  {
    hide Legal, After, Can, Do, ShapeOk, FlowOk, WritersOk, OwnedOk, ReadersOk, START, Boot;
    SessionBefore(limit, run, k);
    var front, e := run[..|run| - 1], run[|run| - 1];
    var h := After(Boot(limit), front);
    if k < |h.sessions| {
      if Own(e, k) && h.sessions[k].rogue {
        RogueStays(h.sessions[k], h.global, e.move);
      }
      ReachableReaders(limit, front, k);
      if Own(e, k) {
        ReachableFlows(limit, front, k);
        ReachableOwned(limit, front, k);
        MoveKeepsReaders(h.sessions[k], h.global, e.move);
      }
    } else {
      StartReaders();
    }
  }

  lemma StartReaders()
    ensures ReadersOk(START)
  {
  }

  // ----- At rest -----------------------------------------------------------------------------

  /** Nothing of the stream is left on the server. */
  ghost predicate Ended(s: Session, j: nat) {
    && j < |s.objs|
    && s.objs[j].reclaim.Reclaimed? && s.objs[j].closed && !s.objs[j].upstream && s.objs[j].queue == [] && !Listed(s, j)
  }

  /** No goroutine is half-way out of the stream. */
  lemma NobodyLeaving(s: Session, slow: set<nat>, j: nat)
    requires StuckBut(s, slow) && j < |s.objs|
    ensures var o := s.objs[j];
            && !o.reader.Ending? && !o.reader.ReaderDropping? && !o.reader.ReaderHanging?
            && !o.pump.Notifying? && !o.pump.PumpHanging? && !o.pump.PumpDropping?
            && !o.opener.OpenerDropping? && !o.opener.OpenerHanging?
  {
    assert !Can(s, Local(j, S.ReaderClose(true))) && !Can(s, Local(j, S.ReaderHangUp));
    assert !Can(s, Local(j, S.PumpNotify(true))) && !Can(s, Local(j, S.PumpHangUp)) && !Can(s, Local(j, S.OpenerHangUp));
    assert !Can(s, DropBy(ByReader(j))) && !Can(s, DropBy(ByPump(j))) && !Can(s, DropBy(ByOpener(j)));
  }

  /** Where no driven move is left, a stream that nobody has is in full service. */
  lemma LooseIsWell(s: Session, slow: set<nat>, j: nat)
    requires ShapeOk(s) && OwnedOk(s) && ReadersOk(s) && CleanersOk(s) && StuckBut(s, slow) && !s.loop.Ended?
    requires j < |s.objs| && Loose(s.objs[j])
    ensures !Sick(s.objs[j])
  {
    hide StuckBut, S.MuOk, S.SizeOk, S.CreditOk, S.WakeOk, S.LedgerOk, TableOk, WireOk, SweepOk;
    assert S.Ok(s.objs[j]);
    NobodyLeaving(s, slow, j);
  }

  lemma HeldIsEnded(s: Session, slow: set<nat>, j: nat)
    requires ShapeOk(s) && StuckBut(s, slow) && !s.loop.Ended? && s.loop.Idle?
    requires j < |s.objs| && !Loose(s.objs[j])
    ensures Ended(s, j)
  {
    hide StuckBut, StuckWithin, WireOk;
    var o := s.objs[j];
    assert S.Ok(o) && S.Unswept(o);
    StuckAtAnyCapacity(s, slow, 0);
    QuietMutex(s, slow, 0, j);
    QuietCloser(s, slow, 0, j);
    hide S.MuOk, S.SizeOk, S.CreditOk, S.WakeOk, S.LedgerOk;
  }

  lemma SickIsEnded(s: Session, slow: set<nat>, cap: nat, j: nat)
    requires ShapeOk(s) && OwnedOk(s) && ReadersOk(s) && CleanersOk(s) && !s.loop.Ended?
    requires cap > 0 && StuckWithin(s, slow, cap) && !Wedged(s, cap) && j < |s.objs| && Sick(s.objs[j])
    ensures Ended(s, j)
  {
    hide OwnedOk, ReadersOk, CleanersOk, StuckBut, StuckWithin, Sick, Loose, TableOk, WireOk, SweepOk, ObjsOk, LoopOk, Wedged,
         Ended;
    SticksShort(s, slow, cap);
    EmptyWires(s, slow, cap);
    if Loose(s.objs[j]) {
      LooseIsWell(s, slow, j);
    } else {
      HeldIsEnded(s, slow, j);
    }
  }

  /** What is known of every session at rest whose client keeps to the protocol. */
  lemma ReachableRest(limit: nat, run: seq<Event>, k: nat)
    requires Legal(Boot(limit), run) && k < |After(Boot(limit), run).sessions|
    requires !After(Boot(limit), run).sessions[k].rogue
    ensures var s := After(Boot(limit), run).sessions[k];
            ShapeOk(s) && FlowOk(s) && OwnedOk(s) && ReadersOk(s) && CleanersOk(s)
  {
    hide Legal, After, ShapeOk, FlowOk, WritersOk, OwnedOk, ReadersOk, RangeOk, HandsOk, CleanersOk;
    ReachableFlows(limit, run, k);
    ReachableOwned(limit, run, k);
    ReachableReaders(limit, run, k);
    ReachableTeardown(limit, run, k);
  }

  // ----- The server's endings ----------------------------------------------------------------

  /** The action ends its stream: the upstream or the wire refuses something, or the upstream ends. */
  predicate Terminal(a: S.Act) {
    a.PumpWriteFail? || (a.PumpCredit? && !a.ok) || (a.ReaderData? && !a.ok) || a.ReaderEnd? || (a.OpenerAnnounce? && !a.ok)
  }

  lemma TerminalSickens(o: S.Obj, a: S.Act)
    requires S.Ok(o) && S.Can(o, a) && Terminal(a)
    ensures Sick(S.Do(o, a))
  {
    hide S.MuOk, S.SizeOk, S.CreditOk, S.WakeOk, S.LedgerOk;
  }

  ghost predicate SickAt(h: Host, k: nat, j: nat) {
    k < |h.sessions| && j < |h.sessions[k].objs| && Sick(h.sessions[k].objs[j])
  }

  lemma {:induction false} StaysSick(h: Host, run: seq<Event>, k: nat, j: nat)
    requires HostOk(h) && Legal(h, run) && SickAt(h, k, j)
    ensures SickAt(After(h, run), k, j)
    decreases |run|
  {
    hide SessionsOk, GlobalExact, GlobalBounded, Can, Do, GlobalDelta, Sick;
    if run != [] {
      EventKeepsOk(h, run[0]);
      if Own(run[0], k) {
        HostObjs(h, k);
        MoveFollows(h.sessions[k], h.global, run[0].move);
      }
      StaysSick(DoHost(h, run[0]), run[1..], k, j);
    }
  }

  lemma HostObjs(h: Host, k: nat)
    requires HostOk(h) && k < |h.sessions|
    ensures ObjsOk(h.sessions[k])
  {
    hide ShapeOk, WritersOk, GlobalExact, GlobalBounded;
    assert SessionOk(h.sessions[k]);
    SessionObjs(h.sessions[k]);
  }

  /**
   What ends a stream on the server ends it for good. In every run of a client that keeps to the protocol, if
   at any point the upstream refused a chunk or ended, or the wire refused the stream's OPEN_OK, DATA or credit:
   once the session is at rest, for any capacity and any slow streams, the stream is closed, reclaimed and out
   of the table, its queue is dropped and its upstream hung up.
   */
  lemma ServerEndingsAreFinal(limit: nat, run: seq<Event>, k: nat, n: nat, slow: set<nat>, cap: nat)
    requires Legal(Boot(limit), run) && k < |After(Boot(limit), run).sessions| && cap > 0
    requires n < |run| && Own(run[n], k) && run[n].move.Local? && Terminal(run[n].move.act)
    requires var s := After(Boot(limit), run).sessions[k];
             !s.rogue && !s.loop.Ended? && StuckWithin(s, slow, cap) && !Wedged(s, cap)
    ensures Ended(After(Boot(limit), run).sessions[k], run[n].move.i)
  {
    hide Legal, After, ShapeOk, FlowOk, OwnedOk, ReadersOk, CleanersOk, StuckWithin, Wedged, Sick, Terminal, HostOk,
         S.Ok, S.Can, S.Do, S.Out, S.SessionDelta, S.GlobalDelta;
    var i, a := run[n].move.i, run[n].move.act;
    Prefix(Boot(limit), run, n);
    var h := After(Boot(limit), run[..n]);
    FirstEvent(h, run[n..]);
    ReachableOk(limit, run[..n]);
    HostObjs(h, k);
    TerminalSickens(h.sessions[k].objs[i], a);
    EventKeepsOk(h, run[n]);
    StaysSick(DoHost(h, run[n]), run[n..][1..], k, i);
    ReachableRest(limit, run, k);
    SickIsEnded(After(Boot(limit), run).sessions[k], slow, cap, i);
  }

  lemma FirstEvent(h: Host, run: seq<Event>)
    requires Legal(h, run) && run != []
    ensures CanHost(h, run[0]) && Legal(DoHost(h, run[0]), run[1..]) && After(h, run) == After(DoHost(h, run[0]), run[1..])
  {
    hide CanHost, DoHost;
  }

  // ----- The client's endings ----------------------------------------------------------------

  /** The client's CLOSE is on the wire, or the read loop is at it, or it has been carried out. */
  ghost predicate CloseOnItsWay(s: Session, id: StreamId) {
    && id in s.home && s.home[id] < |s.objs|
    && (CloseFrame(id) in s.c2s || s.loop == LoopDropping(id) || id !in s.table)
  }

  lemma StaysUnlisted(s: Session, global: int, m: Move, id: StreamId)
    requires FlowOk(s) && Can(s, m) && id in s.home && id !in s.table
    ensures id !in Do(s, global, m).table
  {
    hide HomesOk, FramesOk, ViewsOk, PendingOk, DoLocal, DoDrop, DoOpener, DoLoop, DoAll, DoClient, S.Can;
    match m
    case Local(i, act) => LocalKeepsTable(s, i, act);
    case DropBy(drop) => DropShrinksTable(s, drop);
    case OpenerDoes(opener) => OpenerAddsPending(s, opener, id);
    case LoopDoes(step) => LoopKeepsTable(s, global, step);
    case AllDoes(sweep) => AllShrinksTable(s, sweep);
    case ClientDoes(client) => ClientKeepsObjs(s, client);
    case BeatDoes(_) =>
    case Rogue(_) =>
  }

  lemma DropShrinksTable(s: Session, m: DropMove)
    requires CanDrop(s, m)
    ensures DoDrop(s, m).table.Keys <= s.table.Keys
  {
    hide Dropped;
  }

  lemma AllShrinksTable(s: Session, m: AllMove)
    requires CanAll(s, m)
    ensures DoAll(s, m).table.Keys <= s.table.Keys
  {
  }

  lemma OpenerAddsPending(s: Session, m: OpenerMove, id: StreamId)
    requires PendingOk(s) && CanOpener(s, m) && id in s.home && id !in s.table
    ensures id !in DoOpener(s, m).table
  {
    hide OpenIds;
    if m.DialStore? {
      assert Pending(s)[m.k] == s.dialing[m.k];
    }
  }

  lemma LocalKeepsTable(s: Session, i: nat, act: S.Act)
    requires i < |s.objs| && S.Can(s.objs[i], act)
    ensures DoLocal(s, i, act).table == s.table
  {
    hide S.Can, S.Do, S.Out, S.SessionDelta;
  }

  lemma LoopKeepsTable(s: Session, global: int, m: LoopMove)
    requires CanLoop(s, m)
    ensures DoLoop(s, global, m).table.Keys <= s.table.Keys
  {
    hide DoRecv, S.Push, S.PushDone;
  }

  /** The read loop obeys: it takes the CLOSE off the wire, and the entry out of the table. */
  lemma LoopObeys(s: Session, global: int, m: LoopMove, id: StreamId)
    requires TableOk(s) && CanLoop(s, m)
    ensures var s' := DoLoop(s, global, m);
            && (CloseFrame(id) in s.c2s ==> CloseFrame(id) in s'.c2s || s'.loop == LoopDropping(id))
            && (s.loop == LoopDropping(id) ==> s'.loop == LoopDropping(id) || id !in s'.table)
  {
    hide LoadAndDelete, S.Push, S.PushDone, TableOk;
    if m.LoopRecv? {
      if CloseFrame(id) in s.c2s {
        assert s.c2s[0] == CloseFrame(id) || CloseFrame(id) in s.c2s[1..];
      }
    } else if m.LoopDrop? {
      DeletedFromTable(s, s.loop.id);
      LoadKeepsWires(s, s.loop.id);
    }
  }

  lemma CloseGoesOn(s: Session, global: int, m: Move, id: StreamId)
    requires ShapeOk(s) && FlowOk(s) && Can(s, m) && CloseOnItsWay(s, id)
    ensures CloseOnItsWay(Do(s, global, m), id)
  {
    hide FlowOk, ObjsOk, LoopOk, WireOk, SweepOk, DoLocal, DoDrop, DoOpener, DoLoop, DoAll, DoClient, DoBeat, ObjsFollow, Takes,
         Says, Requests, TableOk;
    var s' := Do(s, global, m);
    HomeStays(s, global, m, id);
    MoveFollows(s, global, m);
    assert |s.objs| <= |s'.objs| by { ObjsGrow(s, s'); }
    if id !in s.table {
      StaysUnlisted(s, global, m, id);
    }
    if m.LoopDoes? {
      LoopObeys(s, global, m.step, id);
    } else {
      MoveIsOrderly(s, global, m);
      Nothing(s'.c2s);
      assert s'.loop == s.loop;
    }
  }

  lemma ObjsGrow(s: Session, s': Session)
    requires ObjsFollow(s, s')
    ensures |s.objs| <= |s'.objs|
  {
    hide Follows;
  }

  /** A client only closes a stream that the server has stored and announced. */
  lemma CloseSetsOut(s: Session, global: int, id: StreamId)
    requires FlowOk(s) && Can(s, ClientDoes(ClientClose(id)))
    ensures CloseOnItsWay(Do(s, global, ClientDoes(ClientClose(id))), id)
  {
    hide HomesOk, PendingOk, FramesOk, UpBytes, Credits, Oks;
    assert ViewOk(ViewOf(s, id));
  }

  lemma {:induction false} ReachableClose(limit: nat, run: seq<Event>, k: nat, n: nat, id: StreamId)
    requires Legal(Boot(limit), run) && k < |After(Boot(limit), run).sessions|
    requires !After(Boot(limit), run).sessions[k].rogue
    requires n < |run| && run[n] == Step(k, ClientDoes(ClientClose(id)))
    ensures CloseOnItsWay(After(Boot(limit), run).sessions[k], id)
    decreases |run|
  {
    hide Legal, After, Can, Do, ShapeOk, FlowOk, WritersOk, CloseOnItsWay, START, Boot;
    SessionBefore(limit, run, k);
    var front, e := run[..|run| - 1], run[|run| - 1];
    var h := After(Boot(limit), front);
    if n == |run| - 1 {
      OwnExists(limit, run, k);
      NotRogueBefore(h.sessions[k], h.global, e.move);
      ReachableFlows(limit, front, k);
      CloseSetsOut(h.sessions[k], h.global, id);
    } else {
      assert front[n] == run[n];
      StepExists(limit, front, k, n);
      if Own(e, k) {
        NotRogueBefore(h.sessions[k], h.global, e.move);
      }
      ReachableClose(limit, front, k, n, id);
      if Own(e, k) {
        ReachableFlows(limit, front, k);
        CloseGoesOn(h.sessions[k], h.global, e.move, id);
      }
    }
  }

  lemma NotRogueBefore(s: Session, global: int, m: Move)
    requires Can(s, m) && !Do(s, global, m).rogue
    ensures !s.rogue
  {
    hide Do, Can;
    if s.rogue {
      RogueStays(s, global, m);
    }
  }

  lemma OwnExists(limit: nat, run: seq<Event>, k: nat)
    requires Legal(Boot(limit), run) && run != [] && Own(run[|run| - 1], k)
    ensures var front := run[..|run| - 1];
            Legal(Boot(limit), front) && k < |After(Boot(limit), front).sessions|
  {
    hide Can, Do, GlobalDelta, Boot;
    LastEvent(limit, run);
  }

  /** A session that has taken a step exists from then on. */
  lemma StepExists(limit: nat, run: seq<Event>, k: nat, n: nat)
    requires Legal(Boot(limit), run) && n < |run| && Own(run[n], k)
    ensures k < |After(Boot(limit), run).sessions|
  {
    hide CanHost, DoHost, Boot;
    Prefix(Boot(limit), run, n);
    assert run[n..][0] == run[n];
    StepNeedsSession(After(Boot(limit), run[..n]), run[n..], k);
    SessionsStay(After(Boot(limit), run[..n]), run[n..]);
  }

  lemma StepNeedsSession(h: Host, run: seq<Event>, k: nat)
    requires Legal(h, run) && run != [] && Own(run[0], k)
    ensures k < |h.sessions|
  {
    hide Can, Do, GlobalDelta;
  }

  /**
   The client's CLOSE is obeyed. In every run of a client that keeps to the protocol, once its user has closed
   a stream and the session is at rest, for any capacity and any slow streams, the stream is closed, reclaimed
   and out of the table, its queue is dropped and its upstream hung up.
   */
  lemma ClientCloseIsObeyed(limit: nat, run: seq<Event>, k: nat, n: nat, id: StreamId, slow: set<nat>, cap: nat)
    requires Legal(Boot(limit), run) && k < |After(Boot(limit), run).sessions| && cap > 0
    requires n < |run| && run[n] == Step(k, ClientDoes(ClientClose(id)))
    requires var s := After(Boot(limit), run).sessions[k];
             !s.rogue && !s.loop.Ended? && StuckWithin(s, slow, cap) && !Wedged(s, cap)
    ensures var s := After(Boot(limit), run).sessions[k];
            id in s.home && Ended(s, s.home[id]) && s.objs[s.home[id]].id == id && id !in s.table
  {
    hide Legal, After, ShapeOk, FlowOk, OwnedOk, ReadersOk, CleanersOk, StuckWithin, Wedged, CloseOnItsWay;
    ReachableRest(limit, run, k);
    ReachableClose(limit, run, k, n, id);
    ClosedAtRest(After(Boot(limit), run).sessions[k], id, slow, cap);
  }

  lemma ClosedAtRest(s: Session, id: StreamId, slow: set<nat>, cap: nat)
    requires ShapeOk(s) && FlowOk(s) && OwnedOk(s) && CloseOnItsWay(s, id)
    requires cap > 0 && !s.loop.Ended? && StuckWithin(s, slow, cap) && !Wedged(s, cap)
    ensures id in s.home && Ended(s, s.home[id]) && s.objs[s.home[id]].id == id && id !in s.table
  {
    hide FlowOk, StuckBut, StuckWithin, Loose, Left, TableOk, WireOk, SweepOk, ObjsOk, Wedged, Ended;
    SticksShort(s, slow, cap);
    EmptyWires(s, slow, cap);
    OwnHomeId(s, id);
    HeldIsEnded(s, slow, s.home[id]);
  }

  lemma OwnHomeId(s: Session, id: StreamId)
    requires FlowOk(s) && id in s.home
    ensures s.home[id] < |s.objs| && s.objs[s.home[id]].id == id
  {
    hide PendingOk, FramesOk, ViewsOk;
  }
}
