/**
 Teardown: closeAll racing with handleOpen, closeStream, pumps and readers. Every entry of the table is
 accounted for until the table is empty, and no wakeup is lost.
 */
module Teardown {
  import opened Limits
  import opened Session
  import opened Shape
  import opened Budget
  import opened Host
  import opened Flow
  import opened Upload
  import S = StreamObject

  /** handleOpen has stored the object and will, or already did, see that the session is closed. */
  predicate Cleans(o: S.Obj) {
    o.opener.Stored? || o.opener.Cleaning?
  }

  /** closeAll has this entry still to visit, or is at it. */
  predicate Awaits(a: All, id: StreamId, i: nat) {
    match a
    case Ranging(must) => id in must && must[id] == i
    case Visiting(must, at) => (id in must && must[id] == i) || at == i
    case Deleting(must, at) => (id in must && must[id] == i) || at == i
    case _ => false
  }

  /** From the start of Range on, every entry is awaited by closeAll or will be removed by its handleOpen. */
  ghost predicate RangeOk(s: Session) {
    && (s.all.Ranging? || s.all.Visiting? || s.all.Deleting? || s.all.Finished? ==>
          forall id <- s.table.Keys ::
            s.table[id] < |s.objs| && (Cleans(s.objs[s.table[id]]) || Awaits(s.all, id, s.table[id])))
    && (s.all.Deleting? ==> s.all.i < |s.objs| && s.objs[s.all.i].closed)
  }

  /** closeAll will not meet the id it is at again. */
  ghost predicate HandsOk(s: Session) {
    s.all.Visiting? || s.all.Deleting? ==> s.all.i < |s.objs| && s.objs[s.all.i].id !in s.all.must
  }

  /** A handleOpen call that cleans up has seen a closed session. */
  ghost predicate CleanersOk(s: Session) {
    forall i: nat | i < |s.objs| && s.objs[i].opener.Cleaning? :: s.closed
  }

  ghost predicate TeardownOk(s: Session) {
    RangeOk(s) && HandsOk(s) && CleanersOk(s)
  }

  // ----- One object --------------------------------------------------------------------------

  /** What a step of one object may do, as far as teardown is concerned. */
  predicate Tame(o: S.Obj, o': S.Obj) {
    && o'.id == o.id
    && (o.closed ==> o'.closed)
    && (o'.opener.Cleaning? ==> o.opener.Cleaning?)
  }

  lemma LocalTame(o: S.Obj, a: S.Act)
    requires S.Ok(o) && S.Can(o, a)
    ensures Tame(o, S.Do(o, a)) && (Cleans(o) ==> Cleans(S.Do(o, a)))
  {
  }

  lemma SetObjKeeps(s: Session, i: nat, o: S.Obj)
    requires TeardownOk(s) && i < |s.objs| && Tame(s.objs[i], o)
    requires Cleans(s.objs[i]) ==> Cleans(o)
    ensures TeardownOk(SetObj(s, i, o))
  {
  }

  predicate SameLists(s: Session, s': Session) {
    s'.objs == s.objs && s'.table == s.table && s'.all == s.all && s'.closed == s.closed
  }

  lemma SameListsFrame(s: Session, s': Session)
    requires TeardownOk(s) && SameLists(s, s')
    ensures TeardownOk(s')
  {
    hide Cleans, Awaits;
  }

  lemma LocalKeeps(s: Session, i: nat, act: S.Act)
    requires TeardownOk(s) && i < |s.objs| && S.Ok(s.objs[i]) && S.Can(s.objs[i], act)
    ensures TeardownOk(DoLocal(s, i, act))
  {
    hide S.Ok, S.Can, S.Do, S.Out, S.SessionDelta, TeardownOk, Tame, Cleans;
    LocalTame(s.objs[i], act);
    SetObjKeeps(s, i, S.Do(s.objs[i], act));
    SameListsFrame(SetObj(s, i, S.Do(s.objs[i], act)), DoLocal(s, i, act));
  }

  /** An entry is removed together with a step of one object. */
  lemma UnlistKeeps(s: Session, i: nat, o: S.Obj, id: StreamId)
    requires TeardownOk(s) && TableOk(s) && i < |s.objs| && Tame(s.objs[i], o) && o.id == id
    ensures TeardownOk(Unlist(SetObj(s, i, o), id))
  {
  }

  lemma LoadAndDeleteKeeps(s: Session, id: StreamId)
    requires TeardownOk(s) && TableOk(s)
    ensures TeardownOk(LoadAndDelete(s, id))
  {
    hide RangeOk, HandsOk, CleanersOk;
    if id in s.table {
      UnlistKeeps(s, s.table[id], S.Loaded(s.objs[s.table[id]]), id);
    }
  }

  lemma DropKeeps(s: Session, m: DropMove)
    requires TeardownOk(s) && TableOk(s) && CanDrop(s, m)
    ensures TeardownOk(DoDrop(s, m))
  {
    hide LoadAndDelete, RangeOk, HandsOk, CleanersOk;
    var o := s.objs[m.i];
    var o' := Dropped(o, m);
    SetObjKeeps(s, m.i, o');
    assert TableOk(SetObj(s, m.i, o'));
    LoadAndDeleteKeeps(SetObj(s, m.i, o'), o.id);
  }

  lemma StoreKeeps(s: Session, id: StreamId)
    requires TeardownOk(s) && TableOk(s) && id !in s.table
    ensures TeardownOk(Store(s, id))
  {
  }

  lemma OpenerKeeps(s: Session, m: OpenerMove)
    requires TeardownOk(s) && TableOk(s) && CanOpener(s, m)
    requires s.closed <==> !s.all.NotBegun?
    ensures TeardownOk(DoOpener(s, m))
  {
    hide TeardownOk, TableOk, Store;
    match m
    case OpenerCheck(i) => CheckKeeps(s, i);
    case OpenerClean(i) => UnlistKeeps(s, i, S.OpenerDrops(s.objs[i]), s.objs[i].id);
    case DialStore(k) =>
      SameListsFrame(s, Dialled(s, k));
      if s.dialing[k] in s.table {
        SameListsFrame(s, DoOpener(s, m));
      } else {
        SameTable(s, Dialled(s, k));
        StoreKeeps(Dialled(s, k), s.dialing[k]);
      }
    case _ => SameListsFrame(s, DoOpener(s, m));
  }

  lemma SameTable(s: Session, s': Session)
    requires TableOk(s) && SameLists(s, s')
    ensures TableOk(s')
  {
  }

  /** Once the session's closed flag is set, a handleOpen that looks at it cleans up. */
  lemma CheckKeeps(s: Session, i: nat)
    requires TeardownOk(s) && CanOpener(s, OpenerCheck(i))
    requires s.closed <==> !s.all.NotBegun?
    ensures TeardownOk(DoOpener(s, OpenerCheck(i)))
  {
  }

  lemma LoopKeeps(s: Session, global: int, m: LoopMove)
    requires TeardownOk(s) && TableOk(s) && CanLoop(s, m)
    ensures TeardownOk(DoLoop(s, global, m))
  {
    hide TeardownOk, LoadAndDelete, TableOk;
    if m.LoopLock? && !s.objs[s.loop.i].closed {
      var o := S.Push(s.objs[s.loop.i], s.loop.payload);
      SetObjKeeps(s, s.loop.i, o);
      SameListsFrame(SetObj(s, s.loop.i, o), DoLoop(s, global, m));
    } else if m.LoopBillGlobal? {
      var o := S.PushDone(s.objs[s.loop.i]);
      SetObjKeeps(s, s.loop.i, o);
      SameListsFrame(SetObj(s, s.loop.i, o), DoLoop(s, global, m));
    } else if m.LoopDrop? {
      LoadAndDeleteKeeps(s, s.loop.id);
      SameListsFrame(LoadAndDelete(s, s.loop.id), DoLoop(s, global, m));
    } else {
      SameListsFrame(s, DoLoop(s, global, m));
    }
  }

  lemma AllKeeps(s: Session, m: AllMove)
    requires TeardownOk(s) && TableOk(s) && CanAll(s, m)
    ensures TeardownOk(DoAll(s, m))
  {
    if m.AllDelete? {
      assert s.objs[s.all.i := s.objs[s.all.i]] == s.objs;
      UnlistKeeps(s, s.all.i, s.objs[s.all.i], s.objs[s.all.i].id);
      DeletedKeeps(Unlist(s, s.objs[s.all.i].id));
    }
  }

  lemma DeletedKeeps(s: Session)
    requires TeardownOk(s) && TableOk(s) && s.all.Deleting? && s.all.i < |s.objs| && s.objs[s.all.i].id !in s.table
    ensures TeardownOk(s.(all := Ranging(s.all.must)))
  {
  }

  /** Every move of every actor keeps the teardown invariants, whatever the peer does. */
  lemma DoKeepsTeardown(s: Session, global: int, m: Move)
    requires ShapeOk(s) && TeardownOk(s) && Can(s, m)
    ensures TeardownOk(Do(s, global, m))
  {
    hide TeardownOk, S.Ok, DoLocal, DoDrop, DoOpener, DoLoop, DoAll, DoClient, DoBeat;
    match m
    case Local(i, act) => LocalKeeps(s, i, act);
    case DropBy(drop) => DropKeeps(s, drop);
    case OpenerDoes(opener) => OpenerKeeps(s, opener);
    case LoopDoes(step) => LoopKeeps(s, global, step);
    case AllDoes(sweep) => AllKeeps(s, sweep);
    case ClientDoes(client) => ClientKeeps(s, client);
    case BeatDoes(beat) => BeatKeeps(s, beat);
    case Rogue(frame) => SameListsFrame(s, s.(c2s := s.c2s + [frame], rogue := true));
  }

  lemma BeatKeeps(s: Session, m: BeatMove)
    requires TeardownOk(s) && CanBeat(s, m)
    ensures TeardownOk(DoBeat(s, m)) && SameLists(s, DoBeat(s, m))
  {
    hide TeardownOk;
    SameListsFrame(s, DoBeat(s, m));
  }

  lemma ClientKeeps(s: Session, m: ClientMove)
    requires TeardownOk(s) && CanClient(s, m)
    ensures TeardownOk(DoClient(s, m))
  {
    hide TeardownOk, WindowFits, Act, Sent, Receive;
    SameListsFrame(s, DoClient(s, m));
  }

  // ----- Runs --------------------------------------------------------------------------------

  ghost predicate TeardownsOk(h: Host) {
    forall k: nat | k < |h.sessions| :: TeardownOk(h.sessions[k])
  }

  lemma StartTeardown()
    ensures TeardownOk(START)
  {
  }

  lemma EventKeepsTeardowns(h: Host, e: Event)
    requires SessionsOk(h) && TeardownsOk(h) && CanHost(h, e)
    ensures TeardownsOk(DoHost(h, e))
  {
    hide TeardownOk, Can, Do, ShapeOk, WritersOk, START;
    match e
    case Accept => StartTeardown();
    case Step(k, m) =>
      assert SessionOk(h.sessions[k]);
      DoKeepsTeardown(h.sessions[k], h.global, m);
  }

  lemma {:induction false} RunKeepsTeardowns(h: Host, run: seq<Event>)
    requires HostOk(h) && TeardownsOk(h) && Legal(h, run)
    ensures TeardownsOk(After(h, run))
    decreases |run|
  {
    hide SessionOk, TeardownOk, GlobalExact, GlobalBounded, DoHost, CanHost;
    if run != [] {
      EventKeepsOk(h, run[0]);
      EventKeepsTeardowns(h, run[0]);
      RunKeepsTeardowns(DoHost(h, run[0]), run[1..]);
    }
  }

  lemma ReachableTeardown(limit: nat, run: seq<Event>, k: nat)
    requires Legal(Boot(limit), run) && k < |After(Boot(limit), run).sessions|
    ensures TeardownOk(After(Boot(limit), run).sessions[k])
  {
    hide SessionOk, TeardownOk, GlobalExact, GlobalBounded, DoHost, CanHost;
    BootOk(limit);
    RunKeepsTeardowns(Boot(limit), run);
  }

  /** closeAll is done, every dial and handleOpen has returned, and no closer is half-way. */
  ghost predicate AtRest(s: Session) {
    && s.all.Finished? && s.dialing == []
    && forall i: nat | i < |s.objs| ::
         var o := s.objs[i];
         (o.opener.Launched? || o.opener.Returned?) && !o.grab.Grabbed? && (o.reclaim.Unclaimed? || o.reclaim.Reclaimed?)
  }

  lemma EmptyTable(s: Session)
    requires RangeOk(s) && AtRest(s)
    ensures s.table == map[]
  {
    assert forall id: StreamId :: id !in s.table;
  }

  lemma RestLocal(o: S.Obj)
    requires S.Ok(o) && (o.reclaim.Unclaimed? || o.reclaim.Reclaimed?)
    ensures o.closings <= 1
    ensures o.closed ==> !o.upstream && !o.pump.Parked? && (!o.mu.ByLoop? ==> Net(o) == 0)
    ensures !o.opener.Launched? && !o.mu.ByLoop? ==> Net(o) == o.qbytes && !o.pump.Parked?
    ensures o.opener.Returned? ==> !o.upstream
  {
  }

  /**
   No lost wakeup, although `closed` is set outside the condition's mutex: a pump in Wait that has
   something to do, data or a close, has a waker that is inside its critical section or free to enter it.
   */
  lemma NoLostWakeup(limit: nat, run: seq<Event>, k: nat, i: nat)
    requires Legal(Boot(limit), run) && k < |After(Boot(limit), run).sessions|
    requires i < |After(Boot(limit), run).sessions[k].objs|
    requires var o := After(Boot(limit), run).sessions[k].objs[i]; o.pump.Parked? && (o.queue != [] || o.closed)
    ensures var s := After(Boot(limit), run).sessions[k];
            || CanLoop(s, LoopBillSession) || CanLoop(s, LoopBillGlobal)
            || S.Can(s.objs[i], S.CloserBillSession) || S.Can(s.objs[i], S.CloserClear)
  {
    hide Legal, After, WritersOk, FlowOk, S.Ok, TableOk, WireOk, SweepOk;
    ReachableFlows(limit, run, k);
    var s := After(Boot(limit), run).sessions[k];
    WakerCanMove(s.objs[i]);
  }

  lemma WakerCanMove(o: S.Obj)
    requires S.Ok(o) && o.pump.Parked? && (o.queue != [] || o.closed)
    ensures o.mu.ByLoop? || S.Can(o, S.CloserBillSession) || S.Can(o, S.CloserClear)
  {
  }
}
