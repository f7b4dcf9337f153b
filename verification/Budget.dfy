/**
 Exact accounting of queued upload bytes: what each stream has put into and taken out of the two
 shared counters, in every interleaving of enqueue, pump, closeStream and closeAll.
 */
module Budget {
  import opened Bytes
  import opened Limits
  import opened Session
  import opened Shape
  import opened Sums
  import S = StreamObject

  /** What a stream has net put into v2GlobalBuffered. */
  function Net(o: S.Obj): int {
    o.billed - o.refunded
  }

  function Nets(objs: seq<S.Obj>): seq<int> {
    seq(|objs|, i requires 0 <= i < |objs| => Net(objs[i]))
  }

  function SessionShares(objs: seq<S.Obj>): seq<int> {
    seq(|objs|, i requires 0 <= i < |objs| => S.SessionShare(objs[i]))
  }

  /** What a session has net put into v2GlobalBuffered. */
  function SessionNet(s: Session): int {
    Total(Nets(s.objs))
  }

  /** Queued by the read loop, not yet added to the session counter. */
  function SessionOwed(l: Loop): int {
    if l.Adding? then l.n else 0
  }

  /** `s.buffered` is exact between any two steps, half-done critical sections included. */
  ghost predicate SessionExact(s: Session) {
    s.buffered == Total(SessionShares(s.objs)) - SessionOwed(s.loop)
  }

  /** What the read loop has been allowed to add by the session half of its test. */
  function SessionClaim(l: Loop): int {
    if l.SessionFits? || l.Admitted? then |l.payload| else if l.Adding? then l.n else 0
  }

  predicate UnderSessionCap(s: Session) {
    s.buffered + SessionClaim(s.loop) <= SESSION_CAP
  }

  ghost predicate BudgetOk(s: Session) {
    SessionExact(s) && UnderSessionCap(s)
  }

  // ----- One object --------------------------------------------------------------------------

  lemma LocalBills(o: S.Obj, a: S.Act)
    requires S.Ok(o) && S.Can(o, a)
    ensures Net(S.Do(o, a)) == Net(o) + S.GlobalDelta(o, a)
    ensures S.SessionShare(S.Do(o, a)) == S.SessionShare(o) + S.SessionDelta(o, a)
    ensures S.SessionDelta(o, a) <= 0 && S.GlobalDelta(o, a) <= 0
  {
  }

  /** A stream's net contribution is what it holds in its queue or in the pump's critical section. */
  lemma NetIsHeld(o: S.Obj)
    requires S.Ok(o)
    ensures Net(o) == S.GlobalShare(o) - o.owed
    ensures 0 <= Net(o) <= S.GlobalShare(o)
  {
  }

  // ----- Sums under the small updates --------------------------------------------------------

  lemma SetObjNet(s: Session, i: nat, o: S.Obj)
    requires i < |s.objs|
    ensures SessionNet(SetObj(s, i, o)) == SessionNet(s) - Net(s.objs[i]) + Net(o)
    ensures Total(SessionShares(SetObj(s, i, o).objs))
            == Total(SessionShares(s.objs)) - S.SessionShare(s.objs[i]) + S.SessionShare(o)
  {
    TotalUpdate(Nets(s.objs), i, Net(o));
    assert Nets(s.objs[i := o]) == Nets(s.objs)[i := Net(o)];
    TotalUpdate(SessionShares(s.objs), i, S.SessionShare(o));
    assert SessionShares(s.objs[i := o]) == SessionShares(s.objs)[i := S.SessionShare(o)];
  }

  /** An object replaced by one with the same shares: no sum moves. */
  lemma SetObjNeutral(s: Session, i: nat, o: S.Obj)
    requires i < |s.objs| && Net(o) == Net(s.objs[i]) && S.SessionShare(o) == S.SessionShare(s.objs[i])
    ensures SessionNet(SetObj(s, i, o)) == SessionNet(s)
    ensures Total(SessionShares(SetObj(s, i, o).objs)) == Total(SessionShares(s.objs))
  {
    SetObjNet(s, i, o);
  }

  lemma StoreNeutral(s: Session, id: StreamId)
    ensures SessionNet(Store(s, id)) == SessionNet(s)
    ensures Total(SessionShares(Store(s, id).objs)) == Total(SessionShares(s.objs))
  {
    var o := S.Fresh(id);
    TotalSnoc(Nets(s.objs), Net(o));
    assert Nets(s.objs + [o]) == Nets(s.objs) + [Net(o)];
    TotalSnoc(SessionShares(s.objs), S.SessionShare(o));
    assert SessionShares(s.objs + [o]) == SessionShares(s.objs) + [S.SessionShare(o)];
  }

  lemma LoadAndDeleteNeutral(s: Session, id: StreamId)
    ensures SessionNet(LoadAndDelete(s, id)) == SessionNet(s)
    ensures Total(SessionShares(LoadAndDelete(s, id).objs)) == Total(SessionShares(s.objs))
    ensures LoadAndDelete(s, id).buffered == s.buffered && LoadAndDelete(s, id).loop == s.loop
  {
    if id in s.table && s.table[id] < |s.objs| {
      SetObjNeutral(s, s.table[id], S.Loaded(s.objs[s.table[id]]));
    }
  }

  // ----- Moves -------------------------------------------------------------------------------

  /** What every move owes the budgets: exact deltas, and the session cap kept. */
  ghost predicate Accounted(s: Session, s': Session, delta: int) {
    BudgetOk(s') && SessionNet(s') == SessionNet(s) + delta
  }

  lemma LocalAccounted(s: Session, i: nat, act: S.Act)
    requires BudgetOk(s) && i < |s.objs| && S.Ok(s.objs[i]) && S.Can(s.objs[i], act)
    ensures Accounted(s, DoLocal(s, i, act), S.GlobalDelta(s.objs[i], act))
  {
    LocalBills(s.objs[i], act);
    SetObjNet(s, i, S.Do(s.objs[i], act));
    hide S.Ok, S.Do, S.Can, S.GlobalDelta, S.SessionDelta, S.SessionShare, Net;
  }

  lemma DropAccounted(s: Session, m: DropMove)
    requires BudgetOk(s) && CanDrop(s, m)
    ensures Accounted(s, DoDrop(s, m), 0)
  {
    SetObjNeutral(s, m.i, Dropped(s.objs[m.i], m));
    LoadAndDeleteNeutral(SetObj(s, m.i, Dropped(s.objs[m.i], m)), s.objs[m.i].id);
  }

  lemma OpenerAccounted(s: Session, m: OpenerMove)
    requires BudgetOk(s) && CanOpener(s, m)
    ensures Accounted(s, DoOpener(s, m), 0)
  {
    match m
    case OpenerCheck(i) => SetObjNeutral(s, i, S.OpenerChecks(s.objs[i], s.closed));
    case OpenerClean(i) => SetObjNeutral(s, i, S.OpenerDrops(s.objs[i]));
    case DialFail(_, _) =>
    case OpenerRelease =>
    case DialStore(k) => StoreNeutral(Dialled(s, k), s.dialing[k]);
  }

  lemma PushNet(o: S.Obj, p: Chunk)
    requires S.Ok(o) && o.mu.Free?
    ensures Net(S.Push(o, p)) == Net(o) && S.SessionShare(S.Push(o, p)) == S.SessionShare(o) + |p|
  {
  }

  lemma PushDoneNet(o: S.Obj)
    ensures Net(S.PushDone(o)) == Net(o) + o.owed && S.SessionShare(S.PushDone(o)) == S.SessionShare(o)
  {
  }

  lemma LockAccounted(s: Session)
    requires BudgetOk(s) && LoopOk(s) && CanLoop(s, LoopLock) && S.Ok(s.objs[s.loop.i]) && !s.objs[s.loop.i].closed
    ensures Accounted(s, DoLoop(s, 0, LoopLock), 0)
  {
    hide S.Ok, S.Push, Net, S.SessionShare;
    PushNet(s.objs[s.loop.i], s.loop.payload);
    SetObjNet(s, s.loop.i, S.Push(s.objs[s.loop.i], s.loop.payload));
    hide Nets, SessionShares, Total;
  }

  lemma UnlockAccounted(s: Session)
    requires BudgetOk(s) && LoopOk(s) && CanLoop(s, LoopBillGlobal)
    ensures Accounted(s, DoLoop(s, 0, LoopBillGlobal), s.loop.n)
  {
    hide S.Ok, S.PushDone, Net, S.SessionShare;
    PushDoneNet(s.objs[s.loop.i]);
    SetObjNet(s, s.loop.i, S.PushDone(s.objs[s.loop.i]));
    hide Nets, SessionShares, Total;
  }

  lemma LoopAccounted(s: Session, global: int, m: LoopMove)
    requires BudgetOk(s) && LoopOk(s) && CanLoop(s, m)
    requires m.LoopLock? ==> S.Ok(s.objs[s.loop.i])
    ensures Accounted(s, DoLoop(s, global, m), if m.LoopBillGlobal? then s.loop.n else 0)
  {
    hide S.Ok, S.Push, S.PushDone, Nets, SessionShares, Total, LoadAndDelete;
    if m.LoopLock? && !s.objs[s.loop.i].closed {
      LockAccounted(s);
    } else if m.LoopBillGlobal? {
      UnlockAccounted(s);
    } else if m.LoopDrop? {
      LoadAndDeleteNeutral(s, s.loop.id);
    }
  }

  lemma AllAccounted(s: Session, m: AllMove)
    requires BudgetOk(s) && CanAll(s, m)
    requires m.AllSwap? ==> S.Ok(s.objs[s.all.i])
    ensures Accounted(s, DoAll(s, m), 0)
  {
    if m.AllSwap? {
      SetObjNeutral(s, s.all.i, S.Swap(s.objs[s.all.i], true));
    }
  }

  lemma ClientAccounted(s: Session, m: ClientMove)
    requires BudgetOk(s) && CanClient(s, m)
    ensures Accounted(s, DoClient(s, m), 0)
  {
  }

  lemma BeatAccounted(s: Session, m: BeatMove)
    requires BudgetOk(s) && CanBeat(s, m)
    ensures Accounted(s, DoBeat(s, m), 0)
  {
  }

  /** Every move of every actor keeps both counters exact and the session under its cap. */
  lemma DoAccounted(s: Session, global: int, m: Move)
    requires ShapeOk(s) && BudgetOk(s) && Can(s, m)
    ensures Accounted(s, Do(s, global, m), GlobalDelta(s, m))
  {
    assert forall i: nat | i < |s.objs| :: S.Ok(s.objs[i]);
    hide S.Ok, BudgetOk, DoLocal, DoDrop, DoOpener, DoLoop, DoAll, DoClient, DoBeat;
    match m
    case Local(i, act) => LocalAccounted(s, i, act);
    case DropBy(drop) => DropAccounted(s, drop);
    case OpenerDoes(opener) => OpenerAccounted(s, opener);
    case LoopDoes(step) => LoopAccounted(s, global, step);
    case AllDoes(sweep) => AllAccounted(s, sweep);
    case ClientDoes(client) => ClientAccounted(s, client);
    case BeatDoes(beat) => BeatAccounted(s, beat);
    case Rogue(frame) => RogueAccounted(s, frame);
  }

  lemma RogueAccounted(s: Session, frame: Up)
    requires BudgetOk(s)
    ensures Accounted(s, s.(c2s := s.c2s + [frame], rogue := true), 0)
  {
  }
}
