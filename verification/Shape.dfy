/**
 Invariants of one session that hold whatever the peer sends: the table, the mutexes and the read
 loop agree, and every stream object is in order.
 */
module Shape {
  import opened Bytes
  import opened Limits
  import opened Session
  import S = StreamObject

  ghost predicate TableOk(s: Session) {
    forall id <- s.table.Keys :: s.table[id] < |s.objs| && s.objs[s.table[id]].id == id
                                 && s.objs[s.table[id]].grab.Untouched?
  }

  ghost predicate ObjsOk(s: Session) {
    forall i: nat | i < |s.objs| :: S.Ok(s.objs[i])
  }

  predicate Serving(l: Loop) {
    l.Looked? || l.SessionFits? || l.Admitted?
  }

  predicate Locked(l: Loop) {
    l.Adding? || l.Added?
  }

  /** The read loop holds the mutex of exactly the stream it is adding to. */
  ghost predicate LoopOk(s: Session) {
    && (Serving(s.loop) ==> s.loop.i < |s.objs| && |s.loop.payload| <= MAX_PAYLOAD)
    && (Locked(s.loop) ==> s.loop.i < |s.objs| && s.objs[s.loop.i].mu.ByLoop? && s.objs[s.loop.i].owed == s.loop.n
                            && s.loop.n <= MAX_PAYLOAD)
    && (forall i: nat | i < |s.objs| && s.objs[i].mu.ByLoop? :: Locked(s.loop) && s.loop.i == i)
    && (s.loop.LoopClosing? ==> s.loop.i < |s.objs| && !s.objs[s.loop.i].grab.Untouched?)
    && (s.all.Visiting? || s.all.Deleting? ==> s.all.i < |s.objs|)
    && (!s.all.NotBegun? ==> s.loop.Ended?)
    && (s.closed <==> !s.all.NotBegun?)
  }

  ghost predicate WireOk(s: Session) {
    forall k: nat | k < |s.c2s| :: FitsFrame(s.c2s[k])
  }

  ghost predicate SweepOk(s: Session) {
    s.all.NotBegun? ==> forall i: nat | i < |s.objs| :: S.Unswept(s.objs[i])
  }

  ghost predicate ShapeOk(s: Session) {
    TableOk(s) && ObjsOk(s) && LoopOk(s) && WireOk(s) && SweepOk(s)
  }

  /** Replacing one object by a steady successor keeps the shape. */
  lemma SetObjKeepsShape(s: Session, i: nat, o: S.Obj)
    requires ShapeOk(s) && i < |s.objs| && S.Ok(o) && S.Steady(s.objs[i], o)
    requires s.all.NotBegun? ==> S.Unswept(o)
    ensures ShapeOk(SetObj(s, i, o))
  {
    hide S.Ok, S.Unswept;
  }

  lemma LocalKeepsShape(s: Session, i: nat, act: S.Act)
    requires ShapeOk(s) && i < |s.objs| && S.Can(s.objs[i], act)
    ensures ShapeOk(DoLocal(s, i, act))
  {
    hide S.Ok, S.Do, S.Can, S.Steady, S.Unswept;
    var o' := S.Do(s.objs[i], act);
    S.DoKeepsOk(s.objs[i], act);
    S.DoIsSteady(s.objs[i], act);
    if s.all.NotBegun? {
      S.DoKeepsUnswept(s.objs[i], act);
    }
    SetObjKeepsShape(s, i, o');
  }

  /** An entry leaves the table and its object is handed to the caller. */
  lemma LoadAndDeleteKeepsShape(s: Session, id: StreamId)
    requires ShapeOk(s)
    ensures ShapeOk(LoadAndDelete(s, id))
  {
    hide S.Ok;
    if id in s.table {
      S.DropsKeepOk(s.objs[s.table[id]]);
    }
  }

  lemma DropKeepsShape(s: Session, m: DropMove)
    requires ShapeOk(s) && CanDrop(s, m)
    ensures ShapeOk(DoDrop(s, m))
  {
    hide S.Ok;
    var o := s.objs[m.i];
    S.DropsKeepOk(o);
    SetObjKeepsShape(s, m.i, Dropped(o, m));
    LoadAndDeleteKeepsShape(SetObj(s, m.i, Dropped(o, m)), o.id);
  }

  /** The parts of the state that the shape speaks of, apart from the wire. */
  predicate SameCore(s: Session, s': Session) {
    s'.objs == s.objs && s'.table == s.table && s'.loop == s.loop && s'.all == s.all && s'.closed == s.closed
  }

  lemma CoreFrame(s: Session, s': Session)
    requires ShapeOk(s) && SameCore(s, s') && WireOk(s')
    ensures ShapeOk(s')
  {
    hide S.Ok;
  }

  /** As CoreFrame, when the read loop moves between states that hold no mutex. */
  lemma LoopFrame(s: Session, s': Session)
    requires ShapeOk(s) && !Locked(s.loop) && SameCore(s, s'.(loop := s.loop)) && WireOk(s')
    requires !Locked(s'.loop) && !s.loop.Ended?
    requires Serving(s'.loop) ==> s'.loop.i < |s'.objs| && |s'.loop.payload| <= MAX_PAYLOAD
    requires s'.loop.LoopClosing? ==> s'.loop.i < |s'.objs| && !s'.objs[s'.loop.i].grab.Untouched?
    ensures ShapeOk(s')
  {
    hide S.Ok;
  }

  lemma RecvKeepsShape(s: Session)
    requires ShapeOk(s) && s.loop.Idle? && s.c2s != []
    ensures ShapeOk(DoRecv(s))
  {
    hide S.Ok;
    assert FitsFrame(s.c2s[0]);
    LoopFrame(s, DoRecv(s));
  }

  lemma StoreKeepsShape(s: Session, id: StreamId)
    requires ShapeOk(s) && id !in s.table
    ensures ShapeOk(Store(s, id))
  {
    S.FreshOk(id);
    hide S.Ok;
  }

  lemma UnlistKeepsShape(s: Session, id: StreamId)
    requires ShapeOk(s)
    ensures ShapeOk(Unlist(s, id))
  {
    hide S.Ok;
  }

  lemma OpenerKeepsShape(s: Session, m: OpenerMove)
    requires ShapeOk(s) && CanOpener(s, m)
    ensures ShapeOk(DoOpener(s, m))
  {
    hide S.Ok;
    match m
    case OpenerCheck(i) =>
      S.DropsKeepOk(s.objs[i]);
      SetObjKeepsShape(s, i, S.OpenerChecks(s.objs[i], s.closed));
    case OpenerClean(i) =>
      S.DropsKeepOk(s.objs[i]);
      SetObjKeepsShape(s, i, S.OpenerDrops(s.objs[i]));
      UnlistKeepsShape(SetObj(s, i, S.OpenerDrops(s.objs[i])), s.objs[i].id);
    case DialStore(k) =>
      CoreFrame(s, Dialled(s, k));
      if s.dialing[k] in s.table {
        CoreFrame(s, DoOpener(s, m));
      } else {
        StoreKeepsShape(Dialled(s, k), s.dialing[k]);
      }
    case _ => CoreFrame(s, DoOpener(s, m));
  }

  lemma LockKeepsShape(s: Session)
    requires ShapeOk(s) && s.loop.Admitted? && s.objs[s.loop.i].mu.Free? && !s.objs[s.loop.i].closed
    ensures ShapeOk(SetObj(s, s.loop.i, S.Push(s.objs[s.loop.i], s.loop.payload)).(loop := Adding(s.loop.i, |s.loop.payload|)))
  {
    hide S.Ok;
    S.PushKeepsOk(s.objs[s.loop.i], s.loop.payload);
  }

  lemma UnlockKeepsShape(s: Session)
    requires ShapeOk(s) && s.loop.Added?
    ensures ShapeOk(SetObj(s, s.loop.i, S.PushDone(s.objs[s.loop.i])).(loop := Idle))
  {
    hide S.Ok;
    S.PushDoneKeepsOk(s.objs[s.loop.i]);
  }

  lemma LoopKeepsShape(s: Session, global: int, m: LoopMove)
    requires ShapeOk(s) && CanLoop(s, m)
    ensures ShapeOk(DoLoop(s, global, m))
  {
    hide S.Ok;
    if m.LoopRecv? {
      RecvKeepsShape(s);
    } else if m.LoopLock? && !s.objs[s.loop.i].closed {
      LockKeepsShape(s);
    } else if m.LoopBillSession? {
    } else if m.LoopBillGlobal? {
      UnlockKeepsShape(s);
    } else if m.LoopDrop? {
      LoadAndDeleteKeepsShape(s, s.loop.id);
      LoopFrame(LoadAndDelete(s, s.loop.id), DoLoop(s, global, m));
    } else {
      LoopFrame(s, DoLoop(s, global, m));
    }
  }

  lemma AllKeepsShape(s: Session, m: AllMove)
    requires ShapeOk(s) && CanAll(s, m)
    ensures ShapeOk(DoAll(s, m))
  {
    hide S.Ok;
    if m.AllSwap? {
      S.SwapKeepsOk(s.objs[s.all.i], true);
      SetObjKeepsShape(s, s.all.i, S.Swap(s.objs[s.all.i], true));
    } else if m.AllDelete? {
      UnlistKeepsShape(s, s.objs[s.all.i].id);
    } else if m.AllLoad? {
      assert s.table[m.id] < |s.objs|;
    }
  }

  lemma NextFits(todo: seq<byte>)
    ensures |Next(todo)| <= MAX_PAYLOAD && Next(todo) <= todo
    ensures todo != [] ==> Next(todo) != []
  {
  }

  predicate WriterOk(c: Client) {
    c.writer.Holding? ==> 0 < |c.writer.chunk| <= MAX_PAYLOAD
  }

  /** Writers hold chunks that fit a frame. */
  ghost predicate WritersOk(s: Session) {
    forall id <- s.clients.Keys :: WriterOk(s.clients[id])
  }

  lemma ClientKeepsShape(s: Session, m: ClientMove)
    requires ShapeOk(s) && WritersOk(s) && CanClient(s, m)
    ensures ShapeOk(DoClient(s, m))
  {
    hide S.Ok;
    var s' := DoClient(s, m);
    assert SameCore(s, s');
    assert WireOk(s') by {
      if m.ClientFrame? {
        assert WriterOk(s.clients[m.id]);
      }
    }
    CoreFrame(s, s');
  }

  lemma ClientKeepsWriters(s: Session, m: ClientMove)
    requires CanClient(s, m) && WritersOk(s)
    ensures WritersOk(DoClient(s, m))
  {
    if m.ClientAcquire? {
      NextFits(s.clients[m.id].todo);
    }
  }

  lemma BeatKeepsShape(s: Session, m: BeatMove)
    requires ShapeOk(s) && CanBeat(s, m)
    ensures ShapeOk(DoBeat(s, m)) && DoBeat(s, m).clients == s.clients
  {
    hide S.Ok;
    CoreFrame(s, DoBeat(s, m));
  }

  lemma RogueKeepsShape(s: Session, frame: Up)
    requires ShapeOk(s) && FitsFrame(frame)
    ensures ShapeOk(s.(c2s := s.c2s + [frame], rogue := true))
  {
    hide S.Ok;
    CoreFrame(s, s.(c2s := s.c2s + [frame], rogue := true));
  }

  lemma DoKeepsShape(s: Session, global: int, m: Move)
    requires ShapeOk(s) && WritersOk(s) && Can(s, m)
    ensures ShapeOk(Do(s, global, m)) && WritersOk(Do(s, global, m))
  {
    hide ShapeOk, DoLocal, DoDrop, DoOpener, DoLoop, DoAll, DoClient, DoBeat;
    match m
    case Local(i, act) => LocalKeepsShape(s, i, act);
    case DropBy(drop) => DropKeepsShape(s, drop);
    case OpenerDoes(opener) => OpenerKeepsShape(s, opener);
    case LoopDoes(step) => LoopKeepsShape(s, global, step);
    case AllDoes(sweep) => AllKeepsShape(s, sweep);
    case ClientDoes(client) =>
      ClientKeepsShape(s, client);
      ClientKeepsWriters(s, client);
    case BeatDoes(beat) => BeatKeepsShape(s, beat);
    case Rogue(frame) => RogueKeepsShape(s, frame);
  }
}
