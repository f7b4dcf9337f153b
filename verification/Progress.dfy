/**
 Every move that does not need a decision from outside (a user, a dial, a failing network, an upstream
 that ends) strictly lowers a measure of its session, so such moves run out; and every other move raises
 it by a bounded amount.
 */
module Progress {
  import opened Bytes
  import opened Limits
  import opened Session
  import opened Shape
  import opened Sums
  import opened StreamView
  import opened Upload
  import S = StreamObject

  // ----- Moves nobody has to decide ----------------------------------------------------------

  predicate DrivenAct(a: S.Act) {
    match a
    case PumpWriteFail(_) => false
    case PumpCredit(ok) => ok
    case PumpNotify(ok) => ok
    case ReaderClose(ok) => ok
    case ReaderData(_, _) => false
    case ReaderEnd => false
    case OpenerAnnounce(ok) => ok
    case _ => true
  }

  /** Scheduling alone makes these happen: no failure, no new request, no input from an upstream. */
  predicate Driven(m: Move) {
    match m
    case Local(_, act) => DrivenAct(act)
    case DropBy(_) => true
    case OpenerDoes(opener) => !opener.DialFail?
    case LoopDoes(step) => !step.LoopEnd? && (step.LoopShed? || step.LoopRefuse? ==> step.ok)
    case AllDoes(_) => false
    case ClientDoes(client) =>
      (client.ClientReturn? || client.ClientRecv? || client.ClientAcquire? || client.ClientRefuse? || client.ClientFrame?)
      && (client.ClientFrame? ==> client.ok)
    case BeatDoes(beat) => beat == ClientPong(true)
    case Rogue(_) => false
  }

  // ----- The measure -------------------------------------------------------------------------

  function PumpWeight(p: S.Pump): nat {
    match p
    case Unstarted => 0
    case Ready(_) => 2
    case Deciding(_) => 1
    case Parked(_) => 0
    case Popped(_, _, _) => 10
    case HalfBilled(_, _, _) => 9
    case Writing(_, _, _) => 8
    case Crediting(_) => 7
    case Notifying => 16
    case PumpHanging => 11
    case PumpDropping => 10
    case Exited => 0
  }

  function ReaderWeight(r: S.Reader): nat {
    match r
    case Unborn => 0
    case Reading => 2
    case Ending => 15
    case ReaderDropping => 10
    case ReaderHanging => 1
    case Gone => 0
  }

  function OpenerWeight(o: S.Opener): nat {
    match o
    case Stored => 20
    case Cleared => 19
    case Launched => 0
    case Cleaning => 12
    case OpenerDropping => 11
    case OpenerHanging => 2
    case Returned => 0
  }

  function CloserWeight(o: S.Obj): nat {
    (if o.grab.Grabbed? then 8 else 0)
    + match o.reclaim {
        case Unclaimed => 0
        case Won(_) => 6
        case SessionBilled(_) => 5
        case Hanging => 1
        case Reclaimed => 0
      }
  }

  function ObjWeight(o: S.Obj): nat {
    9 * |o.queue| + PumpWeight(o.pump) + ReaderWeight(o.reader) + OpenerWeight(o.opener) + CloserWeight(o)
  }

  function LoopWeight(l: Loop): nat {
    match l
    case Idle => 0
    case Looked(_, _) => 17
    case SessionFits(_, _) => 16
    case Admitted(_, _) => 14
    case Adding(_, _) => 4
    case Added(_, _) => 3
    case Shedding(_) => 15
    case Refusing(_) => 5
    case LoopDropping(_) => 10
    case LoopClosing(_) => 1
    case Ended => 0
  }

  function UpWeight(f: Up): nat {
    match f
    case OpenFrame(_) => 40
    case DataFrame(_, _) => 20
    case CloseFrame(_) => 20
    case OtherFrame => 1
  }

  function WireWeight(c2s: seq<Up>): nat {
    if c2s == [] then 0 else UpWeight(c2s[0]) + WireWeight(c2s[1..])
  }

  function ClientWeight(c: Client): nat {
    24 * |c.todo| + (if c.writer.Quiet? then 1 else if c.writer.Holding? then 23 else 0) + (if c.returned then 0 else 1)
  }

  function ClientWeights(clients: map<StreamId, Client>, opens: nat): seq<int> {
    seq(opens, j requires 0 <= j < opens => if NextId(j) in clients then ClientWeight(clients[NextId(j)]) else 0)
  }

  function ObjWeights(objs: seq<S.Obj>): seq<int> {
    seq(|objs|, i requires 0 <= i < |objs| => ObjWeight(objs[i]))
  }

  function Measure(s: Session): int {
    Total(ObjWeights(s.objs)) + LoopWeight(s.loop) + WireWeight(s.c2s) + 4 * |s.s2c| + 30 * |s.dialing| + s.leaving
    + (if s.ponging then 2 else 0) + Total(ClientWeights(s.clients, s.opens))
  }

  lemma MeasureIsNatural(s: Session)
    ensures 0 <= Measure(s)
  {
    hide ObjWeight, ClientWeight, LoopWeight, WireWeight;
    NonNegative(ObjWeights(s.objs));
    NonNegative(ClientWeights(s.clients, s.opens));
  }

  lemma {:induction false} NonNegative(xs: seq<int>)
    requires forall i: nat | i < |xs| :: 0 <= xs[i]
    ensures 0 <= Total(xs)
  {
    if xs != [] {
      NonNegative(xs[..|xs| - 1]);
    }
  }

  // ----- How the measure moves ---------------------------------------------------------------

  lemma {:induction false} WireSnoc(c2s: seq<Up>, f: Up)
    ensures WireWeight(c2s + [f]) == WireWeight(c2s) + UpWeight(f)
  {
    if c2s == [] {
      assert (c2s + [f])[1..] == [];
    } else {
      assert (c2s + [f])[1..] == c2s[1..] + [f];
      WireSnoc(c2s[1..], f);
    }
  }

  lemma SetObjMeasure(s: Session, i: nat, o: S.Obj)
    requires i < |s.objs|
    ensures Measure(SetObj(s, i, o)) == Measure(s) - ObjWeight(s.objs[i]) + ObjWeight(o)
  {
    hide ObjWeight, ClientWeights, LoopWeight, WireWeight;
    TotalUpdate(ObjWeights(s.objs), i, ObjWeight(o));
    assert ObjWeights(s.objs[i := o]) == ObjWeights(s.objs)[i := ObjWeight(o)];
  }

  lemma LocalWeight(o: S.Obj, a: S.Act)
    requires S.Can(o, a) && DrivenAct(a)
    ensures ObjWeight(S.Do(o, a)) + 4 * |S.Out(o, a)| + (if Returns(a) then 1 else 0) < ObjWeight(o)
  {
  }

  lemma LocalMeasure(s: Session, i: nat, act: S.Act)
    requires i < |s.objs| && S.Can(s.objs[i], act) && DrivenAct(act)
    ensures Measure(DoLocal(s, i, act)) < Measure(s)
  {
    hide S.Can, S.Do, S.Out, S.SessionDelta, ObjWeight, ClientWeights, LoopWeight, WireWeight, ObjWeights, DrivenAct;
    LocalWeight(s.objs[i], act);
    SetObjMeasure(s, i, S.Do(s.objs[i], act));
  }

  /** LoadAndDelete hands out at most one object, worth 8. */
  lemma LoadAndDeleteMeasure(s: Session, id: StreamId)
    requires TableOk(s)
    ensures Measure(LoadAndDelete(s, id)) <= Measure(s) + 8
  {
    hide ClientWeights, LoopWeight, WireWeight, ObjWeights;
    if id in s.table {
      SetObjMeasure(s, s.table[id], S.Loaded(s.objs[s.table[id]]));
    }
  }

  lemma DropMeasure(s: Session, m: DropMove)
    requires TableOk(s) && CanDrop(s, m)
    ensures Measure(DoDrop(s, m)) < Measure(s)
  {
    hide Measure, LoadAndDelete;
    var o := s.objs[m.i];
    SetObjMeasure(s, m.i, Dropped(o, m));
    LoadAndDeleteMeasure(SetObj(s, m.i, Dropped(o, m)), o.id);
  }

  lemma StoreMeasure(s: Session, id: StreamId)
    ensures Measure(Store(s, id)) == Measure(s) + 20
  {
    hide ClientWeights, LoopWeight, WireWeight;
    var o := S.Fresh(id);
    TotalSnoc(ObjWeights(s.objs), ObjWeight(o));
    assert ObjWeights(s.objs + [o]) == ObjWeights(s.objs) + [ObjWeight(o)];
  }

  lemma DialledMeasure(s: Session, k: nat)
    requires k < |s.dialing|
    ensures Measure(Dialled(s, k)) == Measure(s) - 30
  {
    hide ClientWeights, LoopWeight, WireWeight, ObjWeights;
  }

  lemma OpenerMeasure(s: Session, m: OpenerMove)
    requires CanOpener(s, m) && !m.DialFail?
    ensures Measure(DoOpener(s, m)) < Measure(s)
  {
    hide ClientWeights, LoopWeight, WireWeight, ObjWeights, Store, Dialled;
    match m
    case OpenerCheck(i) => SetObjMeasure(s, i, S.OpenerChecks(s.objs[i], s.closed));
    case OpenerClean(i) => SetObjMeasure(s, i, S.OpenerDrops(s.objs[i]));
    case DialStore(k) =>
      DialledMeasure(s, k);
      StoreMeasure(Dialled(s, k), s.dialing[k]);
    case OpenerRelease =>
  }

  lemma LockMeasure(s: Session)
    requires CanLoop(s, LoopLock)
    ensures Measure(DoLoop(s, 0, LoopLock)) < Measure(s)
  {
    hide ClientWeights, ObjWeights, WireWeight, ObjWeight, S.Push;
    var o := s.objs[s.loop.i];
    if !o.closed {
      PushWeight(o, s.loop.payload);
      SetObjMeasure(s, s.loop.i, S.Push(o, s.loop.payload));
    }
  }

  lemma PushWeight(o: S.Obj, p: Chunk)
    ensures ObjWeight(S.Push(o, p)) == ObjWeight(o) + 9
    ensures ObjWeight(S.PushDone(o)) <= ObjWeight(o) + 2
  {
  }

  lemma UnlockMeasure(s: Session)
    requires CanLoop(s, LoopBillGlobal)
    ensures Measure(DoLoop(s, 0, LoopBillGlobal)) < Measure(s)
  {
    hide ClientWeights, ObjWeights, WireWeight, ObjWeight, S.PushDone;
    PushWeight(s.objs[s.loop.i], []);
    SetObjMeasure(s, s.loop.i, S.PushDone(s.objs[s.loop.i]));
  }

  lemma RecvMeasure(s: Session)
    requires s.loop.Idle? && s.c2s != []
    ensures Measure(DoRecv(s)) < Measure(s)
  {
    hide ClientWeights, ObjWeights, Dispatch;
    DispatchWeight(s.table, s.c2s[0]);
  }

  lemma DispatchWeight(table: map<StreamId, nat>, f: Up)
    ensures LoopWeight(Dispatch(table, f)) < UpWeight(f)
    ensures f.OpenFrame? ==> Dispatch(table, f).Idle?
  {
  }

  lemma LoopMeasure(s: Session, global: int, m: LoopMove)
    requires TableOk(s) && CanLoop(s, m) && !m.LoopEnd?
    ensures Measure(DoLoop(s, global, m)) < Measure(s)
  {
    hide ClientWeights, ObjWeights, WireWeight, LoadAndDelete, S.Push, S.PushDone, DoRecv;
    if m.LoopRecv? {
      RecvMeasure(s);
    } else if m.LoopLock? {
      LockMeasure(s);
    } else if m.LoopBillGlobal? {
      UnlockMeasure(s);
    } else if m.LoopDrop? {
      LoadAndDeleteMeasure(s, s.loop.id);
    }
  }

  /** Exactly one open gave out an id, so one entry of the sum moves. */
  lemma SetClientMeasure(s: Session, id: StreamId, c: Client)
    requires IdsOk(s) && s.opens <= MAX_OPENS && id in s.clients
    ensures Measure(SetClient(s, id, c)) == Measure(s) - ClientWeight(s.clients[id]) + ClientWeight(c)
  {
    hide ObjWeights, LoopWeight, WireWeight, ClientWeight, NextId;
    var j: nat :| j < s.opens && NextId(j) == id;
    forall k: nat | k < s.opens && k != j
      ensures NextId(k) != id
    {
      IdsAreFresh(j, k);
    }
    var w := ClientWeights(s.clients, s.opens);
    TotalUpdate(w, j, ClientWeight(c));
    assert ClientWeights(s.clients[id := c], s.opens) == w[j := ClientWeight(c)];
  }

  lemma ActWeight(c: Client, m: ClientMove)
    requires CanAct(c, m) && Driven(ClientDoes(m))
    ensures ClientWeight(Act(c, m)) + WireWeight(Sent(c, m)) < ClientWeight(c)
  {
    if m.ClientAcquire? {
      NextFits(c.todo);
    } else if m.ClientFrame? {
      assert WireWeight([DataFrame(m.id, c.writer.chunk)]) == 20;
    }
  }

  lemma ClientMeasure(s: Session, m: ClientMove)
    requires IdsOk(s) && s.opens <= MAX_OPENS && CanClient(s, m) && Driven(ClientDoes(m))
    ensures Measure(DoClient(s, m)) < Measure(s)
  {
    hide ObjWeights, LoopWeight, ClientWeights, Act, WindowFits, IdsOk;
    if m.ClientRecv? {
      var f := s.s2c[0];
      if f.id in s.clients {
        SetClientMeasure(s, f.id, Receive(s.clients[f.id], f));
      }
    } else {
      var c := s.clients[m.id];
      ActWeight(c, m);
      SetClientMeasure(s, m.id, Act(c, m));
      if m.ClientFrame? {
        WireSnoc(s.c2s, DataFrame(m.id, c.writer.chunk));
      } else {
        assert s.c2s + [] == s.c2s;
      }
    }
  }

  lemma BeatMeasure(s: Session, m: BeatMove)
    requires CanBeat(s, m)
    ensures Measure(DoBeat(s, m)) <= Measure(s) + 4
    ensures m.ClientPong? ==> Measure(DoBeat(s, m)) < Measure(s)
  {
    hide ObjWeights, ClientWeights, LoopWeight;
    if m == ClientPong(true) {
      WireSnoc(s.c2s, OtherFrame);
    } else {
      assert s.c2s + [] == s.c2s;
    }
  }

  /** Every driven move lowers the measure. */
  lemma DrivenLowers(s: Session, global: int, m: Move)
    requires TableOk(s) && IdsOk(s) && s.opens <= MAX_OPENS && Can(s, m) && Driven(m)
    ensures Measure(Do(s, global, m)) < Measure(s)
  {
    hide Measure, DoLocal, DoDrop, DoOpener, DoLoop, DoClient, DoBeat, TableOk, IdsOk;
    match m
    case Local(i, act) => LocalMeasure(s, i, act);
    case DropBy(drop) => DropMeasure(s, drop);
    case OpenerDoes(opener) => OpenerMeasure(s, opener);
    case LoopDoes(step) => LoopMeasure(s, global, step);
    case ClientDoes(client) => ClientMeasure(s, client);
    case BeatDoes(beat) => BeatMeasure(s, beat);
  }

  // ----- What the other moves cost -------------------------------------------------------------

  /** An upper bound on what a move that is not driven adds to the measure. */
  function Adds(m: Move): nat {
    match m
    case Local(_, act) => if act.ReaderData? && act.ok then 4 else 13
    case DropBy(_) => 0
    case OpenerDoes(_) => 0
    case LoopDoes(_) => 0
    case AllDoes(_) => 6
    case ClientDoes(client) =>
      if client.ClientOpen? then 42 else if client.ClientWrite? then 24 * |client.data| else 20
    case BeatDoes(_) => 4
    case Rogue(_) => 40
  }

  lemma LocalCosts(o: S.Obj, a: S.Act)
    requires S.Can(o, a)
    ensures ObjWeight(S.Do(o, a)) + 4 * |S.Out(o, a)| + (if Returns(a) then 1 else 0) <= ObjWeight(o) + Adds(Local(0, a))
  {
    if DrivenAct(a) {
      LocalWeight(o, a);
    }
  }

  lemma LocalMeasureAdds(s: Session, i: nat, act: S.Act)
    requires i < |s.objs| && S.Can(s.objs[i], act)
    ensures Measure(DoLocal(s, i, act)) <= Measure(s) + Adds(Local(i, act))
  {
    hide S.Can, S.Do, S.Out, S.SessionDelta, ObjWeight, ClientWeights, LoopWeight, WireWeight, ObjWeights, DrivenAct;
    LocalCosts(s.objs[i], act);
    SetObjMeasure(s, i, S.Do(s.objs[i], act));
  }

  lemma ActCosts(c: Client, m: ClientMove)
    requires CanAct(c, m)
    ensures ClientWeight(Act(c, m)) + WireWeight(Sent(c, m)) <= ClientWeight(c) + Adds(ClientDoes(m))
  {
    if Driven(ClientDoes(m)) {
      ActWeight(c, m);
    } else if m.ClientClose? {
      assert WireWeight([CloseFrame(m.id)]) == 20;
    }
  }

  /** A fresh id's client is a new last entry of the sum. */
  lemma OpenMeasure(s: Session)
    requires IdsOk(s) && s.opens < MAX_OPENS
    ensures Measure(DoClient(s, ClientOpen)) <= Measure(s) + 42
  {
    hide ObjWeights, LoopWeight, WireWeight, ClientWeight, NextId;
    var id := NextId(s.opens);
    var w := ClientWeights(s.clients, s.opens);
    forall k: nat | k < s.opens
      ensures NextId(k) != id
    {
      IdsAreFresh(k, s.opens);
    }
    WireSnoc(s.c2s, OpenFrame(id));
    NewWeight();
    TotalSnoc(w, ClientWeight(NEW_CLIENT));
    assert ClientWeights(s.clients[id := NEW_CLIENT], s.opens + 1) == w + [ClientWeight(NEW_CLIENT)];
  }

  lemma NewWeight()
    ensures ClientWeight(NEW_CLIENT) == 2
  {
  }

  lemma ClientMeasureAdds(s: Session, m: ClientMove)
    requires IdsOk(s) && s.opens <= MAX_OPENS && CanClient(s, m) && (m.ClientOpen? ==> s.opens < MAX_OPENS)
    ensures Measure(DoClient(s, m)) <= Measure(s) + Adds(ClientDoes(m))
  {
    hide ObjWeights, LoopWeight, ClientWeights, Act, WindowFits, IdsOk, NextId;
    if m.ClientOpen? {
      OpenMeasure(s);
    } else if m.ClientRecv? {
      ClientMeasure(s, m);
    } else {
      var c := s.clients[m.id];
      ActCosts(c, m);
      SetClientMeasure(s, m.id, Act(c, m));
      SentWeight(s.c2s, Sent(c, m));
    }
  }

  lemma SentWeight(c2s: seq<Up>, sent: seq<Up>)
    requires |sent| <= 1
    ensures WireWeight(c2s + sent) == WireWeight(c2s) + WireWeight(sent)
  {
    if sent == [] {
      assert c2s + sent == c2s;
    } else {
      WireSnoc(c2s, sent[0]);
      assert sent == [sent[0]] && WireWeight(sent) == UpWeight(sent[0]) + WireWeight([]);
    }
  }

  lemma DialFailMeasure(s: Session, m: OpenerMove)
    requires CanOpener(s, m) && m.DialFail?
    ensures Measure(DoOpener(s, m)) <= Measure(s)
  {
    hide ClientWeights, ObjWeights, WireWeight, LoopWeight;
  }

  lemma LoopMeasureAdds(s: Session, global: int, m: LoopMove)
    requires TableOk(s) && CanLoop(s, m)
    ensures Measure(DoLoop(s, global, m)) <= Measure(s)
  {
    hide ClientWeights, ObjWeights, WireWeight, LoadAndDelete, S.Push, S.PushDone, DoRecv, TableOk;
    if !m.LoopEnd? {
      hide DoLoop;
      LoopMeasure(s, global, m);
    }
  }

  /** A move of the session other than closeAll's and a rogue peer's raises the measure by a bounded amount. */
  lemma OthersAdd(s: Session, global: int, m: Move)
    requires TableOk(s) && IdsOk(s) && s.opens <= MAX_OPENS && Can(s, m) && !Driven(m)
    requires !m.AllDoes? && !m.Rogue? && (m == ClientDoes(ClientOpen) ==> s.opens < MAX_OPENS)
    ensures Measure(Do(s, global, m)) <= Measure(s) + Adds(m)
  {
    hide DoLocal, DoDrop, DoLoop, DoClient, DoBeat, TableOk, IdsOk, Measure;
    match m
    case Local(i, act) => LocalMeasureAdds(s, i, act);
    case OpenerDoes(opener) => DialFailMeasure(s, opener);
    case LoopDoes(step) => LoopMeasureAdds(s, global, step);
    case ClientDoes(client) => ClientMeasureAdds(s, client);
    case BeatDoes(beat) => BeatMeasure(s, beat);
  }
}
