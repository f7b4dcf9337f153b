/**
 The semaphore that bounds the handleOpen calls in flight: its taken places are exactly those calls and
 the ones that have returned and not yet given their place back, and there are never more than 64.
 */
module Semaphore {
  import opened Bytes
  import opened Limits
  import opened Session
  import opened Sums
  import opened Host
  import S = StreamObject

  /** The handleOpen call that made the object has not returned. */
  function Opening(o: S.Obj): int {
    if o.opener.Launched? || o.opener.Returned? then 0 else 1
  }

  function Openings(objs: seq<S.Obj>): seq<int> {
    seq(|objs|, i requires 0 <= i < |objs| => Opening(objs[i]))
  }

  /** handleOpen calls that dial, and those that have stored their object. */
  function InFlight(s: Session): int {
    |s.dialing| + Total(Openings(s.objs))
  }

  predicate PlacesOk(s: Session) {
    s.slots == s.leaving + InFlight(s) && s.slots <= MAX_CONCURRENT_OPENS
  }

  lemma SetObjOpenings(s: Session, i: nat, o: S.Obj)
    requires i < |s.objs|
    ensures InFlight(SetObj(s, i, o)) == InFlight(s) - Opening(s.objs[i]) + Opening(o)
  {
    hide Opening;
    TotalUpdate(Openings(s.objs), i, Opening(o));
    assert Openings(s.objs[i := o]) == Openings(s.objs)[i := Opening(o)];
  }

  lemma LocalOpening(o: S.Obj, a: S.Act)
    requires S.Can(o, a)
    ensures Opening(S.Do(o, a)) == Opening(o) - if Returns(a) then 1 else 0
  {
  }

  lemma LocalKeepsPlaces(s: Session, i: nat, act: S.Act)
    requires PlacesOk(s) && i < |s.objs| && S.Can(s.objs[i], act)
    ensures PlacesOk(DoLocal(s, i, act))
  {
    hide S.Can, S.Do, S.Out, S.SessionDelta, Opening, Openings, Returns;
    LocalOpening(s.objs[i], act);
    SetObjOpenings(s, i, S.Do(s.objs[i], act));
  }

  lemma LoadKeepsPlaces(s: Session, id: StreamId)
    requires PlacesOk(s)
    ensures PlacesOk(LoadAndDelete(s, id))
  {
    hide Openings;
    if id in s.table && s.table[id] < |s.objs| {
      SetObjOpenings(s, s.table[id], S.Loaded(s.objs[s.table[id]]));
    }
  }

  lemma DropKeepsPlaces(s: Session, m: DropMove)
    requires PlacesOk(s) && CanDrop(s, m)
    ensures PlacesOk(DoDrop(s, m))
  {
    hide Openings, LoadAndDelete;
    var o := s.objs[m.i];
    SetObjOpenings(s, m.i, Dropped(o, m));
    LoadKeepsPlaces(SetObj(s, m.i, Dropped(o, m)), o.id);
  }

  lemma StoreOpening(s: Session, id: StreamId)
    ensures InFlight(Store(s, id)) == InFlight(s) + 1
  {
    TotalSnoc(Openings(s.objs), 1);
    assert Openings(s.objs + [S.Fresh(id)]) == Openings(s.objs) + [1];
  }

  lemma OpenerKeepsPlaces(s: Session, m: OpenerMove)
    requires PlacesOk(s) && CanOpener(s, m)
    ensures PlacesOk(DoOpener(s, m))
  {
    hide Openings, Store;
    match m
    case OpenerCheck(i) => SetObjOpenings(s, i, S.OpenerChecks(s.objs[i], s.closed));
    case OpenerClean(i) => SetObjOpenings(s, i, S.OpenerDrops(s.objs[i]));
    case DialFail(_, _) =>
    case DialStore(k) =>
      StoreOpening(Dialled(s, k), s.dialing[k]);
      StoreKeepsPlaces(Dialled(s, k), s.dialing[k]);
    case OpenerRelease =>
  }

  lemma StoreKeepsPlaces(s: Session, id: StreamId)
    ensures Store(s, id).slots == s.slots && Store(s, id).leaving == s.leaving
  {
  }

  lemma RecvKeepsPlaces(s: Session)
    requires PlacesOk(s) && s.loop.Idle? && s.c2s != []
    ensures PlacesOk(DoRecv(s))
  {
    hide Dispatch, Openings;
  }

  lemma PushOpening(o: S.Obj, p: Chunk)
    ensures Opening(S.Push(o, p)) == Opening(o) && Opening(S.PushDone(o)) == Opening(o)
  {
  }

  lemma LoopKeepsPlaces(s: Session, global: int, m: LoopMove)
    requires PlacesOk(s) && CanLoop(s, m)
    ensures PlacesOk(DoLoop(s, global, m))
  {
    hide Openings, Opening, LoadAndDelete, DoRecv, S.Push, S.PushDone;
    if m.LoopRecv? {
      RecvKeepsPlaces(s);
    } else if m.LoopLock? && !s.objs[s.loop.i].closed {
      PushOpening(s.objs[s.loop.i], s.loop.payload);
      SetObjOpenings(s, s.loop.i, S.Push(s.objs[s.loop.i], s.loop.payload));
    } else if m.LoopBillGlobal? {
      PushOpening(s.objs[s.loop.i], []);
      SetObjOpenings(s, s.loop.i, S.PushDone(s.objs[s.loop.i]));
    } else if m.LoopDrop? {
      LoadKeepsPlaces(s, s.loop.id);
    }
  }

  lemma AllKeepsPlaces(s: Session, m: AllMove)
    requires PlacesOk(s) && CanAll(s, m)
    ensures PlacesOk(DoAll(s, m))
  {
    hide Openings;
    if m.AllSwap? {
      SetObjOpenings(s, s.all.i, S.Swap(s.objs[s.all.i], true));
    }
  }

  lemma ClientKeepsPlaces(s: Session, m: ClientMove)
    requires PlacesOk(s) && CanClient(s, m)
    ensures PlacesOk(DoClient(s, m))
  {
    hide Openings, WindowFits, Act, Sent, Receive;
  }

  /** Every move of every actor keeps the places of the semaphore exact. */
  lemma DoKeepsPlaces(s: Session, global: int, m: Move)
    requires PlacesOk(s) && Can(s, m)
    ensures PlacesOk(Do(s, global, m))
  {
    hide PlacesOk, DoLocal, DoDrop, DoOpener, DoLoop, DoAll, DoClient;
    match m
    case Local(i, act) => LocalKeepsPlaces(s, i, act);
    case DropBy(drop) => DropKeepsPlaces(s, drop);
    case OpenerDoes(opener) => OpenerKeepsPlaces(s, opener);
    case LoopDoes(step) => LoopKeepsPlaces(s, global, step);
    case AllDoes(sweep) => AllKeepsPlaces(s, sweep);
    case ClientDoes(client) => ClientKeepsPlaces(s, client);
    case BeatDoes(_) => SamePlaces(s, Do(s, global, m));
    case Rogue(_) => SamePlaces(s, Do(s, global, m));
  }

  lemma SamePlaces(s: Session, s': Session)
    requires PlacesOk(s) && s'.objs == s.objs && s'.dialing == s.dialing && s'.slots == s.slots && s'.leaving == s.leaving
    ensures PlacesOk(s')
  {
  }

  predicate AllPlacesOk(h: Host) {
    forall k: nat | k < |h.sessions| :: PlacesOk(h.sessions[k])
  }

  lemma StartPlaces()
    ensures PlacesOk(START)
  {
    assert Openings([]) == [];
  }

  lemma {:induction false} RunKeepsPlaces(h: Host, run: seq<Event>)
    requires AllPlacesOk(h) && Legal(h, run)
    ensures AllPlacesOk(After(h, run))
    decreases |run|
  {
    hide PlacesOk, Can, Do, START, GlobalDelta;
    if run != [] {
      match run[0] {
        case Accept => StartPlaces();
        case Step(k, m) => DoKeepsPlaces(h.sessions[k], h.global, m);
      }
      RunKeepsPlaces(DoHost(h, run[0]), run[1..]);
    }
  }

  /**
   The cap on concurrent dials is exact. In every run and for any peer, a session has at most 64 handleOpen
   calls in flight, each taken place of the semaphore is one of them or of a call that is about to give it
   back, and an OPEN is refused only while all 64 are taken.
   */
  lemma OpensAreBounded(limit: nat, run: seq<Event>, k: nat)
    requires Legal(Boot(limit), run) && k < |After(Boot(limit), run).sessions|
    ensures var s := After(Boot(limit), run).sessions[k];
            && 0 <= InFlight(s) <= 64 && s.slots == s.leaving + InFlight(s)
            && (s.loop.Idle? && s.c2s != [] && s.c2s[0].OpenFrame? ==>
                  (DoRecv(s).loop.Refusing? <==> s.leaving + InFlight(s) == 64)
                  && (!DoRecv(s).loop.Refusing? ==> InFlight(DoRecv(s)) == InFlight(s) + 1))
  {
    hide Legal, After, Openings;
    RunKeepsPlaces(Boot(limit), run);
    var s := After(Boot(limit), run).sessions[k];
    assert PlacesOk(s);
    OpeningsNatural(s.objs);
  }

  lemma {:induction false} OpeningsNatural(objs: seq<S.Obj>)
    ensures 0 <= Total(Openings(objs))
  {
    if objs != [] {
      var front := objs[..|objs| - 1];
      OpeningsNatural(front);
      assert Openings(objs)[..|objs| - 1] == Openings(front);
    }
  }
}
