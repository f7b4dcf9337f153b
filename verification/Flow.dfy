/**
 Flow control in a whole session: every stream's view keeps its invariant under every move of every
 actor, as long as the client sends only what the client code sends.
 */
module Flow {
  import opened Bytes
  import opened Limits
  import opened Session
  import opened Shape
  import opened StreamView
  import S = StreamObject

  // ----- One stream's share of the wires -----------------------------------------------------

  function BytesOf(f: Up, id: StreamId): seq<byte> {
    if f.DataFrame? && f.id == id then f.payload else []
  }

  function UpBytes(c2s: seq<Up>, id: StreamId): seq<byte> {
    if c2s == [] then [] else BytesOf(c2s[0], id) + UpBytes(c2s[1..], id)
  }

  function OpenId(f: Up): seq<StreamId> {
    if f.OpenFrame? then [f.id] else []
  }

  function OpenIds(c2s: seq<Up>): seq<StreamId> {
    if c2s == [] then [] else OpenId(c2s[0]) + OpenIds(c2s[1..])
  }

  function Credits(s2c: seq<S.Down>, id: StreamId): nat {
    if s2c == [] then 0 else (if s2c[0].id == id then CreditOf([s2c[0]]) else 0) + Credits(s2c[1..], id)
  }

  function Oks(s2c: seq<S.Down>, id: StreamId): nat {
    if s2c == [] then 0 else (if s2c[0].id == id then OksOf([s2c[0]]) else 0) + Oks(s2c[1..], id)
  }

  lemma {:induction false} UpBytesSnoc(c2s: seq<Up>, f: Up, id: StreamId)
    ensures UpBytes(c2s + [f], id) == UpBytes(c2s, id) + BytesOf(f, id)
  {
    hide BytesOf;
    if c2s == [] {
      assert (c2s + [f])[1..] == [];
      assert UpBytes([], id) == [];
    } else {
      var rest := UpBytes(c2s[1..], id);
      assert (c2s + [f])[1..] == c2s[1..] + [f];
      UpBytesSnoc(c2s[1..], f, id);
      assert BytesOf(c2s[0], id) + (rest + BytesOf(f, id)) == (BytesOf(c2s[0], id) + rest) + BytesOf(f, id);
    }
  }

  lemma {:induction false} OpenIdsSnoc(c2s: seq<Up>, f: Up)
    ensures OpenIds(c2s + [f]) == OpenIds(c2s) + OpenId(f)
  {
    hide OpenId;
    if c2s == [] {
      assert (c2s + [f])[1..] == [];
      assert OpenIds([]) == [];
    } else {
      var rest := OpenIds(c2s[1..]);
      assert (c2s + [f])[1..] == c2s[1..] + [f];
      OpenIdsSnoc(c2s[1..], f);
      assert OpenId(c2s[0]) + (rest + OpenId(f)) == (OpenId(c2s[0]) + rest) + OpenId(f);
    }
  }

  lemma UpSnoc(c2s: seq<Up>, f: Up, id: StreamId)
    ensures UpBytes(c2s + [f], id) == UpBytes(c2s, id) + BytesOf(f, id)
    ensures OpenIds(c2s + [f]) == OpenIds(c2s) + (if f.OpenFrame? then [f.id] else [])
  {
    hide UpBytes, OpenIds;
    UpBytesSnoc(c2s, f, id);
    OpenIdsSnoc(c2s, f);
  }

  lemma {:induction false} DownSnoc(s2c: seq<S.Down>, f: S.Down, id: StreamId)
    ensures Credits(s2c + [f], id) == Credits(s2c, id) + if f.id == id then CreditOf([f]) else 0
    ensures Oks(s2c + [f], id) == Oks(s2c, id) + if f.id == id then OksOf([f]) else 0
  {
    if s2c == [] {
      assert (s2c + [f])[1..] == [];
    } else {
      assert (s2c + [f])[1..] == s2c[1..] + [f];
      DownSnoc(s2c[1..], f, id);
    }
  }

  lemma DownEmit(s2c: seq<S.Down>, out: seq<S.Down>, id: StreamId)
    requires |out| <= 1
    ensures Credits(s2c + out, id) == Credits(s2c, id) + if |out| == 1 && out[0].id == id then CreditOf(out) else 0
    ensures Oks(s2c + out, id) == Oks(s2c, id) + if |out| == 1 && out[0].id == id then OksOf(out) else 0
  {
    if |out| == 1 {
      DownSnoc(s2c, out[0], id);
      assert out == [out[0]];
    } else {
      assert s2c + out == s2c;
    }
  }

  // ----- The view of a stream in a session ---------------------------------------------------

  function HandOf(s: Session, id: StreamId): seq<byte> {
    if Serving(s.loop) && s.loop.i < |s.objs| && s.objs[s.loop.i].id == id then s.loop.payload else []
  }

  predicate DoomedBy(l: Loop, id: StreamId) {
    (l.Shedding? || l.LoopDropping?) && l.id == id
  }

  function ObjOf(s: Session, id: StreamId): Option<S.Obj> {
    if id in s.home && s.home[id] < |s.objs| then Some(s.objs[s.home[id]]) else None
  }

  function ViewOf(s: Session, id: StreamId): View
    requires id in s.clients
  {
    View(s.clients[id], ObjOf(s, id), id in s.table, DoomedBy(s.loop, id), HandOf(s, id),
         UpBytes(s.c2s, id), Credits(s.s2c, id), Oks(s.s2c, id))
  }

  // ----- The invariant -----------------------------------------------------------------------

  /** Ids name objects uniquely: nothing was ever stored twice under one id. */
  ghost predicate HomesOk(s: Session) {
    && (forall i: nat | i < |s.objs| :: s.objs[i].id in s.home && s.home[s.objs[i].id] == i)
    && (forall id <- s.home.Keys :: s.home[id] < |s.objs| && s.objs[s.home[id]].id == id && id in s.clients)
  }

  /** The OPEN that the read loop is refusing, if any. */
  function Refused(l: Loop): seq<StreamId> {
    if l.Refusing? then [l.id] else []
  }

  /** OPENs not yet stored: dialling, then one being refused, then those still on the wire. */
  function Pending(s: Session): seq<StreamId> {
    s.dialing + Refused(s.loop) + OpenIds(s.c2s)
  }

  ghost predicate Distinct(ids: seq<StreamId>) {
    forall a: nat, b: nat | a < b < |ids| :: ids[a] != ids[b]
  }

  ghost predicate PendingOk(s: Session) {
    && Distinct(Pending(s))
    && (forall k: nat | k < |Pending(s)| :: Pending(s)[k] in s.clients && Pending(s)[k] !in s.home)
  }

  /** What a client that follows the protocol, and this server, put into their frames. */
  ghost predicate FramesOk(s: Session) {
    && (forall k: nat | k < |s.c2s| && s.c2s[k].DataFrame? :: s.c2s[k].payload != [] && s.c2s[k].id in s.clients)
    && (forall k: nat | k < |s.s2c| && s.s2c[k].OpenOk? :: s.s2c[k].window == WINDOW && s.s2c[k].id in s.clients)
    && (forall k: nat | k < |s.s2c| && s.s2c[k].Window? :: s.s2c[k].id in s.clients)
    && (Serving(s.loop) ==> s.loop.payload != [])
  }

  ghost predicate ViewsOk(s: Session) {
    forall id <- s.clients.Keys :: ViewOk(ViewOf(s, id))
  }

  ghost predicate FlowOk(s: Session) {
    HomesOk(s) && PendingOk(s) && FramesOk(s) && ViewsOk(s)
  }

  // ----- Local actions -----------------------------------------------------------------------

  lemma LocalOut(o: S.Obj, a: S.Act)
    requires S.Ok(o) && S.Can(o, a)
    ensures |S.Out(o, a)| <= 1
    ensures |S.Out(o, a)| == 1 ==> S.Out(o, a)[0].id == o.id && (S.Out(o, a)[0].OpenOk? ==> S.Out(o, a)[0].window == WINDOW)
  {
  }

  /** One object replaced, and at most one frame of its stream emitted: only that stream's view moves. */
  lemma PatchView(s: Session, i: nat, o: S.Obj, out: seq<S.Down>, id: StreamId)
    requires HomesOk(s) && i < |s.objs| && o.id == s.objs[i].id && id in s.clients
    requires |out| <= 1 && (|out| == 1 ==> out[0].id == o.id)
    ensures var v := ViewOf(s, id);
            ViewOf(Emit(SetObj(s, i, o), out), id)
            == if id == o.id then v.(obj := Some(o), credit := v.credit + CreditOf(out), oks := v.oks + OksOf(out)) else v
  {
    var s' := Emit(SetObj(s, i, o), out);
    DownEmit(s.s2c, out, id);
    assert HandOf(s', id) == HandOf(s, id);
    assert ObjOf(s', id) == if id == o.id then Some(o) else ObjOf(s, id);
    hide HomesOk, HandOf, ObjOf, UpBytes, Credits, Oks;
  }

  lemma PatchKeepsFrames(s: Session, i: nat, o: S.Obj, out: seq<S.Down>)
    requires HomesOk(s) && FramesOk(s) && i < |s.objs| && o.id == s.objs[i].id
    requires |out| <= 1 && (|out| == 1 ==> out[0].id == o.id && (out[0].OpenOk? ==> out[0].window == WINDOW))
    ensures HomesOk(Emit(SetObj(s, i, o), out)) && FramesOk(Emit(SetObj(s, i, o), out))
  {
  }

  lemma PatchKeepsFlow(s: Session, i: nat, o: S.Obj, out: seq<S.Down>)
    requires FlowOk(s) && i < |s.objs| && o.id == s.objs[i].id
    requires |out| <= 1 && (|out| == 1 ==> out[0].id == o.id && (out[0].OpenOk? ==> out[0].window == WINDOW))
    requires o.id in s.clients ==>
               var v := ViewOf(s, o.id);
               ViewOk(v.(obj := Some(o), credit := v.credit + CreditOf(out), oks := v.oks + OksOf(out)))
    ensures FlowOk(Emit(SetObj(s, i, o), out))
  {
    hide HomesOk, FramesOk, ViewOk, ViewOf, CreditOf, OksOf, OpenIds;
    var s' := Emit(SetObj(s, i, o), out);
    PatchKeepsFrames(s, i, o, out);
    forall id <- s'.clients.Keys
      ensures ViewOk(ViewOf(s', id))
    {
      assert ViewOk(ViewOf(s, id));
      PatchView(s, i, o, out, id);
    }
  }

  lemma PatchQuietly(s: Session, i: nat, o: S.Obj)
    requires FlowOk(s) && i < |s.objs| && o.id == s.objs[i].id
    requires o.id in s.clients ==> ViewOk(ViewOf(s, o.id).(obj := Some(o)))
    ensures FlowOk(SetObj(s, i, o))
  {
    hide FlowOk, ViewOk;
    assert SetObj(s, i, o).s2c + [] == SetObj(s, i, o).s2c;
    PatchKeepsFlow(s, i, o, []);
  }

  /** The views do not look at the session counter or at closeAll. */
  predicate SameStreams(s: Session, s': Session) {
    && s'.objs == s.objs && s'.table == s.table && s'.home == s.home && s'.loop == s.loop
    && s'.dialing == s.dialing && s'.c2s == s.c2s && s'.s2c == s.s2c && s'.clients == s.clients
  }

  lemma SameStreamsFrame(s: Session, s': Session)
    requires FlowOk(s) && SameStreams(s, s')
    ensures FlowOk(s')
  {
    hide ViewOk, OpenIds;
    forall id <- s'.clients.Keys
      ensures ViewOk(ViewOf(s', id))
    {
      assert ViewOk(ViewOf(s, id));
      SameStreamsView(s, s', id);
    }
  }

  lemma SameStreamsView(s: Session, s': Session, id: StreamId)
    requires id in s.clients && SameStreams(s, s')
    ensures ViewOf(s', id) == ViewOf(s, id)
  {
  }

  /** The stream of an object is one the client opened, and its view shows that object. */
  lemma ObjView(s: Session, i: nat)
    requires FlowOk(s) && i < |s.objs|
    ensures s.objs[i].id in s.clients && s.home[s.objs[i].id] == i
    ensures ViewOk(ViewOf(s, s.objs[i].id)) && ViewOf(s, s.objs[i].id).obj == Some(s.objs[i])
  {
    hide ViewOk, PendingOk, FramesOk;
  }

  /** Before its launch a stream of a client that keeps to the protocol has nothing queued. */
  lemma UnlaunchedIsEmpty(s: Session, i: nat)
    requires FlowOk(s) && i < |s.objs| && !s.objs[i].opener.Launched?
    ensures s.objs[i].queue == []
  {
    hide PendingOk, FramesOk, HomesOk, ViewOk;
    ObjView(s, i);
    SilentQueue(ViewOf(s, s.objs[i].id));
  }

  lemma LocalKeepsFlow(s: Session, i: nat, act: S.Act)
    requires ObjsOk(s) && FlowOk(s) && i < |s.objs| && S.Can(s.objs[i], act)
    ensures FlowOk(DoLocal(s, i, act))
  {
    hide FlowOk, S.Ok, S.Do, S.Can, S.Out, S.SessionDelta, ViewOk;
    var o := s.objs[i];
    S.DoIsSteady(o, act);
    LocalOut(o, act);
    ObjView(s, i);
    LocalKeepsView(ViewOf(s, o.id), act);
    PatchKeepsFlow(s, i, S.Do(o, act), S.Out(o, act));
    SameStreamsFrame(Emit(SetObj(s, i, S.Do(o, act)), S.Out(o, act)), DoLocal(s, i, act));
  }

  // ----- Table and closers -------------------------------------------------------------------

  lemma UnlistKeepsFlow(s: Session, id: StreamId)
    requires FlowOk(s)
    ensures FlowOk(Unlist(s, id))
  {
    hide ViewOk, OpenIds;
    var s' := Unlist(s, id);
    forall other <- s'.clients.Keys
      ensures ViewOk(ViewOf(s', other))
    {
      assert ViewOk(ViewOf(s, other));
      UnlistView(s, id, other);
      UnlistKeepsView(ViewOf(s, other), ViewOf(s, other).doomed);
    }
  }

  lemma UnlistView(s: Session, id: StreamId, other: StreamId)
    requires other in s.clients
    ensures var v := ViewOf(s, other);
            ViewOf(Unlist(s, id), other) == if other == id then v.(listed := false) else v
  {
  }

  lemma InertKeepsFlow(s: Session, i: nat, o: S.Obj)
    requires FlowOk(s) && i < |s.objs| && o.id == s.objs[i].id && Inert(s.objs[i], o)
    ensures FlowOk(SetObj(s, i, o))
  {
    hide FlowOk, ViewOk, Inert;
    ObjView(s, i);
    InertKeepsView(ViewOf(s, o.id), o);
    PatchQuietly(s, i, o);
  }

  lemma LoadAndDeleteKeepsFlow(s: Session, id: StreamId)
    requires FlowOk(s)
    ensures FlowOk(LoadAndDelete(s, id))
  {
    hide FlowOk, Inert;
    if id in s.table && s.table[id] < |s.objs| {
      var j := s.table[id];
      DropsAreInert(s.objs[j]);
      InertKeepsFlow(s, j, S.Loaded(s.objs[j]));
      UnlistKeepsFlow(SetObj(s, j, S.Loaded(s.objs[j])), id);
    }
  }

  lemma DropKeepsFlow(s: Session, m: DropMove)
    requires FlowOk(s) && CanDrop(s, m)
    ensures FlowOk(DoDrop(s, m))
  {
    hide FlowOk, Inert, LoadAndDelete;
    var o := s.objs[m.i];
    DropsAreInert(o);
    InertKeepsFlow(s, m.i, Dropped(o, m));
    LoadAndDeleteKeepsFlow(SetObj(s, m.i, Dropped(o, m)), o.id);
  }

  lemma AllKeepsFlow(s: Session, m: AllMove)
    requires FlowOk(s) && CanAll(s, m)
    ensures FlowOk(DoAll(s, m))
  {
    hide FlowOk, Inert;
    if m.AllSwap? {
      var o := s.objs[s.all.i];
      DropsAreInert(o);
      InertKeepsFlow(s, s.all.i, S.Swap(o, true));
      SameStreamsFrame(SetObj(s, s.all.i, S.Swap(o, true)), DoAll(s, m));
    } else if m.AllDelete? {
      UnlistKeepsFlow(s, s.objs[s.all.i].id);
      SameStreamsFrame(Unlist(s, s.objs[s.all.i].id), DoAll(s, m));
    } else {
      SameStreamsFrame(s, DoAll(s, m));
    }
  }

  // ----- handleOpen --------------------------------------------------------------------------

  lemma RemoveKeepsDistinct(ids: seq<StreamId>, k: nat)
    requires Distinct(ids) && k < |ids|
    ensures var rest := ids[..k] + ids[k + 1..];
            && Distinct(rest)
            && forall j: nat | j < |rest| :: rest[j] == ids[if j < k then j else j + 1] && rest[j] != ids[k]
  {
  }

  lemma DialledPending(s: Session, k: nat)
    requires PendingOk(s) && k < |s.dialing|
    ensures PendingOk(Dialled(s, k))
    ensures s.dialing[k] in s.clients && s.dialing[k] !in s.home
    ensures forall j: nat | j < |Pending(Dialled(s, k))| :: Pending(Dialled(s, k))[j] != s.dialing[k]
  {
    hide OpenIds;
    var p := Pending(s);
    RemoveKeepsDistinct(p, k);
    assert Pending(Dialled(s, k)) == p[..k] + p[k + 1..];
    assert p[k] == s.dialing[k];
  }

  lemma DialledKeepsFlow(s: Session, k: nat)
    requires FlowOk(s) && k < |s.dialing|
    ensures FlowOk(Dialled(s, k))
  {
    hide ViewOk, PendingOk;
    DialledPending(s, k);
    forall id <- s.clients.Keys
      ensures ViewOk(ViewOf(Dialled(s, k), id))
    {
      assert ViewOk(ViewOf(s, id));
      assert ViewOf(Dialled(s, k), id) == ViewOf(s, id);
    }
  }

  lemma StoreView(s: Session, id: StreamId, other: StreamId)
    requires HomesOk(s) && LoopOk(s) && id !in s.home && other in s.clients
    ensures var v := ViewOf(s, other);
            ViewOf(Store(s, id), other) == if other == id then v.(obj := Some(S.Fresh(id)), listed := true) else v
  {
    hide S.Ok, UpBytes, Credits, Oks;
    var s' := Store(s, id);
    assert HandOf(s', other) == HandOf(s, other);
    assert ObjOf(s', other) == if other == id then Some(S.Fresh(id)) else ObjOf(s, other);
    hide HandOf, ObjOf;
  }

  lemma StoreKeepsHomes(s: Session, id: StreamId)
    requires HomesOk(s) && FramesOk(s) && id !in s.home && id in s.clients
    ensures HomesOk(Store(s, id)) && FramesOk(Store(s, id))
  {
  }

  lemma StoreKeepsFlow(s: Session, id: StreamId)
    requires FlowOk(s) && LoopOk(s) && id !in s.home && id in s.clients
    requires forall j: nat | j < |Pending(s)| :: Pending(s)[j] != id
    ensures FlowOk(Store(s, id))
  {
    hide HomesOk, FramesOk, ViewOk, OpenIds, LoopOk;
    StoreKeepsHomes(s, id);
    forall other <- s.clients.Keys
      ensures ViewOk(ViewOf(Store(s, id), other))
    {
      assert ViewOk(ViewOf(s, other));
      StoreView(s, id, other);
      if other == id {
        StoreKeepsView(ViewOf(s, id), id);
      }
    }
  }

  lemma EmitKeepsFlow(s: Session, f: S.Down)
    requires FlowOk(s) && !f.Window? && !f.OpenOk?
    ensures FlowOk(Emit(s, [f]))
  {
    hide ViewOk, OpenIds;
    forall id <- s.clients.Keys
      ensures ViewOk(ViewOf(Emit(s, [f]), id))
    {
      assert ViewOk(ViewOf(s, id));
      DownSnoc(s.s2c, f, id);
      assert ViewOf(Emit(s, [f]), id) == ViewOf(s, id);
    }
  }

  lemma EmitAny(s: Session, f: S.Down, ok: bool)
    requires FlowOk(s) && !f.Window? && !f.OpenOk?
    ensures FlowOk(Emit(s, if ok then [f] else []))
  {
    hide FlowOk;
    if ok {
      EmitKeepsFlow(s, f);
    } else {
      assert s.s2c + [] == s.s2c;
    }
  }

  /** An id still to be stored is not in the table, so LoadOrStore stores. */
  lemma DialStoreKeepsFlow(s: Session, k: nat)
    requires FlowOk(s) && TableOk(s) && LoopOk(s) && k < |s.dialing|
    ensures FlowOk(DoOpener(s, DialStore(k)))
  {
    hide ViewOk, S.Ok, FramesOk, ViewsOk;
    DialledKeepsFlow(s, k);
    DialledPending(s, k);
    if s.dialing[k] !in s.table {
      StoreKeepsFlow(Dialled(s, k), s.dialing[k]);
    }
  }

  lemma OpenerKeepsFlow(s: Session, m: OpenerMove)
    requires FlowOk(s) && TableOk(s) && LoopOk(s) && CanOpener(s, m)
    ensures FlowOk(DoOpener(s, m))
  {
    hide ViewOk, S.Ok, FlowOk, TableOk, LoopOk, Inert, Store, Dialled;
    match m
    case OpenerCheck(i) =>
      DropsAreInert(s.objs[i]);
      InertKeepsFlow(s, i, S.OpenerChecks(s.objs[i], s.closed));
    case OpenerClean(i) =>
      DropsAreInert(s.objs[i]);
      InertKeepsFlow(s, i, S.OpenerDrops(s.objs[i]));
      UnlistKeepsFlow(SetObj(s, i, S.OpenerDrops(s.objs[i])), s.objs[i].id);
    case DialFail(k, ok) =>
      DialledKeepsFlow(s, k);
      EmitAny(Dialled(s, k), S.OpenErr(s.dialing[k]), ok);
      SameStreamsFrame(Emit(Dialled(s, k), if ok then [S.OpenErr(s.dialing[k])] else []), DoOpener(s, m));
    case DialStore(k) => DialStoreKeepsFlow(s, k);
    case OpenerRelease => SameStreamsFrame(s, DoOpener(s, m));
  }

  // ----- The read loop -----------------------------------------------------------------------

  lemma RecvPending(s: Session)
    requires PendingOk(s) && s.loop.Idle? && s.c2s != []
    ensures PendingOk(DoRecv(s))
  {
    hide PendingOk, OpenIds, Dispatch;
    var s' := DoRecv(s);
    var f := s.c2s[0];
    var rest := OpenIds(s.c2s[1..]);
    FirstOpen(s.c2s);
    DispatchRefusesNothing(s.table, f);
    if f.OpenFrame? {
      var id := f.id;
      assert s.dialing + [] + ([id] + rest) == s.dialing + [id] + rest == (s.dialing + [id]) + [] + rest;
      assert s.dialing + [] == s.dialing;
    } else {
      assert s.dialing + [] == s.dialing;
    }
    SamePending(s, s');
  }

  lemma DispatchRefusesNothing(table: map<StreamId, nat>, f: Up)
    ensures !Dispatch(table, f).Refusing?
  {
  }

  /** The refused OPEN is answered and no longer pending. */
  lemma RefusePending(s: Session)
    requires PendingOk(s) && s.loop.Refusing?
    ensures PendingOk(s.(loop := Idle))
  {
    hide PendingOk, OpenIds;
    var k := |s.dialing|;
    var p := Pending(s);
    assert p[..k] == s.dialing && p[k + 1..] == OpenIds(s.c2s);
    assert s.dialing + [] + OpenIds(s.c2s) == s.dialing + OpenIds(s.c2s);
    DropPending(s, s.(loop := Idle), k);
  }

  lemma FirstOpen(c2s: seq<Up>)
    requires c2s != []
    ensures OpenIds(c2s) == (if c2s[0].OpenFrame? then [c2s[0].id] else []) + OpenIds(c2s[1..])
    ensures !c2s[0].OpenFrame? ==> OpenIds(c2s) == OpenIds(c2s[1..])
  {
    assert [] + OpenIds(c2s[1..]) == OpenIds(c2s[1..]);
  }

  lemma SamePending(s: Session, s': Session)
    requires PendingOk(s) && Pending(s') == Pending(s) && s'.clients == s.clients && s'.home == s.home
    ensures PendingOk(s')
  {
    hide Pending;
  }

  lemma DropPending(s: Session, s': Session, k: nat)
    requires PendingOk(s) && k < |Pending(s)| && Pending(s') == Pending(s)[..k] + Pending(s)[k + 1..]
    requires s'.clients == s.clients && s'.home == s.home
    ensures PendingOk(s')
  {
    hide Pending, Distinct;
    RemoveKeepsDistinct(Pending(s), k);
  }

  lemma RecvFrames(s: Session)
    requires FramesOk(s) && s.loop.Idle? && s.c2s != []
    ensures FramesOk(DoRecv(s))
  {
  }

  lemma FirstBytes(c2s: seq<Up>, id: StreamId)
    requires c2s != []
    ensures UpBytes(c2s, id) == BytesOf(c2s[0], id) + UpBytes(c2s[1..], id)
    ensures !(c2s[0].DataFrame? && c2s[0].id == id) ==> UpBytes(c2s, id) == UpBytes(c2s[1..], id)
  {
    assert [] + UpBytes(c2s[1..], id) == UpBytes(c2s[1..], id);
  }

  /** What taking the head frame off the wire does to each view. */
  lemma RecvView(s: Session, id: StreamId)
    requires TableOk(s) && s.loop.Idle? && s.c2s != [] && id in s.clients
    ensures var v := ViewOf(s, id);
            var v' := ViewOf(DoRecv(s), id);
            var f := s.c2s[0];
            && v.hand == [] && !v.doomed
            && v.wire == BytesOf(f, id) + UpBytes(s.c2s[1..], id)
            && v' == if f.DataFrame? && f.id == id then
                       v.(wire := UpBytes(s.c2s[1..], id), hand := if v.listed then f.payload else [])
                     else if f.CloseFrame? && f.id == id then v.(doomed := true)
                     else v
  {
    hide Credits, Oks, S.Ok, UpBytes;
    var f := s.c2s[0];
    FirstBytes(s.c2s, id);
    assert ObjOf(DoRecv(s), id) == ObjOf(s, id);
    hide ObjOf, BytesOf;
  }

  lemma RecvKeepsFlow(s: Session)
    requires FlowOk(s) && TableOk(s) && s.loop.Idle? && s.c2s != []
    ensures FlowOk(DoRecv(s))
  {
    hide PendingOk, FramesOk, ViewOk, ViewOf;
    RecvPending(s);
    RecvFrames(s);
    var f := s.c2s[0];
    forall id <- s.clients.Keys
      ensures ViewOk(ViewOf(DoRecv(s), id))
    {
      assert ViewOk(ViewOf(s, id));
      RecvView(s, id);
      if f.DataFrame? && f.id == id {
        RecvKeepsView(ViewOf(s, id), f.payload, UpBytes(s.c2s[1..], id));
        assert ViewOf(s, id).(wire := UpBytes(s.c2s[1..], id), hand := [])
            == ViewOf(s, id).(wire := UpBytes(s.c2s[1..], id));
      } else if f.CloseFrame? && f.id == id {
        UnlistKeepsView(ViewOf(s, id), true);
      }
    }
  }

  /** A failed budget test: the payload is given up and the stream is on its way out. */
  lemma ShedKeepsFlow(s: Session)
    requires FlowOk(s) && LoopOk(s) && Serving(s.loop)
    ensures FlowOk(s.(loop := Shedding(s.objs[s.loop.i].id)))
  {
    hide ViewOk, OpenIds, UpBytes, Credits, Oks, S.Ok;
    var id0 := s.objs[s.loop.i].id;
    var s' := s.(loop := Shedding(id0));
    forall id <- s.clients.Keys
      ensures ViewOk(ViewOf(s', id))
    {
      var v := ViewOf(s, id);
      assert ViewOk(v);
      if id == id0 {
        DropHandKeepsView(v);
        assert ViewOf(s', id) == v.(hand := [], doomed := true);
      } else {
        assert ViewOf(s', id) == v;
      }
    }
  }

  /** The loop moves without changing what it holds or dooms. */
  lemma LoopKeepsHand(s: Session, l: Loop)
    requires FlowOk(s)
    requires Serving(l) <==> Serving(s.loop)
    requires Serving(l) ==> l.i == s.loop.i && l.payload == s.loop.payload
    requires forall id: StreamId :: DoomedBy(l, id) <==> DoomedBy(s.loop, id)
    requires Refused(l) == Refused(s.loop)
    ensures FlowOk(s.(loop := l))
  {
    hide ViewOk, OpenIds, UpBytes, Credits, Oks;
    forall id <- s.clients.Keys
      ensures ViewOk(ViewOf(s.(loop := l), id))
    {
      assert ViewOk(ViewOf(s, id));
      assert ViewOf(s.(loop := l), id) == ViewOf(s, id);
    }
  }

  /** Locking a stream that was closed meanwhile: the payload is dropped. */
  lemma LockClosedKeepsFlow(s: Session)
    requires FlowOk(s) && LoopOk(s) && s.loop.Admitted? && s.objs[s.loop.i].closed
    ensures FlowOk(s.(loop := Idle))
  {
    hide ViewOk, OpenIds, UpBytes, Credits, Oks, S.Ok;
    var id0 := s.objs[s.loop.i].id;
    ObjView(s, s.loop.i);
    forall id <- s.clients.Keys
      ensures ViewOk(ViewOf(s.(loop := Idle), id))
    {
      var v := ViewOf(s, id);
      assert ViewOk(v);
      if id == id0 {
        DropHandKeepsView(v);
        assert ViewOf(s.(loop := Idle), id) == v.(hand := []);
      } else {
        assert ViewOf(s.(loop := Idle), id) == v;
      }
    }
  }

  lemma PushView(s: Session, id: StreamId)
    requires HomesOk(s) && LoopOk(s) && s.loop.Admitted? && id in s.clients
    ensures var i := s.loop.i;
            var v := ViewOf(s, id);
            var s' := SetObj(s, i, S.Push(s.objs[i], s.loop.payload)).(loop := Adding(i, |s.loop.payload|));
            ViewOf(s', id) == if id == s.objs[i].id then v.(obj := Some(S.Push(s.objs[i], v.hand)), hand := []) else v
  {
    hide S.Ok, UpBytes, Credits, Oks;
  }

  lemma LockKeepsFlow(s: Session)
    requires FlowOk(s) && LoopOk(s) && s.loop.Admitted? && !s.objs[s.loop.i].closed
    ensures FlowOk(SetObj(s, s.loop.i, S.Push(s.objs[s.loop.i], s.loop.payload)).(loop := Adding(s.loop.i, |s.loop.payload|)))
  {
    hide ViewOk, OpenIds, UpBytes, Credits, Oks, S.Ok, S.Push;
    var i := s.loop.i;
    var o := S.Push(s.objs[i], s.loop.payload);
    var s' := SetObj(s, i, o).(loop := Adding(i, |s.loop.payload|));
    assert o.id == s.objs[i].id by { PushKeepsId(s.objs[i], s.loop.payload); }
    ObjView(s, i);
    forall id <- s.clients.Keys
      ensures ViewOk(ViewOf(s', id))
    {
      assert ViewOk(ViewOf(s, id));
      PushView(s, id);
      if id == o.id {
        PushKeepsView(ViewOf(s, id));
      }
    }
    hide ViewOf;
  }

  lemma PushKeepsId(o: S.Obj, p: Chunk)
    ensures S.Push(o, p).id == o.id && S.PushDone(o).id == o.id
  {
  }

  lemma UnlockKeepsFlow(s: Session)
    requires FlowOk(s) && LoopOk(s) && s.loop.Added?
    ensures FlowOk(SetObj(s, s.loop.i, S.PushDone(s.objs[s.loop.i])).(loop := Idle))
  {
    hide FlowOk, ViewOk, S.Ok, S.PushDone;
    var i := s.loop.i;
    ObjView(s, i);
    PushKeepsId(s.objs[i], []);
    PushDoneKeepsView(ViewOf(s, s.objs[i].id));
    PatchQuietly(s, i, S.PushDone(s.objs[i]));
    LoopKeepsHand(SetObj(s, i, S.PushDone(s.objs[i])), Idle);
  }

  /** The stream that the read loop closes is out of the table: nothing marks it any more. */
  lemma DoneView(t: Session, l: Loop, id: StreamId)
    requires t.loop.LoopDropping? && (l.Idle? || l.LoopClosing?) && id in t.clients
    ensures ViewOf(t.(loop := l), id) == ViewOf(t, id).(doomed := false)
    ensures ViewOf(t, id).doomed ==> id == t.loop.id
    ensures ViewOf(t, id).listed <==> id in t.table
  {
    hide UpBytes, Credits, Oks;
  }

  lemma LoopDropKeepsFlow(s: Session, l: Loop)
    requires FlowOk(s) && TableOk(s) && s.loop.LoopDropping? && (l.Idle? || l.LoopClosing?)
    ensures FlowOk(LoadAndDelete(s, s.loop.id).(loop := l))
  {
    hide ViewOk, ViewOf, OpenIds, LoadAndDelete, TableOk;
    var t := LoadAndDelete(s, s.loop.id);
    LoadAndDeleteKeepsFlow(s, s.loop.id);
    DeletedFromTable(s, s.loop.id);
    forall id <- t.clients.Keys
      ensures ViewOk(ViewOf(t.(loop := l), id))
    {
      var v := ViewOf(t, id);
      assert ViewOk(v);
      DoneView(t, l, id);
      if id == s.loop.id {
        UnlistKeepsView(v, false);
      } else {
        assert v.(doomed := false) == v;
      }
    }
  }

  lemma DeletedFromTable(s: Session, id: StreamId)
    requires TableOk(s)
    ensures id !in LoadAndDelete(s, id).table
  {
  }

  lemma RefuseKeepsFlow(s: Session, ok: bool)
    requires FlowOk(s) && s.loop.Refusing?
    ensures FlowOk(DoLoop(s, 0, LoopRefuse(ok)))
  {
    hide ViewOk, UpBytes, Credits, Oks, HomesOk, PendingOk, FramesOk;
    EmitAny(s, S.OpenErr(s.loop.id), ok);
    var t := Emit(s, if ok then [S.OpenErr(s.loop.id)] else []);
    RefusePending(t);
    RefuseKeepsFrames(t);
    forall id <- t.clients.Keys
      ensures ViewOk(ViewOf(t.(loop := Idle), id))
    {
      assert ViewOk(ViewOf(t, id));
      assert ViewOf(t.(loop := Idle), id) == ViewOf(t, id);
    }
  }

  lemma RefuseKeepsFrames(t: Session)
    requires HomesOk(t) && FramesOk(t)
    ensures HomesOk(t.(loop := Idle)) && FramesOk(t.(loop := Idle))
  {
  }

  lemma LoopKeepsFlow(s: Session, global: int, m: LoopMove)
    requires FlowOk(s) && TableOk(s) && LoopOk(s) && CanLoop(s, m)
    ensures FlowOk(DoLoop(s, global, m))
  {
    hide FlowOk, S.Ok, LoadAndDelete, TableOk, LoopOk;
    match m
    case LoopRecv => RecvKeepsFlow(s);
    case LoopTestSession =>
      ShedKeepsFlow(s);
      LoopKeepsHand(s, SessionFits(s.loop.i, s.loop.payload));
    case LoopTestGlobal =>
      ShedKeepsFlow(s);
      LoopKeepsHand(s, Admitted(s.loop.i, s.loop.payload));
    case LoopLock =>
      if s.objs[s.loop.i].closed {
        LockClosedKeepsFlow(s);
      } else {
        LockKeepsFlow(s);
      }
    case LoopBillSession =>
      LoopKeepsHand(s, Added(s.loop.i, s.loop.n));
      SameStreamsFrame(s.(loop := Added(s.loop.i, s.loop.n)), DoLoop(s, global, m));
    case LoopBillGlobal => UnlockKeepsFlow(s);
    case LoopShed(ok) =>
      EmitAny(s, S.Close(s.loop.id), ok);
      LoopKeepsHand(Emit(s, if ok then [S.Close(s.loop.id)] else []), LoopDropping(s.loop.id));
    case LoopRefuse(ok) => RefuseKeepsFlow(s, ok);
    case LoopDrop => LoopDropKeepsFlow(s, DoLoop(s, global, m).loop);
    case LoopDone => LoopKeepsHand(s, Idle);
    case LoopEnd => LoopKeepsHand(s, Ended);
  }

  // ----- The client --------------------------------------------------------------------------

  lemma {:induction false} NoBytes(c2s: seq<Up>, id: StreamId)
    requires forall k: nat | k < |c2s| && c2s[k].DataFrame? :: c2s[k].id != id
    ensures UpBytes(c2s, id) == []
  {
    if c2s != [] {
      NoBytes(c2s[1..], id);
    }
  }

  lemma {:induction false} NoCredits(s2c: seq<S.Down>, id: StreamId)
    requires forall k: nat | k < |s2c| && (s2c[k].OpenOk? || s2c[k].Window?) :: s2c[k].id != id
    ensures Credits(s2c, id) == 0 && Oks(s2c, id) == 0
  {
    if s2c != [] {
      NoCredits(s2c[1..], id);
    }
  }

  /** A stream just opened starts from an empty view. */
  lemma NewStreamView(s: Session, id: StreamId)
    requires FlowOk(s) && TableOk(s) && LoopOk(s) && id !in s.clients
    ensures ViewOk(View(NEW_CLIENT, ObjOf(s, id), id in s.table, DoomedBy(s.loop, id), HandOf(s, id),
                        UpBytes(s.c2s, id), Credits(s.s2c, id), Oks(s.s2c, id)))
  {
    hide S.Ok, ViewsOk, PendingOk;
    NoBytes(s.c2s, id);
    NoCredits(s.s2c, id);
    assert id !in s.home;
    assert id !in s.table;
  }

  lemma OpenPending(s: Session)
    requires HomesOk(s) && PendingOk(s) && NextId(s.opens) !in s.clients
    ensures PendingOk(DoClient(s, ClientOpen))
  {
    var id := NextId(s.opens);
    UpSnoc(s.c2s, OpenFrame(id), id);
    var s' := DoClient(s, ClientOpen);
    PendingOne(s, s', id);
  }

  lemma PendingOne(s: Session, s': Session, id: StreamId)
    requires PendingOk(s) && Pending(s') == Pending(s) + [id]
    requires s'.home == s.home && s'.clients.Keys == s.clients.Keys + {id} && id !in s.home && id !in s.clients
    ensures PendingOk(s')
  {
    hide Pending;
  }

  lemma OpenKeepsHomes(s: Session)
    requires HomesOk(s) && FramesOk(s) && NextId(s.opens) !in s.clients
    ensures HomesOk(DoClient(s, ClientOpen)) && FramesOk(DoClient(s, ClientOpen))
  {
    hide NextId;
  }

  lemma ClientOpenKeepsFlow(s: Session)
    requires FlowOk(s) && TableOk(s) && LoopOk(s) && NextId(s.opens) !in s.clients
    ensures FlowOk(DoClient(s, ClientOpen))
  {
    hide ViewOk, PendingOk, HomesOk, FramesOk, TableOk, LoopOk, UpBytes, Credits, Oks, NextId;
    var id := NextId(s.opens);
    var s' := DoClient(s, ClientOpen);
    OpenPending(s);
    OpenKeepsHomes(s);
    forall other <- s'.clients.Keys
      ensures ViewOk(ViewOf(s', other))
    {
      UpSnoc(s.c2s, OpenFrame(id), other);
      assert UpBytes(s'.c2s, other) == UpBytes(s.c2s, other) + [] == UpBytes(s.c2s, other);
      if other == id {
        NewStreamView(s, id);
      } else {
        assert ViewOk(ViewOf(s, other));
        assert ViewOf(s', other) == ViewOf(s, other);
      }
    }
  }

  lemma FirstCredit(s2c: seq<S.Down>, id: StreamId)
    requires s2c != []
    ensures Credits(s2c, id) == (if s2c[0].id == id then CreditOf([s2c[0]]) else 0) + Credits(s2c[1..], id)
    ensures Oks(s2c, id) == (if s2c[0].id == id then OksOf([s2c[0]]) else 0) + Oks(s2c[1..], id)
  {
  }

  lemma ReceiveView(s: Session, id: StreamId)
    requires s.s2c != [] && !s.ponging && id in s.clients
    ensures var f := s.s2c[0];
            var v := ViewOf(s, id);
            && (f.id == id ==> v.credit >= CreditOf([f]) && v.oks >= OksOf([f]))
            && ViewOf(DoClient(s, ClientRecv), id)
               == if f.id == id then v.(c := Receive(v.c, f), credit := v.credit - CreditOf([f]), oks := v.oks - OksOf([f]))
                  else v
  {
    hide UpBytes, Receive, Credits, Oks, CreditOf, OksOf, DoClient;
    RecvEffect(s);
    FirstCredit(s.s2c, id);
  }

  lemma ClientRecvKeepsViews(s: Session)
    requires ViewsOk(s) && FramesOk(s) && s.s2c != [] && !s.ponging
    ensures ViewsOk(DoClient(s, ClientRecv))
  {
    hide ViewOk, OpenIds, ViewOf, Receive;
    var s' := DoClient(s, ClientRecv);
    forall id <- s'.clients.Keys
      ensures ViewOk(ViewOf(s', id))
    {
      assert ViewOk(ViewOf(s, id));
      ReceiveView(s, id);
      if s.s2c[0].id == id {
        ReceiveKeepsView(ViewOf(s, id), s.s2c[0]);
      }
    }
  }

  /** Taking a frame off the wire changes at most one client's state. */
  lemma RecvEffect(s: Session)
    requires s.s2c != [] && !s.ponging
    ensures var s', f := DoClient(s, ClientRecv), s.s2c[0];
            && s'.clients.Keys == s.clients.Keys && s'.home == s.home && s'.objs == s.objs && s'.dialing == s.dialing
            && s'.c2s == s.c2s && s'.s2c == s.s2c[1..] && s'.loop == s.loop && s'.table == s.table
            && forall id <- s.clients.Keys ::
                 s'.clients[id] == if id == f.id then Receive(s.clients[id], f) else s.clients[id]
  {
    hide Receive;
  }

  lemma ClientRecvKeepsRest(s: Session)
    requires HomesOk(s) && PendingOk(s) && FramesOk(s) && s.s2c != [] && !s.ponging
    ensures var s' := DoClient(s, ClientRecv); HomesOk(s') && PendingOk(s') && FramesOk(s')
  {
    hide OpenIds, DoClient, Distinct;
    RecvEffect(s);
  }

  lemma ClientRecvKeepsFlow(s: Session)
    requires FlowOk(s) && s.s2c != [] && !s.ponging
    ensures FlowOk(DoClient(s, ClientRecv))
  {
    hide HomesOk, PendingOk, FramesOk, ViewsOk, DoClient;
    ClientRecvKeepsViews(s);
    ClientRecvKeepsRest(s);
  }

  /** What a client's move puts on the wire, for each stream. */
  lemma SentUp(c2s: seq<Up>, c: Client, m: ClientMove, id: StreamId)
    requires CanAct(c, m)
    ensures UpBytes(c2s + Sent(c, m), id) == UpBytes(c2s, id) + (if id == m.id then SentBytes(c, m) else [])
    ensures id != m.id ==> UpBytes(c2s + Sent(c, m), id) == UpBytes(c2s, id)
  {
    hide UpBytes, WindowFits;
    if m.ClientFrame? && m.ok {
      UpSnoc(c2s, DataFrame(m.id, c.writer.chunk), id);
    } else if m.ClientClose? {
      UpSnoc(c2s, CloseFrame(m.id), id);
    } else {
      assert c2s + [] == c2s;
    }
    assert UpBytes(c2s, id) + [] == UpBytes(c2s, id);
  }

  lemma ActView(s: Session, m: ClientMove, id: StreamId)
    requires !m.ClientOpen? && !m.ClientRecv? && CanClient(s, m) && id in s.clients
    ensures CanAct(s.clients[m.id], m)
    ensures var v := ViewOf(s, id);
            ViewOf(DoClient(s, m), id)
            == if id == m.id then v.(c := Act(v.c, m), wire := v.wire + SentBytes(v.c, m)) else v
  {
    hide Credits, Oks, Act, UpBytes, Sent, SentBytes, WindowFits, DoomedBy, Serving;
    SentUp(s.c2s, s.clients[m.id], m, id);
    ActsOnly(s, m);
    assert ObjOf(DoClient(s, m), id) == ObjOf(s, id) && HandOf(DoClient(s, m), id) == HandOf(s, id);
    hide ObjOf, HandOf, DoClient;
  }

  lemma ActsOnly(s: Session, m: ClientMove)
    requires !m.ClientOpen? && !m.ClientRecv? && CanClient(s, m)
    ensures var s' := DoClient(s, m);
            && s'.objs == s.objs && s'.table == s.table && s'.home == s.home && s'.s2c == s.s2c
            && s'.c2s == s.c2s + Sent(s.clients[m.id], m) && s'.clients == s.clients[m.id := Act(s.clients[m.id], m)]
  {
    hide Act, Sent, WindowFits;
  }

  lemma ActPending(s: Session, m: ClientMove)
    requires !m.ClientOpen? && !m.ClientRecv? && CanClient(s, m)
    requires HomesOk(s) && PendingOk(s) && FramesOk(s) && WriterOk(s.clients[m.id])
    ensures var s' := DoClient(s, m); HomesOk(s') && PendingOk(s') && FramesOk(s')
  {
    hide Act, WindowFits;
    var s' := DoClient(s, m);
    var c := s.clients[m.id];
    if m.ClientFrame? && m.ok {
      UpSnoc(s.c2s, DataFrame(m.id, c.writer.chunk), m.id);
    } else if m.ClientClose? {
      UpSnoc(s.c2s, CloseFrame(m.id), m.id);
    } else {
      assert s.c2s + [] == s.c2s;
    }
    assert Pending(s') == Pending(s);
    assert s'.clients.Keys == s.clients.Keys;
  }

  lemma ActKeepsFlow(s: Session, m: ClientMove)
    requires !m.ClientOpen? && !m.ClientRecv? && CanClient(s, m)
    requires FlowOk(s) && WriterOk(s.clients[m.id])
    ensures FlowOk(DoClient(s, m))
  {
    hide ViewOk, PendingOk, HomesOk, FramesOk, ViewOf, Act, CanAct;
    ActPending(s, m);
    forall id <- s.clients.Keys
      ensures ViewOk(ViewOf(DoClient(s, m), id))
    {
      assert ViewOk(ViewOf(s, id));
      ActView(s, m, id);
      if id == m.id {
        assert ViewOf(s, id).c == s.clients[id] by { ClientOfView(s, id); }
        ActKeepsView(ViewOf(s, id), m);
      }
    }
  }

  lemma ClientOfView(s: Session, id: StreamId)
    requires id in s.clients
    ensures ViewOf(s, id).c == s.clients[id]
  {
  }

  lemma ClientKeepsFlow(s: Session, m: ClientMove)
    requires FlowOk(s) && TableOk(s) && LoopOk(s) && WritersOk(s) && CanClient(s, m)
    requires m.ClientOpen? ==> NextId(s.opens) !in s.clients
    ensures FlowOk(DoClient(s, m))
  {
    hide FlowOk, TableOk, LoopOk, DoClient, NextId;
    if m.ClientOpen? {
      ClientOpenKeepsFlow(s);
    } else if m.ClientRecv? {
      ClientRecvKeepsFlow(s);
    } else {
      assert WriterOk(s.clients[m.id]);
      ActKeepsFlow(s, m);
    }
  }

  // ----- Heartbeats --------------------------------------------------------------------------

  lemma PongKeepsFlow(s: Session, ok: bool)
    requires FlowOk(s) && s.ponging
    ensures FlowOk(DoBeat(s, ClientPong(ok)))
  {
    hide ViewOk, HomesOk, PendingOk, UpBytes, OpenIds, Credits, Oks;
    var s' := DoBeat(s, ClientPong(ok));
    if ok {
      UpSnoc(s.c2s, OtherFrame, 0);
    }
    assert OpenIds(s.c2s) + [] == OpenIds(s.c2s) && s.c2s + [] == s.c2s;
    SamePending(s, s');
    SameHomes(s, s');
    forall id <- s.clients.Keys
      ensures ViewOk(ViewOf(s', id))
    {
      assert ViewOk(ViewOf(s, id));
      if ok {
        UpSnoc(s.c2s, OtherFrame, id);
      }
      assert s.c2s + [] == s.c2s;
      assert UpBytes(s.c2s, id) + [] == UpBytes(s.c2s, id);
      assert ViewOf(s', id) == ViewOf(s, id);
    }
  }

  lemma SameHomes(s: Session, s': Session)
    requires HomesOk(s) && s'.objs == s.objs && s'.home == s.home && s'.clients == s.clients
    ensures HomesOk(s')
  {
  }

  lemma BeatKeepsFlow(s: Session, m: BeatMove)
    requires FlowOk(s) && CanBeat(s, m)
    ensures FlowOk(DoBeat(s, m))
  {
    hide FlowOk;
    match m
    case ServerPing => EmitKeepsFlow(s, S.Ping(0));
    case ServerPong => EmitKeepsFlow(s, S.Pong(0));
    case ClientPong(ok) => PongKeepsFlow(s, ok);
  }

  // ----- Every move --------------------------------------------------------------------------

  /** Every move of every actor keeps flow control intact for every stream, until the client breaks the protocol. */
  lemma DoKeepsFlow(s: Session, global: int, m: Move)
    requires ShapeOk(s) && WritersOk(s) && Can(s, m)
    requires !s.rogue ==> FlowOk(s)
    ensures !Do(s, global, m).rogue ==> FlowOk(Do(s, global, m))
  {
    hide FlowOk, TableOk, ObjsOk, LoopOk, DoLocal, DoDrop, DoOpener, DoLoop, DoAll, WritersOk, NextId;
    if !Do(s, global, m).rogue {
      match m
      case Local(i, act) => LocalKeepsFlow(s, i, act);
      case DropBy(drop) => DropKeepsFlow(s, drop);
      case OpenerDoes(opener) => OpenerKeepsFlow(s, opener);
      case LoopDoes(step) => LoopKeepsFlow(s, global, step);
      case AllDoes(sweep) => AllKeepsFlow(s, sweep);
      case ClientDoes(client) => ClientKeepsFlow(s, client);
      case BeatDoes(beat) => BeatKeepsFlow(s, beat);
    }
  }
}
