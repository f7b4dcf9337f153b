/**
 Uploads over whole runs of the server with any number of sessions: window conservation, integrity,
 and freshness of stream ids. The theorems about one session ask only that its own client keeps to
 the protocol; every other session may be hostile.
 */
module Upload {
  import opened Bytes
  import opened Limits
  import opened Session
  import opened Shape
  import opened StreamView
  import opened Flow
  import opened Host
  import S = StreamObject

  ghost predicate FlowsOk(h: Host) {
    forall k: nat | k < |h.sessions| :: !h.sessions[k].rogue ==> FlowOk(h.sessions[k])
  }

  lemma StartFlows()
    ensures FlowOk(START)
  {
    hide ViewOk;
    assert Pending(START) == [];
  }

  lemma EventKeepsFlows(h: Host, e: Event)
    requires SessionsOk(h) && FlowsOk(h) && CanHost(h, e)
    ensures FlowsOk(DoHost(h, e))
  {
    hide FlowOk, Can, Do, ShapeOk, WritersOk, START;
    match e
    case Accept => StartFlows();
    case Step(k, m) =>
      assert SessionOk(h.sessions[k]);
      DoKeepsFlow(h.sessions[k], h.global, m);
  }

  lemma {:induction false} RunKeepsFlows(h: Host, run: seq<Event>)
    requires HostOk(h) && FlowsOk(h) && Legal(h, run)
    ensures FlowsOk(After(h, run))
    decreases |run|
  {
    hide SessionOk, FlowOk, GlobalExact, GlobalBounded, DoHost, CanHost;
    if run != [] {
      EventKeepsOk(h, run[0]);
      EventKeepsFlows(h, run[0]);
      RunKeepsFlows(DoHost(h, run[0]), run[1..]);
    }
  }

  lemma RunFlows(limit: nat, run: seq<Event>)
    requires Legal(Boot(limit), run)
    ensures FlowsOk(After(Boot(limit), run))
  {
    hide SessionOk, FlowOk, GlobalExact, GlobalBounded, DoHost, CanHost;
    BootOk(limit);
    RunKeepsFlows(Boot(limit), run);
  }

  /** The state of a session reached by a run is in order, and its flows are while its client behaves. */
  lemma ReachableFlows(limit: nat, run: seq<Event>, k: nat)
    requires Legal(Boot(limit), run) && k < |After(Boot(limit), run).sessions|
    ensures var s := After(Boot(limit), run).sessions[k];
            ShapeOk(s) && WritersOk(s) && (!s.rogue ==> FlowOk(s))
  {
    hide ShapeOk, WritersOk, FlowOk, GlobalExact, GlobalBounded, DoHost, CanHost;
    BootOk(limit);
    ReachableOk(limit, run);
    RunKeepsFlows(Boot(limit), run);
    assert SessionOk(After(Boot(limit), run).sessions[k]);
  }

  // ----- Stream ids --------------------------------------------------------------------------

  const MAX_OPENS := 0x8000_0000

  /** Every id in the client's table came from one of its opens. */
  ghost predicate IdsOk(s: Session) {
    && (forall id <- s.clients.Keys :: exists j: nat :: j < s.opens && NextId(j) == id)
    && (s.opens <= MAX_OPENS ==> !s.rogue)
  }

  /** The first 2^31 ids are odd, not zero, and pairwise distinct; the next one is a repeat. */
  lemma IdsAreFresh(j: nat, k: nat)
    requires j < MAX_OPENS && k < MAX_OPENS
    ensures NextId(j) == 2 * j + 1 && (NextId(j) == NextId(k) ==> j == k)
    ensures NextId(j + MAX_OPENS) == NextId(j)
  {
  }

  lemma MoveKeepsIds(s: Session, global: int, m: Move)
    requires IdsOk(s) && Can(s, m) && !m.Rogue?
    ensures IdsOk(Do(s, global, m)) && s.opens <= Do(s, global, m).opens
  {
    hide DoLocal, DoDrop, DoOpener, DoLoop, DoAll, DoClient, DoBeat, NextId;
    if m.ClientDoes? && m.client.ClientOpen? {
      OpenKeepsIds(s);
    } else if m.ClientDoes? {
      ClientKeys(s, m.client);
    }
  }

  lemma OpenKeepsIds(s: Session)
    requires IdsOk(s)
    ensures IdsOk(DoClient(s, ClientOpen)) && s.opens <= DoClient(s, ClientOpen).opens
  {
    hide NextId;
    var id := NextId(s.opens);
    if s.opens < MAX_OPENS && id in s.clients {
      var j: nat :| j < s.opens && NextId(j) == id;
      IdsAreFresh(j, s.opens);
    }
    var s' := DoClient(s, ClientOpen);
    forall other <- s'.clients.Keys
      ensures exists j: nat :: j < s'.opens && NextId(j) == other
    {
      if other == id {
        assert s.opens < s'.opens && NextId(s.opens) == other;
      } else {
        var j: nat :| j < s.opens && NextId(j) == other;
        assert j < s'.opens;
      }
    }
  }

  lemma ClientKeys(s: Session, m: ClientMove)
    requires CanClient(s, m) && !m.ClientOpen?
    ensures var s' := DoClient(s, m); s'.clients.Keys == s.clients.Keys && s'.opens == s.opens && s'.rogue == s.rogue
  {
    hide Act, Sent, Receive, WindowFits;
  }

  /** Session k, if it exists yet, is in order as far as ids go. */
  ghost predicate IdsOkAt(h: Host, k: nat) {
    k < |h.sessions| ==> IdsOk(h.sessions[k])
  }

  predicate Behaved(run: seq<Event>, k: nat) {
    forall j: nat | j < |run| && run[j].Step? && run[j].k == k :: !run[j].move.Rogue?
  }

  lemma {:induction false} RunKeepsIds(h: Host, run: seq<Event>, k: nat)
    requires Legal(h, run) && IdsOkAt(h, k) && Behaved(run, k)
    ensures IdsOkAt(After(h, run), k)
    decreases |run|
  {
    hide IdsOk, Can, Do;
    if run != [] {
      var h' := DoHost(h, run[0]);
      if run[0].Step? && run[0].k == k {
        MoveKeepsIds(h.sessions[k], h.global, run[0].move);
      } else if run[0].Accept? {
        StartIds();
      }
      assert Behaved(run[1..], k);
      RunKeepsIds(h', run[1..], k);
    }
  }

  lemma StartIds()
    ensures IdsOk(START)
  {
  }

  /**
   A client that only runs the client code, and opens at most 2^31 streams, never breaks the protocol:
   the premise of the theorems below.
   */
  lemma ClientCodeKeepsTheProtocol(limit: nat, run: seq<Event>, k: nat)
    requires Legal(Boot(limit), run) && k < |After(Boot(limit), run).sessions|
    requires Behaved(run, k) && After(Boot(limit), run).sessions[k].opens <= MAX_OPENS
    ensures !After(Boot(limit), run).sessions[k].rogue
  {
    hide DoHost, CanHost;
    RunKeepsIds(Boot(limit), run, k);
  }

  // ----- Theorems ----------------------------------------------------------------------------

  /** The view of a stream after a run, for a client that kept to the protocol. */
  lemma ReachableView(limit: nat, run: seq<Event>, k: nat, id: StreamId)
    requires Legal(Boot(limit), run) && k < |After(Boot(limit), run).sessions|
    requires var s := After(Boot(limit), run).sessions[k]; !s.rogue && id in s.clients
    ensures var v := ViewOf(After(Boot(limit), run).sessions[k], id);
            ViewOk(v) && (v.obj.Some? ==> S.Ok(v.obj.value))
  {
    hide ViewOk, PendingOk, HomesOk, FramesOk, S.Ok, Legal;
    ReachableFlows(limit, run, k);
  }

  /**
   Window conservation over every interleaving: once a client has taken OPEN_OK, its window plus
   everything acquired, on the wires, held by the server or awaiting credit never exceeds 4 MiB, and
   is exactly 4 MiB while nothing on the stream has been closed or has failed.
   */
  lemma WindowConservation(limit: nat, run: seq<Event>, k: nat, id: StreamId)
    requires Legal(Boot(limit), run) && k < |After(Boot(limit), run).sessions|
    requires var s := After(Boot(limit), run).sessions[k]; !s.rogue && id in s.clients && s.clients[id].flow
    ensures var v := ViewOf(After(Boot(limit), run).sessions[k], id);
            && v.obj.Some? && 0 <= v.c.window <= 4 * 0x10_0000
            && v.c.window + Outstanding(v) <= 4 * 0x10_0000
            && (Healthy(v) ==> v.c.window + Outstanding(v) == 4 * 0x10_0000)
            && 0 <= v.obj.value.qbytes <= 4 * 0x10_0000
  {
    hide Legal, After, ViewOf;
    ReachableView(limit, run, k, id);
    var v := ViewOf(After(Boot(limit), run).sessions[k], id);
    ViewClient(After(Boot(limit), run).sessions[k], id);
    Conservation(v);
    HeldFitsWindow(v);
  }

  lemma ViewClient(s: Session, id: StreamId)
    requires id in s.clients
    ensures ViewOf(s, id).c == s.clients[id]
  {
  }

  /**
   Upload integrity: the upstream always holds a prefix, in order, of the bytes the client framed;
   while the stream is healthy every framed byte is delivered, held, queued, in the read loop's hands
   or on the wire, in that order; and a client that sees its full window again knows all were delivered.
   */
  lemma UploadIntegrity(limit: nat, run: seq<Event>, k: nat, id: StreamId)
    requires Legal(Boot(limit), run) && k < |After(Boot(limit), run).sessions|
    requires var s := After(Boot(limit), run).sessions[k]; !s.rogue && id in s.clients
    ensures var v := ViewOf(After(Boot(limit), run).sessions[k], id);
            && (v.obj.Some? ==> v.obj.value.delivered <= v.c.framed)
            && (Healthy(v) ==> v.obj.value.delivered + Hold(v.obj.value.pump) + Flat(v.obj.value.queue) + v.hand + v.wire
                               == v.c.framed)
            && (v.c.flow && v.c.window == 4 * 0x10_0000 ==> v.obj.Some? && v.obj.value.delivered == v.c.framed)
  {
    hide Legal, After, ViewOf;
    ReachableView(limit, run, k, id);
    var v := ViewOf(After(Boot(limit), run).sessions[k], id);
    if v.c.flow && v.c.window == WINDOW {
      FullWindowMeansDelivered(v);
    }
  }

  /** The credit in a WINDOW_UPDATE is never truncated by its 32-bit field. */
  lemma CreditFits(limit: nat, run: seq<Event>, k: nat, i: nat)
    requires Legal(Boot(limit), run) && k < |After(Boot(limit), run).sessions|
    requires var s := After(Boot(limit), run).sessions[k]; i < |s.objs| && s.objs[i].pump.Crediting?
    ensures var o := After(Boot(limit), run).sessions[k].objs[i];
            S.Out(o, S.PumpCredit(true)) == [S.Window(o.id, o.pump.credited)] && 0 < o.pump.credited
  {
    hide Legal, After, S.Ok;
    ReachableFlows(limit, run, k);
    S.CreditingFits(After(Boot(limit), run).sessions[k].objs[i]);
  }

  /**
   Closing goes by id: a late closeStream of a pump, a reader or a handleOpen call touches no other
   stream's object and no other table entry.
   */
  lemma CloseHitsOnlyItsOwn(limit: nat, run: seq<Event>, k: nat, m: DropMove)
    requires Legal(Boot(limit), run) && k < |After(Boot(limit), run).sessions|
    requires var s := After(Boot(limit), run).sessions[k]; !s.rogue && CanDrop(s, m)
    ensures var s := After(Boot(limit), run).sessions[k];
            var s' := DoDrop(s, m);
            var id := s.objs[m.i].id;
            && (forall j: nat | j < |s.objs| && j != m.i :: s.objs[j].id != id && s'.objs[j] == s.objs[j])
            && s'.table == s.table - {id}
            && (id in s.table ==> s.table[id] == m.i && s'.objs[m.i].grab.Grabbed?)
  {
    hide Legal, After, ViewsOk, PendingOk, FramesOk, S.Ok;
    ReachableFlows(limit, run, k);
    OwnDrop(After(Boot(limit), run).sessions[k], m);
  }

  lemma DroppedId(o: S.Obj, m: DropMove)
    requires match m {
               case ByPump(_) => o.pump.PumpDropping?
               case ByReader(_) => o.reader.ReaderDropping?
               case ByOpener(_) => o.opener.OpenerDropping?
             }
    ensures Dropped(o, m).id == o.id
  {
  }

  lemma OwnDrop(s: Session, m: DropMove)
    requires TableOk(s) && HomesOk(s) && CanDrop(s, m)
    ensures var s' := DoDrop(s, m);
            var id := s.objs[m.i].id;
            && (forall j: nat | j < |s.objs| && j != m.i :: s.objs[j].id != id && s'.objs[j] == s.objs[j])
            && s'.table == s.table - {id}
            && (id in s.table ==> s.table[id] == m.i && s'.objs[m.i].grab.Grabbed?)
  {
    hide Dropped, LoadAndDelete;
    var o := s.objs[m.i];
    DroppedId(o, m);
    OwnEntry(s, m.i);
    OwnLoad(SetObj(s, m.i, Dropped(o, m)), m.i, o.id);
  }

  lemma OwnEntry(s: Session, i: nat)
    requires TableOk(s) && HomesOk(s) && i < |s.objs|
    ensures forall j: nat | j < |s.objs| && j != i :: s.objs[j].id != s.objs[i].id
    ensures s.objs[i].id in s.table ==> s.table[s.objs[i].id] == i
  {
    var id := s.objs[i].id;
    if id in s.table {
      assert s.home[s.objs[s.table[id]].id] == s.table[id];
    }
  }

  lemma OwnLoad(s: Session, i: nat, id: StreamId)
    requires i < |s.objs| && (id in s.table ==> s.table[id] == i)
    ensures var s' := LoadAndDelete(s, id);
            && |s'.objs| == |s.objs| && (forall j: nat | j < |s.objs| && j != i :: s'.objs[j] == s.objs[j])
            && s'.table == s.table - {id} && (id in s.table ==> s'.objs[i].grab.Grabbed?)
  {
    if id !in s.table {
      assert s.table - {id} == s.table;
    }
  }
}
