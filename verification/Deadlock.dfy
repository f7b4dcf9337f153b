/**
 The one way in which back pressure stops a session, reached by an ordinary client. It opens more streams
 at once than the server dials, so that one is refused; both wires fill up behind a PING; and an upload on
 a stream that nothing is wrong with stands still for good.
 */
module Deadlock {
  import opened Bytes
  import opened Limits
  import opened Session
  import opened StreamView
  import opened Flow
  import opened Host
  import opened Upload
  import opened Progress
  import opened BackPressure
  import opened Delivery
  import opened SlowStreams
  import opened Tightness
  import opened Witness
  import S = StreamObject

  /** Apart from OPENs and heartbeats the session is where the upload is about to begin. */
  ghost predicate Waiting(s: Session, data: seq<byte>, opens: nat) {
    && s.objs == [Running(S.Ready(0))] && s.table == map[ID := 0] && s.home == map[ID := 0]
    && !s.closed && s.all.NotBegun? && s.opens == opens && !s.rogue
    && ID in s.clients && s.clients[ID] == OPEN_CLIENT.(todo := data)
    && forall id <- s.clients.Keys :: id < 2 * opens
  }

  /** n more OPENs have been accepted, and no frame is under way. */
  ghost predicate Crowd(s: Session, data: seq<byte>, n: nat) {
    Waiting(s, data, n + 1) && s.loop.Idle? && s.slots == n && s.c2s == [] && s.s2c == [] && !s.ponging
  }

  lemma FreshId(s: Session, data: seq<byte>, opens: nat)
    requires Waiting(s, data, opens) && 0 < opens < MAX_OPENS
    ensures NextId(opens) == 2 * opens + 1 && NextId(opens) !in s.clients && NextId(opens) != ID
  {
  }

  /** The client opens another stream. */
  lemma OpenMore(run: seq<Event>, s: Session, data: seq<byte>, opens: nat, cap: nat) returns (run': seq<Event>, s': Session)
    requires Path(run, s, 0, cap) && Waiting(s, data, opens) && 0 < opens < MAX_OPENS && |s.c2s| < cap
    ensures Path(run', s', 0, cap) && Waiting(s', data, opens + 1)
    ensures s' == s.(clients := s'.clients, opens := opens + 1, c2s := s.c2s + [OpenFrame(NextId(opens))])
  {
    hide Path, NextId;
    FreshId(s, data, opens);
    run' := Go(run, s, 0, ClientDoes(ClientOpen), cap);
    s' := Do(s, 0, ClientDoes(ClientOpen));
  }

  /** The read loop takes it off the wire, and accepts it as long as a place is free. */
  lemma TakeOpen(run: seq<Event>, s: Session, data: seq<byte>, opens: nat, cap: nat) returns (run': seq<Event>, s': Session)
    requires Path(run, s, 0, cap) && Waiting(s, data, opens) && s.loop.Idle? && |s.c2s| == 1 && s.c2s[0].OpenFrame?
    ensures Path(run', s', 0, cap) && Waiting(s', data, opens)
    ensures s'.c2s == [] && s'.s2c == s.s2c && s'.ponging == s.ponging
    ensures if s.slots < MAX_CONCURRENT_OPENS then s'.loop.Idle? && s'.slots == s.slots + 1 else s'.loop.Refusing?
  {
    hide Path;
    run' := Go(run, s, 0, LoopDoes(LoopRecv), cap);
    s' := Do(s, 0, LoopDoes(LoopRecv));
    hide DoRecv;
    RecvResult(s);
  }

  lemma RecvResult(s: Session)
    requires s.loop.Idle? && |s.c2s| == 1 && s.c2s[0].OpenFrame?
    ensures var s' := DoRecv(s);
            && s'.c2s == [] && s'.s2c == s.s2c && s'.ponging == s.ponging && s'.clients == s.clients && s'.objs == s.objs
            && s'.table == s.table && s'.home == s.home && s'.closed == s.closed && s'.all == s.all && s'.opens == s.opens
            && s'.rogue == s.rogue
            && if s.slots < MAX_CONCURRENT_OPENS then s'.loop.Idle? && s'.slots == s.slots + 1 else s'.loop.Refusing?
  {
  }

  lemma {:induction false} Gather(data: seq<byte>, n: nat, cap: nat) returns (run: seq<Event>, s: Session)
    requires cap > 0 && n <= MAX_CONCURRENT_OPENS
    ensures Path(run, s, 0, cap) && Crowd(s, data, n)
  {
    hide Path, Waiting, NextId;
    if n == 0 {
      run := BeginUpload(data, cap);
      s := Uploading(data);
      assert Waiting(s, data, 1) by { UploadWaits(data); }
    } else {
      run, s := Gather(data, n - 1, cap);
      run, s := OpenMore(run, s, data, n, cap);
      run, s := TakeOpen(run, s, data, n + 1, cap);
    }
  }

  lemma UploadWaits(data: seq<byte>)
    ensures Waiting(Uploading(data), data, 1)
  {
  }

  /** The read loop is at its refusal and the client's at its PONG; u OPENs and d PINGs are on the wires. */
  ghost predicate Closing(s: Session, data: seq<byte>, u: nat, d: nat) {
    && Waiting(s, data, MAX_CONCURRENT_OPENS + 2 + u) && s.loop.Refusing? && s.ponging && |s.c2s| == u && |s.s2c| == d
    && (forall k: nat | k < u :: s.c2s[k].OpenFrame?) && (forall k: nat | k < d :: s.s2c[k].Ping?)
  }

  lemma Beat(run: seq<Event>, s: Session, data: seq<byte>, opens: nat, cap: nat) returns (run': seq<Event>, s': Session)
    requires Path(run, s, 0, cap) && Waiting(s, data, opens) && |s.s2c| < cap
    ensures Path(run', s', 0, cap) && Waiting(s', data, opens) && s' == s.(s2c := s.s2c + [S.Ping(0)])
  {
    hide Path;
    run' := Go(run, s, 0, BeatDoes(ServerPing), cap);
    s' := s.(s2c := s.s2c + [S.Ping(0)]);
    assert Do(s, 0, BeatDoes(ServerPing)) == s';
  }

  lemma TakePing(run: seq<Event>, s: Session, data: seq<byte>, opens: nat, cap: nat) returns (run': seq<Event>, s': Session)
    requires Path(run, s, 0, cap) && Waiting(s, data, opens) && s.s2c == [S.Ping(0)] && !s.ponging
    ensures Path(run', s', 0, cap) && Waiting(s', data, opens)
    ensures s' == s.(s2c := [], ponging := true, clients := s'.clients)
  {
    hide Path;
    run' := Go(run, s, 0, ClientDoes(ClientRecv), cap);
    s' := Do(s, 0, ClientDoes(ClientRecv));
    hide Waiting;
    assert s'.s2c == [];
    PingChangesNothing(s, data, opens);
  }

  lemma PingChangesNothing(s: Session, data: seq<byte>, opens: nat)
    requires Waiting(s, data, opens) && s.s2c != [] && s.s2c[0].Ping? && !s.ponging
    ensures Waiting(DoClient(s, ClientRecv), data, opens)
  {
  }

  lemma Refuse(data: seq<byte>, cap: nat) returns (run: seq<Event>, s: Session)
    requires cap > 0
    ensures Path(run, s, 0, cap) && Closing(s, data, 0, 0)
  {
    hide Path, Waiting, NextId;
    var opens := MAX_CONCURRENT_OPENS + 1;
    run, s := Gather(data, MAX_CONCURRENT_OPENS, cap);
    run, s := OpenMore(run, s, data, opens, cap);
    run, s := TakeOpen(run, s, data, opens + 1, cap);
    run, s := Beat(run, s, data, opens + 1, cap);
    run, s := TakePing(run, s, data, opens + 1, cap);
  }

  lemma {:induction false} FillUp(data: seq<byte>, u: nat, cap: nat) returns (run: seq<Event>, s: Session)
    requires u <= cap && 0 < cap < MAX_OPENS - MAX_CONCURRENT_OPENS - 2
    ensures Path(run, s, 0, cap) && Closing(s, data, u, 0)
  {
    hide Path, Waiting, NextId;
    if u == 0 {
      run, s := Refuse(data, cap);
    } else {
      run, s := FillUp(data, u - 1, cap);
      run, s := OpenMore(run, s, data, MAX_CONCURRENT_OPENS + 1 + u, cap);
    }
  }

  lemma {:induction false} FillDown(data: seq<byte>, d: nat, cap: nat) returns (run: seq<Event>, s: Session)
    requires d <= cap && 0 < cap < MAX_OPENS - MAX_CONCURRENT_OPENS - 2
    ensures Path(run, s, 0, cap) && Closing(s, data, cap, d)
  {
    hide Path, Waiting;
    if d == 0 {
      run, s := FillUp(data, cap, cap);
    } else {
      run, s := FillDown(data, d - 1, cap);
      run, s := Beat(run, s, data, MAX_CONCURRENT_OPENS + 2 + cap, cap);
    }
  }

  lemma ClosingIsWedged(s: Session, data: seq<byte>, cap: nat)
    requires Closing(s, data, cap, cap)
    ensures Wedged(s, cap) && Undisturbed(s, ID) && Whole(s.clients[ID]) == data && s.clients[ID].framed == []
  {
    assert OPEN_CLIENT.framed + [] + data == data;
  }

  // ----- Until nothing more can move ---------------------------------------------------------

  /** The session is wedged with the upload ahead of it, none of it framed. */
  ghost predicate Doomed(s: Session, data: seq<byte>, cap: nat) {
    && s.opens <= MAX_OPENS && Wedged(s, cap) && Undisturbed(s, ID)
    && ID in s.clients && Whole(s.clients[ID]) == data && s.clients[ID].framed == []
  }

  lemma DoomedStep(run: seq<Event>, s: Session, g: int, m: Move, data: seq<byte>, cap: nat)
    requires Path(run, s, g, cap) && Doomed(s, data, cap) && Can(s, m) && Driven(m) && !Jammed(s, m, cap)
    ensures var s' := Do(s, g, m); Doomed(s', data, cap) && 0 <= Measure(s') < Measure(s)
  {
    hide Can, Do, Measure, Driven, Jammed, HostOk, FlowsOk, IdsOk, Whole, Undisturbed, Spares, Sheds, GlobalDelta, Asks, Legal,
         After, Capped, Boot, Adds;
    var h := Single(s, g);
    ReachableCourse(1, run, 0, ID);
    assert OnCourse(h, 0, ID);
    DrivenKeepsWedge(s, g, m, cap);
    CourseStep(h, Step(0, m), 0, ID);
    MeasureIsNatural(Do(s, g, m));
    assert data + [] == data;
  }

  lemma DrivenKeepsWedge(s: Session, g: int, m: Move, cap: nat)
    requires Wedged(s, cap) && Can(s, m) && Driven(m) && !Jammed(s, m, cap)
    ensures Frozen(s, Do(s, g, m)) && Do(s, g, m).opens == s.opens
    ensures Spares(s, m, ID) && Asks(m, ID) == [] && !Sheds(s, g, m, ID)
  {
    hide DoLocal, DoDrop, DoOpener, DoClient, DoBeat, DoLoop;
    WedgeStays(s, g, m, cap);
    OpensStay(s, g, m);
  }

  lemma {:induction false} RunOut(run: seq<Event>, s: Session, g: int, data: seq<byte>, cap: nat)
    returns (run': seq<Event>, s': Session, g': int)
    requires Path(run, s, g, cap) && Doomed(s, data, cap)
    ensures Path(run', s', g', cap) && Doomed(s', data, cap) && StuckWithin(s', {}, cap)
    decreases Measure(s)
  {
    hide Path, Doomed, Can, Do, Measure, Driven, Jammed, GlobalDelta, SlowWrite;
    if StuckWithin(s, {}, cap) {
      run', s', g' := run, s, g;
    } else {
      var m: Move :| Driven(m) && !SlowWrite(m, {}) && Can(s, m) && !Jammed(s, m, cap);
      DoomedStep(run, s, g, m, data, cap);
      NotRogueMove(m);
      run' := Go(run, s, g, m, cap);
      run', s', g' := RunOut(run', Do(s, g, m), g + GlobalDelta(s, m), data, cap);
    }
  }

  lemma NotRogueMove(m: Move)
    requires Driven(m)
    ensures !m.Rogue?
  {
  }

  /**
   For every upload and every capacity below 2^31 - 66 frames, a client that keeps to the client code can
   get its session wedged while nothing is wrong with the stream, none of the upload has been sent, and
   every move that is left waits for room.
   */
  lemma WedgeIsReachable(data: seq<byte>, cap: nat) returns (run: seq<Event>)
    requires 0 < cap < MAX_OPENS - MAX_CONCURRENT_OPENS - 2
    ensures Legal(Boot(1), run) && Behaved(run, 0) && Capped(Boot(1), run, 0, cap)
    ensures var h := After(Boot(1), run);
            && |h.sessions| == 1
            && var s := h.sessions[0];
               && s.opens <= MAX_OPENS && Undisturbed(s, ID)
               && Whole(s.clients[ID]) == data && s.clients[ID].framed == []
               && Wedged(s, cap) && StuckWithin(s, {}, cap)
  {
    hide Legal, After, Boot, Capped, Closing, Undisturbed, Whole, StuckWithin, Wedged;
    var s, g;
    run, s := FillDown(data, cap, cap);
    OpensOf(s, data, cap);
    ClosingIsWedged(s, data, cap);
    HasClient(s);
    run, s, g := RunOut(run, s, 0, data, cap);
  }

  lemma OpensOf(s: Session, data: seq<byte>, cap: nat)
    requires Closing(s, data, cap, cap)
    ensures s.opens == MAX_CONCURRENT_OPENS + 2 + cap
  {
  }

  lemma HasClient(s: Session)
    requires Undisturbed(s, ID)
    ensures ID in s.clients
  {
    hide Calm;
  }

  /**
   And what is not framed by then never arrives: in every continuation that respects the capacity, until
   one of the two writes fails, no upstream of a client that kept to the protocol holds a byte beyond those
   framed when the session was wedged.
   */
  lemma WedgedUploadStandsStill(limit: nat, run: seq<Event>, tail: seq<Event>, k: nat, id: StreamId, cap: nat)
    requires Legal(Boot(limit), run) && k < |After(Boot(limit), run).sessions|
    requires var h := After(Boot(limit), run);
             && Wedged(h.sessions[k], cap) && !h.sessions[k].rogue && id in h.sessions[k].clients
             && Legal(h, tail) && Capped(h, tail, k, cap)
    requires forall e <- tail :: Own(e, k) ==> !CutsWrite(e.move)
    ensures var h := After(Boot(limit), run);
            && k < |After(h, tail).sessions|
            && var s' := After(h, tail).sessions[k];
               && id in s'.clients && Wedged(s', cap)
               && var v := ViewOf(s', id);
                  v.obj.Some? ==> v.obj.value.delivered <= h.sessions[k].clients[id].framed
  {
    hide Legal, After, Capped, HostOk, FlowOk, Wedged, Boot, CutsWrite;
    var h := After(Boot(limit), run);
    BootOk(limit);
    ReachableOk(limit, run);
    RunFlows(limit, run);
    WedgedForGood(h, tail, k, cap);
    RunKeepsFlows(h, tail);
    DeliveredIsFramed(After(h, tail).sessions[k], id);
  }

  lemma DeliveredIsFramed(s: Session, id: StreamId)
    requires FlowOk(s) && id in s.clients
    ensures var v := ViewOf(s, id); v.obj.Some? ==> v.obj.value.delivered <= s.clients[id].framed
  {
    hide HomesOk, PendingOk, FramesOk, UpBytes, Credits, Oks;
    assert ViewOk(ViewOf(s, id));
  }

  // ----- The exact condition -----------------------------------------------------------------

  /** The continuation delivers all that the user has asked to upload, with no help from slow upstreams. */
  ghost predicate Completes(h: Host, tail: seq<Event>, k: nat, id: StreamId, slow: set<nat>, cap: nat) {
    && Patient(tail, k, slow) && Legal(h, tail) && Capped(h, tail, k, cap)
    && k < |h.sessions| && k < |After(h, tail).sessions|
    && id in h.sessions[k].clients && id in After(h, tail).sessions[k].clients
    && var v := ViewOf(After(h, tail).sessions[k], id);
       v.obj.Some? && v.obj.value.delivered == Whole(h.sessions[k].clients[id])
  }

  lemma PatientCutsNothing(tail: seq<Event>, k: nat, slow: set<nat>)
    requires Patient(tail, k, slow)
    ensures forall e <- tail :: Own(e, k) ==> !CutsWrite(e.move)
  {
    forall e <- tail
      ensures !CutsWrite(e.move)
    {
      assert Driven(e.move);
    }
  }

  lemma WedgedCompletesNothing(
      limit: nat, run: seq<Event>, tail: seq<Event>, k: nat, id: StreamId, slow: set<nat>, cap: nat)
    requires Legal(Boot(limit), run) && k < |After(Boot(limit), run).sessions|
    requires var h := After(Boot(limit), run);
             && Wedged(h.sessions[k], cap) && !h.sessions[k].rogue && id in h.sessions[k].clients
             && |h.sessions[k].clients[id].framed| < |Whole(h.sessions[k].clients[id])|
    ensures !Completes(After(Boot(limit), run), tail, k, id, slow, cap)
  {
    hide Legal, After, Capped, Wedged, Boot, CutsWrite, Patient, Whole, ViewOf;
    var h := After(Boot(limit), run);
    if Completes(h, tail, k, id, slow, cap) {
      PatientCutsNothing(tail, k, slow);
      WedgedUploadStandsStill(limit, run, tail, k, id, cap);
    }
  }

  /**
   Exactly when an upload can be completed. Take any state that a run within the capacity reaches, with room
   within the limits, and an undisturbed stream, not a slow one, with bytes yet to be framed. Scheduling
   alone can deliver the whole upload, without a byte from any slow upstream, if and only if the session is
   not wedged.
   */
  lemma CompletedExactly(limit: nat, run: seq<Event>, k: nat, id: StreamId, slow: set<nat>, cap: nat)
    requires cap > 0
    requires Legal(Boot(limit), run) && Behaved(run, k) && Capped(Boot(limit), run, k, cap)
    requires var h := After(Boot(limit), run);
             && k < |h.sessions| && h.sessions[k].opens <= MAX_OPENS && Roomy(h, k)
             && Undisturbed(h.sessions[k], id) && h.sessions[k].home[id] !in slow
             && |h.sessions[k].clients[id].framed| < |Whole(h.sessions[k].clients[id])|
    ensures var h := After(Boot(limit), run);
            (exists tail: seq<Event> :: Completes(h, tail, k, id, slow, cap)) <==> !Wedged(h.sessions[k], cap)
  {
    hide Legal, After, Capped, Wedged, Boot, Patient, Whole, ViewOf, Undisturbed, Roomy, Measure, HostOk, FlowsOk, IdsOk;
    var h := After(Boot(limit), run);
    ReachableCourse(limit, run, k, id);
    HasHome(h, k, id);
    NotRogue(h.sessions[k]);
    if Wedged(h.sessions[k], cap) {
      forall tail: seq<Event>
        ensures !Completes(h, tail, k, id, slow, cap)
      {
        WedgedCompletesNothing(limit, run, tail, k, id, slow, cap);
      }
    } else {
      var tail := SlowStreamsStopNobody(limit, run, k, id, slow, cap);
      HasObject(After(h, tail).sessions[k], id);
      assert Completes(h, tail, k, id, slow, cap);
    }
  }

  lemma HasObject(s: Session, id: StreamId)
    requires Undisturbed(s, id)
    ensures id in s.clients && ViewOf(s, id).obj.Some?
  {
    hide Calm, UpBytes, Credits, Oks;
  }
}
