/**
 The stream limit of Shedding cannot be raised: one client that keeps to the protocol reaches, with
 33 streams and no other session, a state in which the server sheds a stream.
 */
module Tightness {
  import opened Bytes
  import opened Limits
  import opened Session
  import opened Sums
  import opened Host
  import opened Shedding
  import S = StreamObject

  /** The server with one session in state `s` and the global counter at `g`. */
  function Single(s: Session, g: int): Host {
    Host([s], g, 1)
  }

  lemma {:induction false} LegalSnoc(h: Host, run: seq<Event>, e: Event)
    requires Legal(h, run) && CanHost(After(h, run), e)
    ensures Legal(h, run + [e]) && After(h, run + [e]) == DoHost(After(h, run), e)
    decreases |run|
  {
    hide CanHost, DoHost;
    if run == [] {
      assert (run + [e])[1..] == [];
    } else {
      assert (run + [e])[1..] == run[1..] + [e];
      LegalSnoc(DoHost(h, run[0]), run[1..], e);
    }
  }

  lemma Step1(run: seq<Event>, s: Session, g: int, m: Move) returns (run': seq<Event>)
    requires Legal(Boot(1), run) && After(Boot(1), run) == Single(s, g) && Can(s, m)
    ensures Legal(Boot(1), run') && After(Boot(1), run') == Single(Do(s, g, m), g + GlobalDelta(s, m))
  {
    hide Can, Do, GlobalDelta, Legal, After;
    LegalSnoc(Boot(1), run, Step(0, m));
    run' := run + [Step(0, m)];
  }

  /** Between frames: streams 0..n exist, and the n-th has `left` bytes of its window, and of its upload, to go. */
  ghost predicate Filling(s: Session, g: int, n: nat, left: nat) {
    && n < 100 && left <= WINDOW
    && Quiescent(s, n + 1)
    && (var o := s.objs[n]; o.id == 2 * n + 1 && o.mu.Free? && !o.closed)
    && 2 * n + 1 in s.table && s.table[2 * n + 1] == n
    && 2 * n + 1 in s.clients
    && (var c := s.clients[2 * n + 1]; c.flow && c.returned && c.window == left && c.writer.Quiet? && |c.todo| == left)
    && s.buffered == g == (n + 1) * WINDOW - left
  }

  /** No frame or dial under way; n streams, all of them announced and none closed by anyone. */
  ghost predicate Quiescent(s: Session, n: nat) {
    Between(s, n) && AllLaunched(s, n)
  }

  ghost predicate AllLaunched(s: Session, n: nat) {
    n <= |s.objs| && forall i: nat | i < n :: s.objs[i].opener.Launched?
  }

  ghost predicate Between(s: Session, n: nat) {
    && !s.rogue && !s.closed && s.all.NotBegun? && s.loop.Idle? && !s.ponging && s.slots == n
    && s.c2s == [] && s.s2c == [] && s.dialing == [] && s.opens == n && |s.objs| == n
    && (forall id <- s.clients.Keys :: id < 2 * n)
    && (forall id <- s.table.Keys :: id < 2 * n)
    && (forall i: nat | i < n :: s.objs[i].reclaim.Unclaimed?)
  }

  /** A chunk leaves the client: acquired, framed, and taken off the wire by the read loop. */
  lemma SendChunk(run: seq<Event>, s: Session, g: int, n: nat, left: nat) returns (run': seq<Event>, s': Session)
    requires Filling(s, g, n, left) && left > 0
    requires Legal(Boot(1), run) && After(Boot(1), run) == Single(s, g)
    ensures Legal(Boot(1), run') && After(Boot(1), run') == Single(s', g)
    ensures s'.loop.Looked? && s'.loop.i == n && |s'.loop.payload| == if left > MAX_PAYLOAD then MAX_PAYLOAD else left
    ensures Filling(s'.(loop := Idle, buffered := s.buffered + |s'.loop.payload|), g + |s'.loop.payload|, n, left - |s'.loop.payload|)
    ensures s'.buffered == s.buffered
  {
    hide Legal, After;
    var id := 2 * n + 1;
    var chunk := Next(s.clients[id].todo);
    run' := Step1(run, s, g, ClientDoes(ClientAcquire(id)));
    var s1 := Do(s, g, ClientDoes(ClientAcquire(id)));
    assert s1.c2s == [];
    run' := Step1(run', s1, g, ClientDoes(ClientFrame(id, true)));
    var s2 := Do(s1, g, ClientDoes(ClientFrame(id, true)));
    assert s2.c2s == [DataFrame(id, chunk)];
    run' := Step1(run', s2, g, LoopDoes(LoopRecv));
    s' := Do(s2, g, LoopDoes(LoopRecv));
    assert s'.c2s == [] && s'.s2c == [];
  }

  /** With room in both budgets the payload is queued and counted. */
  lemma QueueChunk(run: seq<Event>, s: Session, g: int, n: nat) returns (run': seq<Event>, s': Session)
    requires s.loop.Looked? && s.loop.i == n && n < |s.objs| && s.objs[n].mu.Free? && !s.objs[n].closed
    requires s.buffered + |s.loop.payload| <= SESSION_CAP && g + |s.loop.payload| <= GLOBAL_CAP
    requires Legal(Boot(1), run) && After(Boot(1), run) == Single(s, g)
    ensures Legal(Boot(1), run') && After(Boot(1), run') == Single(s', g + |s.loop.payload|)
    ensures s' == s.(loop := Idle, buffered := s.buffered + |s.loop.payload|,
                     objs := s.objs[n := S.PushDone(S.Push(s.objs[n], s.loop.payload))])
  {
    hide Legal, After, S.Push, S.PushDone;
    var p := s.loop.payload;
    run' := Step1(run, s, g, LoopDoes(LoopTestSession));
    var s1 := s.(loop := SessionFits(n, p));
    run' := Step1(run', s1, g, LoopDoes(LoopTestGlobal));
    var s2 := s.(loop := Admitted(n, p));
    run' := Step1(run', s2, g, LoopDoes(LoopLock));
    var s3 := SetObj(s, n, S.Push(s.objs[n], p)).(loop := Adding(n, |p|));
    run' := Step1(run', s3, g, LoopDoes(LoopBillSession));
    var s4 := s3.(loop := Added(n, |p|), buffered := s.buffered + |p|);
    run' := Step1(run', s4, g, LoopDoes(LoopBillGlobal));
    s' := Do(s4, g, LoopDoes(LoopBillGlobal));
    assert s'.objs == s.objs[n := S.PushDone(S.Push(s.objs[n], p))];
  }

  /** The n-th stream uploads its whole window while its pump is never scheduled. */
  lemma FillStream(run: seq<Event>, s: Session, g: int, n: nat, left: nat) returns (run': seq<Event>, s': Session)
    requires Filling(s, g, n, left) && n < SESSION_STREAMS
    requires Legal(Boot(1), run) && After(Boot(1), run) == Single(s, g)
    ensures Legal(Boot(1), run') && After(Boot(1), run') == Single(s', (n + 1) * WINDOW)
    ensures Filling(s', (n + 1) * WINDOW, n, 0)
    decreases left
  {
    if left == 0 {
      run', s' := run, s;
    } else {
      hide Legal, After, Boot;
      var s1;
      run', s1 := SendChunk(run, s, g, n, left);
      var p := |s1.loop.payload|;
      Room(n, left, p);
      run', s' := QueueChunk(run', s1, g, n);
      PushKeepsFilling(s1, n, g + p, left - p);
      run', s' := FillStream(run', s', g + p, n, left - p);
    }
  }

  lemma Room(n: nat, left: nat, p: nat)
    requires n < SESSION_STREAMS && p <= left <= WINDOW
    ensures (n + 1) * WINDOW - left + p <= SESSION_CAP <= GLOBAL_CAP
  {
  }

  lemma PushKeepsFilling(s: Session, n: nat, g: int, left: nat)
    requires s.loop.Looked? && n < |s.objs|
    requires Filling(s.(loop := Idle, buffered := s.buffered + |s.loop.payload|), g, n, left)
    ensures Filling(s.(loop := Idle, buffered := s.buffered + |s.loop.payload|,
                       objs := s.objs[n := S.PushDone(S.Push(s.objs[n], s.loop.payload))]), g, n, left)
  {
  }

  /** The next stream is opened and its client has a full window and a full window of data to write. */
  lemma OpenStream(run: seq<Event>, s: Session, g: int, n: nat) returns (run': seq<Event>, s': Session)
    requires Quiescent(s, n) && n <= SESSION_STREAMS && s.buffered == g == n * WINDOW
    requires Legal(Boot(1), run) && After(Boot(1), run) == Single(s, g)
    ensures Legal(Boot(1), run') && After(Boot(1), run') == Single(s', g) && Filling(s', g, n, WINDOW)
  {
    hide Legal, After, Boot;
    var id := 2 * n + 1;
    assert NextId(n) == id && id !in s.clients && id !in s.table;
    run' := Step1(run, s, g, ClientDoes(ClientOpen));
    var s1 := s.(clients := s.clients[id := NEW_CLIENT], c2s := [OpenFrame(id)], opens := n + 1);
    assert Do(s, g, ClientDoes(ClientOpen)) == s1;
    run' := Step1(run', s1, g, LoopDoes(LoopRecv));
    var s2 := s1.(c2s := [], dialing := [id], slots := n + 1);
    assert Do(s1, g, LoopDoes(LoopRecv)) == s2;
    run', s' := StoreStream(run', s2, g, n);
  }

  /** Its dial comes back. */
  lemma StoreStream(run: seq<Event>, s2: Session, g: int, n: nat) returns (run': seq<Event>, s': Session)
    requires n <= SESSION_STREAMS && s2.dialing == [2 * n + 1]
    requires Between(s2.(dialing := [], slots := n, opens := n, clients := s2.clients - {2 * n + 1}), n)
    requires AllLaunched(s2, n) && s2.opens == s2.slots == n + 1 && s2.buffered == g == n * WINDOW
    requires 2 * n + 1 in s2.clients && s2.clients[2 * n + 1] == NEW_CLIENT
    requires Legal(Boot(1), run) && After(Boot(1), run) == Single(s2, g)
    ensures Legal(Boot(1), run') && After(Boot(1), run') == Single(s', g) && Filling(s', g, n, WINDOW)
  {
    hide Legal, After, Boot;
    var id := 2 * n + 1;
    assert id !in s2.table;
    assert forall x <- s2.clients.Keys :: x == id || x in (s2.clients - {id}).Keys;
    run' := Step1(run, s2, g, OpenerDoes(DialStore(0)));
    var s3 := s2.(dialing := [], objs := s2.objs + [S.Fresh(id)], table := s2.table[id := n], home := s2.home[id := n]);
    assert Do(s2, g, OpenerDoes(DialStore(0))) == s3;
    run', s' := LaunchStream(run', s3, g, n);
  }

  lemma LaunchStream(run: seq<Event>, s: Session, g: int, n: nat) returns (run': seq<Event>, s': Session)
    requires n <= SESSION_STREAMS && Between(s, n + 1) && AllLaunched(s, n) && s.objs[n] == S.Fresh(2 * n + 1) && s.buffered == g == n * WINDOW
    requires 2 * n + 1 in s.table && s.table[2 * n + 1] == n && 2 * n + 1 in s.clients && s.clients[2 * n + 1] == NEW_CLIENT
    requires Legal(Boot(1), run) && After(Boot(1), run) == Single(s, g)
    ensures Legal(Boot(1), run') && After(Boot(1), run') == Single(s', g) && Filling(s', g, n, WINDOW)
  {
    hide Legal, After, Boot;
    var id := 2 * n + 1;
    run' := Step1(run, s, g, OpenerDoes(OpenerCheck(n)));
    var o := s.objs[n].(opener := S.Cleared);
    var s1 := s.(objs := s.objs[n := o]);
    run' := Step1(run', s1, g, Local(n, S.OpenerAnnounce(true)));
    var o' := o.(opener := S.Launched, pump := S.Ready(0), reader := S.Reading);
    var s2 := s.(objs := s.objs[n := o'], leaving := s.leaving + 1, s2c := [S.OpenOk(id, WINDOW)]);
    assert Do(s1, g, Local(n, S.OpenerAnnounce(true))) == s2;
    run' := Step1(run', s2, g, ClientDoes(ClientRecv));
    var c := NEW_CLIENT.(window := WINDOW, flow := true);
    var s3 := s2.(s2c := [], clients := s.clients[id := c]);
    assert Do(s2, g, ClientDoes(ClientRecv)) == s3;
    run', s' := FirstWrite(run', s3, g, n);
  }

  lemma FirstWrite(run: seq<Event>, s3: Session, g: int, n: nat) returns (run': seq<Event>, s': Session)
    requires n <= SESSION_STREAMS && Quiescent(s3, n + 1) && s3.buffered == g == n * WINDOW
    requires s3.objs[n].id == 2 * n + 1 && s3.objs[n].mu.Free? && !s3.objs[n].closed
    requires 2 * n + 1 in s3.table && s3.table[2 * n + 1] == n
    requires 2 * n + 1 in s3.clients && s3.clients[2 * n + 1] == NEW_CLIENT.(window := WINDOW, flow := true)
    requires Legal(Boot(1), run) && After(Boot(1), run) == Single(s3, g)
    ensures Legal(Boot(1), run') && After(Boot(1), run') == Single(s', g) && Filling(s', g, n, WINDOW)
  {
    hide Legal, After, Boot;
    var id := 2 * n + 1;
    var c := NEW_CLIENT.(window := WINDOW, flow := true);
    run' := Step1(run, s3, g, ClientDoes(ClientReturn(id)));
    var s4 := s3.(clients := s3.clients[id := c.(returned := true)]);
    assert Do(s3, g, ClientDoes(ClientReturn(id))) == s4 by {
      assert s3.c2s + [] == s3.c2s;
    }
    var data: seq<byte> := seq(WINDOW, _ => 0);
    run' := Step1(run', s4, g, ClientDoes(ClientWrite(id, data)));
    s' := Do(s4, g, ClientDoes(ClientWrite(id, data)));
    assert s'.c2s == [];
  }

  lemma Begin() returns (run: seq<Event>)
    ensures Legal(Boot(1), run) && After(Boot(1), run) == Single(START, 0)
  {
    hide START;
    run := [Accept];
    assert Lives([]) == [];
    assert Legal(DoHost(Boot(1), Accept), run[1..]);
  }

  /** n streams with full windows queued at the server: reachable for every n up to 32. */
  lemma Saturate(n: nat) returns (run: seq<Event>, s: Session)
    requires n <= SESSION_STREAMS
    ensures Legal(Boot(1), run) && After(Boot(1), run) == Single(s, n * WINDOW)
    ensures Quiescent(s, n) && s.buffered == n * WINDOW
  {
    if n == 0 {
      run := Begin();
      s := START;
    } else {
      hide Legal, After, Boot;
      run, s := Saturate(n - 1);
      run, s := OpenStream(run, s, (n - 1) * WINDOW, n - 1);
      run, s := FillStream(run, s, (n - 1) * WINDOW, n - 1, WINDOW);
    }
  }

  lemma QuiescentCharge(s: Session, n: nat)
    requires |s.objs| == n && AllLaunched(s, n) && forall i: nat | i < n :: s.objs[i].reclaim.Unclaimed?
    ensures Charge(s) == n
  {
    var ones := seq(n, _ => 1);
    assert Charges(s) == ones;
    Ones(n);
  }

  lemma {:induction false} Ones(n: nat)
    ensures Total(seq(n, _ => 1)) == n
  {
    if n > 0 {
      assert seq(n, _ => 1)[..n - 1] == seq(n - 1, _ => 1);
      Ones(n - 1);
    }
  }

  /** With 33 charged streams the budget test fails for a client that has done nothing wrong. */
  lemma ThirtyThreeStreamsAreShed() returns (run: seq<Event>)
    ensures Legal(Boot(1), run)
    ensures var h := After(Boot(1), run);
            && |h.sessions| == 1 && !h.sessions[0].rogue && Charge(h.sessions[0]) == 33
            && h.sessions[0].loop.Looked? && h.sessions[0].loop.i < |h.sessions[0].objs|
            && DoLoop(h.sessions[0], h.global, LoopTestSession).loop.Shedding?
  {
    hide Legal, After, Boot;
    var n := SESSION_STREAMS;
    var s;
    run, s := Saturate(n);
    run, s := OpenStream(run, s, n * WINDOW, n);
    run, s := SendChunk(run, s, n * WINDOW, n, WINDOW);
    QuiescentCharge(s, n + 1);
  }
}
