/**
 The premises of the liveness theorems are met by runs of an ordinary client: a stream that is
 undisturbed with an upload ahead of it, and a served stream in a session where nothing can move.
 */
module Witness {
  import opened Bytes
  import opened Limits
  import opened Session
  import opened Host
  import opened Upload
  import opened Progress
  import opened BackPressure
  import opened Stalls
  import opened Delivery
  import opened SlowStreams
  import opened Sums
  import opened Shedding
  import opened Tightness
  import opened Flow
  import S = StreamObject

  const ID: StreamId := 1

  const OPEN_CLIENT := NEW_CLIENT.(window := WINDOW, flow := true, returned := true)

  /** A run of a one-connection server within the capacity of the wires, by a client that keeps to the client code. */
  ghost predicate Path(run: seq<Event>, s: Session, g: int, cap: nat) {
    Legal(Boot(1), run) && After(Boot(1), run) == Single(s, g) && Behaved(run, 0) && Capped(Boot(1), run, 0, cap)
  }

  lemma {:induction false} CappedSnoc(h: Host, run: seq<Event>, e: Event, k: nat, cap: nat)
    requires Legal(h, run) && CanHost(After(h, run), e) && Legal(h, run + [e]) && Capped(h, run, k, cap)
    requires Own(e, k) ==> !Jammed(After(h, run).sessions[k], e.move, cap)
    ensures Capped(h, run + [e], k, cap)
    decreases |run|
  {
    hide CanHost, DoHost, Jammed;
    if run == [] {
      assert (run + [e])[1..] == [];
    } else {
      assert (run + [e])[1..] == run[1..] + [e];
      CappedSnoc(DoHost(h, run[0]), run[1..], e, k, cap);
    }
  }

  lemma Go(run: seq<Event>, s: Session, g: int, m: Move, cap: nat) returns (run': seq<Event>)
    requires Path(run, s, g, cap) && Can(s, m) && !Jammed(s, m, cap) && !m.Rogue?
    ensures Path(run', Do(s, g, m), g + GlobalDelta(s, m), cap)
  {
    hide Can, Do, GlobalDelta, Legal, After, Jammed, Capped, Boot;
    LegalSnoc(Boot(1), run, Step(0, m));
    run' := run + [Step(0, m)];
    CappedSnoc(Boot(1), run, Step(0, m), 0, cap);
  }

  function Running(pump: S.Pump): S.Obj {
    S.Fresh(ID).(opener := S.Launched, pump := pump, reader := S.Reading)
  }

  /** One open stream and nothing under way. */
  function Open(pump: S.Pump, c: Client): Session {
    Session([Running(pump)], map[ID := 0], map[ID := 0], 0, false, NotBegun, Idle, [], 0, 0, [], [],
            map[ID := c], 1, false, false)
  }

  lemma Start(cap: nat) returns (run: seq<Event>)
    ensures Path(run, START, 0, cap)
  {
    hide START;
    run := [Accept];
    assert Lives([]) == [];
    assert Legal(DoHost(Boot(1), Accept), run[1..]);
    assert Capped(DoHost(Boot(1), Accept), run[1..], 0, cap);
  }

  lemma OpenOne(cap: nat) returns (run: seq<Event>, s: Session)
    requires cap > 0
    ensures Path(run, s, 0, cap)
    ensures s == Session([S.Fresh(ID)], map[ID := 0], map[ID := 0], 0, false, NotBegun, Idle, [], 1, 0, [], [],
                         map[ID := NEW_CLIENT], 1, false, false)
  {
    hide Path;
    run := Start(cap);
    run := Go(run, START, 0, ClientDoes(ClientOpen), cap);
    var s1 := START.(clients := map[ID := NEW_CLIENT], c2s := [OpenFrame(ID)], opens := 1);
    assert Do(START, 0, ClientDoes(ClientOpen)) == s1;
    run := Go(run, s1, 0, LoopDoes(LoopRecv), cap);
    var s2 := s1.(c2s := [], dialing := [ID], slots := 1);
    assert Do(s1, 0, LoopDoes(LoopRecv)) == s2;
    run := Go(run, s2, 0, OpenerDoes(DialStore(0)), cap);
    s := s2.(dialing := [], objs := [S.Fresh(ID)], table := map[ID := 0], home := map[ID := 0]);
    assert Do(s2, 0, OpenerDoes(DialStore(0))) == s;
  }

  lemma Announce(cap: nat) returns (run: seq<Event>)
    requires cap > 0
    ensures Path(run, Open(S.Ready(0), OPEN_CLIENT), 0, cap)
  {
    hide Path;
    var s;
    run, s := OpenOne(cap);
    run := Go(run, s, 0, OpenerDoes(OpenerCheck(0)), cap);
    var s1 := s.(objs := [S.Fresh(ID).(opener := S.Cleared)]);
    assert Do(s, 0, OpenerDoes(OpenerCheck(0))) == s1;
    run := Go(run, s1, 0, Local(0, S.OpenerAnnounce(true)), cap);
    var s2 := s.(objs := [Running(S.Ready(0))], leaving := 1, s2c := [S.OpenOk(ID, WINDOW)]);
    assert Do(s1, 0, Local(0, S.OpenerAnnounce(true))) == s2;
    run := Go(run, s2, 0, OpenerDoes(OpenerRelease), cap);
    var s3 := s2.(slots := 0, leaving := 0);
    assert Do(s2, 0, OpenerDoes(OpenerRelease)) == s3;
    run := Listen(run, s3, cap);
  }

  lemma Listen(run0: seq<Event>, s2: Session, cap: nat) returns (run: seq<Event>)
    requires s2 == Open(S.Ready(0), NEW_CLIENT).(s2c := [S.OpenOk(ID, WINDOW)])
    requires Path(run0, s2, 0, cap)
    ensures Path(run, Open(S.Ready(0), OPEN_CLIENT), 0, cap)
  {
    hide Path;
    run := Go(run0, s2, 0, ClientDoes(ClientRecv), cap);
    var s3 := Open(S.Ready(0), OPEN_CLIENT.(returned := false));
    assert Do(s2, 0, ClientDoes(ClientRecv)) == s3;
    run := Go(run, s3, 0, ClientDoes(ClientReturn(ID)), cap);
    assert Do(s3, 0, ClientDoes(ClientReturn(ID))) == Open(S.Ready(0), OPEN_CLIENT);
  }

  function Uploading(data: seq<byte>): Session {
    Open(S.Ready(0), OPEN_CLIENT.(todo := data))
  }

  lemma BeginUpload(data: seq<byte>, cap: nat) returns (run: seq<Event>)
    requires cap > 0
    ensures Path(run, Uploading(data), 0, cap)
  {
    hide Path;
    run := Announce(cap);
    var s := Open(S.Ready(0), OPEN_CLIENT);
    run := Go(run, s, 0, ClientDoes(ClientWrite(ID, data)), cap);
    assert OPEN_CLIENT.todo + data == data && s.c2s + [] == s.c2s;
    assert Do(s, 0, ClientDoes(ClientWrite(ID, data))) == Uploading(data);
  }

  /** Any upload can be ahead of an undisturbed stream, on wires of any capacity, with room in the limits. */
  lemma UploadCanBegin(data: seq<byte>, cap: nat) returns (run: seq<Event>)
    requires cap > 0
    ensures Legal(Boot(1), run) && Behaved(run, 0) && Capped(Boot(1), run, 0, cap)
    ensures var h := After(Boot(1), run);
            && |h.sessions| == 1 && h.sessions[0].opens == 1
            && Undisturbed(h.sessions[0], ID) && Whole(h.sessions[0].clients[ID]) == data && Roomy(h, 0)
            && !Wedged(h.sessions[0], cap)
  {
    hide Legal, After, Boot, Capped;
    run := BeginUpload(data, cap);
    assert OPEN_CLIENT.framed + [] + data == data;
    OneIsRoomy(Uploading(data));
  }

  lemma OneIsRoomy(s: Session)
    requires |s.objs| == 1 && s.dialing == [] && s.c2s == [] && !s.rogue && s.loop.Idle? && s.slots == 0
    ensures Roomy(Single(s, 0), 0)
  {
    assert Counts(s.loop, s.objs) == [One(s.loop, 0, s.objs[0])];
    assert ChargesAll([s]) == [Charge(s)];
    TotalOfOne(One(s.loop, 0, s.objs[0]));
    TotalOfOne(Charge(s));
  }

  lemma TotalOfOne(x: int)
    ensures Total([x]) == x
  {
    assert [x][..0] == [] && Total([]) == 0;
  }

  /** The stream's pump asleep, its client with nothing to write: nothing moves of itself. */
  lemma RestIsReachable(cap: nat) returns (run: seq<Event>)
    requires cap > 0
    ensures Legal(Boot(1), run) && Behaved(run, 0) && Capped(Boot(1), run, 0, cap)
    ensures var h := After(Boot(1), run);
            && |h.sessions| == 1 && StuckBut(h.sessions[0], {})
            && ID in h.sessions[0].clients && Served(ViewOf(h.sessions[0], ID))
  {
    run := Announce(cap);
    run := Sleep(run, cap);
    hide Legal, After, Boot, Capped;
    SleepIsStuck();
  }

  lemma Sleep(run0: seq<Event>, cap: nat) returns (run: seq<Event>)
    requires Path(run0, Open(S.Ready(0), OPEN_CLIENT), 0, cap)
    ensures Path(run, Open(S.Parked(0), OPEN_CLIENT), 0, cap)
  {
    hide Path;
    var s := Open(S.Ready(0), OPEN_CLIENT);
    run := Go(run0, s, 0, Local(0, S.PumpLock), cap);
    var s1 := Open(S.Deciding(0), OPEN_CLIENT).(objs := [Running(S.Deciding(0)).(mu := S.ByPump)]);
    assert Do(s, 0, Local(0, S.PumpLock)) == s1;
    run := Go(run, s1, 0, Local(0, S.PumpPark), cap);
    assert Do(s1, 0, Local(0, S.PumpPark)) == Open(S.Parked(0), OPEN_CLIENT);
  }

  lemma SleepIsStuck()
    ensures StuckBut(Open(S.Parked(0), OPEN_CLIENT), {})
  {
    var s := Open(S.Parked(0), OPEN_CLIENT);
    forall m: Move | Driven(m) ensures !Can(s, m) {
    }
  }
}
