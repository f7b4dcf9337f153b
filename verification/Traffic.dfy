/**
 What is said and what is heard. Every step of the code that writes a frame writes this one and no other;
 the wires lose, invent and reorder nothing; and what a client's read loop has made of a stream is what
 the frames that it has taken say.
 */
module Traffic {
  import opened Limits
  import opened Session
  import opened Shape
  import opened Host
  import opened BackPressure
  import S = StreamObject

  // ----- What the source writes --------------------------------------------------------------

  /** The frame that an action of a stream's goroutines is to write, as seen by the client. */
  function SaysOf(o: S.Obj, a: S.Act): seq<S.Down>
    requires S.Can(o, a)
  {
    match a
    case OpenerAnnounce(true) => [S.OpenOk(o.id, 4 * 0x10_0000)]
    case ReaderData(payload, true) => [S.Data(o.id, payload)]
    case ReaderClose(true) => [S.Close(o.id)]
    case PumpNotify(true) => [S.Close(o.id)]
    case PumpCredit(true) => [S.Window(o.id, o.pump.credited)]
    case _ => []
  }

  /** What a move says to the client. */
  function Says(s: Session, m: Move): seq<S.Down>
    requires Can(s, m)
  {
    match m
    case Local(i, act) => SaysOf(s.objs[i], act)
    case OpenerDoes(DialFail(k, true)) => [S.OpenErr(s.dialing[k])]
    case LoopDoes(LoopShed(true)) => [S.Close(s.loop.id)]
    case LoopDoes(LoopRefuse(true)) => [S.OpenErr(s.loop.id)]
    case BeatDoes(ServerPing) => [S.Ping(0)]
    case BeatDoes(ServerPong) => [S.Pong(0)]
    case _ => []
  }

  /** What a move says to the server. */
  function Requests(s: Session, m: Move): seq<Up>
    requires Can(s, m)
  {
    match m
    case ClientDoes(ClientOpen) => [OpenFrame((2 * s.opens + 1) % TWO32)]
    case ClientDoes(ClientFrame(id, true)) => [DataFrame(id, s.clients[id].writer.chunk)]
    case ClientDoes(ClientClose(id)) => [CloseFrame(id)]
    case BeatDoes(ClientPong(true)) => [OtherFrame]
    case Rogue(frame) => [frame]
    case _ => []
  }

  /** The frame that a move takes off the wire. */
  function Takes(s: Session, m: Move): seq<S.Down>
    requires Can(s, m)
  {
    if m == ClientDoes(ClientRecv) then [s.s2c[0]] else []
  }

  function Gets(s: Session, m: Move): seq<Up>
    requires Can(s, m)
  {
    if m == LoopDoes(LoopRecv) then [s.c2s[0]] else []
  }

  // ----- One move ----------------------------------------------------------------------------

  lemma LocalSays(o: S.Obj, a: S.Act)
    requires S.Ok(o) && S.Can(o, a)
    ensures S.Out(o, a) == SaysOf(o, a)
  {
    hide S.MuOk, S.CloseOk, S.LifeOk, S.CreditOk, S.WakeOk, S.LedgerOk;
  }

  lemma LocalWires(s: Session, i: nat, act: S.Act)
    requires i < |s.objs| && S.Ok(s.objs[i]) && S.Can(s.objs[i], act)
    ensures DoLocal(s, i, act).s2c == s.s2c + SaysOf(s.objs[i], act) && DoLocal(s, i, act).c2s == s.c2s
  {
    hide S.Ok, S.Can, S.Do, S.Out, S.SessionDelta, SaysOf;
    LocalSays(s.objs[i], act);
  }

  lemma OpenerWires(s: Session, m: OpenerMove)
    requires CanOpener(s, m)
    ensures DoOpener(s, m).s2c == s.s2c + Says(s, OpenerDoes(m)) && DoOpener(s, m).c2s == s.c2s
  {
    assert s.s2c + [] == s.s2c;
  }

  lemma LoopWires(s: Session, global: int, m: LoopMove)
    requires CanLoop(s, m)
    ensures var s' := DoLoop(s, global, m);
            && s'.s2c == s.s2c + Says(s, LoopDoes(m))
            && Gets(s, LoopDoes(m)) + s'.c2s == s.c2s
  {
    hide S.Push, S.PushDone, LoadAndDelete, Dispatch;
    assert s.s2c + [] == s.s2c && [] + s.c2s == s.c2s;
    if m.LoopDrop? {
      LoadKeepsWires(s, s.loop.id);
    } else if m.LoopRecv? {
      assert [s.c2s[0]] + s.c2s[1..] == s.c2s;
    }
  }

  lemma ClientWires(s: Session, m: ClientMove)
    requires CanClient(s, m)
    ensures var s' := DoClient(s, m);
            && s'.c2s == s.c2s + Requests(s, ClientDoes(m))
            && Takes(s, ClientDoes(m)) + s'.s2c == s.s2c
  {
    hide WindowFits, Receive;
    assert s.c2s + [] == s.c2s && [] + s.s2c == s.s2c;
    if m.ClientRecv? {
      assert [s.s2c[0]] + s.s2c[1..] == s.s2c;
    }
  }

  lemma BeatWires(s: Session, m: BeatMove)
    requires CanBeat(s, m)
    ensures DoBeat(s, m).s2c == s.s2c + Says(s, BeatDoes(m)) && DoBeat(s, m).c2s == s.c2s + Requests(s, BeatDoes(m))
  {
    assert s.s2c + [] == s.s2c && s.c2s + [] == s.c2s;
  }

  /** What is taken is the head of the wire, and what is said goes to its end. */
  ghost predicate Orderly(s: Session, m: Move, s': Session)
    requires Can(s, m)
  {
    && Takes(s, m) + s'.s2c == s.s2c + Says(s, m)
    && Gets(s, m) + s'.c2s == s.c2s + Requests(s, m)
  }

  lemma MoveIsOrderly(s: Session, global: int, m: Move)
    requires ObjsOk(s) && Can(s, m)
    ensures Orderly(s, m, Do(s, global, m))
  {
    hide S.Ok, S.Can, DoLocal, DoDrop, DoOpener, DoLoop, DoAll, DoClient, DoBeat, SaysOf;
    assert s.s2c + [] == s.s2c && s.c2s + [] == s.c2s && [] + s.s2c == s.s2c && [] + s.c2s == s.c2s;
    match m
    case Local(i, act) =>
      LocalWires(s, i, act);
      Nothing(s.s2c + SaysOf(s.objs[i], act));
    case DropBy(drop) => DropKeepsWires(s, drop);
    case OpenerDoes(opener) =>
      OpenerWires(s, opener);
      Nothing(s.s2c + Says(s, m));
    case LoopDoes(step) =>
      LoopWires(s, global, step);
      Nothing(s.s2c + Says(s, m));
    case AllDoes(sweep) => AllKeepsWires(s, sweep);
    case ClientDoes(client) =>
      ClientWires(s, client);
      Nothing(s.c2s + Requests(s, m));
    case BeatDoes(beat) =>
      BeatWires(s, beat);
      Nothing(s.s2c + Says(s, m));
      Nothing(s.c2s + Requests(s, m));
    case Rogue(_) => Nothing(s.c2s + Requests(s, m));
  }

  lemma Nothing<T>(xs: seq<T>)
    ensures [] + xs == xs && xs + [] == xs
  {
  }

  // ----- Runs --------------------------------------------------------------------------------

  /** The frames that session k's client takes in a run, in order. */
  function Heard(h: Host, run: seq<Event>, k: nat): seq<S.Down>
    requires Legal(h, run)
    decreases |run|
  {
    if run == [] then []
    else (if Own(run[0], k) then Takes(h.sessions[k], run[0].move) else []) + Heard(DoHost(h, run[0]), run[1..], k)
  }

  /** What session k's server has to say in a run. */
  function Said(h: Host, run: seq<Event>, k: nat): seq<S.Down>
    requires Legal(h, run)
    decreases |run|
  {
    if run == [] then []
    else (if Own(run[0], k) then Says(h.sessions[k], run[0].move) else []) + Said(DoHost(h, run[0]), run[1..], k)
  }

  function Got(h: Host, run: seq<Event>, k: nat): seq<Up>
    requires Legal(h, run)
    decreases |run|
  {
    if run == [] then []
    else (if Own(run[0], k) then Gets(h.sessions[k], run[0].move) else []) + Got(DoHost(h, run[0]), run[1..], k)
  }

  function Requested(h: Host, run: seq<Event>, k: nat): seq<Up>
    requires Legal(h, run)
    decreases |run|
  {
    if run == [] then []
    else (if Own(run[0], k) then Requests(h.sessions[k], run[0].move) else []) + Requested(DoHost(h, run[0]), run[1..], k)
  }

  function DownWire(h: Host, k: nat): seq<S.Down> {
    if k < |h.sessions| then h.sessions[k].s2c else []
  }

  function UpWire(h: Host, k: nat): seq<Up> {
    if k < |h.sessions| then h.sessions[k].c2s else []
  }

  lemma EventWires(h: Host, e: Event, k: nat)
    requires SessionsOk(h) && CanHost(h, e)
    ensures !Own(e, k) ==> DownWire(DoHost(h, e), k) == DownWire(h, k) && UpWire(DoHost(h, e), k) == UpWire(h, k)
    ensures Own(e, k) ==> k < |h.sessions| && Can(h.sessions[k], e.move)
    ensures Own(e, k) ==>
              && Takes(h.sessions[k], e.move) + DownWire(DoHost(h, e), k) == DownWire(h, k) + Says(h.sessions[k], e.move)
              && Gets(h.sessions[k], e.move) + UpWire(DoHost(h, e), k) == UpWire(h, k) + Requests(h.sessions[k], e.move)
  {
    hide Can, Do, Says, Requests, Takes, Gets, ShapeOk, WritersOk, GlobalDelta;
    if Own(e, k) {
      assert SessionOk(h.sessions[k]);
      SessionObjs(h.sessions[k]);
      MoveIsOrderly(h.sessions[k], h.global, e.move);
    }
  }

  lemma SessionObjs(s: Session)
    requires ShapeOk(s)
    ensures ObjsOk(s)
  {
    hide ObjsOk, TableOk, LoopOk, WireOk, SweepOk;
  }

  /** Taking from the front and adding at the back, twice over. */
  lemma Fifo<T>(taken: seq<T>, more: seq<T>, w0: seq<T>, w1: seq<T>, w2: seq<T>, said: seq<T>, next: seq<T>)
    requires taken + w1 == w0 + said && more + w2 == w1 + next
    ensures (taken + more) + w2 == w0 + (said + next)
  {
    calc {
      (taken + more) + w2;
      taken + (more + w2);
      taken + (w1 + next);
      (taken + w1) + next;
      (w0 + said) + next;
      w0 + (said + next);
    }
  }

  /** In every run, what the wires held and what was said to them is what was taken and what they hold. */
  lemma {:induction false} RunIsOrderly(h: Host, run: seq<Event>, k: nat)
    requires HostOk(h) && Legal(h, run)
    ensures Heard(h, run, k) + DownWire(After(h, run), k) == DownWire(h, k) + Said(h, run, k)
    ensures Got(h, run, k) + UpWire(After(h, run), k) == UpWire(h, k) + Requested(h, run, k)
    decreases |run|
  {
    hide SessionsOk, GlobalExact, GlobalBounded, CanHost, DoHost, DownWire, UpWire, Says, Requests, Takes, Gets;
    Nothing(DownWire(h, k));
    Nothing(UpWire(h, k));
    if run != [] {
      var e, h1 := run[0], DoHost(h, run[0]);
      EventKeepsOk(h, e);
      EventWires(h, e, k);
      RunIsOrderly(h1, run[1..], k);
      var h2 := After(h1, run[1..]);
      var own := Own(e, k);
      Nothing(DownWire(h1, k));
      Nothing(UpWire(h1, k));
      Fifo(if own then Takes(h.sessions[k], e.move) else [], Heard(h1, run[1..], k), DownWire(h, k), DownWire(h1, k),
           DownWire(h2, k), if own then Says(h.sessions[k], e.move) else [], Said(h1, run[1..], k));
      Fifo(if own then Gets(h.sessions[k], e.move) else [], Got(h1, run[1..], k), UpWire(h, k), UpWire(h1, k),
           UpWire(h2, k), if own then Requests(h.sessions[k], e.move) else [], Requested(h1, run[1..], k));
    }
  }

  /**
   The wires are faithful: in every run, for any peer, the frames that the client has taken and those that
   are on the wire to it are, in order, exactly the frames that the server's steps had to say; and the other
   way round.
   */
  lemma WiresAreFaithful(limit: nat, run: seq<Event>, k: nat)
    requires Legal(Boot(limit), run) && k < |After(Boot(limit), run).sessions|
    ensures var s := After(Boot(limit), run).sessions[k];
            && Heard(Boot(limit), run, k) + s.s2c == Said(Boot(limit), run, k)
            && Got(Boot(limit), run, k) + s.c2s == Requested(Boot(limit), run, k)
  {
    hide HostOk, Legal, After, Heard, Said, Got, Requested;
    BootOk(limit);
    RunIsOrderly(Boot(limit), run, k);
    Nothing(Said(Boot(limit), run, k));
    Nothing(Requested(Boot(limit), run, k));
  }

  // ----- Nothing is kept from the client -----------------------------------------------------

  lemma {:induction false} SaidIncludes(h: Host, run: seq<Event>, k: nat, n: nat)
    requires Legal(h, run) && n < |run| && Own(run[n], k)
    ensures Legal(h, run[..n]) && k < |After(h, run[..n]).sessions| && Can(After(h, run[..n]).sessions[k], run[n].move)
    ensures forall f <- Says(After(h, run[..n]).sessions[k], run[n].move) :: f in Said(h, run, k)
    decreases |run|
  {
    hide Can, Do, Says, GlobalDelta;
    if n == 0 {
      assert run[..0] == [];
    } else {
      var h1 := DoHost(h, run[0]);
      assert run[1..][..n - 1] == run[..n][1..];
      SaidIncludes(h1, run[1..], k, n - 1);
      assert run[..n][0] == run[0];
    }
  }

  /** The frame is on the wire to session k's client, or the client has taken it. */
  ghost predicate Reaches(limit: nat, run: seq<Event>, k: nat, f: S.Down)
    requires Legal(Boot(limit), run)
  {
    k < |After(Boot(limit), run).sessions| &&
    f in Heard(Boot(limit), run, k) + After(Boot(limit), run).sessions[k].s2c
  }

  lemma {:induction false} SessionsStay(h: Host, run: seq<Event>)
    requires Legal(h, run)
    ensures |h.sessions| <= |After(h, run).sessions|
    decreases |run|
  {
    hide Can, Do, GlobalDelta;
    if run != [] {
      SessionsStay(DoHost(h, run[0]), run[1..]);
    }
  }

  lemma {:induction false} Prefix(h: Host, run: seq<Event>, n: nat)
    requires Legal(h, run) && n <= |run|
    ensures Legal(h, run[..n]) && Legal(After(h, run[..n]), run[n..])
    ensures After(After(h, run[..n]), run[n..]) == After(h, run)
    decreases n
  {
    hide CanHost, DoHost;
    if n == 0 {
      assert run[..0] == [] && run[0..] == run;
    } else {
      Prefix(DoHost(h, run[0]), run[1..], n - 1);
      assert run[..n][0] == run[0] && run[..n][1..] == run[1..][..n - 1] && run[1..][n - 1..] == run[n..];
    }
  }

  /**
   Nothing is kept from the client. Whatever happens later, for any peer: the CLOSE that the reader writes at
   the upstream's end, the CLOSE that the pump writes when the upstream refuses a chunk, the CLOSE of a stream
   that is shed, the OPEN_ERR of an OPEN that is refused or whose dial fails, the OPEN_OK with its window of
   4 MiB, every byte of the upstream and every credit is on the wire or has been taken by the client.
   */
  lemma NothingIsKeptBack(limit: nat, run: seq<Event>, k: nat, n: nat)
    requires Legal(Boot(limit), run) && n < |run| && Own(run[n], k)
    ensures Legal(Boot(limit), run[..n]) && k < |After(Boot(limit), run[..n]).sessions|
    ensures var s, m := After(Boot(limit), run[..n]).sessions[k], run[n].move;
            && Can(s, m)
            && (m.Local? ==>
                  var o := s.objs[m.i];
                  && (m.act == S.ReaderClose(true) || m.act == S.PumpNotify(true) ==> Reaches(limit, run, k, S.Close(o.id)))
                  && (m.act == S.OpenerAnnounce(true) ==> Reaches(limit, run, k, S.OpenOk(o.id, 4 * 0x10_0000)))
                  && (m.act.ReaderData? && m.act.ok ==> Reaches(limit, run, k, S.Data(o.id, m.act.payload)))
                  && (m.act == S.PumpCredit(true) ==> Reaches(limit, run, k, S.Window(o.id, o.pump.credited))))
            && (m == LoopDoes(LoopShed(true)) ==> Reaches(limit, run, k, S.Close(s.loop.id)))
            && (m == LoopDoes(LoopRefuse(true)) ==> Reaches(limit, run, k, S.OpenErr(s.loop.id)))
            && (m.OpenerDoes? && m.opener.DialFail? && m.opener.ok ==>
                  Reaches(limit, run, k, S.OpenErr(s.dialing[m.opener.k])))
  {
    hide Legal, After, Heard, Said, S.Can, CanHost, DoHost;
    SaidIncludes(Boot(limit), run, k, n);
    Prefix(Boot(limit), run, n);
    SessionsStay(After(Boot(limit), run[..n]), run[n..]);
    WiresAreFaithful(limit, run, k);
    var s, m := After(Boot(limit), run[..n]).sessions[k], run[n].move;
    forall f <- Says(s, m)
      ensures Reaches(limit, run, k, f)
    {
    }
    SaysContains(s, m);
  }

  lemma SaysContains(s: Session, m: Move)
    requires Can(s, m)
    ensures m.Local? ==>
              var o := s.objs[m.i];
              && (m.act == S.ReaderClose(true) || m.act == S.PumpNotify(true) ==> S.Close(o.id) in Says(s, m))
              && (m.act == S.OpenerAnnounce(true) ==> S.OpenOk(o.id, 4 * 0x10_0000) in Says(s, m))
              && (m.act.ReaderData? && m.act.ok ==> S.Data(o.id, m.act.payload) in Says(s, m))
              && (m.act == S.PumpCredit(true) ==> S.Window(o.id, o.pump.credited) in Says(s, m))
    ensures m == LoopDoes(LoopShed(true)) ==> S.Close(s.loop.id) in Says(s, m)
    ensures m == LoopDoes(LoopRefuse(true)) ==> S.OpenErr(s.loop.id) in Says(s, m)
    ensures m.OpenerDoes? && m.opener.DialFail? && m.opener.ok ==> S.OpenErr(s.dialing[m.opener.k]) in Says(s, m)
  {
    hide S.Can;
  }
}
