/**
 What a client knows of its stream is what the frames that it has taken say: the first OPEN_OK opens it for
 writing, credits add up, and the first CLOSE or OPEN_ERR ends it.
 */
module Hearing {
  import opened Limits
  import opened Session
  import opened Host
  import opened BackPressure
  import S = StreamObject

  predicate Final(f: S.Down) {
    f.Close? || f.OpenErr?
  }

  /** The frames before the first CLOSE or OPEN_ERR. */
  function Until(hist: seq<S.Down>): (r: seq<S.Down>)
    ensures |r| <= |hist| && r == hist[..|r|]
  {
    if hist == [] || Final(hist[0]) then [] else [hist[0]] + Until(hist[1..])
  }

  predicate SaysOpen(hist: seq<S.Down>) {
    exists k: nat :: k < |hist| && hist[k].OpenOk?
  }

  function Credited(hist: seq<S.Down>): nat {
    if hist == [] then 0
    else Credited(hist[..|hist| - 1]) + if hist[|hist| - 1].Window? then hist[|hist| - 1].credit else 0
  }

  /** The first final frame is a CLOSE. */
  predicate SaysClosed(hist: seq<S.Down>) {
    |Until(hist)| < |hist| && hist[|Until(hist)|].Close?
  }

  /** The client's state as its history has it. A user that has given up on the stream no longer listens. */
  predicate Knows(c: Client, hist: seq<S.Down>) {
    !c.gaveUp ==>
      && (c.registered <==> Until(hist) == hist)
      && (c.closed <==> SaysClosed(hist))
      && (c.flow <==> SaysOpen(Until(hist)))
      && c.got == Credited(Until(hist))
  }

  lemma {:induction false} UntilSnoc(hist: seq<S.Down>, f: S.Down)
    ensures Until(hist + [f]) == if Until(hist) == hist && !Final(f) then hist + [f] else Until(hist)
    ensures Until(hist) != hist ==> |Until(hist)| < |hist| && (hist + [f])[|Until(hist)|] == hist[|Until(hist)|]
  {
    var all := hist + [f];
    if hist == [] {
      assert all == [f] && all[1..] == [];
    } else {
      assert all[1..] == hist[1..] + [f] && all[0] == hist[0];
      UntilSnoc(hist[1..], f);
      if !Final(hist[0]) {
        assert hist == [hist[0]] + hist[1..];
      }
    }
  }

  lemma ReceiveKnows(c: Client, hist: seq<S.Down>, f: S.Down)
    requires Knows(c, hist)
    ensures Knows(Receive(c, f), hist + [f])
  {
    UntilSnoc(hist, f);
    var all := hist + [f];
    hide Until;
    if Until(hist) == hist && !Final(f) {
      assert all[..|all| - 1] == hist;
      if SaysOpen(hist) {
        var k: nat :| k < |hist| && hist[k].OpenOk?;
        assert all[k].OpenOk?;
      }
      if f.OpenOk? {
        assert all[|hist|].OpenOk?;
      }
    }
  }

  // ----- Runs --------------------------------------------------------------------------------

  /** The frames of stream id that session k's client takes in a run, from the opening of the stream on. */
  function HeardOf(h: Host, run: seq<Event>, k: nat, id: StreamId): seq<S.Down>
    requires Legal(h, run)
    decreases |run|
  {
    if run == [] then []
    else
      (if Own(run[0], k) && run[0].move == ClientDoes(ClientRecv) then TakenOf(h.sessions[k], id) else [])
      + HeardOf(DoHost(h, run[0]), run[1..], k, id)
  }

  function TakenOf(s: Session, id: StreamId): seq<S.Down>
    requires s.s2c != []
  {
    if id in s.clients && s.s2c[0].id == id then [s.s2c[0]] else []
  }

  ghost predicate KnowsAt(h: Host, k: nat, id: StreamId, hist: seq<S.Down>) {
    if k < |h.sessions| && id in h.sessions[k].clients then Knows(h.sessions[k].clients[id], hist) else hist == []
  }

  lemma ClientMoveKnows(s: Session, m: ClientMove, id: StreamId, hist: seq<S.Down>)
    requires CanClient(s, m) && !DoClient(s, m).rogue
    requires if id in s.clients then Knows(s.clients[id], hist) else hist == []
    ensures var heard := hist + if m.ClientRecv? then TakenOf(s, id) else [];
            var s' := DoClient(s, m);
            if id in s'.clients then Knows(s'.clients[id], heard) else heard == []
  {
    hide WindowFits, Until, Credited, SaysOpen, SaysClosed, NextId, Next;
    assert hist + [] == hist;
    if m.ClientRecv? {
      hide Receive, Knows;
      if id in s.clients && s.s2c[0].id == id {
        ReceiveKnows(s.clients[id], hist, s.s2c[0]);
      }
    } else if m.ClientOpen? {
      NewKnows();
    }
  }

  lemma NewKnows()
    ensures Knows(NEW_CLIENT, [])
  {
  }

  lemma OthersKeepClients(s: Session, global: int, m: Move)
    requires Can(s, m) && !m.ClientDoes?
    ensures Do(s, global, m).clients == s.clients
  {
    hide DoLocal, DoDrop, DoOpener, DoLoop, DoAll;
  }

  lemma MoveKnows(h: Host, e: Event, k: nat, id: StreamId, hist: seq<S.Down>)
    requires CanHost(h, e) && KnowsAt(h, k, id, hist)
    requires k < |DoHost(h, e).sessions| ==> !DoHost(h, e).sessions[k].rogue
    ensures KnowsAt(DoHost(h, e), k, id,
                    hist + if Own(e, k) && e.move == ClientDoes(ClientRecv) then TakenOf(h.sessions[k], id) else [])
  {
    hide Knows, Can, Do, GlobalDelta, TakenOf;
    assert hist + [] == hist;
    if Own(e, k) {
      OwnMoveKnows(h.sessions[k], h.global, e.move, id, hist);
    }
  }

  lemma OwnMoveKnows(s: Session, global: int, m: Move, id: StreamId, hist: seq<S.Down>)
    requires Can(s, m) && !Do(s, global, m).rogue
    requires if id in s.clients then Knows(s.clients[id], hist) else hist == []
    ensures m == ClientDoes(ClientRecv) ==> s.s2c != []
    ensures var heard := hist + if m == ClientDoes(ClientRecv) then TakenOf(s, id) else [];
            var s' := Do(s, global, m);
            if id in s'.clients then Knows(s'.clients[id], heard) else heard == []
  {
    hide Knows, DoLocal, DoDrop, DoOpener, DoLoop, DoAll, DoClient, DoBeat, TakenOf;
    assert hist + [] == hist;
    if m.ClientDoes? {
      ClientMoveKnows(s, m.client, id, hist);
    } else {
      OthersKeepClients(s, global, m);
    }
  }

  lemma RogueStays(s: Session, global: int, m: Move)
    requires Can(s, m) && s.rogue
    ensures Do(s, global, m).rogue
  {
    hide DoLocal, DoDrop, DoOpener, DoLoop, DoAll, Receive, Act, Sent, WindowFits;
  }

  lemma {:induction false} RogueLasts(h: Host, run: seq<Event>, k: nat)
    requires Legal(h, run) && k < |h.sessions| && h.sessions[k].rogue
    ensures k < |After(h, run).sessions| && After(h, run).sessions[k].rogue
    decreases |run|
  {
    hide Can, Do, GlobalDelta;
    if run != [] {
      if Own(run[0], k) {
        RogueStays(h.sessions[k], h.global, run[0].move);
      }
      RogueLasts(DoHost(h, run[0]), run[1..], k);
    }
  }

  lemma {:induction false} RunKnows(h: Host, run: seq<Event>, k: nat, id: StreamId, hist: seq<S.Down>)
    requires Legal(h, run) && KnowsAt(h, k, id, hist)
    requires k < |After(h, run).sessions| ==> !After(h, run).sessions[k].rogue
    ensures KnowsAt(After(h, run), k, id, hist + HeardOf(h, run, k, id))
    decreases |run|
  {
    hide KnowsAt, CanHost, DoHost, TakenOf;
    assert hist + [] == hist;
    if run != [] {
      var h1 := DoHost(h, run[0]);
      if k < |h1.sessions| && h1.sessions[k].rogue {
        RogueLasts(h1, run[1..], k);
      }
      OwnRecv(h, run[0], k);
      MoveKnows(h, run[0], k, id, hist);
      var took := if Own(run[0], k) && run[0].move == ClientDoes(ClientRecv) then TakenOf(h.sessions[k], id) else [];
      RunKnows(h1, run[1..], k, id, hist + took);
      assert (hist + took) + HeardOf(h1, run[1..], k, id) == hist + (took + HeardOf(h1, run[1..], k, id));
    }
  }

  lemma OwnRecv(h: Host, e: Event, k: nat)
    requires CanHost(h, e)
    ensures Own(e, k) ==> k < |h.sessions| && (e.move == ClientDoes(ClientRecv) ==> h.sessions[k].s2c != [])
  {
  }

  /**
   A client knows what it has heard. In every run of a client that keeps to the protocol, unless its user gave
   up on the stream: it is in the client's table until the first CLOSE or OPEN_ERR of it, is closed exactly if
   that was a CLOSE, is flow-controlled exactly if an OPEN_OK came before, and has been credited the sum of the
   WINDOW_UPDATEs before.
   */
  lemma ClientKnowsWhatItHeard(limit: nat, run: seq<Event>, k: nat, id: StreamId)
    requires Legal(Boot(limit), run) && k < |After(Boot(limit), run).sessions|
    requires var s := After(Boot(limit), run).sessions[k]; !s.rogue && id in s.clients && !s.clients[id].gaveUp
    ensures var c, hist := After(Boot(limit), run).sessions[k].clients[id], HeardOf(Boot(limit), run, k, id);
            && (c.registered <==> Until(hist) == hist)
            && (c.closed <==> |Until(hist)| < |hist| && hist[|Until(hist)|].Close?)
            && (c.flow <==> exists n: nat :: n < |Until(hist)| && hist[n].OpenOk?)
            && c.got == Credited(Until(hist))
  {
    hide Legal, After, HeardOf, Until, Credited;
    RunKnows(Boot(limit), run, k, id, []);
    var hist := HeardOf(Boot(limit), run, k, id);
    assert [] + hist == hist;
    if SaysOpen(Until(hist)) {
      var n: nat :| n < |Until(hist)| && Until(hist)[n].OpenOk?;
      assert hist[n] == Until(hist)[n];
    }
    if n: nat :| n < |Until(hist)| && hist[n].OpenOk? {
      assert Until(hist)[n] == hist[n];
    }
  }
}
