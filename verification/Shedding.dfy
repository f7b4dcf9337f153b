/**
 The budgets and flow control together: while every client keeps to the protocol and no more than
 32 streams per session and 64 in all still hold or may receive upload bytes, no stream is shed.
 */
module Shedding {
  import opened Limits
  import opened Session
  import opened Shape
  import opened Sums
  import opened Budget
  import opened StreamView
  import opened Flow
  import opened Host
  import opened Upload
  import S = StreamObject

  const SESSION_STREAMS := 32
  const GLOBAL_STREAMS := 64

  /** A stream that was announced and has not been reclaimed, or that the read loop is about to add to. */
  predicate Charged(s: Session, i: nat)
    requires i < |s.objs|
  {
    || (s.objs[i].opener.Launched? && !(s.objs[i].reclaim.Hanging? || s.objs[i].reclaim.Reclaimed?))
    || (Serving(s.loop) && s.loop.i == i)
  }

  function Charges(s: Session): seq<int> {
    seq(|s.objs|, i requires 0 <= i < |s.objs| => if Charged(s, i) then 1 else 0)
  }

  /** The number of charged streams of a session. */
  function Charge(s: Session): int {
    Total(Charges(s))
  }

  function ChargesAll(sessions: seq<Session>): seq<int> {
    seq(|sessions|, k requires 0 <= k < |sessions| => Charge(sessions[k]))
  }

  function InHand(s: Session): nat {
    if Serving(s.loop) then |s.loop.payload| else 0
  }

  function HandAt(s: Session, i: nat): nat {
    if Serving(s.loop) && s.loop.i == i then |s.loop.payload| else 0
  }

  /** One stream's share of the counters, with what the read loop holds for it, fits one window. */
  lemma ShareFitsWindow(s: Session, i: nat)
    requires ObjsOk(s) && FlowOk(s) && i < |s.objs|
    ensures S.GlobalShare(s.objs[i]) + HandAt(s, i) <= if Charged(s, i) then WINDOW else 0
  {
    hide S.Ok, ViewOk, PendingOk, FramesOk, UpBytes, Credits, Oks;
    var id := s.objs[i].id;
    ObjView(s, i);
    HeldFitsWindow(ViewOf(s, id));
    if !Charged(s, i) {
      if !s.objs[i].opener.Launched? {
        UnlaunchedIsEmpty(s, i);
      }
      ReclaimedHoldsNothing(s.objs[i]);
    }
  }

  lemma ReclaimedHoldsNothing(o: S.Obj)
    requires S.Ok(o)
    requires o.reclaim.Hanging? || o.reclaim.Reclaimed? || (!o.opener.Launched? && o.queue == [])
    ensures S.GlobalShare(o) == 0
  {
  }

  lemma UnsweptShare(o: S.Obj)
    requires S.Ok(o) && S.Unswept(o)
    ensures S.SessionShare(o) <= S.GlobalShare(o)
  {
  }

  function WithHand(shares: seq<int>, s: Session): seq<int>
    requires |shares| == |s.objs| && (Serving(s.loop) ==> s.loop.i < |s.objs|)
  {
    if Serving(s.loop) then shares[s.loop.i := shares[s.loop.i] + InHand(s)] else shares
  }

  lemma WithHandTotal(shares: seq<int>, s: Session)
    requires |shares| == |s.objs| && (Serving(s.loop) ==> s.loop.i < |s.objs|)
    ensures Total(WithHand(shares, s)) == Total(shares) + InHand(s)
  {
    if Serving(s.loop) {
      TotalUpdate(shares, s.loop.i, shares[s.loop.i] + InHand(s));
    }
  }

  /** Sums of shares that fit one window for each charged stream. */
  lemma SharesFit(shares: seq<int>, s: Session)
    requires ObjsOk(s) && FlowOk(s) && LoopOk(s) && |shares| == |s.objs|
    requires forall i: nat | i < |s.objs| :: shares[i] <= S.GlobalShare(s.objs[i])
    ensures Total(shares) + InHand(s) <= WINDOW * Charge(s)
  {
    hide FlowOk, ObjsOk, S.Ok, S.GlobalShare;
    var bounds := seq(|s.objs|, i requires 0 <= i < |s.objs| => WINDOW * Charges(s)[i]);
    forall i: nat | i < |s.objs|
      ensures WithHand(shares, s)[i] <= bounds[i]
    {
      ShareFitsWindow(s, i);
      assert shares[i] + HandAt(s, i) <= S.GlobalShare(s.objs[i]) + HandAt(s, i);
      assert WithHand(shares, s)[i] == shares[i] + HandAt(s, i);
      assert Charges(s)[i] == if Charged(s, i) then 1 else 0;
      assert bounds[i] == WINDOW * Charges(s)[i];
    }
    hide LoopOk, Charges;
    WithHandTotal(shares, s);
    TotalMono(WithHand(shares, s), bounds);
    TotalScale(bounds, Charges(s), WINDOW);
  }

  /** The session half of the test passes while at most 32 streams are charged. */
  lemma SessionTestPasses(s: Session)
    requires SessionOk(s) && FlowOk(s) && CanLoop(s, LoopTestSession)
    requires Charge(s) <= SESSION_STREAMS
    ensures s.buffered + |s.loop.payload| <= SESSION_CAP
  {
    hide FlowOk, S.Ok, S.Unswept, S.SessionShare, S.GlobalShare, TableOk, WireOk, WritersOk, Charge;
    forall i: nat | i < |s.objs|
      ensures SessionShares(s.objs)[i] <= S.GlobalShare(s.objs[i])
    {
      UnsweptShare(s.objs[i]);
    }
    SharesFit(SessionShares(s.objs), s);
  }

  lemma NetsFit(s: Session)
    requires ObjsOk(s) && LoopOk(s) && FlowOk(s)
    ensures SessionNet(s) + InHand(s) <= WINDOW * Charge(s)
  {
    hide FlowOk, S.Ok, S.GlobalShare, Charge;
    forall i: nat | i < |s.objs|
      ensures Nets(s.objs)[i] <= S.GlobalShare(s.objs[i])
    {
      NetIsHeld(s.objs[i]);
    }
    SharesFit(Nets(s.objs), s);
  }

  /** The global half passes while at most 64 streams are charged in all sessions. */
  lemma GlobalTestPasses(h: Host, k: nat)
    requires SessionsOk(h) && GlobalExact(h) && FlowsOk(h) && k < |h.sessions|
    requires forall j: nat | j < |h.sessions| :: !h.sessions[j].rogue
    requires CanLoop(h.sessions[k], LoopTestGlobal)
    requires Total(ChargesAll(h.sessions)) <= GLOBAL_STREAMS
    ensures h.global + |h.sessions[k].loop.payload| <= GLOBAL_CAP
  {
    hide SessionOk, FlowOk, SessionNet, Charge;
    var nets := SessionNets(h.sessions);
    var held := nets[k := nets[k] + InHand(h.sessions[k])];
    var bounds := seq(|h.sessions|, j requires 0 <= j < |h.sessions| => WINDOW * Charge(h.sessions[j]));
    forall j: nat | j < |h.sessions|
      ensures held[j] <= bounds[j]
    {
      SessionParts(h.sessions[j]);
      NetsFit(h.sessions[j]);
    }
    TotalUpdate(nets, k, held[k]);
    TotalMono(held, bounds);
    TotalScale(bounds, ChargesAll(h.sessions), WINDOW);
  }

  lemma SessionParts(s: Session)
    requires SessionOk(s)
    ensures ObjsOk(s) && LoopOk(s)
  {
    hide ObjsOk, LoopOk, TableOk, WireOk, SweepOk, WritersOk, BudgetOk;
  }

  /**
   Flow-controlled clients are never shed: in every reachable state with at most 32 charged streams
   in the session and 64 in all, both halves of the budget test admit the payload.
   */
  lemma NeverShed(limit: nat, run: seq<Event>, k: nat)
    requires Legal(Boot(limit), run) && k < |After(Boot(limit), run).sessions|
    requires forall j: nat | j < |After(Boot(limit), run).sessions| :: !After(Boot(limit), run).sessions[j].rogue
    requires Charge(After(Boot(limit), run).sessions[k]) <= 32
    requires Total(ChargesAll(After(Boot(limit), run).sessions)) <= 64
    ensures var h := After(Boot(limit), run);
            var s := h.sessions[k];
            && (s.loop.Looked? && s.loop.i < |s.objs| ==>
                  DoLoop(s, h.global, LoopTestSession).loop == SessionFits(s.loop.i, s.loop.payload))
            && (s.loop.SessionFits? && s.loop.i < |s.objs| ==>
                  DoLoop(s, h.global, LoopTestGlobal).loop == Admitted(s.loop.i, s.loop.payload))
  {
    hide Legal, After, SessionOk, FlowOk, Charge, GlobalBounded;
    BootOk(limit);
    ReachableOk(limit, run);
    RunFlows(limit, run);
    var h := After(Boot(limit), run);
    var s := h.sessions[k];
    if s.loop.Looked? && s.loop.i < |s.objs| {
      SessionTestPasses(s);
    } else if s.loop.SessionFits? && s.loop.i < |s.objs| {
      GlobalTestPasses(h, k);
    }
  }
}
