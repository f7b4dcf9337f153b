/**
 The whole server: any number of sessions, one process-wide byte counter, and the accept gate that
 bounds how many sessions are served at once. A run is a sequence of moves of any session's actors.
 */
module Host {
  import opened Bytes
  import opened Limits
  import opened Session
  import opened Shape
  import opened Sums
  import opened Budget
  import S = StreamObject

  /** Sessions are kept after their handler returned; `limit` is the size of the accept gate. */
  datatype Host = Host(sessions: seq<Session>, global: int, limit: nat)

  datatype Event = Accept | Step(k: nat, move: Move)

  /** A session's handler is running until its closeAll has finished. */
  function Live(s: Session): int {
    if s.all.Finished? then 0 else 1
  }

  function Lives(sessions: seq<Session>): seq<int> {
    seq(|sessions|, k requires 0 <= k < |sessions| => Live(sessions[k]))
  }

  function SessionNets(sessions: seq<Session>): seq<int> {
    seq(|sessions|, k requires 0 <= k < |sessions| => SessionNet(sessions[k]))
  }

  /** Bytes a read loop may still add after its test of the global budget. */
  function GlobalClaim(l: Loop): int {
    if l.Admitted? then |l.payload| else if l.Adding? || l.Added? then l.n else 0
  }

  function Claims(sessions: seq<Session>): seq<int> {
    seq(|sessions|, k requires 0 <= k < |sessions| => GlobalClaim(sessions[k].loop))
  }

  predicate CanHost(h: Host, e: Event) {
    match e
    case Accept => Total(Lives(h.sessions)) < h.limit
    case Step(k, move) => k < |h.sessions| && Can(h.sessions[k], move)
  }

  function DoHost(h: Host, e: Event): Host
    requires CanHost(h, e)
  {
    match e
    case Accept => h.(sessions := h.sessions + [START])
    case Step(k, move) =>
      h.(sessions := h.sessions[k := Do(h.sessions[k], h.global, move)],
         global := h.global + GlobalDelta(h.sessions[k], move))
  }

  /** `run` can be performed from `h`, event by event. */
  predicate Legal(h: Host, run: seq<Event>)
    decreases |run|
  {
    run == [] || (CanHost(h, run[0]) && Legal(DoHost(h, run[0]), run[1..]))
  }

  function After(h: Host, run: seq<Event>): Host
    requires Legal(h, run)
    decreases |run|
  {
    if run == [] then h else After(DoHost(h, run[0]), run[1..])
  }

  function Boot(limit: nat): Host {
    Host([], 0, limit)
  }

  ghost predicate SessionOk(s: Session) {
    ShapeOk(s) && WritersOk(s) && BudgetOk(s)
  }

  ghost predicate SessionsOk(h: Host) {
    forall k: nat | k < |h.sessions| :: SessionOk(h.sessions[k])
  }

  /** v2GlobalBuffered is the sum of what all streams of all sessions have net put into it. */
  ghost predicate GlobalExact(h: Host) {
    h.global == Total(SessionNets(h.sessions))
  }

  /** The cap plus one frame for every connection but one. */
  function Ceiling(limit: nat): int {
    GLOBAL_CAP + (limit - 1) * MAX_PAYLOAD
  }

  /**
   The check-then-add race is bounded: the counter together with everything already admitted and
   not yet added stays within one frame per other live session of the cap.
   */
  ghost predicate GlobalBounded(h: Host) {
    && Total(Lives(h.sessions)) <= h.limit
    && (h.sessions != [] ==> h.global + Total(Claims(h.sessions)) <= Ceiling(h.limit))
  }

  ghost predicate HostOk(h: Host) {
    SessionsOk(h) && GlobalExact(h) && GlobalBounded(h)
  }

  // ----- One event ---------------------------------------------------------------------------

  lemma StartOk()
    ensures SessionOk(START) && SessionNet(START) == 0
  {
    hide S.Ok;
    assert Nets(START.objs) == [] && SessionShares(START.objs) == [];
  }

  lemma StartNeutral()
    ensures SessionNet(START) == 0 && Live(START) == 1 && GlobalClaim(START.loop) == 0
  {
    assert Nets(START.objs) == [];
  }

  lemma StepKeepsSession(s: Session, global: int, m: Move)
    requires SessionOk(s) && Can(s, m)
    ensures SessionOk(Do(s, global, m))
    ensures SessionNet(Do(s, global, m)) == SessionNet(s) + GlobalDelta(s, m)
  {
    hide ShapeOk, WritersOk, BudgetOk, Do, GlobalDelta, Can;
    DoKeepsShape(s, global, m);
    DoAccounted(s, global, m);
  }

  /** No move revives a finished session. */
  lemma LiveDecreases(s: Session, global: int, m: Move)
    requires Can(s, m)
    ensures Live(Do(s, global, m)) <= Live(s)
  {
    hide DoLocal, DoDrop, DoOpener, DoLoop, DoClient;
  }

  lemma LoopClaims(s: Session, global: int, m: LoopMove)
    requires LoopOk(s) && CanLoop(s, m) && !m.LoopTestGlobal?
    ensures (if m.LoopBillGlobal? then s.loop.n else 0) + GlobalClaim(DoLoop(s, global, m).loop) <= GlobalClaim(s.loop)
  {
    hide S.Ok;
  }

  /** Except when a test of the global budget succeeds, counter plus claims never grows. */
  lemma ClaimsDecrease(s: Session, global: int, m: Move)
    requires SessionOk(s) && Can(s, m)
    requires !(m.LoopDoes? && m.step.LoopTestGlobal?)
    ensures GlobalDelta(s, m) + GlobalClaim(Do(s, global, m).loop) <= GlobalClaim(s.loop)
  {
    if m.Local? {
      assert S.Ok(s.objs[m.i]);
      LocalBills(s.objs[m.i], m.act);
    } else if m.LoopDoes? {
      LoopClaims(s, global, m.step);
    }
    hide SessionOk, S.Can, S.GlobalDelta, DoLocal, DoDrop, DoOpener, DoLoop, DoAll, DoClient;
  }

  lemma ClaimBound(s: Session)
    requires SessionOk(s)
    ensures 0 <= GlobalClaim(s.loop) <= MAX_PAYLOAD * Live(s)
  {
    hide S.Ok;
  }

  /** How the three sums move when the k-th session takes a step. */
  lemma StepSums(h: Host, k: nat, s': Session)
    requires k < |h.sessions|
    ensures var sessions' := h.sessions[k := s'];
            && Total(SessionNets(sessions')) == Total(SessionNets(h.sessions)) - SessionNet(h.sessions[k]) + SessionNet(s')
            && Total(Lives(sessions')) == Total(Lives(h.sessions)) - Live(h.sessions[k]) + Live(s')
            && Total(Claims(sessions')) == Total(Claims(h.sessions)) - GlobalClaim(h.sessions[k].loop) + GlobalClaim(s'.loop)
  {
    var sessions' := h.sessions[k := s'];
    TotalUpdate(SessionNets(h.sessions), k, SessionNet(s'));
    assert SessionNets(sessions') == SessionNets(h.sessions)[k := SessionNet(s')];
    TotalUpdate(Lives(h.sessions), k, Live(s'));
    assert Lives(sessions') == Lives(h.sessions)[k := Live(s')];
    TotalUpdate(Claims(h.sessions), k, GlobalClaim(s'.loop));
    assert Claims(sessions') == Claims(h.sessions)[k := GlobalClaim(s'.loop)];
  }

  lemma AcceptSums(h: Host)
    ensures var sessions' := h.sessions + [START];
            && Total(SessionNets(sessions')) == Total(SessionNets(h.sessions))
            && Total(Lives(sessions')) == Total(Lives(h.sessions)) + 1
            && Total(Claims(sessions')) == Total(Claims(h.sessions))
  {
    var sessions' := h.sessions + [START];
    StartNeutral();
    hide SessionNet, Live, GlobalClaim, START;
    TotalSnoc(SessionNets(h.sessions), 0);
    assert SessionNets(sessions') == SessionNets(h.sessions) + [0];
    TotalSnoc(Lives(h.sessions), 1);
    assert Lives(sessions') == Lives(h.sessions) + [1];
    TotalSnoc(Claims(h.sessions), 0);
    assert Claims(sessions') == Claims(h.sessions) + [0];
  }

  /** While a live session holds no claim, the others' claims fit one frame per other live session. */
  lemma OthersClaims(h: Host, k: nat)
    requires SessionsOk(h) && k < |h.sessions| && Live(h.sessions[k]) == 1
    ensures Total(Claims(h.sessions)) - GlobalClaim(h.sessions[k].loop) <= MAX_PAYLOAD * (Total(Lives(h.sessions)) - 1)
  {
    hide SessionOk;
    var bounds := seq(|h.sessions|, i requires 0 <= i < |h.sessions| => MAX_PAYLOAD * Live(h.sessions[i]));
    forall i: nat | i < |h.sessions| && i != k
      ensures Claims(h.sessions)[i] <= bounds[i]
    {
      ClaimBound(h.sessions[i]);
    }
    TotalExcept(Claims(h.sessions), bounds, k);
    TotalScale(bounds, Lives(h.sessions), MAX_PAYLOAD);
  }

  lemma NotFinished(s: Session)
    requires SessionOk(s) && !s.loop.Ended?
    ensures Live(s) == 1
  {
    hide S.Ok, TableOk, ObjsOk, WireOk, WritersOk, BudgetOk;
  }

  /** A successful test admits a payload that fits under the cap; otherwise the loop claims nothing. */
  lemma TestClaims(s: Session, global: int)
    requires CanLoop(s, LoopTestGlobal)
    ensures var s' := DoLoop(s, global, LoopTestGlobal);
            && GlobalClaim(s.loop) == 0 && s'.all == s.all
            && (GlobalClaim(s'.loop) == 0 || global + GlobalClaim(s'.loop) <= GLOBAL_CAP)
  {
  }

  lemma CeilingCovers(lives: int, limit: nat)
    requires lives <= limit
    ensures GLOBAL_CAP + MAX_PAYLOAD * (lives - 1) <= Ceiling(limit)
  {
  }

  /** The overshoot bound survives a test of the global budget, whatever the other read loops hold. */
  lemma TestKeepsBound(h: Host, k: nat)
    requires SessionsOk(h) && GlobalBounded(h) && k < |h.sessions| && CanLoop(h.sessions[k], LoopTestGlobal)
    ensures GlobalBounded(h.(sessions := h.sessions[k := DoLoop(h.sessions[k], h.global, LoopTestGlobal)]))
  {
    hide DoLoop, SessionOk, GlobalClaim, Ceiling;
    var s := h.sessions[k];
    var s' := DoLoop(s, h.global, LoopTestGlobal);
    StepSums(h, k, s');
    TestClaims(s, h.global);
    NotFinished(s);
    OthersClaims(h, k);
    CeilingCovers(Total(Lives(h.sessions)), h.limit);
  }

  lemma StepKeepsBound(h: Host, k: nat, m: Move)
    requires SessionsOk(h) && GlobalBounded(h) && k < |h.sessions| && Can(h.sessions[k], m)
    requires !(m.LoopDoes? && m.step.LoopTestGlobal?)
    ensures GlobalBounded(DoHost(h, Step(k, m)))
  {
    var s := h.sessions[k];
    hide SessionOk, Do, Can, GlobalDelta, Ceiling, GlobalClaim, Live;
    ClaimsDecrease(s, h.global, m);
    LiveDecreases(s, h.global, m);
    StepSums(h, k, Do(s, h.global, m));
  }

  lemma EventKeepsOk(h: Host, e: Event)
    requires HostOk(h) && CanHost(h, e)
    ensures HostOk(DoHost(h, e))
  {
    hide SessionOk, DoLoop, DoLocal, DoDrop, DoOpener, DoAll, DoClient, SessionNet, Live, GlobalClaim, START, S.Can, S.GlobalDelta, Ceiling;
    var h' := DoHost(h, e);
    match e
    case Accept =>
      AcceptSums(h);
      StartOk();
      if h.sessions == [] {
        assert Claims([]) == [] && SessionNets([]) == [] && Lives([]) == [];
        CeilingCovers(1, h.limit);
      }
    case Step(k, m) =>
      StepKeepsSession(h.sessions[k], h.global, m);
      StepSums(h, k, Do(h.sessions[k], h.global, m));
      if m.LoopDoes? && m.step.LoopTestGlobal? {
        TestKeepsBound(h, k);
      } else {
        StepKeepsBound(h, k, m);
      }
  }

  lemma {:induction false} RunKeepsOk(h: Host, run: seq<Event>)
    requires HostOk(h) && Legal(h, run)
    ensures HostOk(After(h, run)) && After(h, run).limit == h.limit
    decreases |run|
  {
    if run != [] {
      hide HostOk, Can, Do;
      EventKeepsOk(h, run[0]);
      RunKeepsOk(DoHost(h, run[0]), run[1..]);
    }
  }

  lemma BootOk(limit: nat)
    ensures HostOk(Boot(limit))
  {
    assert SessionNets([]) == [] && Lives([]) == [];
  }

  lemma ReachableOk(limit: nat, run: seq<Event>)
    requires Legal(Boot(limit), run)
    ensures HostOk(After(Boot(limit), run)) && After(Boot(limit), run).limit == limit
  {
    hide HostOk, DoHost, CanHost;
    BootOk(limit);
    RunKeepsOk(Boot(limit), run);
  }

  // ----- Theorems ----------------------------------------------------------------------------

  /** No session has taken more out of the global counter than it has put in. */
  lemma NetsNonNegative(s: Session)
    requires ObjsOk(s)
    ensures 0 <= SessionNet(s)
  {
    var zeros := seq(|s.objs|, _ => 0);
    forall i: nat | i < |s.objs|
      ensures 0 <= Nets(s.objs)[i]
    {
      NetIsHeld(s.objs[i]);
    }
    hide S.Ok;
    TotalZero(zeros);
    TotalMono(zeros, Nets(s.objs));
  }

  /**
   Exact accounting: after every run, with arbitrary peers, the process-wide counter is the sum over
   all streams of all sessions of what they hold, and each session's counter likewise.
   */
  lemma ExactAccounting(limit: nat, run: seq<Event>)
    requires Legal(Boot(limit), run)
    ensures var h := After(Boot(limit), run);
            && h.global == Total(SessionNets(h.sessions))
            && (forall k: nat | k < |h.sessions| ::
                  && SessionExact(h.sessions[k])
                  && forall i: nat | i < |h.sessions[k].objs| ::
                       var o := h.sessions[k].objs[i];
                       && o.qbytes == |Flat(o.queue)| && Net(o) == S.GlobalShare(o) - o.owed
                       && (o.reclaim.Reclaimed? ==> o.qbytes == 0 && Net(o) == 0))
  {
    hide Legal, After, S.Ok, SessionExact, Net, S.GlobalShare;
    ReachableOk(limit, run);
    var h := After(Boot(limit), run);
    forall k: nat | k < |h.sessions|
      ensures SessionExact(h.sessions[k])
    {
      assert SessionOk(h.sessions[k]);
    }
    forall k: nat, i: nat | k < |h.sessions| && i < |h.sessions[k].objs|
      ensures var o := h.sessions[k].objs[i];
              && o.qbytes == |Flat(o.queue)| && Net(o) == S.GlobalShare(o) - o.owed
              && (o.reclaim.Reclaimed? ==> o.qbytes == 0 && Net(o) == 0)
    {
      assert SessionOk(h.sessions[k]);
      ObjBooks(h.sessions[k].objs[i]);
    }
  }

  lemma ObjBooks(o: S.Obj)
    requires S.Ok(o)
    ensures o.qbytes == |Flat(o.queue)| && Net(o) == S.GlobalShare(o) - o.owed
    ensures o.reclaim.Reclaimed? ==> o.qbytes == 0 && Net(o) == 0
  {
  }

  lemma CapsOf(h: Host)
    requires SessionsOk(h) && GlobalExact(h) && GlobalBounded(h)
    ensures 0 <= h.global
    ensures h.sessions != [] ==> h.global <= Ceiling(h.limit)
  {
    var zeros := seq(|h.sessions|, _ => 0);
    forall k: nat | k < |h.sessions|
      ensures 0 <= Claims(h.sessions)[k]
      ensures 0 <= SessionNets(h.sessions)[k]
    {
      ClaimBound(h.sessions[k]);
      NetsNonNegative(h.sessions[k]);
    }
    hide SessionOk, SessionNet, GlobalClaim, Live, Ceiling;
    TotalZero(zeros);
    TotalMono(zeros, Claims(h.sessions));
    TotalMono(zeros, SessionNets(h.sessions));
  }

  /**
   The caps: no session's counter passes its cap, and check-then-add races of the read loops can
   lift the global counter above its cap by at most one frame for each other connection.
   */
  lemma CapsHold(limit: nat, run: seq<Event>)
    requires Legal(Boot(limit), run)
    ensures var h := After(Boot(limit), run);
            && (forall k: nat | k < |h.sessions| :: h.sessions[k].buffered <= 128 * 0x10_0000)
            && 0 <= h.global
            && (h.sessions != [] ==> h.global <= 256 * 0x10_0000 + (limit - 1) * 16375)
  {
    hide SessionOk, DoHost, CanHost;
    ReachableOk(limit, run);
    var h := After(Boot(limit), run);
    CapsOf(h);
    forall k: nat | k < |h.sessions|
      ensures h.sessions[k].buffered <= SESSION_CAP
    {
      SessionCapOf(h.sessions[k]);
    }
  }

  /** On a server with its 8192 connections the counter stays below 384 MiB. */
  lemma ServerCeiling(run: seq<Event>)
    requires Legal(Boot(8192), run)
    ensures 0 <= After(Boot(8192), run).global < 384 * 0x10_0000
  {
    hide Legal, After, SessionOk;
    CapsHold(8192, run);
    ReachableOk(8192, run);
    if After(Boot(8192), run).sessions == [] {
      NobodyNothing(After(Boot(8192), run));
    }
  }

  lemma NobodyNothing(h: Host)
    requires GlobalExact(h) && h.sessions == []
    ensures h.global == 0
  {
  }

  lemma SessionCapOf(s: Session)
    requires SessionOk(s)
    ensures s.buffered <= SESSION_CAP
  {
    hide ShapeOk, WritersOk;
  }
}
