/**
 Teardown comes to an end. Once a session's read loop has ended, its closeAll and everything that is still
 half-way can be finished, without a byte that the wire or an upstream would have to take.
 */
module Rest {
  import opened Limits
  import opened Session
  import opened Shape
  import opened Sums
  import opened Host
  import opened BackPressure
  import opened Teardown
  import S = StreamObject

  // ----- What is left to do on one stream ----------------------------------------------------

  function OpenerWork(o: S.Opener): nat {
    match o
    case Stored => 20
    case Cleared => 19
    case OpenerDropping => 18
    case Cleaning => 3
    case OpenerHanging => 1
    case _ => 0
  }

  function PumpWork(p: S.Pump): nat {
    match p
    case Deciding(_) => 1
    case Popped(_, _, _) => 2
    case HalfBilled(_, _, _) => 1
    case _ => 0
  }

  function CloserWork(o: S.Obj): nat {
    (if o.grab.Grabbed? then 8 else 0)
    + match o.reclaim {
        case Won(_) => 6
        case SessionBilled(_) => 5
        case Hanging => 1
        case _ => 0
      }
  }

  function Work(o: S.Obj): nat {
    OpenerWork(o.opener) + PumpWork(o.pump) + CloserWork(o)
  }

  function Works(objs: seq<S.Obj>): seq<int> {
    seq(|objs|, i requires 0 <= i < |objs| => Work(objs[i]))
  }

  /** What is left to do, closeAll apart. */
  function Left(s: Session): int {
    Total(Works(s.objs)) + |s.dialing|
  }

  lemma {:induction false} WorksNatural(objs: seq<S.Obj>)
    ensures 0 <= Total(Works(objs))
    ensures Total(Works(objs)) == 0 ==> forall i: nat | i < |objs| :: Work(objs[i]) == 0
  {
    hide Work;
    if objs != [] {
      var front := objs[..|objs| - 1];
      WorksNatural(front);
      assert Works(objs)[..|objs| - 1] == Works(front);
      if Total(Works(objs)) == 0 {
        assert forall i: nat | i < |front| :: objs[i] == front[i];
      }
    }
  }

  lemma SetObjLeft(s: Session, i: nat, o: S.Obj)
    requires i < |s.objs|
    ensures Left(SetObj(s, i, o)) == Left(s) - Work(s.objs[i]) + Work(o)
  {
    hide Work;
    TotalUpdate(Works(s.objs), i, Work(o));
    assert Works(s.objs[i := o]) == Works(s.objs)[i := Work(o)];
  }

  // ----- The next step -----------------------------------------------------------------------

  /** The next step of whoever is half-way on stream i; writes to the wire fail, as on a closed connection. */
  function NextOn(i: nat, o: S.Obj): Move {
    match o.opener
    case Stored => OpenerDoes(OpenerCheck(i))
    case Cleared => Local(i, S.OpenerAnnounce(false))
    case OpenerDropping => DropBy(ByOpener(i))
    case Cleaning => OpenerDoes(OpenerClean(i))
    case OpenerHanging => Local(i, S.OpenerHangUp)
    case _ => Local(i, NextAct(o))
  }

  function NextAct(o: S.Obj): S.Act {
    if o.pump.Deciding? then S.PumpPark
    else if o.pump.Popped? then S.PumpBillSession
    else if o.pump.HalfBilled? then S.PumpBillGlobal
    else if o.grab.Grabbed? then S.CloserSwap
    else match o.reclaim
      case Won(_) => S.CloserBillSession
      case SessionBilled(_) => S.CloserClear
      case _ => S.CloserHangUp
  }

  lemma NextActLowers(o: S.Obj)
    requires S.Ok(o) && !o.mu.ByLoop? && Work(o) > 0 && OpenerWork(o.opener) == 0
    ensures S.Can(o, NextAct(o)) && Work(S.Do(o, NextAct(o))) < Work(o) && S.Out(o, NextAct(o)) == []
  {
    hide S.LifeOk, S.CreditOk, S.SizeOk, S.WakeOk, S.LedgerOk;
  }

  lemma OpenerLowers(o: S.Obj)
    requires OpenerWork(o.opener) > 0
    ensures o.opener.Cleared? ==> Work(S.Do(o, S.OpenerAnnounce(false))) < Work(o)
    ensures o.opener.OpenerHanging? ==> Work(S.Do(o, S.OpenerHangUp)) < Work(o)
    ensures o.opener.Stored? ==> Work(S.OpenerChecks(o, true)) < Work(o) && Work(S.OpenerChecks(o, false)) < Work(o)
    ensures o.opener.Cleaning? ==> Work(S.OpenerDrops(o)) < Work(o)
    ensures o.opener.OpenerDropping? ==> Work(S.OpenerDrops(o)) + 8 < Work(o)
    ensures Work(S.Loaded(o)) <= Work(o) + 8
  {
  }

  lemma LoadedWork(o: S.Obj)
    ensures Work(S.Loaded(o)) <= Work(o) + 8
  {
  }

  /** No step of these needs the wire or an upstream to take anything. */
  predicate Silent(m: Move) {
    match m
    case Local(_, act) =>
      || act.PumpPark? || act.PumpBillSession? || act.PumpBillGlobal? || act.CloserSwap? || act.CloserBillSession?
      || act.CloserClear? || act.CloserHangUp? || act.OpenerHangUp? || act == S.OpenerAnnounce(false)
    case DropBy(_) => true
    case OpenerDoes(opener) => opener.OpenerCheck? || opener.OpenerClean? || (opener.DialFail? && !opener.ok)
    case AllDoes(_) => true
    case _ => false
  }

  /** The step brings its session closer to rest and leaves closeAll where it is. */
  ghost predicate Closer(s: Session, s': Session) {
    && 0 <= Left(s') < Left(s) && s'.all == s.all && s'.loop == s.loop && s'.table.Keys <= s.table.Keys
  }

  lemma LocalCloser(s: Session, i: nat, act: S.Act)
    requires i < |s.objs| && S.Can(s.objs[i], act) && Work(S.Do(s.objs[i], act)) < Work(s.objs[i])
    ensures Closer(s, DoLocal(s, i, act))
  {
    hide S.Can, S.Do, S.Out, S.SessionDelta, Work, Works;
    SetObjLeft(s, i, S.Do(s.objs[i], act));
    WorksNatural(DoLocal(s, i, act).objs);
  }

  lemma LoadLeft(s: Session, id: StreamId)
    ensures Left(LoadAndDelete(s, id)) <= Left(s) + 8 && LoadAndDelete(s, id).table.Keys <= s.table.Keys
  {
    hide Work, Works;
    if id in s.table && s.table[id] < |s.objs| {
      LoadedWork(s.objs[s.table[id]]);
      SetObjLeft(s, s.table[id], S.Loaded(s.objs[s.table[id]]));
    }
  }

  lemma DropCloser(s: Session, i: nat)
    requires CanDrop(s, ByOpener(i))
    ensures Closer(s, DoDrop(s, ByOpener(i)))
  {
    hide Work, Works, LoadAndDelete;
    var o := s.objs[i];
    OpenerLowers(o) by { DroppingWorks(o); }
    SetObjLeft(s, i, S.OpenerDrops(o));
    LoadLeft(SetObj(s, i, S.OpenerDrops(o)), o.id);
    WorksNatural(DoDrop(s, ByOpener(i)).objs);
  }

  lemma DroppingWorks(o: S.Obj)
    ensures o.opener.OpenerDropping? || o.opener.Stored? || o.opener.Cleaning? ==> OpenerWork(o.opener) > 0
  {
  }

  lemma OpenerCloser(s: Session, m: OpenerMove)
    requires CanOpener(s, m) && (m.OpenerCheck? || m.OpenerClean?)
    ensures Closer(s, DoOpener(s, m))
  {
    hide Work, Works;
    var o := s.objs[m.i];
    OpenerLowers(o) by { DroppingWorks(o); }
    SetObjLeft(s, m.i, if m.OpenerCheck? then S.OpenerChecks(o, s.closed) else S.OpenerDrops(o));
    WorksNatural(DoOpener(s, m).objs);
  }

  lemma DialCloser(s: Session)
    requires s.dialing != []
    ensures Closer(s, DoOpener(s, DialFail(0, false)))
  {
    hide Works;
    WorksNatural(s.objs);
    assert s.s2c + [] == s.s2c;
  }

  /** Whenever something is left to do, some step does part of it. */
  lemma StepCloser(s: Session, global: int) returns (m: Move)
    requires ShapeOk(s) && s.loop.Ended? && Left(s) > 0
    ensures Can(s, m) && Silent(m) && Closer(s, Do(s, global, m))
  {
    hide Closer, TableOk, WireOk, SweepOk, S.Ok, Work, S.Do, S.Can, DoLocal, DoDrop, DoOpener;
    if s.dialing != [] {
      m := OpenerDoes(DialFail(0, false));
      DialCloser(s);
    } else {
      var i := SomeWork(s);
      m := NextOn(i, s.objs[i]);
      NextCloser(s, global, i);
    }
  }

  lemma SomeWork(s: Session) returns (i: nat)
    requires Left(s) > 0 && s.dialing == []
    ensures i < |s.objs| && Work(s.objs[i]) > 0
  {
    hide Work;
    assert exists j: nat :: j < |s.objs| && Work(s.objs[j]) != 0 by {
      if forall j: nat | j < |s.objs| :: Work(s.objs[j]) == 0 {
        TotalZero(Works(s.objs));
      }
    }
    i :| i < |s.objs| && Work(s.objs[i]) != 0;
  }

  lemma NextCloser(s: Session, global: int, i: nat)
    requires ObjsOk(s) && LoopOk(s) && s.loop.Ended? && i < |s.objs| && Work(s.objs[i]) > 0
    ensures var m := NextOn(i, s.objs[i]); Can(s, m) && Silent(m) && Closer(s, Do(s, global, m))
  {
    hide Closer, Work, S.Do, S.Can, DoLocal, DoDrop, DoOpener, S.Ok, LoopOk;
    var o := s.objs[i];
    assert !o.mu.ByLoop? by { NobodyLocked(s, i); }
    if OpenerWork(o.opener) == 0 {
      NextActLowers(o);
      NextIsSilent(o);
      LocalCloser(s, i, NextAct(o));
    } else {
      OpenerLowers(o);
      OpenerCan(o);
      match o.opener
      case Stored => OpenerCloser(s, OpenerCheck(i));
      case Cleared => LocalCloser(s, i, S.OpenerAnnounce(false));
      case OpenerDropping => DropCloser(s, i);
      case Cleaning => OpenerCloser(s, OpenerClean(i));
      case OpenerHanging => LocalCloser(s, i, S.OpenerHangUp);
    }
  }

  lemma OpenerCan(o: S.Obj)
    ensures o.opener.Cleared? ==> S.Can(o, S.OpenerAnnounce(false))
    ensures o.opener.OpenerHanging? ==> S.Can(o, S.OpenerHangUp)
  {
  }

  lemma NextIsSilent(o: S.Obj)
    ensures Silent(Local(0, NextAct(o)))
    ensures forall i: nat :: Silent(Local(i, NextAct(o)))
  {
  }

  lemma NobodyLocked(s: Session, i: nat)
    requires LoopOk(s) && s.loop.Ended? && i < |s.objs|
    ensures !s.objs[i].mu.ByLoop?
  {
  }

  // ----- Runs --------------------------------------------------------------------------------

  /** Steps of session k only, and none that needs the wire or an upstream. */
  predicate SilentRun(run: seq<Event>, k: nat) {
    forall e <- run :: Own(e, k) && Silent(e.move)
  }

  /** What the continuations below start from. */
  ghost predicate Ending(h: Host, k: nat) {
    HostOk(h) && k < |h.sessions| && h.sessions[k].loop.Ended?
  }

  lemma OneStep(h: Host, k: nat, m: Move)
    requires Ending(h, k) && Can(h.sessions[k], m) && Do(h.sessions[k], h.global, m).loop.Ended?
    ensures CanHost(h, Step(k, m)) && Ending(DoHost(h, Step(k, m)), k)
    ensures DoHost(h, Step(k, m)).sessions[k] == Do(h.sessions[k], h.global, m)
  {
    hide HostOk, Can, Do, GlobalDelta;
    EventKeepsOk(h, Step(k, m));
  }

  lemma EndingShape(h: Host, k: nat)
    requires Ending(h, k)
    ensures ShapeOk(h.sessions[k])
  {
    hide ShapeOk, WritersOk, GlobalExact, GlobalBounded;
    assert SessionOk(h.sessions[k]);
  }

  lemma ConsStep(h: Host, e: Event, rest: seq<Event>)
    requires CanHost(h, e) && Legal(DoHost(h, e), rest)
    ensures Legal(h, [e] + rest) && After(h, [e] + rest) == After(DoHost(h, e), rest)
  {
    hide CanHost, DoHost;
    assert ([e] + rest)[1..] == rest;
  }

  /** Everything half-way is finished, and closeAll stays where it is. */
  lemma {:induction false} FinishWork(h: Host, k: nat) returns (run: seq<Event>)
    requires Ending(h, k)
    ensures Legal(h, run) && SilentRun(run, k) && Ending(After(h, run), k)
    ensures var s, s' := h.sessions[k], After(h, run).sessions[k];
            Left(s') == 0 && s'.all == s.all && s'.table.Keys <= s.table.Keys
    decreases Left(h.sessions[k])
  {
    hide HostOk, Can, Do, CanHost, DoHost, Left, Silent, ShapeOk;
    var s := h.sessions[k];
    LeftIsNatural(s);
    if Left(s) == 0 {
      run := [];
    } else {
      EndingShape(h, k);
      var m := StepCloser(s, h.global);
      OneStep(h, k, m);
      var rest := FinishWork(DoHost(h, Step(k, m)), k);
      ConsStep(h, Step(k, m), rest);
      run := [Step(k, m)] + rest;
    }
  }

  lemma LeftIsNatural(s: Session)
    ensures 0 <= Left(s)
  {
    hide Works;
    WorksNatural(s.objs);
  }

  /** The steps of closeAll up to Range, or from the entry that it is at back to Range. */
  lemma {:induction false} BackToRange(h: Host, k: nat, steps: nat) returns (run: seq<Event>)
    requires Ending(h, k) && steps >= PhaseOf(h.sessions[k].all)
    ensures Legal(h, run) && SilentRun(run, k) && Ending(After(h, run), k)
    ensures var all := After(h, run).sessions[k].all; all.Ranging? || all.Finished?
    ensures After(h, run).sessions[k].table.Keys <= h.sessions[k].table.Keys
    decreases steps
  {
    hide HostOk, CanHost, DoHost, ShapeOk;
    var s := h.sessions[k];
    if s.all.Ranging? || s.all.Finished? {
      run := [];
    } else {
      EndingShape(h, k);
      var m := NextAll(s);
      AllCan(s, h.global);
      OneStep(h, k, AllDoes(m));
      var rest := BackToRange(DoHost(h, Step(k, AllDoes(m))), k, steps - 1);
      ConsStep(h, Step(k, AllDoes(m)), rest);
      run := [Step(k, AllDoes(m))] + rest;
    }
  }

  function PhaseOf(a: All): nat {
    match a
    case NotBegun => 2
    case Flagged => 1
    case Visiting(_, _) => 2
    case Deleting(_, _) => 1
    case _ => 0
  }

  function NextAll(s: Session): AllMove {
    match s.all
    case NotBegun => AllFlag
    case Flagged => AllStart
    case Visiting(_, _) => AllSwap
    case _ => AllDelete
  }

  lemma AllCan(s: Session, global: int)
    requires ShapeOk(s) && s.loop.Ended? && !s.all.Ranging? && !s.all.Finished?
    ensures CanAll(s, NextAll(s))
    ensures var s' := Do(s, global, AllDoes(NextAll(s)));
            PhaseOf(s'.all) < PhaseOf(s.all) && s'.table.Keys <= s.table.Keys && s'.loop == s.loop
    ensures s.all.Deleting? ==>
              s.all.i < |s.objs| && Do(s, global, AllDoes(NextAll(s))).table.Keys == s.table.Keys - {s.objs[s.all.i].id}
  {
    hide TableOk, ObjsOk, WireOk, SweepOk, S.Ok;
  }

  /** One entry of the table is visited, its stream closed, and the entry deleted. */
  lemma SweepOne(h: Host, k: nat, id: StreamId) returns (run: seq<Event>)
    requires Ending(h, k) && h.sessions[k].all.Ranging? && id in h.sessions[k].table
    ensures Legal(h, run) && SilentRun(run, k) && Ending(After(h, run), k)
    ensures After(h, run).sessions[k].all.Ranging?
    ensures After(h, run).sessions[k].table.Keys < h.sessions[k].table.Keys
  {
    hide HostOk, CanHost, DoHost, ShapeOk, GlobalDelta;
    var s := h.sessions[k];
    EndingShape(h, k);
    SweepFacts(s, h.global, id);
    OneStep(h, k, AllDoes(AllLoad(id)));
    var h1 := DoHost(h, Step(k, AllDoes(AllLoad(id))));
    OneStep(h1, k, AllDoes(AllSwap));
    var h2 := DoHost(h1, Step(k, AllDoes(AllSwap)));
    OneStep(h2, k, AllDoes(AllDelete));
    var h3 := DoHost(h2, Step(k, AllDoes(AllDelete)));
    assert Legal(h3, []) && After(h3, []) == h3;
    ConsStep(h2, Step(k, AllDoes(AllDelete)), []);
    ConsStep(h1, Step(k, AllDoes(AllSwap)), [Step(k, AllDoes(AllDelete))] + []);
    ConsStep(h, Step(k, AllDoes(AllLoad(id))), [Step(k, AllDoes(AllSwap))] + ([Step(k, AllDoes(AllDelete))] + []));
    run := [Step(k, AllDoes(AllLoad(id)))] + ([Step(k, AllDoes(AllSwap))] + ([Step(k, AllDoes(AllDelete))] + []));
  }

  lemma SweepFacts(s: Session, global: int, id: StreamId)
    requires ShapeOk(s) && s.all.Ranging? && id in s.table
    ensures var s1 := Do(s, global, AllDoes(AllLoad(id)));
            && s1.all.Visiting? && s1.loop == s.loop && Can(s1, AllDoes(AllSwap))
            && forall g: int ::
                 var s2 := Do(s1, g, AllDoes(AllSwap));
                 && s2.all.Deleting? && s2.loop == s.loop && Can(s2, AllDoes(AllDelete))
                 && forall g': int ::
                      var s3 := Do(s2, g', AllDoes(AllDelete));
                      && s3.all.Ranging? && s3.loop == s.loop && s3.table.Keys == s.table.Keys - {id}
  {
    hide ObjsOk, LoopOk, WireOk, SweepOk;
    assert s.table[id] < |s.objs| && s.objs[s.table[id]].id == id;
  }

  /** Range goes on until the table is empty. */
  lemma {:induction false} SweepAll(h: Host, k: nat) returns (run: seq<Event>)
    requires Ending(h, k) && h.sessions[k].all.Ranging?
    ensures Legal(h, run) && SilentRun(run, k) && Ending(After(h, run), k)
    ensures After(h, run).sessions[k].all.Ranging? && After(h, run).sessions[k].table.Keys == {}
    decreases |h.sessions[k].table.Keys|
  {
    hide HostOk, CanHost, DoHost;
    if h.sessions[k].table.Keys == {} {
      run := [];
    } else {
      var id :| id in h.sessions[k].table.Keys;
      var first := SweepOne(h, k, id);
      Smaller(After(h, first).sessions[k].table.Keys, h.sessions[k].table.Keys);
      var rest := SweepAll(After(h, first), k);
      Chain(h, first, rest);
      run := first + rest;
    }
  }

  lemma Smaller(a: set<StreamId>, b: set<StreamId>)
    requires a < b
    ensures |a| < |b|
  {
    var rest := b - a;
    assert b == a + rest && a * rest == {};
    assert rest != {};
  }

  lemma {:induction false} Chain(h: Host, run: seq<Event>, more: seq<Event>)
    requires Legal(h, run) && Legal(After(h, run), more)
    ensures Legal(h, run + more) && After(h, run + more) == After(After(h, run), more)
    decreases |run|
  {
    hide CanHost, DoHost;
    if run == [] {
      assert run + more == more;
    } else {
      assert (run + more)[1..] == run[1..] + more;
      Chain(DoHost(h, run[0]), run[1..], more);
    }
  }

  lemma FinishAll(h: Host, k: nat) returns (run: seq<Event>)
    requires Ending(h, k) && h.sessions[k].all.Ranging? && h.sessions[k].table.Keys == {} && Left(h.sessions[k]) == 0
    ensures Legal(h, run) && SilentRun(run, k) && k < |After(h, run).sessions| && AtRest(After(h, run).sessions[k])
  {
    hide HostOk, ShapeOk, GlobalDelta, AtRest, Left;
    var s := h.sessions[k];
    NobodyListed(s);
    OneStep(h, k, AllDoes(AllFinish));
    var h1 := DoHost(h, Step(k, AllDoes(AllFinish)));
    assert Legal(h1, []) && After(h1, []) == h1;
    ConsStep(h, Step(k, AllDoes(AllFinish)), []);
    run := [Step(k, AllDoes(AllFinish))] + [];
    NothingLeft(s);
  }

  lemma NobodyListed(s: Session)
    requires s.all.Ranging? && s.table.Keys == {}
    ensures CanAll(s, AllFinish)
  {
    assert forall id: StreamId :: id !in s.table;
  }

  /** With nothing left to do, a session whose closeAll has finished is at rest. */
  lemma NothingLeft(s: Session)
    requires Left(s) == 0
    ensures AtRest(s.(all := Finished))
  {
    WorksNatural(s.objs);
    hide Works;
    forall i: nat | i < |s.objs|
      ensures var o := s.objs[i];
              (o.opener.Launched? || o.opener.Returned?) && !o.grab.Grabbed? && (o.reclaim.Unclaimed? || o.reclaim.Reclaimed?)
    {
      assert Work(s.objs[i]) == 0;
    }
  }

  /**
   Every teardown can be finished. From every reachable state in which a session's read loop has ended, with any
   peer, its closeAll, its dials and everything else that is half-way can go on, by steps none of which needs
   the wire or an upstream to take anything, until the session is at rest.
   */
  lemma TeardownFinishes(limit: nat, run: seq<Event>, k: nat) returns (tail: seq<Event>)
    requires Legal(Boot(limit), run) && k < |After(Boot(limit), run).sessions|
    requires After(Boot(limit), run).sessions[k].loop.Ended?
    ensures Legal(After(Boot(limit), run), tail) && SilentRun(tail, k)
    ensures k < |After(After(Boot(limit), run), tail).sessions| && AtRest(After(After(Boot(limit), run), tail).sessions[k])
  {
    hide Legal, After, HostOk, AtRest, Left, SilentRun, Boot;
    ReachableOk(limit, run);
    tail := ToRest(After(Boot(limit), run), k);
  }

  lemma ToRest(h: Host, k: nat) returns (tail: seq<Event>)
    requires Ending(h, k)
    ensures Legal(h, tail) && SilentRun(tail, k) && k < |After(h, tail).sessions| && AtRest(After(h, tail).sessions[k])
  {
    hide Legal, After, HostOk, AtRest, Left;
    var a := BackToRange(h, k, 2);
    var h1 := After(h, a);
    if h1.sessions[k].all.Finished? {
      var b := FinishWork(h1, k);
      Chain(h, a, b);
      tail := a + b;
      NothingLeft(After(h1, b).sessions[k]);
      assert After(h1, b).sessions[k].(all := Finished) == After(h1, b).sessions[k];
    } else {
      var b := SweepAll(h1, k);
      var h2 := After(h1, b);
      var c := FinishWork(h2, k);
      var h3 := After(h2, c);
      var d := FinishAll(h3, k);
      Chain(h, a, b);
      Chain(h, a + b, c);
      Chain(h, a + b + c, d);
      tail := a + b + c + d;
    }
  }
}
