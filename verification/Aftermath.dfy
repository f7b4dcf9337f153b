/**
 What a session that has come to rest leaves behind, exactly, for any peer. A stream escapes its
 session if and only if a handleOpen that cleaned up deleted its entry; and bytes stay counted if and
 only if the last owner of a stream left while they were queued and nobody was going to close it.
 */
module Aftermath {
  import opened Bytes
  import opened Limits
  import opened Session
  import opened Shape
  import opened Sums
  import opened Budget
  import opened Host
  import opened Flow
  import opened Upload
  import opened Teardown
  import S = StreamObject

  // ----- Who will still close a stream -------------------------------------------------------

  /** No closer has the object. */
  predicate Loose(o: S.Obj) {
    o.grab.Untouched? && !o.closed
  }

  /** Past its check of the session's closed flag, and not given up. */
  predicate Active(o: S.Obj) {
    o.opener.Cleared? || o.opener.Launched? || o.opener.OpenerDropping?
  }

  /** The last goroutine that would close the stream has left it. */
  predicate Left(o: S.Obj) {
    o.opener.OpenerHanging? || o.opener.Returned? || o.pump.Exited?
  }

  predicate Listed(s: Session, j: nat)
    requires j < |s.objs|
  {
    s.objs[j].id in s.table && s.table[s.objs[j].id] == j
  }

  /** closeAll has loaded the stream and is about to swap. */
  predicate Visited(s: Session, j: nat) {
    s.all.Visiting? && s.all.i == j
  }

  /** Nobody holds the stream and nobody will find it. */
  predicate Lost(s: Session, j: nat) {
    j < |s.objs| && s.closed && Loose(s.objs[j]) && !Listed(s, j) && !Visited(s, j)
  }

  ghost predicate Twin(s: Session, j: nat) {
    j < |s.objs| && exists i: nat :: i < |s.objs| && i != j && s.objs[i].id == s.objs[j].id
  }

  // ----- The two failing steps ---------------------------------------------------------------

  /**
   The cleanup of another handleOpen call deletes, by id, the entry of stream j, which is past its own
   check, open, not in the hands of a closeStream and not the one closeAll is at.
   */
  predicate Strikes(s: Session, m: Move, j: nat)
    requires Can(s, m)
  {
    && m.OpenerDoes? && m.opener.OpenerClean? && m.opener.i != j && j < |s.objs|
    && s.objs[m.opener.i].id == s.objs[j].id && Listed(s, j)
    && Active(s.objs[j]) && Loose(s.objs[j]) && !Visited(s, j)
  }

  /**
   The last owner of stream j leaves it with bytes queued, and no closer has it or is going to: its own
   handleOpen cleans up, or its pump or handleOpen calls closeStream and the entry is not its own any more.
   */
  predicate Spends(s: Session, m: Move, j: nat)
    requires Can(s, m)
  {
    && j < |s.objs| && Loose(s.objs[j]) && !Visited(s, j) && s.objs[j].qbytes > 0
    && (|| m == OpenerDoes(OpenerClean(j))
        || ((m == DropBy(ByPump(j)) || m == DropBy(ByOpener(j))) && !Listed(s, j)))
  }

  // ----- The invariant of one stream's fate --------------------------------------------------

  /**
   On an open session an unclaimed stream is listed and has an owner. Later, unless it was struck, it is
   listed or visited as long as it is active; and once its owner has left it holds bytes only while
   closeAll is at it, unless it was spent. What was struck or spent stays lost.
   */
  ghost predicate FateOk(s: Session, j: nat, struck: bool, spent: bool) {
    && (j < |s.objs| && Loose(s.objs[j]) ==>
          && (!s.closed ==> Listed(s, j) && !Left(s.objs[j]))
          && (!struck && Active(s.objs[j]) ==> Listed(s, j) || Visited(s, j))
          && (!spent && Left(s.objs[j]) && s.objs[j].qbytes > 0 ==> Visited(s, j)))
    && (struck ==> Lost(s, j) && Twin(s, j))
    && (spent ==> Lost(s, j) && Left(s.objs[j]) && s.objs[j].qbytes > 0)
  }

  // ----- Steps -------------------------------------------------------------------------------

  lemma LocalFate(o: S.Obj, a: S.Act)
    requires S.Ok(o) && S.Can(o, a)
    ensures var o' := S.Do(o, a);
            && o'.id == o.id && (Loose(o') <==> Loose(o))
            && (Loose(o) ==> (Active(o') ==> Active(o)) && (Left(o') <==> Left(o))
                             && (o'.qbytes > 0 ==> o.qbytes > 0) && (Left(o) ==> o'.qbytes == o.qbytes))
  {
    hide S.SizeOk, S.CreditOk, S.LedgerOk;
  }

  /** One object steps, keeping its claim and its owner. */
  lemma PatchFate(s: Session, s': Session, i: nat, j: nat, struck: bool, spent: bool)
    requires FateOk(s, j, struck, spent) && i < |s.objs| && |s'.objs| == |s.objs|
    requires s'.table == s.table && s'.all == s.all && s'.closed == s.closed
    requires forall k: nat | k < |s.objs| :: s'.objs[k].id == s.objs[k].id
    requires forall k: nat | k < |s.objs| && k != i :: s'.objs[k] == s.objs[k]
    requires var o, o' := s.objs[i], s'.objs[i];
             && (Loose(o') <==> Loose(o))
             && (Loose(o) ==> (Active(o') ==> Active(o)) && (Left(o') <==> Left(o))
                              && (o'.qbytes > 0 ==> o.qbytes > 0) && (Left(o) ==> o'.qbytes == o.qbytes))
    ensures FateOk(s', j, struck, spent)
  {
    hide Loose, Active, Left;
    if Twin(s, j) {
      var k: nat :| k < |s.objs| && k != j && s.objs[k].id == s.objs[j].id;
      assert s'.objs[k].id == s'.objs[j].id;
    }
  }

  lemma LocalKeepsFate(s: Session, i: nat, act: S.Act, j: nat, struck: bool, spent: bool)
    requires FateOk(s, j, struck, spent) && i < |s.objs| && S.Ok(s.objs[i]) && S.Can(s.objs[i], act)
    ensures FateOk(DoLocal(s, i, act), j, struck, spent)
  {
    hide S.Ok, S.Can, S.Do, S.Out, S.SessionDelta, FateOk, Loose, Active, Left;
    LocalFate(s.objs[i], act);
    PatchFate(s, DoLocal(s, i, act), i, j, struck, spent);
  }

  /** The parts of the state a fate depends on. */
  lemma SameFate(s: Session, s': Session, j: nat, struck: bool, spent: bool)
    requires FateOk(s, j, struck, spent) && SameLists(s, s')
    ensures FateOk(s', j, struck, spent)
  {
    hide Loose, Active, Left;
  }

  /** LoadAndDelete claims the stream it removes. */
  lemma LoadKeepsFate(s: Session, id: StreamId, j: nat, struck: bool, spent: bool)
    requires FateOk(s, j, struck, spent) && TableOk(s)
    ensures FateOk(LoadAndDelete(s, id), j, struck, spent)
  {
    hide Active, Left;
    var s' := LoadAndDelete(s, id);
    if id in s.table {
      assert forall k: nat | k < |s.objs| :: s'.objs[k].id == s.objs[k].id;
      KeepsTwin(s, s', j);
    }
  }

  lemma KeepsTwin(s: Session, s': Session, j: nat)
    requires |s.objs| <= |s'.objs| && forall k: nat | k < |s.objs| :: s'.objs[k].id == s.objs[k].id
    ensures Twin(s, j) ==> Twin(s', j)
  {
    if Twin(s, j) {
      var k: nat :| k < |s.objs| && k != j && s.objs[k].id == s.objs[j].id;
      assert s'.objs[k].id == s'.objs[j].id;
    }
  }

  lemma DropKeepsFate(s: Session, m: DropMove, j: nat, struck: bool, spent: bool)
    requires FateOk(s, j, struck, spent) && TableOk(s) && CanDrop(s, m)
    ensures FateOk(DoDrop(s, m), j, struck, spent || Spends(s, DropBy(m), j))
  {
    hide Twin, DoDrop, Dropped, Loose, Active, Left;
    var s' := DoDrop(s, m);
    DropEffect(s, m);
    KeepsTwin(s, s', j);
    DropOwner(s.objs[m.i], m);
    if j < |s.objs| {
      LoadedIsClaimed(s.objs[j]);
      LoadedIsClaimed(Dropped(s.objs[m.i], m));
    }
  }

  /** The caller of closeStream moves on, and the entry's stream, which may be another, is claimed. */
  lemma DropEffect(s: Session, m: DropMove)
    requires TableOk(s) && CanDrop(s, m)
    ensures var s', o := DoDrop(s, m), s.objs[m.i];
            && s'.table == s.table - {o.id} && s'.all == s.all && s'.closed == s.closed && |s'.objs| == |s.objs|
            && forall k: nat | k < |s.objs| ::
                 var mine := if k == m.i then Dropped(o, m) else s.objs[k];
                 && s'.objs[k].id == s.objs[k].id
                 && s'.objs[k] == if s.objs[k].id == o.id && Listed(s, k) then S.Loaded(mine) else mine
  {
    hide Dropped, LoadAndDelete;
    var o := s.objs[m.i];
    DropOwner(o, m);
    hide Loose, Active, Left;
    var s1 := SetObj(s, m.i, Dropped(o, m));
    assert forall k: nat | k < |s.objs| :: s1.objs[k].id == s.objs[k].id;
    LoadEffect(s1, o.id);
  }

  lemma LoadEffect(s: Session, id: StreamId)
    requires forall i <- s.table.Keys :: s.table[i] < |s.objs|
    ensures var s' := LoadAndDelete(s, id);
            && s'.table == s.table - {id} && s'.all == s.all && s'.closed == s.closed && |s'.objs| == |s.objs|
            && forall k: nat | k < |s.objs| ::
                 && s'.objs[k].id == s.objs[k].id
                 && s'.objs[k] == if id in s.table && s.table[id] == k then S.Loaded(s.objs[k]) else s.objs[k]
  {
    if id !in s.table {
      assert s.table - {id} == s.table;
    }
  }

  lemma DropOwner(o: S.Obj, m: DropMove)
    requires match m {
               case ByPump(_) => o.pump.PumpDropping?
               case ByReader(_) => o.reader.ReaderDropping?
               case ByOpener(_) => o.opener.OpenerDropping?
             }
    ensures var o' := Dropped(o, m);
            && o'.id == o.id && o'.qbytes == o.qbytes && (Loose(o') <==> Loose(o)) && (Active(o') ==> Active(o))
            && (if m.ByReader? then Left(o') <==> Left(o) else Left(o'))
  {
  }

  lemma LoadedIsClaimed(o: S.Obj)
    ensures !Loose(S.Loaded(o))
  {
  }

  lemma CleanKeepsFate(s: Session, i: nat, j: nat, struck: bool, spent: bool)
    requires FateOk(s, j, struck, spent) && TableOk(s) && CleanersOk(s) && CanOpener(s, OpenerClean(i))
    ensures var m := OpenerDoes(OpenerClean(i));
            FateOk(DoOpener(s, OpenerClean(i)), j, struck || Strikes(s, m, j), spent || Spends(s, m, j))
  {
    CleanLeaves(s.objs[i]);
    hide S.OpenerDrops, Loose, Active, Left;
    var s' := DoOpener(s, OpenerClean(i));
    assert forall k: nat | k < |s.objs| :: s'.objs[k].id == s.objs[k].id;
    KeepsTwin(s, s', j);
    if Strikes(s, OpenerDoes(OpenerClean(i)), j) {
      assert s'.objs[i].id == s'.objs[j].id;
    }
    hide Twin;
  }

  lemma CleanLeaves(o: S.Obj)
    requires o.opener.Cleaning?
    ensures var o' := S.OpenerDrops(o);
            o'.id == o.id && o'.qbytes == o.qbytes && (Loose(o') <==> Loose(o)) && !Active(o) && !Active(o') && Left(o')
  {
  }

  lemma StoreKeepsFate(s: Session, id: StreamId, j: nat, struck: bool, spent: bool)
    requires FateOk(s, j, struck, spent) && id !in s.table
    requires TableOk(s) && (s.all.Visiting? ==> s.all.i < |s.objs|)
    ensures FateOk(Store(s, id), j, struck, spent)
  {
    var s' := Store(s, id);
    assert forall k: nat | k < |s.objs| :: s'.objs[k] == s.objs[k];
    KeepsTwin(s, s', j);
    hide Twin;
  }

  lemma CheckKeepsFate(s: Session, i: nat, j: nat, struck: bool, spent: bool)
    requires FateOk(s, j, struck, spent) && CanOpener(s, OpenerCheck(i))
    ensures FateOk(DoOpener(s, OpenerCheck(i)), j, struck, spent)
  {
    var s' := DoOpener(s, OpenerCheck(i));
    assert forall k: nat | k < |s.objs| :: s'.objs[k].id == s.objs[k].id;
    KeepsTwin(s, s', j);
    hide Twin;
  }

  lemma OpenerKeepsFate(s: Session, m: OpenerMove, j: nat, struck: bool, spent: bool)
    requires FateOk(s, j, struck, spent) && TableOk(s) && LoopOk(s) && CleanersOk(s) && CanOpener(s, m)
    ensures FateOk(DoOpener(s, m), j, struck || Strikes(s, OpenerDoes(m), j), spent || Spends(s, OpenerDoes(m), j))
  {
    hide FateOk, TableOk, CleanersOk, Store, Loose, Active, Left, Listed;
    match m
    case OpenerCheck(i) => CheckKeepsFate(s, i, j, struck, spent);
    case OpenerClean(i) => CleanKeepsFate(s, i, j, struck, spent);
    case DialStore(k) =>
      SameFate(s, Dialled(s, k), j, struck, spent);
      if s.dialing[k] in s.table {
        SameFate(s, DoOpener(s, m), j, struck, spent);
      } else {
        SameTable(s, Dialled(s, k));
        StoreKeepsFate(Dialled(s, k), s.dialing[k], j, struck, spent);
      }
    case _ => SameFate(s, DoOpener(s, m), j, struck, spent);
  }

  /** The read loop adds only on an open session, to a stream whose owner is there. */
  lemma LoopKeepsFate(s: Session, global: int, m: LoopMove, j: nat, struck: bool, spent: bool)
    requires FateOk(s, j, struck, spent) && TableOk(s) && LoopOk(s) && CanLoop(s, m)
    ensures FateOk(DoLoop(s, global, m), j, struck, spent)
  {
    hide TableOk, LoadAndDelete, Loose, Active, Left, Twin, FateOk;
    if m.LoopLock? && !s.objs[s.loop.i].closed {
      PushKeepsOwner(s.objs[s.loop.i], s.loop.payload);
      PushKeepsFate(s, S.Push(s.objs[s.loop.i], s.loop.payload), j, struck, spent);
      SameFate(SetObj(s, s.loop.i, S.Push(s.objs[s.loop.i], s.loop.payload)), DoLoop(s, global, m), j, struck, spent);
    } else if m.LoopBillGlobal? {
      PushKeepsOwner(s.objs[s.loop.i], []);
      PushKeepsFate(s, S.PushDone(s.objs[s.loop.i]), j, struck, spent);
      SameFate(SetObj(s, s.loop.i, S.PushDone(s.objs[s.loop.i])), DoLoop(s, global, m), j, struck, spent);
    } else if m.LoopDrop? {
      LoadKeepsFate(s, s.loop.id, j, struck, spent);
      SameFate(LoadAndDelete(s, s.loop.id), DoLoop(s, global, m), j, struck, spent);
    } else {
      SameFate(s, DoLoop(s, global, m), j, struck, spent);
    }
  }

  lemma PushKeepsOwner(o: S.Obj, p: Chunk)
    ensures var o' := S.Push(o, p); (Loose(o') <==> Loose(o)) && (Active(o') <==> Active(o)) && (Left(o') <==> Left(o))
    ensures var o' := S.PushDone(o); (Loose(o') <==> Loose(o)) && (Active(o') <==> Active(o)) && (Left(o') <==> Left(o))
  {
  }

  lemma PushKeepsFate(s: Session, o: S.Obj, j: nat, struck: bool, spent: bool)
    requires FateOk(s, j, struck, spent) && !s.closed && (Serving(s.loop) || Locked(s.loop)) && s.loop.i < |s.objs|
    requires o.id == s.objs[s.loop.i].id && (Loose(o) <==> Loose(s.objs[s.loop.i]))
    requires (Active(o) <==> Active(s.objs[s.loop.i])) && (Left(o) <==> Left(s.objs[s.loop.i]))
    ensures FateOk(SetObj(s, s.loop.i, o), j, struck, spent)
  {
    hide Loose, Active, Left, Twin;
  }

  lemma AllKeepsFate(s: Session, m: AllMove, j: nat, struck: bool, spent: bool)
    requires FateOk(s, j, struck, spent) && TableOk(s) && LoopOk(s) && TeardownOk(s) && CanAll(s, m)
    ensures FateOk(DoAll(s, m), j, struck, spent)
  {
    hide TeardownOk, FateOk, TableOk;
    if m.AllSwap? {
      SwapKeepsFate(s, j, struck, spent);
    } else if m.AllDelete? {
      DeleteKeepsFate(s, j, struck, spent);
    } else {
      SweepKeepsFate(s, m, j, struck, spent);
    }
  }

  lemma SweepKeepsFate(s: Session, m: AllMove, j: nat, struck: bool, spent: bool)
    requires FateOk(s, j, struck, spent) && TableOk(s) && LoopOk(s) && CanAll(s, m) && !m.AllSwap? && !m.AllDelete?
    ensures FateOk(DoAll(s, m), j, struck, spent)
  {
    hide Twin, Active, Left, Loose;
    KeepsTwin(s, DoAll(s, m), j);
  }

  lemma SwapKeepsFate(s: Session, j: nat, struck: bool, spent: bool)
    requires FateOk(s, j, struck, spent) && LoopOk(s) && CanAll(s, AllSwap)
    ensures FateOk(DoAll(s, AllSwap), j, struck, spent)
  {
    hide Twin, S.Swap, Active, Left, Loose;
    SwapClaims(s.objs[s.all.i]);
    KeepsTwin(s, DoAll(s, AllSwap), j);
  }

  lemma DeleteKeepsFate(s: Session, j: nat, struck: bool, spent: bool)
    requires FateOk(s, j, struck, spent) && TableOk(s) && LoopOk(s) && TeardownOk(s) && CanAll(s, AllDelete)
    ensures FateOk(DoAll(s, AllDelete), j, struck, spent)
  {
    hide Twin, Active, Left, Loose, TeardownOk;
    DeletedIsClosed(s);
    KeepsTwin(s, DoAll(s, AllDelete), j);
  }

  lemma SwapClaims(o: S.Obj)
    ensures !Loose(S.Swap(o, true)) && S.Swap(o, true).id == o.id
  {
  }

  /** closeAll deletes the entry of a stream that it closed, or one that its own handleOpen will clean up. */
  lemma DeletedIsClosed(s: Session)
    requires TableOk(s) && LoopOk(s) && TeardownOk(s) && s.all.Deleting?
    ensures !Loose(s.objs[s.all.i])
    ensures var id := s.objs[s.all.i].id;
            id in s.table && s.table[id] != s.all.i ==> !Active(s.objs[s.table[id]])
  {
  }

  /** Every move keeps every stream's fate, up to the two failing steps. */
  lemma DoKeepsFate(s: Session, global: int, m: Move, j: nat, struck: bool, spent: bool)
    requires ShapeOk(s) && TeardownOk(s) && FateOk(s, j, struck, spent) && Can(s, m)
    ensures FateOk(Do(s, global, m), j, struck || Strikes(s, m, j), spent || Spends(s, m, j))
  {
    hide TeardownOk, S.Ok, TableOk, LoopOk, WireOk, SweepOk, FateOk, DoLocal, DoDrop, DoOpener, DoLoop, DoAll, DoClient, DoBeat,
         Listed, Loose, Active;
    TeardownParts(s);
    match m
    case Local(i, act) => LocalKeepsFate(s, i, act, j, struck, spent);
    case DropBy(drop) => DropKeepsFate(s, drop, j, struck, spent);
    case OpenerDoes(opener) => OpenerKeepsFate(s, opener, j, struck, spent);
    case LoopDoes(step) => LoopKeepsFate(s, global, step, j, struck, spent);
    case AllDoes(sweep) => AllKeepsFate(s, sweep, j, struck, spent);
    case ClientDoes(client) => ClientKeepsFate(s, client, j, struck, spent);
    case BeatDoes(beat) => BeatKeepsFate(s, beat, j, struck, spent);
    case Rogue(frame) => SameFate(s, s.(c2s := s.c2s + [frame], rogue := true), j, struck, spent);
  }

  lemma TeardownParts(s: Session)
    requires TeardownOk(s)
    ensures CleanersOk(s)
  {
    hide RangeOk, HandsOk, CleanersOk;
  }

  lemma BeatKeepsFate(s: Session, m: BeatMove, j: nat, struck: bool, spent: bool)
    requires FateOk(s, j, struck, spent) && CanBeat(s, m)
    ensures FateOk(DoBeat(s, m), j, struck, spent)
  {
    hide FateOk;
    SameFate(s, DoBeat(s, m), j, struck, spent);
  }

  lemma ClientKeepsFate(s: Session, m: ClientMove, j: nat, struck: bool, spent: bool)
    requires FateOk(s, j, struck, spent) && CanClient(s, m)
    ensures FateOk(DoClient(s, m), j, struck, spent)
  {
    hide FateOk, WindowFits, Act, Sent, Receive;
    SameFate(s, DoClient(s, m), j, struck, spent);
  }

  // ----- Runs --------------------------------------------------------------------------------

  /** Some step of the run strikes stream j of session k. */
  predicate Struck(h: Host, run: seq<Event>, k: nat, j: nat)
    requires Legal(h, run)
    decreases |run|
  {
    run != [] &&
    (|| (run[0].Step? && run[0].k == k && Strikes(h.sessions[k], run[0].move, j))
     || Struck(DoHost(h, run[0]), run[1..], k, j))
  }

  /** Some step of the run leaves stream j of session k with bytes that nobody will take out. */
  predicate Spent(h: Host, run: seq<Event>, k: nat, j: nat)
    requires Legal(h, run)
    decreases |run|
  {
    run != [] &&
    (|| (run[0].Step? && run[0].k == k && Spends(h.sessions[k], run[0].move, j))
     || Spent(DoHost(h, run[0]), run[1..], k, j))
  }

  ghost predicate FateAt(h: Host, k: nat, j: nat, struck: bool, spent: bool) {
    if k < |h.sessions| then FateOk(h.sessions[k], j, struck, spent) else !struck && !spent
  }

  lemma StartFate(j: nat)
    ensures FateOk(START, j, false, false)
  {
  }

  lemma EventKeepsFate(h: Host, e: Event, k: nat, j: nat, struck: bool, spent: bool)
    requires SessionsOk(h) && TeardownsOk(h) && FateAt(h, k, j, struck, spent) && CanHost(h, e)
    ensures var own := e.Step? && e.k == k;
            FateAt(DoHost(h, e), k, j, struck || (own && Strikes(h.sessions[k], e.move, j)),
                   spent || (own && Spends(h.sessions[k], e.move, j)))
  {
    hide TeardownOk, Can, Do, ShapeOk, WritersOk, BudgetOk, START, FateOk, Strikes, Spends;
    StartFate(j);
    if e.Step? && e.k == k {
      assert SessionOk(h.sessions[k]);
      DoKeepsFate(h.sessions[k], h.global, e.move, j, struck, spent);
    }
  }

  lemma {:induction false} RunKeepsFate(h: Host, run: seq<Event>, k: nat, j: nat, struck: bool, spent: bool)
    requires HostOk(h) && TeardownsOk(h) && FateAt(h, k, j, struck, spent) && Legal(h, run)
    ensures FateAt(After(h, run), k, j, struck || Struck(h, run, k, j), spent || Spent(h, run, k, j))
    decreases |run|
  {
    hide SessionsOk, TeardownsOk, GlobalExact, GlobalBounded, DoHost, CanHost, FateAt, Strikes, Spends;
    if run != [] {
      var own := run[0].Step? && run[0].k == k;
      HostParts(h);
      EventKeepsOk(h, run[0]);
      EventKeepsTeardowns(h, run[0]);
      EventKeepsFate(h, run[0], k, j, struck, spent);
      OwnSession(h, run[0], k);
      RunKeepsFate(DoHost(h, run[0]), run[1..], k, j, struck || (own && Strikes(h.sessions[k], run[0].move, j)),
                   spent || (own && Spends(h.sessions[k], run[0].move, j)));
    }
  }

  lemma HostParts(h: Host)
    requires HostOk(h)
    ensures SessionsOk(h)
  {
    hide SessionsOk, GlobalExact, GlobalBounded;
  }

  lemma OwnSession(h: Host, e: Event, k: nat)
    requires CanHost(h, e)
    ensures e.Step? && e.k == k ==> k < |h.sessions| && Can(h.sessions[k], e.move)
  {
    hide Can;
  }

  predicate WasStruck(limit: nat, run: seq<Event>, k: nat, j: nat)
    requires Legal(Boot(limit), run)
  {
    Struck(Boot(limit), run, k, j)
  }

  predicate WasSpent(limit: nat, run: seq<Event>, k: nat, j: nat)
    requires Legal(Boot(limit), run)
  {
    Spent(Boot(limit), run, k, j)
  }

  lemma ReachableFate(limit: nat, run: seq<Event>, k: nat, j: nat)
    requires Legal(Boot(limit), run) && k < |After(Boot(limit), run).sessions|
    ensures FateOk(After(Boot(limit), run).sessions[k], j, WasStruck(limit, run, k, j), WasSpent(limit, run, k, j))
  {
    hide HostOk, TeardownOk, DoHost, CanHost, FateOk, Legal, After, Struck, Spent;
    BootOk(limit);
    RunKeepsFate(Boot(limit), run, k, j, false, false);
  }

  // ----- Theorems ----------------------------------------------------------------------------

  lemma RestFate(s: Session, j: nat, struck: bool, spent: bool)
    requires ObjsOk(s) && TeardownOk(s) && AtRest(s) && FateOk(s, j, struck, spent) && j < |s.objs|
    ensures s.objs[j].closings <= 1
    ensures s.objs[j].opener.Launched? ==> (!s.objs[j].closed <==> struck)
    ensures !struck ==> !s.objs[j].upstream && !s.objs[j].pump.Parked?
    ensures struck ==> Twin(s, j)
  {
    var o := s.objs[j];
    assert S.Ok(o);
    hide S.Ok, Twin;
    EmptyTable(s);
    RestLocal(o);
  }

  /**
   Teardown, for every race and every peer. Once a session is at rest its table is empty and no
   stream's closing channel was closed twice. A stream that was announced has stayed open if and only
   if the cleanup of another handleOpen struck it, which takes two streams of one id; of every other
   stream the upstream is closed and the pump is not parked.
   */
  lemma TeardownComplete(limit: nat, run: seq<Event>, k: nat)
    requires Legal(Boot(limit), run) && k < |After(Boot(limit), run).sessions|
    requires AtRest(After(Boot(limit), run).sessions[k])
    ensures var s := After(Boot(limit), run).sessions[k];
            && s.table == map[]
            && forall j: nat | j < |s.objs| ::
                 var struck := WasStruck(limit, run, k, j);
                 && s.objs[j].closings <= 1
                 && (s.objs[j].opener.Launched? ==> (!s.objs[j].closed <==> struck))
                 && (!struck ==> !s.objs[j].upstream && !s.objs[j].pump.Parked?)
                 && (struck ==> Twin(s, j))
  {
    hide Legal, After, ShapeOk, TeardownOk, AtRest, WritersOk, FlowOk, WasStruck, WasSpent, FateOk, Twin;
    ReachableFlows(limit, run, k);
    ReachableTeardown(limit, run, k);
    var s := After(Boot(limit), run).sessions[k];
    RestIsEmpty(s);
    forall j: nat | j < |s.objs|
      ensures var struck := WasStruck(limit, run, k, j);
              && s.objs[j].closings <= 1
              && (s.objs[j].opener.Launched? ==> (!s.objs[j].closed <==> struck))
              && (!struck ==> !s.objs[j].upstream && !s.objs[j].pump.Parked?)
              && (struck ==> Twin(s, j))
    {
      ReachableFate(limit, run, k, j);
      ShapeParts(s);
      RestFate(s, j, WasStruck(limit, run, k, j), WasSpent(limit, run, k, j));
    }
  }

  lemma RestIsEmpty(s: Session)
    requires TeardownOk(s) && AtRest(s)
    ensures s.table == map[]
  {
    EmptyTable(s);
  }

  lemma ShapeParts(s: Session)
    requires ShapeOk(s)
    ensures ObjsOk(s) && LoopOk(s)
  {
    hide ObjsOk, LoopOk, TableOk, WireOk, SweepOk;
  }

  /** Every stream that has stayed open past its session has its pump asleep or gone. */
  ghost predicate PumpsSettled(s: Session) {
    forall j: nat | j < |s.objs| && s.objs[j].opener.Launched? && !s.objs[j].closed ::
      s.objs[j].pump.Parked? || s.objs[j].pump.Exited?
  }

  lemma NetOfSpent(o: S.Obj)
    requires S.Ok(o) && !o.mu.ByLoop?
    ensures 0 <= Net(o)
    ensures o.closed && o.reclaim.Reclaimed? ==> Net(o) == 0
    ensures !o.closed && (o.opener.Returned? || o.pump.Exited? || o.pump.Parked?) ==> Net(o) == o.qbytes
    ensures !o.closed && o.pump.Parked? ==> o.qbytes == 0
  {
  }

  lemma RestNet(s: Session, j: nat, struck: bool, spent: bool)
    requires ObjsOk(s) && LoopOk(s) && TeardownOk(s) && AtRest(s) && PumpsSettled(s)
    requires FateOk(s, j, struck, spent) && j < |s.objs|
    ensures 0 <= Net(s.objs[j]) && (Net(s.objs[j]) > 0 <==> spent)
  {
    var o := s.objs[j];
    assert S.Ok(o);
    hide S.Ok, Twin, Net;
    EmptyTable(s);
    NetOfSpent(o);
    RestClosed(o);
  }

  lemma RestClosed(o: S.Obj)
    requires S.Ok(o) && (o.reclaim.Unclaimed? || o.reclaim.Reclaimed?)
    ensures o.closed <==> o.reclaim.Reclaimed?
  {
  }

  /**
   What a session at rest leaves in v2GlobalBuffered, for every race and every peer: nothing, if and
   only if no step of the run left a stream for the last time with bytes queued on it and no closer
   that had it or was going to.
   */
  lemma LeftoverExactly(limit: nat, run: seq<Event>, k: nat)
    requires Legal(Boot(limit), run) && k < |After(Boot(limit), run).sessions|
    requires AtRest(After(Boot(limit), run).sessions[k]) && PumpsSettled(After(Boot(limit), run).sessions[k])
    ensures var s := After(Boot(limit), run).sessions[k];
            SessionNet(s) == 0 <==> forall j: nat | j < |s.objs| :: !WasSpent(limit, run, k, j)
  {
    hide Legal, After, ShapeOk, TeardownOk, AtRest, PumpsSettled, WritersOk, FlowOk, WasStruck, WasSpent, FateOk, Net;
    ReachableFlows(limit, run, k);
    ReachableTeardown(limit, run, k);
    var s := After(Boot(limit), run).sessions[k];
    ShapeParts(s);
    forall j: nat | j < |s.objs|
      ensures 0 <= Nets(s.objs)[j] && (Nets(s.objs)[j] == 0 <==> !WasSpent(limit, run, k, j))
    {
      ReachableFate(limit, run, k, j);
      RestNet(s, j, WasStruck(limit, run, k, j), WasSpent(limit, run, k, j));
    }
    TotalIsZero(Nets(s.objs));
    if SessionNet(s) == 0 {
      forall j: nat | j < |s.objs| ensures !WasSpent(limit, run, k, j) {
        assert Nets(s.objs)[j] == 0;
      }
    } else {
      var j: nat :| j < |s.objs| && Nets(s.objs)[j] != 0;
      assert WasSpent(limit, run, k, j);
    }
  }

  lemma {:induction false} TotalIsZero(xs: seq<int>)
    requires forall i: nat | i < |xs| :: 0 <= xs[i]
    ensures 0 <= Total(xs)
    ensures Total(xs) == 0 <==> forall i: nat | i < |xs| :: xs[i] == 0
  {
    if xs != [] {
      var front := xs[..|xs| - 1];
      TotalIsZero(front);
      if forall i: nat | i < |front| :: front[i] == 0 {
        assert forall i: nat | i < |front| :: xs[i] == front[i];
      }
    }
  }

  // ----- Clients that keep to the protocol ---------------------------------------------------

  /** Their ids name objects uniquely, so nothing is ever struck. */
  lemma ProtocolHasNoTwins(s: Session, j: nat)
    requires FlowOk(s)
    ensures !Twin(s, j)
  {
    hide PendingOk, FramesOk, ViewsOk;
  }

  lemma EmptyQueue(o: S.Obj)
    requires S.Ok(o) && o.queue == []
    ensures o.qbytes == 0
  {
  }

  lemma NothingSpent(s: Session, j: nat, struck: bool, spent: bool)
    requires ObjsOk(s) && FlowOk(s) && TeardownOk(s) && AtRest(s) && FateOk(s, j, struck, spent)
    ensures !spent
  {
    hide FlowOk, S.Ok, Twin, RangeOk, HandsOk, CleanersOk;
    if spent {
      ProtocolHasNoTwins(s, j);
      RestFate(s, j, struck, spent);
      UnlaunchedIsEmpty(s, j);
      EmptyQueue(s.objs[j]);
    }
  }

  /**
   A session whose client kept to the protocol closes every stream it announced, and every upstream,
   and gives every byte back to the global counter.
   */
  lemma CountersReturn(limit: nat, run: seq<Event>, k: nat)
    requires Legal(Boot(limit), run) && k < |After(Boot(limit), run).sessions|
    requires AtRest(After(Boot(limit), run).sessions[k]) && !After(Boot(limit), run).sessions[k].rogue
    ensures var s := After(Boot(limit), run).sessions[k];
            && SessionNet(s) == 0
            && forall j: nat | j < |s.objs| ::
                 !s.objs[j].upstream && !s.objs[j].pump.Parked? && (s.objs[j].opener.Launched? ==> s.objs[j].closed)
  {
    hide Legal, After, ShapeOk, TeardownOk, WritersOk, FlowOk, SessionNet, AtRest, WasStruck, WasSpent, FateOk, Twin;
    ReachableFlows(limit, run, k);
    ReachableTeardown(limit, run, k);
    var s := After(Boot(limit), run).sessions[k];
    ShapeParts(s);
    TeardownComplete(limit, run, k);
    forall j: nat | j < |s.objs|
      ensures !WasStruck(limit, run, k, j) && !WasSpent(limit, run, k, j)
    {
      ProtocolHasNoTwins(s, j);
      ReachableFate(limit, run, k, j);
      NothingSpent(s, j, WasStruck(limit, run, k, j), WasSpent(limit, run, k, j));
    }
    LeftoverExactly(limit, run, k);
  }
}
