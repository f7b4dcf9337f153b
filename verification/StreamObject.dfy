/**
 One server-side stream object (v2Stream) together with the program counters of the goroutines
 that work on it: the pump, the upstream reader, the handleOpen call that created it, and whoever
 holds a reference to it inside closeStream or closeAll. Every action below is one atomic step:
 a lock acquisition with the mutex-protected reads and writes that follow it, or one atomic
 operation on a shared counter, or one call that touches the outside (upstream, wire).
 */
module StreamObject {
  import opened Bytes
  import opened Limits

  /** Frames from the server to the client. PING and PONG go by stream id 0, which no stream has. */
  datatype Down =
    | OpenOk(id: StreamId, window: nat)
    | OpenErr(id: StreamId)
    | Data(id: StreamId, payload: Chunk)
    | Window(id: StreamId, credit: nat)
    | Close(id: StreamId)
    | Ping(id: StreamId)
    | Pong(id: StreamId)

  /** `credited` is the pump's local variable: bytes delivered and not yet credited. */
  datatype Pump =
    | Unstarted
    | Ready(credited: nat)                                        // about to take mu
    | Deciding(credited: nat)                                     // holds mu, saw nothing to do, about to Wait
    | Parked(credited: nat)                                       // inside cond.Wait
    | Popped(chunk: Chunk, emptyNow: bool, credited: nat)         // holds mu, neither counter adjusted
    | HalfBilled(chunk: Chunk, emptyNow: bool, credited: nat)     // holds mu, session counter adjusted
    | Writing(chunk: Chunk, emptyNow: bool, credited: nat)        // mu released, before upstream.Write
    | Crediting(credited: nat)                                    // before the WINDOW_UPDATE
    | Notifying | PumpHanging | PumpDropping                      // a write failed: CLOSE, hang up, closeStream
    | Exited

  datatype Reader = Unborn | Reading | Ending | ReaderDropping | ReaderHanging | Gone

  /** The handleOpen call, from LoadOrStore on. `Launched` is its successful return. */
  datatype Opener = Stored | Cleared | Launched | Cleaning | OpenerDropping | OpenerHanging | Returned

  /** What became of the object's entry for the one closeStream call that can load it. */
  datatype Grab = Untouched | Grabbed | Settled

  /** Progress of the closer that won the swap on `closed`. */
  datatype Reclaim = Unclaimed | Won(viaAll: bool) | SessionBilled(viaAll: bool) | Hanging | Reclaimed

  datatype Mu = Free | ByPump | ByLoop | ByCloser

  /**
   The object. `upstream` is true while the dialled connection is open and `delivered` is what it
   has accepted. The last four fields are bookkeeping about the shared counters: what this stream
   ever added to and took from v2GlobalBuffered, bytes queued but not yet added, and bytes that
   closeAll left behind in its session's counter.
   */
  datatype Obj = Obj(
    id: StreamId,
    opener: Opener, pump: Pump, reader: Reader, grab: Grab, reclaim: Reclaim, mu: Mu,
    closed: bool, closings: nat, upstream: bool,
    queue: seq<Chunk>, qbytes: int, delivered: seq<byte>,
    billed: nat, refunded: nat, owed: nat, stranded: nat)

  function Fresh(id: StreamId): Obj {
    Obj(id, Stored, Unstarted, Unborn, Untouched, Unclaimed, Free,
        false, 0, true, [], 0, [], 0, 0, 0, 0)
  }

  datatype Act =
    | PumpLock | PumpPark | PumpBillSession | PumpBillGlobal
    | PumpWrite | PumpWriteFail(partial: nat) | PumpCredit(ok: bool)
    | PumpNotify(ok: bool) | PumpHangUp
    | ReaderData(payload: Chunk, ok: bool) | ReaderEnd | ReaderClose(ok: bool) | ReaderLeave
    | ReaderHangUp
    | OpenerAnnounce(ok: bool) | OpenerHangUp
    | CloserSwap | CloserBillSession | CloserClear | CloserHangUp

  predicate Can(o: Obj, a: Act) {
    match a
    case PumpLock => o.pump.Ready? && o.mu == Free
    case PumpPark => o.pump.Deciding?
    case PumpBillSession => o.pump.Popped?
    case PumpBillGlobal => o.pump.HalfBilled?
    case PumpWrite => o.pump.Writing? && o.upstream
    case PumpWriteFail(partial) => o.pump.Writing? && partial <= |o.pump.chunk|
    case PumpCredit(_) => o.pump.Crediting?
    case PumpNotify(_) => o.pump.Notifying?
    case PumpHangUp => o.pump.PumpHanging?
    case ReaderData(payload, _) => o.reader.Reading? && |payload| <= MAX_PAYLOAD
    case ReaderEnd => o.reader.Reading?
    case ReaderClose(_) => o.reader.Ending?
    case ReaderLeave => o.reader.Reading? && o.closings > 0
    case ReaderHangUp => o.reader.ReaderHanging?
    case OpenerAnnounce(_) => o.opener.Cleared?
    case OpenerHangUp => o.opener.OpenerHanging?
    case CloserSwap => o.grab.Grabbed?
    case CloserBillSession => o.reclaim.Won? && o.mu == Free
    case CloserClear => o.reclaim.SessionBilled?
    case CloserHangUp => o.reclaim.Hanging?
  }

  /** A broadcast or signal: a parked pump becomes runnable and will take mu again. */
  function Wake(p: Pump): Pump {
    if p.Parked? then Ready(p.credited) else p
  }

  /** The pump's critical section: leave, wait, or take the head of the queue. */
  function PumpDecides(o: Obj): Obj
    requires o.pump.Ready?
  {
    if o.closed then
      o.(pump := Exited)
    else if o.queue == [] then
      o.(pump := Deciding(o.pump.credited), mu := ByPump)
    else
      var chunk := o.queue[0];
      var rest := o.queue[1..];
      o.(pump := Popped(chunk, rest == [], o.pump.credited), mu := ByPump,
         queue := rest, qbytes := o.qbytes - |chunk|)
  }

  /** After a successful upstream.Write: credit in batches, but always when the queue ran empty. */
  function AfterWrite(n: nat, emptyNow: bool, credited: nat): Pump {
    var c := credited + n;
    if c >= CREDIT_THRESHOLD || (emptyNow && c > 0) then Crediting(c) else Ready(c)
  }

  /** The closer's swap on `closed`; losing it changes nothing. */
  function Swap(o: Obj, viaAll: bool): Obj {
    if o.closed then o else o.(closed := true, closings := o.closings + 1, reclaim := Won(viaAll))
  }

  function Do(o: Obj, a: Act): Obj
    requires Can(o, a)
  {
    match a
    case PumpLock => PumpDecides(o)
    case PumpPark => o.(pump := Parked(o.pump.credited), mu := Free)
    case PumpBillSession => o.(pump := HalfBilled(o.pump.chunk, o.pump.emptyNow, o.pump.credited))
    case PumpBillGlobal =>
      o.(pump := Writing(o.pump.chunk, o.pump.emptyNow, o.pump.credited), mu := Free,
         refunded := o.refunded + |o.pump.chunk|)
    case PumpWrite =>
      o.(pump := AfterWrite(|o.pump.chunk|, o.pump.emptyNow, o.pump.credited),
         delivered := o.delivered + o.pump.chunk)
    case PumpWriteFail(partial) =>
      o.(pump := Notifying, delivered := o.delivered + o.pump.chunk[..partial])
    case PumpCredit(ok) => o.(pump := if ok then Ready(0) else PumpHanging)
    case PumpNotify(_) => o.(pump := PumpHanging)
    case PumpHangUp => o.(pump := PumpDropping, upstream := false)
    case ReaderData(_, ok) => o.(reader := if ok then Reading else ReaderDropping)
    case ReaderEnd => o.(reader := Ending)
    case ReaderClose(_) => o.(reader := ReaderDropping)
    case ReaderLeave => o.(reader := ReaderHanging)
    case ReaderHangUp => o.(reader := Gone, upstream := false)
    case OpenerAnnounce(ok) =>
      if ok then o.(opener := Launched, pump := Ready(0), reader := Reading)
      else o.(opener := OpenerDropping)
    case OpenerHangUp => o.(opener := Returned, upstream := false)
    case CloserSwap => Swap(o, false).(grab := Settled)
    case CloserBillSession =>
      o.(reclaim := SessionBilled(o.reclaim.viaAll), mu := ByCloser,
         stranded := o.stranded + if o.reclaim.viaAll && o.qbytes > 0 then o.qbytes else 0)
    case CloserClear =>
      o.(reclaim := Hanging, mu := Free, pump := Wake(o.pump),
         queue := [], qbytes := 0,
         refunded := o.refunded + if o.qbytes > 0 then o.qbytes else 0)
    case CloserHangUp => o.(reclaim := Reclaimed, upstream := false)
  }

  /** What an action adds to its session's counter. */
  function SessionDelta(o: Obj, a: Act): int
    requires Can(o, a)
  {
    match a
    case PumpBillSession => -|o.pump.chunk|
    case CloserBillSession => if o.reclaim.viaAll then 0 else -o.qbytes
    case _ => 0
  }

  /** What an action adds to v2GlobalBuffered. */
  function GlobalDelta(o: Obj, a: Act): int
    requires Can(o, a)
  {
    match a
    case PumpBillGlobal => -|o.pump.chunk|
    case CloserClear => -o.qbytes
    case _ => 0
  }

  /** The frame an action puts on the wire, if any. */
  function Out(o: Obj, a: Act): seq<Down>
    requires Can(o, a)
  {
    match a
    case PumpCredit(ok) => if ok then [Window(o.id, o.pump.credited % TWO32)] else []
    case PumpNotify(ok) => if ok then [Close(o.id)] else []
    case ReaderData(payload, ok) => if ok then [Data(o.id, payload)] else []
    case ReaderClose(ok) => if ok then [Close(o.id)] else []
    case OpenerAnnounce(ok) => if ok then [OpenOk(o.id, WINDOW % TWO32)] else []
    case _ => []
  }

  /** The read loop's enqueue, up to the counters: append, count, keep mu. */
  function Push(o: Obj, p: Chunk): Obj {
    o.(queue := o.queue + [p], qbytes := o.qbytes + |p|, mu := ByLoop, owed := |p|)
  }

  /** The end of the enqueue: the global counter is adjusted, the pump signalled, mu released. */
  function PushDone(o: Obj): Obj {
    o.(mu := Free, pump := Wake(o.pump), billed := o.billed + o.owed, owed := 0)
  }

  /** closeStream's LoadAndDelete, called by the pump, the reader or handleOpen: the caller moves on. */
  function PumpDrops(o: Obj): Obj
    requires o.pump.PumpDropping?
  {
    o.(pump := Exited)
  }

  function ReaderDrops(o: Obj): Obj
    requires o.reader.ReaderDropping?
  {
    o.(reader := ReaderHanging)
  }

  function OpenerDrops(o: Obj): Obj
    requires o.opener.OpenerDropping? || o.opener.Cleaning?
  {
    o.(opener := OpenerHanging)
  }

  /** handleOpen's look at the session's closed flag after its store. */
  function OpenerChecks(o: Obj, sessionClosed: bool): Obj
    requires o.opener.Stored?
  {
    o.(opener := if sessionClosed then Cleaning else Cleared)
  }

  /** The object as its loader leaves it when LoadAndDelete returned it. */
  function Loaded(o: Obj): Obj {
    o.(grab := Grabbed)
  }

  // ----- Shares of the counters --------------------------------------------------------------

  /** Bytes of this stream that v2GlobalBuffered must account for. */
  function GlobalShare(o: Obj): int {
    o.qbytes + if o.pump.Popped? || o.pump.HalfBilled? then |o.pump.chunk| else 0
  }

  /** Bytes of this stream that its session's counter must account for. */
  function SessionShare(o: Obj): int {
    (if o.reclaim.SessionBilled? then 0 else o.qbytes)
    + (if o.pump.Popped? then |o.pump.chunk| else 0)
    + o.stranded
  }

  // ----- The invariant of one object ---------------------------------------------------------

  predicate MuOk(o: Obj) {
    && (o.mu == ByPump <==> o.pump.Deciding? || o.pump.Popped? || o.pump.HalfBilled?)
    && (o.mu == ByCloser <==> o.reclaim.SessionBilled?)
    && (o.mu != ByLoop ==> o.owed == 0)
  }

  /** `closed` changes once, and exactly its one swapper goes on to reclaim. */
  predicate CloseOk(o: Obj) {
    && (o.closed <==> !o.reclaim.Unclaimed?)
    && o.closings == (if o.closed then 1 else 0)
    && (o.reclaim.Hanging? || o.reclaim.Reclaimed? ==> o.queue == [])
    && (o.mu == ByLoop || o.mu == ByPump ==> !o.reclaim.Hanging? && !o.reclaim.Reclaimed?)
    && (o.reclaim.Reclaimed? ==> !o.upstream)
    && (o.stranded > 0 ==> o.closed)
    && (o.grab.Settled? ==> o.closed)
  }

  predicate LifeOk(o: Obj) {
    && (o.opener.Launched? <==> !o.pump.Unstarted?)
    && (o.opener.Launched? <==> !o.reader.Unborn?)
    && (o.opener.Returned? || o.reader.Gone? || o.pump.PumpDropping? ==> !o.upstream)
    && (!o.upstream ==> o.opener.Returned? || o.reader.Gone? || o.pump.PumpDropping? || o.pump.Exited? || o.reclaim.Reclaimed?)
    && (o.pump.Exited? ==> o.closed || !o.upstream)
  }

  /** A pump that holds uncredited bytes at its loop head always has something queued. */
  predicate CreditOk(o: Obj) {
    && (o.pump.Parked? || o.pump.Deciding? ==> o.pump.credited == 0)
    && (o.pump.Ready? && o.pump.credited > 0 && !o.closed ==> o.queue != [])
    && ((o.pump.Popped? || o.pump.HalfBilled? || o.pump.Writing?) && !o.pump.emptyNow && !o.closed ==> o.queue != [])
  }

  /** Sizes: chunks fit a frame, and uncredited bytes stay far below a uint32. */
  predicate SizeOk(o: Obj) {
    && o.qbytes == |Flat(o.queue)|
    && (forall c <- o.queue :: |c| <= MAX_PAYLOAD)
    && (o.pump.Popped? || o.pump.HalfBilled? || o.pump.Writing? ==>
          |o.pump.chunk| <= MAX_PAYLOAD && o.pump.credited < CREDIT_THRESHOLD)
    && (o.pump.Ready? ==> o.pump.credited < CREDIT_THRESHOLD)
    && (o.pump.Crediting? ==> 0 < o.pump.credited < CREDIT_THRESHOLD + MAX_PAYLOAD)
    && o.owed <= o.qbytes
  }

  /** No lost wakeup: a pump in Wait with a reason to run has its waker still holding or awaiting mu. */
  predicate WakeOk(o: Obj) {
    && (o.pump.Deciding? ==> o.queue == [] && (o.closed ==> o.reclaim.Won?))
    && (o.pump.Parked? && o.queue != [] ==> o.mu == ByLoop || o.closed)
    && (o.pump.Parked? && o.closed ==> o.reclaim.Won? || o.reclaim.SessionBilled?)
  }

  predicate LedgerOk(o: Obj) {
    o.billed + o.owed == o.refunded + GlobalShare(o)
  }

  predicate Ok(o: Obj) {
    MuOk(o) && CloseOk(o) && LifeOk(o) && CreditOk(o) && SizeOk(o) && WakeOk(o) && LedgerOk(o)
  }

  lemma FreshOk(id: StreamId)
    ensures Ok(Fresh(id))
  {
  }

  lemma DoKeepsLocks(o: Obj, a: Act)
    requires Ok(o) && Can(o, a)
    ensures MuOk(Do(o, a)) && CloseOk(Do(o, a)) && LifeOk(Do(o, a))
  {
    hide SizeOk, LedgerOk, CreditOk, Flat;
  }

  lemma DoKeepsWakeups(o: Obj, a: Act)
    requires Ok(o) && Can(o, a)
    ensures CreditOk(Do(o, a)) && WakeOk(Do(o, a))
  {
    hide SizeOk, LedgerOk, Flat;
  }

  lemma DoKeepsBooks(o: Obj, a: Act)
    requires Ok(o) && Can(o, a)
    ensures SizeOk(Do(o, a))
  {
    hide WakeOk, LedgerOk;
    if a.PumpLock? && !o.closed && o.queue != [] {
      assert Flat(o.queue) == o.queue[0] + Flat(o.queue[1..]);
    }
  }

  lemma DoKeepsLedger(o: Obj, a: Act)
    requires Ok(o) && Can(o, a)
    ensures LedgerOk(Do(o, a))
  {
    hide CreditOk, WakeOk, CloseOk;
  }

  lemma DoKeepsOk(o: Obj, a: Act)
    requires Ok(o) && Can(o, a)
    ensures Ok(Do(o, a))
  {
    DoKeepsLocks(o, a);
    DoKeepsWakeups(o, a);
    DoKeepsBooks(o, a);
    DoKeepsLedger(o, a);
    hide MuOk, CloseOk, LifeOk, CreditOk, SizeOk, WakeOk, LedgerOk, Can, Do;
  }

  /** What no local action touches: identity, the table's claim, the read loop's critical section. */
  predicate Steady(o: Obj, o': Obj) {
    && o'.id == o.id
    && (o.grab.Untouched? <==> o'.grab.Untouched?)
    && (o'.mu.ByLoop? <==> o.mu.ByLoop?)
    && o'.owed == o.owed
  }

  /** closeAll has not touched the object: whoever closed it had loaded it from the table. */
  predicate Unswept(o: Obj) {
    (o.closed ==> o.grab.Settled?) && o.stranded == 0 && !(o.reclaim.Won? && o.reclaim.viaAll) && !(o.reclaim.SessionBilled? && o.reclaim.viaAll)
  }

  lemma DoKeepsUnswept(o: Obj, a: Act)
    requires Unswept(o) && Can(o, a)
    ensures Unswept(Do(o, a))
  {
  }

  lemma DoIsSteady(o: Obj, a: Act)
    requires Ok(o) && Can(o, a)
    ensures Steady(o, Do(o, a))
  {
  }

  lemma PushKeepsOk(o: Obj, p: Chunk)
    requires Ok(o) && o.mu == Free && !o.closed && |p| <= MAX_PAYLOAD
    ensures Ok(Push(o, p))
  {
    FlatSnoc(o.queue, p);
  }

  lemma PushDoneKeepsOk(o: Obj)
    requires Ok(o) && o.mu == ByLoop
    ensures Ok(PushDone(o))
  {
  }

  lemma SwapKeepsOk(o: Obj, viaAll: bool)
    requires Ok(o)
    ensures Ok(Swap(o, viaAll))
  {
  }

  lemma DropsKeepOk(o: Obj)
    requires Ok(o)
    ensures o.pump.PumpDropping? ==> Ok(PumpDrops(o))
    ensures o.reader.ReaderDropping? ==> Ok(ReaderDrops(o))
    ensures o.opener.OpenerDropping? || o.opener.Cleaning? ==> Ok(OpenerDrops(o))
    ensures o.opener.Stored? ==> Ok(OpenerChecks(o, true)) && Ok(OpenerChecks(o, false))
    ensures Ok(Loaded(o))
  {
  }

  /** A credit that is about to be sent fits its 32-bit field. */
  lemma CreditingFits(o: Obj)
    requires Ok(o) && o.pump.Crediting?
    ensures Out(o, PumpCredit(true)) == [Window(o.id, o.pump.credited)] && 0 < o.pump.credited
  {
    hide MuOk, CloseOk, LifeOk, CreditOk, WakeOk, LedgerOk;
  }
}
