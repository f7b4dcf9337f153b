/**
 One stream seen end to end: the client's end, what both wires hold for it, the payload in the read
 loop's hands, and the server's object. The invariants that make flow control work are stated on
 this view, and each kind of move is shown to keep them here before Flow lifts them to a session.
 */
module StreamView {
  import opened Bytes
  import opened Limits
  import opened Session
  import opened Shape
  import S = StreamObject

  /**
   `obj` is the stream's object once handleOpen stored it, `listed` its presence in the server's
   table, `doomed` that the read loop is shedding or closing it, `hand` the payload the read loop
   looked it up for, `wire` the upload bytes on the client-to-server wire, and `credit` and `oks` the
   WINDOW_UPDATE bytes and OPEN_OK frames on the server-to-client wire.
   */
  datatype View = View(
    c: Client, obj: Option<S.Obj>, listed: bool, doomed: bool,
    hand: seq<byte>, wire: seq<byte>, credit: nat, oks: nat)

  // ----- Vocabulary --------------------------------------------------------------------------

  function Hold(p: S.Pump): seq<byte> {
    if p.Popped? || p.HalfBilled? || p.Writing? then p.chunk else []
  }

  /** Delivered, delivered-but-uncredited and parked pumps keep going; the others never write again. */
  predicate Alive(p: S.Pump) {
    !p.Notifying? && !p.PumpHanging? && !p.PumpDropping? && !p.Exited?
  }

  function Uncredited(p: S.Pump): nat {
    match p
    case Ready(credited) => credited
    case Deciding(credited) => credited
    case Parked(credited) => credited
    case Popped(_, _, credited) => credited
    case HalfBilled(_, _, credited) => credited
    case Writing(_, _, credited) => credited
    case Crediting(credited) => credited
    case _ => 0
  }

  /** Everything the server's object has taken in, in order: delivered, in the pump's hands, queued. */
  function Pipe(o: S.Obj): seq<byte> {
    o.delivered + Hold(o.pump) + Flat(o.queue)
  }

  function CreditOf(out: seq<S.Down>): nat
    requires |out| <= 1
  {
    if |out| == 1 && out[0].Window? then out[0].credit else 0
  }

  function OksOf(out: seq<S.Down>): nat
    requires |out| <= 1
  {
    if |out| == 1 && out[0].OpenOk? then 1 else 0
  }

  // ----- The invariant -----------------------------------------------------------------------

  /** The client's books: window = initial - acquired + credited, and nothing before OPEN_OK. */
  predicate ClientOk(c: Client) {
    && (c.flow ==> c.window == WINDOW - c.spent + c.got && 0 <= c.window)
    && (!c.flow ==> c.spent == 0 && c.got == 0 && c.window == 0 && !c.returned && c.todo == [])
    && (match c.writer
        case Quiet => |c.framed| == c.spent
        case Holding(chunk) => |c.framed| + |chunk| == c.spent && 0 < |chunk| <= MAX_PAYLOAD
        case Failed => |c.framed| <= c.spent)
    && (c.closed ==> !c.registered)
    && (!c.returned ==> c.todo == []) && (c.gaveUp ==> !c.registered && !c.returned)
  }

  /** Before OPEN_OK is written the stream carries nothing in either direction. */
  predicate SilentOk(v: View) {
    v.obj.None? || !v.obj.value.opener.Launched? ==>
      && !v.c.flow && v.oks == 0 && v.credit == 0 && v.wire == [] && v.hand == []
      && (v.obj.Some? ==> v.obj.value.queue == [] && v.obj.value.delivered == [])
      && (v.obj.None? ==> !v.listed)
  }

  /** OPEN_OK is written once, and is on the wire until a listening client takes it. */
  predicate OpenOkOnce(v: View) {
    && v.oks + (if v.c.flow then 1 else 0) <= 1
    && (v.obj.Some? && v.obj.value.opener.Launched? && v.c.registered && !v.c.flow ==> v.oks == 1)
  }

  /** Upload integrity: what the server took in is a prefix of what was framed, and all of it while listed. */
  predicate IntegrityOk(v: View) {
    v.obj.Some? ==>
      var o := v.obj.value;
      && (!Alive(o.pump) ==> o.delivered <= v.c.framed)
      && (Alive(o.pump) ==> Pipe(o) <= v.c.framed)
      && (Alive(o.pump) && !o.closed ==> Pipe(o) + v.hand <= v.c.framed)
      && (Alive(o.pump) && !o.closed && v.listed && !v.doomed ==> Pipe(o) + v.hand + v.wire == v.c.framed)
  }

  /** Every framed byte is in at most one place, even after failed writes and dropped payloads. */
  predicate CountOk(v: View) {
    v.obj.Some? ==> |Pipe(v.obj.value)| + |v.hand| + |v.wire| <= |v.c.framed|
  }

  /** Every credited byte was delivered; while the client listens, every delivered byte's credit is accounted for. */
  predicate CreditsOk(v: View) {
    v.obj.Some? ==>
      var o := v.obj.value;
      && v.c.got + v.credit + Uncredited(o.pump) <= |o.delivered|
      && (v.c.registered && Alive(o.pump) ==> v.c.got + v.credit + Uncredited(o.pump) == |o.delivered|)
  }

  predicate ViewOk(v: View) {
    ClientOk(v.c) && SilentOk(v) && OpenOkOnce(v) && IntegrityOk(v) && CountOk(v) && CreditsOk(v)
  }

  // ----- Local actions of the server's object ------------------------------------------------

  function LocalView(v: View, a: S.Act): View
    requires v.obj.Some? && S.Can(v.obj.value, a)
  {
    var out := S.Out(v.obj.value, a);
    v.(obj := Some(S.Do(v.obj.value, a)), credit := v.credit + CreditOf(out), oks := v.oks + OksOf(out))
  }

  predicate MovesBytes(a: S.Act) {
    a.PumpLock? || a.PumpWrite? || a.PumpWriteFail? || a.CloserClear?
  }

  lemma PipeUntouched(o: S.Obj, a: S.Act)
    requires S.Ok(o) && S.Can(o, a) && !MovesBytes(a)
    ensures var o' := S.Do(o, a);
            && o'.delivered == o.delivered && o'.queue == o.queue && Hold(o'.pump) == Hold(o.pump)
            && (Alive(o'.pump) ==> Alive(o.pump))
  {
    hide S.MuOk, S.CloseOk, S.CreditOk, S.SizeOk, S.WakeOk, S.LedgerOk;
  }

  lemma PipeLock(o: S.Obj)
    requires S.Can(o, S.PumpLock)
    ensures var o' := S.Do(o, S.PumpLock);
            o'.delivered == o.delivered && |Pipe(o')| <= |Pipe(o)| && (Alive(o'.pump) ==> Pipe(o') == Pipe(o))
  {
    if !o.closed && o.queue != [] {
      assert Flat(o.queue) == o.queue[0] + Flat(o.queue[1..]);
      assert o.delivered + [] + (o.queue[0] + Flat(o.queue[1..])) == o.delivered + o.queue[0] + Flat(o.queue[1..]);
    }
  }

  lemma PipeWrite(o: S.Obj, a: S.Act)
    requires S.Can(o, a) && (a.PumpWrite? || a.PumpWriteFail?)
    ensures var o' := S.Do(o, a);
            && |Pipe(o')| <= |Pipe(o)| && Alive(o.pump) && o'.delivered <= Pipe(o)
            && (Alive(o'.pump) ==> Pipe(o') == Pipe(o))
  {
    hide Flat;
    var o' := S.Do(o, a);
    assert Hold(o'.pump) == [] && o'.delivered + [] == o'.delivered && o'.delivered <= o.delivered + o.pump.chunk;
  }

  lemma PipeClear(o: S.Obj)
    requires S.Ok(o) && S.Can(o, S.CloserClear)
    ensures var o' := S.Do(o, S.CloserClear);
            && o'.delivered == o.delivered && Pipe(o') <= Pipe(o) && o.closed
            && (Alive(o'.pump) ==> Alive(o.pump))
  {
    var o' := S.Do(o, S.CloserClear);
    assert Hold(o'.pump) == Hold(o.pump) && Flat(o'.queue) == [];
    hide Flat, S.CreditOk, S.SizeOk, S.WakeOk, S.LedgerOk, S.MuOk, S.LifeOk;
  }

  /** What a local action does to the bytes the object has taken in. */
  lemma LocalPipe(o: S.Obj, a: S.Act)
    requires S.Ok(o) && S.Can(o, a)
    ensures var o' := S.Do(o, a);
            && (Alive(o'.pump) && !o.closed ==> Pipe(o') == Pipe(o))
            && (Alive(o'.pump) ==> Alive(o.pump)) && |Pipe(o')| <= |Pipe(o)|
            && (Alive(o'.pump) ==> Pipe(o') <= Pipe(o))
            && (Alive(o.pump) ==> o'.delivered <= Pipe(o))
            && (!Alive(o.pump) ==> o'.delivered == o.delivered)
  {
    hide S.Ok, S.Do, Flat, Hold;
    if !MovesBytes(a) {
      PipeUntouched(o, a);
    } else if a.PumpLock? {
      PipeLock(o);
    } else if a.CloserClear? {
      PipeClear(o);
    } else {
      PipeWrite(o, a);
    }
  }

  lemma CreditUntouched(o: S.Obj, a: S.Act)
    requires S.Ok(o) && S.Can(o, a) && !a.PumpWrite? && !a.PumpWriteFail? && !a.PumpCredit?
    ensures var o' := S.Do(o, a);
            && CreditOf(S.Out(o, a)) == 0 && Uncredited(o'.pump) <= Uncredited(o.pump) && o'.delivered == o.delivered
            && (Alive(o'.pump) ==> Uncredited(o'.pump) == Uncredited(o.pump))
  {
    hide S.MuOk, S.CloseOk, S.CreditOk, S.SizeOk, S.WakeOk, S.LedgerOk;
  }

  lemma LocalCredit(o: S.Obj, a: S.Act)
    requires S.Ok(o) && S.Can(o, a)
    ensures var o' := S.Do(o, a);
            && (CreditOf(S.Out(o, a)) + Uncredited(o'.pump)) - Uncredited(o.pump) <= |o'.delivered| - |o.delivered|
            && (Alive(o'.pump) ==>
                  CreditOf(S.Out(o, a)) + Uncredited(o'.pump) - Uncredited(o.pump) == |o'.delivered| - |o.delivered|)
  {
    hide S.MuOk, S.CloseOk, S.LifeOk, S.CreditOk, S.WakeOk, S.LedgerOk;
    if a.PumpWrite? || a.PumpWriteFail? || a.PumpCredit? {
    } else {
      CreditUntouched(o, a);
    }
  }

  /** Before the launch a local action leaves the stream silent; the launch announces exactly once. */
  lemma LocalLaunch(o: S.Obj, a: S.Act)
    requires S.Ok(o) && S.Can(o, a)
    ensures var o' := S.Do(o, a);
            && (o.opener.Launched? ==> o'.opener.Launched? && OksOf(S.Out(o, a)) == 0)
            && (!o.opener.Launched? ==>
                  && o'.delivered == o.delivered && (o.queue == [] ==> o'.queue == [])
                  && CreditOf(S.Out(o, a)) == 0
                  && OksOf(S.Out(o, a)) == if o'.opener.Launched? then 1 else 0)
            && (o'.closed ==> o.closed || a.CloserSwap?)
            && (o.closed ==> o'.closed)
  {
  }

  lemma LocalKeepsView(v: View, a: S.Act)
    requires ViewOk(v) && v.obj.Some? && S.Ok(v.obj.value) && S.Can(v.obj.value, a)
    ensures ViewOk(LocalView(v, a))
  {
    LocalPipe(v.obj.value, a);
    LocalCredit(v.obj.value, a);
    LocalLaunch(v.obj.value, a);
    hide S.Ok, S.Can, S.Do, S.Out, CreditOf, OksOf, Pipe, Uncredited, Alive, ClientOk;
  }

  // ----- Other steps of the server -----------------------------------------------------------

  /** A step that leaves queue, deliveries and credits alone; it may close the stream, never reopen it. */
  predicate Inert(o: S.Obj, o': S.Obj) {
    && o'.queue == o.queue && o'.delivered == o.delivered
    && (o'.opener.Launched? <==> o.opener.Launched?)
    && (o.closed ==> o'.closed)
    && (o'.pump == o.pump || (!Alive(o.pump) && !Alive(o'.pump) && Uncredited(o'.pump) == 0))
  }

  lemma InertKeepsView(v: View, o: S.Obj)
    requires ViewOk(v) && v.obj.Some? && Inert(v.obj.value, o)
    ensures ViewOk(v.(obj := Some(o)))
  {
  }

  lemma DropsAreInert(o: S.Obj)
    ensures o.pump.PumpDropping? ==> Inert(o, S.PumpDrops(o))
    ensures o.reader.ReaderDropping? ==> Inert(o, S.ReaderDrops(o))
    ensures o.opener.OpenerDropping? || o.opener.Cleaning? ==> Inert(o, S.OpenerDrops(o))
    ensures o.opener.Stored? ==> Inert(o, S.OpenerChecks(o, true)) && Inert(o, S.OpenerChecks(o, false))
    ensures Inert(o, S.Loaded(o)) && Inert(o, S.Swap(o, true)) && Inert(o, S.Swap(o, false))
  {
  }

  /** Leaving the table, and being marked for shedding or closing, only weakens what is claimed. */
  lemma UnlistKeepsView(v: View, doomed: bool)
    requires ViewOk(v)
    ensures ViewOk(v.(listed := false, doomed := doomed))
    ensures ViewOk(v.(doomed := true))
    ensures v.doomed && !v.listed ==> ViewOk(v.(doomed := doomed))
  {
  }

  /** The read loop gives up the payload in its hands: it sheds the stream, or found it closed. */
  lemma DropHandKeepsView(v: View)
    requires ViewOk(v)
    ensures ViewOk(v.(hand := [], doomed := true))
    ensures v.obj.Some? && v.obj.value.closed ==> ViewOk(v.(hand := []))
  {
    if v.obj.Some? {
      assert Pipe(v.obj.value) + [] == Pipe(v.obj.value);
    }
  }

  /** A DATA frame leaves the wire: into the read loop's hands if the stream is listed, else nowhere. */
  lemma RecvKeepsView(v: View, payload: Chunk, rest: seq<byte>)
    requires ViewOk(v) && v.hand == [] && v.wire == payload + rest
    ensures v.listed && !v.doomed ==> ViewOk(v.(wire := rest, hand := payload))
    ensures !v.listed ==> ViewOk(v.(wire := rest))
  {
    if v.obj.Some? {
      var p := Pipe(v.obj.value);
      assert p + v.hand == p;
      assert p + v.wire == (p + payload) + rest;
    }
  }

  /** The enqueue: the payload moves from the read loop's hands to the end of the queue. */
  lemma PushKeepsView(v: View)
    requires ViewOk(v) && v.obj.Some? && !v.obj.value.closed && v.hand != []
    ensures ViewOk(v.(obj := Some(S.Push(v.obj.value, v.hand)), hand := []))
  {
    var o := v.obj.value;
    FlatSnoc(o.queue, v.hand);
    assert Pipe(S.Push(o, v.hand)) == Pipe(o) + v.hand;
    assert Pipe(o) + v.hand + [] == Pipe(o) + v.hand;
  }

  lemma PushDoneKeepsView(v: View)
    requires ViewOk(v) && v.obj.Some?
    ensures ViewOk(v.(obj := Some(S.PushDone(v.obj.value))))
  {
    assert Pipe(S.PushDone(v.obj.value)) == Pipe(v.obj.value);
  }

  /** handleOpen stores the new object. */
  lemma StoreKeepsView(v: View, id: StreamId)
    requires ViewOk(v) && v.obj.None?
    ensures ViewOk(v.(obj := Some(S.Fresh(id)), listed := true))
  {
    assert v.c.framed == [];
  }

  // ----- The client --------------------------------------------------------------------------

  predicate CanAct(c: Client, m: ClientMove) {
    match m
    case ClientReturn(_) => c.flow && !c.returned && !c.gaveUp
    case ClientGiveUp(_) => !c.returned
    case ClientWrite(_, _) => c.returned
    case ClientAcquire(_) => Wants(c) && WindowFits(c)
    case ClientRefuse(_) => Wants(c) && !WindowFits(c) && c.closed
    case ClientFrame(_, _) => c.writer.Holding?
    case ClientClose(_) => c.returned
    case _ => false
  }

  function SentBytes(c: Client, m: ClientMove): seq<byte>
    requires CanAct(c, m)
  {
    if m.ClientFrame? && m.ok then c.writer.chunk else []
  }

  lemma AcquireKeepsView(v: View, id: StreamId)
    requires ViewOk(v) && CanAct(v.c, ClientAcquire(id))
    ensures ViewOk(v.(c := Act(v.c, ClientAcquire(id))))
  {
    NextFits(v.c.todo);
    hide Pipe, Alive, Uncredited, Next;
  }

  lemma FrameKeepsView(v: View, m: ClientMove)
    requires ViewOk(v) && CanAct(v.c, m) && m.ClientFrame? && m.ok
    ensures ViewOk(v.(c := Act(v.c, m), wire := v.wire + v.c.writer.chunk))
  {
    if v.obj.Some? {
      var p := Pipe(v.obj.value) + v.hand;
      assert p + (v.wire + v.c.writer.chunk) == (p + v.wire) + v.c.writer.chunk;
    }
    hide Pipe, Alive, Uncredited;
  }

  lemma QuietActKeepsView(v: View, m: ClientMove)
    requires ViewOk(v) && CanAct(v.c, m) && !m.ClientAcquire? && !(m.ClientFrame? && m.ok)
    ensures ViewOk(v.(c := Act(v.c, m)))
  {
    hide Pipe, Alive, Uncredited, WindowFits;
  }

  lemma ActKeepsView(v: View, m: ClientMove)
    requires ViewOk(v) && CanAct(v.c, m)
    ensures ViewOk(v.(c := Act(v.c, m), wire := v.wire + SentBytes(v.c, m)))
  {
    hide ViewOk, Act, WindowFits;
    assert v.wire + [] == v.wire;
    if m.ClientAcquire? {
      AcquireKeepsView(v, m.id);
    } else if m.ClientFrame? && m.ok {
      FrameKeepsView(v, m);
    } else {
      QuietActKeepsView(v, m);
    }
  }

  /** Until the client has taken OPEN_OK nothing was framed, delivered or credited. */
  lemma UnopenedIsEmpty(v: View)
    requires ViewOk(v) && !v.c.flow
    ensures v.c.framed == [] && v.credit == 0
    ensures v.obj.Some? ==> v.obj.value.delivered == [] && Uncredited(v.obj.value.pump) == 0
  {
  }

  /** The client's read loop takes a frame of this stream off the wire. */
  lemma ReceiveKeepsView(v: View, f: S.Down)
    requires ViewOk(v)
    requires f.OpenOk? ==> f.window == WINDOW && v.oks >= 1
    requires f.Window? ==> v.credit >= f.credit
    ensures ViewOk(v.(c := Receive(v.c, f), credit := v.credit - CreditOf([f]), oks := v.oks - OksOf([f])))
  {
    if !v.c.flow {
      UnopenedIsEmpty(v);
    }
    hide Alive, Pipe, Uncredited;
  }

  // ----- Consequences ------------------------------------------------------------------------

  /** Bytes acquired from the window and still on the way to the upstream, or delivered and not yet credited back. */
  function Outstanding(v: View): int
    requires v.obj.Some?
  {
    |Pipe(v.obj.value)| - |v.obj.value.delivered| + |v.hand| + |v.wire| + Uncredited(v.obj.value.pump) + v.credit
    + (if v.c.writer.Holding? then |v.c.writer.chunk| else 0)
  }

  /** A stream on which nothing has gone wrong: listening client, working writer and pump, open object. */
  predicate Healthy(v: View) {
    && v.c.flow && v.c.registered && !v.c.writer.Failed?
    && v.obj.Some? && v.listed && !v.doomed && !v.obj.value.closed && Alive(v.obj.value.pump)
  }

  /**
   Window conservation: the client's window and everything outstanding add up to the initial window,
   and never to more, whatever has been closed, dropped or failed.
   */
  lemma Conservation(v: View)
    requires ViewOk(v) && v.c.flow
    ensures v.obj.Some? && 0 <= v.c.window && v.c.window + Outstanding(v) <= WINDOW
    ensures Healthy(v) ==> v.c.window + Outstanding(v) == WINDOW
  {
  }

  /** What the server holds for a stream, the read loop's hands included, fits its window. */
  lemma HeldFitsWindow(v: View)
    requires ViewOk(v) && v.obj.Some? && S.Ok(v.obj.value)
    ensures S.GlobalShare(v.obj.value) + |v.hand| <= WINDOW
  {
  }

  /** If the whole window is back, every byte the client framed has reached the upstream. */
  lemma FullWindowMeansDelivered(v: View)
    requires ViewOk(v) && v.c.flow && v.c.window == WINDOW
    ensures v.obj.Some? && v.obj.value.delivered == v.c.framed
  {
  }

  lemma SilentQueue(v: View)
    requires ViewOk(v) && v.obj.Some? && !v.obj.value.opener.Launched?
    ensures v.obj.value.queue == []
  {
  }
}
