/**
 One multiplexing session: the server's stream table, read loop and closeAll, the two wires, and
 the client end of every stream. A move is one atomic step of one actor; `Do` gives the state after
 it and `GlobalDelta` what it adds to the process-wide counter v2GlobalBuffered.
 */
module Session {
  import opened Bytes
  import opened Limits
  import S = StreamObject

  /** Frames from the client. Everything that is not OPEN, DATA or CLOSE is OtherFrame. */
  datatype Up =
    | OpenFrame(id: StreamId)
    | DataFrame(id: StreamId, payload: Chunk)
    | CloseFrame(id: StreamId)
    | OtherFrame

  /** The read loop. Indices refer to `objs`: the loop keeps the pointer it loaded. */
  datatype Loop =
    | Idle
    | Looked(i: nat, payload: Chunk)        // DATA for a stream in the table, budgets untested
    | SessionFits(i: nat, payload: Chunk)   // the session half of the test passed
    | Admitted(i: nat, payload: Chunk)      // both halves passed
    | Adding(i: nat, n: nat)                // holds the stream's mu, chunk queued, counters untouched
    | Added(i: nat, n: nat)                 // session counter adjusted
    | Shedding(id: StreamId)                // about to write CLOSE
    | Refusing(id: StreamId)                // about to write OPEN_ERR "server busy"
    | LoopDropping(id: StreamId)            // in closeStream, about to LoadAndDelete
    | LoopClosing(i: nat)                   // in closeStream, with the object it loaded
    | Ended

  /** closeAll. `must` holds the entries present when Range began and not yet visited. */
  datatype All =
    | NotBegun
    | Flagged
    | Ranging(must: map<StreamId, nat>)
    | Visiting(must: map<StreamId, nat>, i: nat)
    | Deleting(must: map<StreamId, nat>, i: nat)
    | Finished

  datatype Writer = Quiet | Holding(chunk: Chunk) | Failed

  /**
   The client end of a stream. `registered` is its presence in the client's table, `flow` is
   flowControlled, `returned` that `open` has returned it and `gaveUp` that it has given up on it instead.
   `todo` is what its user still wants to write. The last three are totals: bytes framed, bytes acquired
   from the window, bytes credited.
   */
  datatype Client = Client(
    registered: bool, flow: bool, returned: bool, gaveUp: bool, window: int, closed: bool,
    writer: Writer, todo: seq<byte>, framed: seq<byte>, spent: nat, got: nat)

  /**
   `table` is the server's map of live streams, `home` remembers the latest object made for an id.
   `slots` are the taken places of openSem; `leaving` of them belong to handleOpen calls that have
   returned and not yet given theirs back. `ponging` says that the client's read loop is about to
   write a PONG. `rogue` becomes true with the first frame that the client code would not send.
   */
  datatype Session = Session(
    objs: seq<S.Obj>, table: map<StreamId, nat>, home: map<StreamId, nat>,
    buffered: int, closed: bool, all: All, loop: Loop, dialing: seq<StreamId>, slots: nat, leaving: nat,
    c2s: seq<Up>, s2c: seq<S.Down>,
    clients: map<StreamId, Client>, opens: nat, ponging: bool, rogue: bool)

  const START := Session([], map[], map[], 0, false, NotBegun, Idle, [], 0, 0, [], [], map[], 0, false, false)

  /** closeStream called by the pump, by the upstream reader, or by handleOpen. */
  datatype DropMove = ByPump(i: nat) | ByReader(i: nat) | ByOpener(i: nat)

  /** handleOpen: a failed or successful dial, the store, the closed check and its cleanup, the place given back. */
  datatype OpenerMove =
    | OpenerCheck(i: nat) | OpenerClean(i: nat) | DialFail(k: nat, ok: bool) | DialStore(k: nat) | OpenerRelease

  datatype LoopMove =
    | LoopRecv | LoopTestSession | LoopTestGlobal | LoopLock | LoopBillSession | LoopBillGlobal
    | LoopShed(ok: bool) | LoopRefuse(ok: bool) | LoopDrop | LoopDone | LoopEnd

  datatype AllMove = AllFlag | AllStart | AllLoad(id: StreamId) | AllSwap | AllDelete | AllFinish

  datatype ClientMove =
    | ClientOpen | ClientReturn(id: StreamId) | ClientGiveUp(id: StreamId) | ClientRecv
    | ClientWrite(id: StreamId, data: seq<byte>) | ClientAcquire(id: StreamId)
    | ClientRefuse(id: StreamId) | ClientFrame(id: StreamId, ok: bool) | ClientClose(id: StreamId)

  /** The heartbeat's PING, the server's answer to a PING, and the client's. */
  datatype BeatMove = ServerPing | ServerPong | ClientPong(ok: bool)

  datatype Move =
    | Local(i: nat, act: S.Act)
    | DropBy(drop: DropMove)
    | OpenerDoes(opener: OpenerMove)
    | LoopDoes(step: LoopMove)
    | AllDoes(sweep: AllMove)
    | ClientDoes(client: ClientMove)
    | BeatDoes(beat: BeatMove)
    | Rogue(frame: Up)

  /** The server's moves leave the client's end, and the client's frames' legality, alone. */
  predicate SameClientEnd(s: Session, s': Session) {
    s'.clients == s.clients && s'.opens == s.opens && s'.ponging == s.ponging && s'.rogue == s.rogue
  }

  // ----- Small updates -----------------------------------------------------------------------

  function SetObj(s: Session, i: nat, o: S.Obj): Session
    requires i < |s.objs|
  {
    s.(objs := s.objs[i := o])
  }

  function Emit(s: Session, out: seq<S.Down>): Session {
    s.(s2c := s.s2c + out)
  }

  /** LoadAndDelete: the entry goes, and its object is in the hands of the caller. */
  function LoadAndDelete(s: Session, id: StreamId): (s': Session)
    ensures SameClientEnd(s, s') && s'.loop == s.loop && s'.all == s.all && s'.closed == s.closed && s'.home == s.home
  {
    if id in s.table && s.table[id] < |s.objs| then
      var j := s.table[id];
      SetObj(s, j, S.Loaded(s.objs[j])).(table := s.table - {id})
    else s
  }

  function Unlist(s: Session, id: StreamId): Session {
    s.(table := s.table - {id})
  }

  /** A handleOpen call returns; its place in the semaphore is given back a step later. */
  function Return(s: Session): Session {
    s.(leaving := s.leaving + 1)
  }

  /** A dial returned: its handleOpen call is no longer waiting for it. */
  function Dialled(s: Session, k: nat): Session
    requires k < |s.dialing|
  {
    s.(dialing := s.dialing[..k] + s.dialing[k + 1..])
  }

  /** LoadOrStore of a new stream object under an id not in the table. */
  function Store(s: Session, id: StreamId): Session {
    s.(objs := s.objs + [S.Fresh(id)], table := s.table[id := |s.objs|], home := s.home[id := |s.objs|])
  }

  function SetClient(s: Session, id: StreamId, c: Client): Session {
    s.(clients := s.clients[id := c])
  }

  const NEW_CLIENT := Client(true, false, false, false, 0, false, Quiet, [], [], 0, 0)

  /** The id that open takes: AddUint32(&nextID, 2) - 2, with nextID starting at 1. */
  function NextId(opens: nat): StreamId {
    (2 * opens + 1) % TWO32
  }

  predicate FitsFrame(f: Up) {
    f.DataFrame? ==> |f.payload| <= MAX_PAYLOAD
  }

  // ----- The client --------------------------------------------------------------------------

  function Next(todo: seq<byte>): Chunk {
    if |todo| > MAX_PAYLOAD then todo[..MAX_PAYLOAD] else todo
  }

  /** streamWriter.Write is at its loop head with bytes left. */
  predicate Wants(c: Client) {
    c.writer.Quiet? && c.todo != []
  }

  /** acquireWindow for the next chunk does not wait: no flow control, or enough window. */
  predicate WindowFits(c: Client) {
    !c.flow || |Next(c.todo)| <= c.window
  }

  /** The client's read loop on one frame. Frames for ids not in its table are ignored. */
  function Receive(c: Client, f: S.Down): Client {
    if !c.registered then c else
    match f
    case OpenOk(_, window) => c.(window := window, flow := true)
    case Window(_, credit) => c.(window := c.window + credit, got := c.got + credit)
    case Close(_) => c.(closed := true, registered := false)
    case OpenErr(_) => c.(registered := false)
    case _ => c
  }

  // ----- Moves -------------------------------------------------------------------------------

  predicate CanDrop(s: Session, m: DropMove) {
    && m.i < |s.objs|
    && match m {
         case ByPump(i) => s.objs[i].pump.PumpDropping?
         case ByReader(i) => s.objs[i].reader.ReaderDropping?
         case ByOpener(i) => s.objs[i].opener.OpenerDropping?
       }
  }

  predicate CanOpener(s: Session, m: OpenerMove) {
    match m
    case OpenerCheck(i) => i < |s.objs| && s.objs[i].opener.Stored?
    case OpenerClean(i) => i < |s.objs| && s.objs[i].opener.Cleaning?
    case DialFail(k, _) => k < |s.dialing|
    case DialStore(k) => k < |s.dialing|
    case OpenerRelease => s.leaving > 0 && s.slots > 0
  }

  predicate CanLoop(s: Session, m: LoopMove) {
    match m
    case LoopRecv => s.loop.Idle? && s.c2s != []
    case LoopTestSession => s.loop.Looked? && s.loop.i < |s.objs|
    case LoopTestGlobal => s.loop.SessionFits? && s.loop.i < |s.objs|
    case LoopLock => s.loop.Admitted? && s.loop.i < |s.objs| && s.objs[s.loop.i].mu.Free?
    case LoopBillSession => s.loop.Adding?
    case LoopBillGlobal => s.loop.Added? && s.loop.i < |s.objs|
    case LoopShed(_) => s.loop.Shedding?
    case LoopRefuse(_) => s.loop.Refusing?
    case LoopDrop => s.loop.LoopDropping?
    case LoopDone => s.loop.LoopClosing? && s.loop.i < |s.objs| && s.objs[s.loop.i].reclaim.Reclaimed?
    case LoopEnd => s.loop.Idle?
  }

  predicate CanAll(s: Session, m: AllMove) {
    match m
    case AllFlag => s.loop.Ended? && s.all.NotBegun?
    case AllStart => s.all.Flagged?
    case AllLoad(id) => s.all.Ranging? && id in s.table
    case AllSwap => s.all.Visiting? && s.all.i < |s.objs|
    case AllDelete => s.all.Deleting? && s.all.i < |s.objs|
    case AllFinish =>
      s.all.Ranging? && forall id <- s.all.must.Keys :: !(id in s.table && s.table[id] == s.all.must[id])
  }

  predicate CanClient(s: Session, m: ClientMove) {
    match m
    case ClientOpen => true
    case ClientReturn(id) => id in s.clients && s.clients[id].flow && !s.clients[id].returned && !s.clients[id].gaveUp
    case ClientGiveUp(id) => id in s.clients && !s.clients[id].returned
    case ClientRecv => s.s2c != [] && !s.ponging
    case ClientWrite(id, _) => id in s.clients && s.clients[id].returned
    case ClientAcquire(id) => id in s.clients && Wants(s.clients[id]) && WindowFits(s.clients[id])
    case ClientRefuse(id) =>
      id in s.clients && Wants(s.clients[id]) && !WindowFits(s.clients[id]) && s.clients[id].closed
    case ClientFrame(id, _) => id in s.clients && s.clients[id].writer.Holding?
    case ClientClose(id) => id in s.clients && s.clients[id].returned
  }

  predicate CanBeat(s: Session, m: BeatMove) {
    m.ClientPong? ==> s.ponging
  }

  predicate Can(s: Session, m: Move) {
    match m
    case Local(i, act) => i < |s.objs| && S.Can(s.objs[i], act)
    case DropBy(drop) => CanDrop(s, drop)
    case OpenerDoes(opener) => CanOpener(s, opener)
    case LoopDoes(step) => CanLoop(s, step)
    case AllDoes(sweep) => CanAll(s, sweep)
    case ClientDoes(client) => CanClient(s, client)
    case BeatDoes(beat) => CanBeat(s, beat)
    case Rogue(frame) => FitsFrame(frame)
  }

  /** The action is the last of a handleOpen call. */
  predicate Returns(act: S.Act) {
    act == S.OpenerAnnounce(true) || act.OpenerHangUp?
  }

  function DoLocal(s: Session, i: nat, act: S.Act): (s': Session)
    requires i < |s.objs| && S.Can(s.objs[i], act)
    ensures SameClientEnd(s, s') && s'.loop == s.loop && s'.all == s.all && s'.closed == s.closed
  {
    var o := s.objs[i];
    Emit(SetObj(s, i, S.Do(o, act)), S.Out(o, act)).(
      buffered := s.buffered + S.SessionDelta(o, act), leaving := s.leaving + if Returns(act) then 1 else 0)
  }

  function Dropped(o: S.Obj, m: DropMove): S.Obj
    requires match m {
               case ByPump(_) => o.pump.PumpDropping?
               case ByReader(_) => o.reader.ReaderDropping?
               case ByOpener(_) => o.opener.OpenerDropping?
             }
  {
    match m
    case ByPump(_) => S.PumpDrops(o)
    case ByReader(_) => S.ReaderDrops(o)
    case ByOpener(_) => S.OpenerDrops(o)
  }

  function DoDrop(s: Session, m: DropMove): (s': Session)
    requires CanDrop(s, m)
    ensures SameClientEnd(s, s') && s'.loop == s.loop && s'.all == s.all && s'.closed == s.closed
  {
    LoadAndDelete(SetObj(s, m.i, Dropped(s.objs[m.i], m)), s.objs[m.i].id)
  }

  function DoOpener(s: Session, m: OpenerMove): (s': Session)
    requires CanOpener(s, m)
    ensures SameClientEnd(s, s') && s'.loop == s.loop && s'.all == s.all && s'.closed == s.closed
  {
    match m
    case OpenerCheck(i) => SetObj(s, i, S.OpenerChecks(s.objs[i], s.closed))
    case OpenerClean(i) => Unlist(SetObj(s, i, S.OpenerDrops(s.objs[i])), s.objs[i].id)
    case DialFail(k, ok) => Return(Emit(Dialled(s, k), if ok then [S.OpenErr(s.dialing[k])] else []))
    case DialStore(k) =>
      if s.dialing[k] in s.table then Return(Dialled(s, k)) else Store(Dialled(s, k), s.dialing[k])
    case OpenerRelease => s.(slots := s.slots - 1, leaving := s.leaving - 1)
  }

  /** Where the read loop goes with a frame: DATA for a listed stream, CLOSE, or on to the next. */
  function Dispatch(table: map<StreamId, nat>, f: Up): Loop {
    match f
    case DataFrame(id, payload) => if id in table then Looked(table[id], payload) else Idle
    case CloseFrame(id) => LoopDropping(id)
    case _ => Idle
  }

  /** An OPEN is next and the semaphore is full: 64 handleOpen calls are in flight. */
  predicate Saturated(s: Session) {
    s.c2s != [] && s.c2s[0].OpenFrame? && s.slots >= MAX_CONCURRENT_OPENS
  }

  /** OPEN takes a place of the semaphore and starts a handleOpen call, or is refused for lack of one. */
  function DoRecv(s: Session): (s': Session)
    requires s.loop.Idle? && s.c2s != []
    ensures SameClientEnd(s, s') && s'.all == s.all && s'.closed == s.closed
    ensures s'.objs == s.objs && s'.table == s.table && s'.home == s.home && s'.s2c == s.s2c
  {
    var f := s.c2s[0];
    var accepted := f.OpenFrame? && s.slots < MAX_CONCURRENT_OPENS;
    s.(c2s := s.c2s[1..], loop := if Saturated(s) then Refusing(f.id) else Dispatch(s.table, f),
       dialing := s.dialing + (if accepted then [f.id] else []),
       slots := s.slots + if accepted then 1 else 0)
  }

  function DoLoop(s: Session, global: int, m: LoopMove): (s': Session)
    requires CanLoop(s, m)
    ensures SameClientEnd(s, s') && s'.all == s.all && s'.closed == s.closed
  {
    match m
    case LoopRecv => DoRecv(s)
    case LoopTestSession =>
      s.(loop := if s.buffered + |s.loop.payload| > SESSION_CAP then Shedding(s.objs[s.loop.i].id)
                 else SessionFits(s.loop.i, s.loop.payload))
    case LoopTestGlobal =>
      s.(loop := if global + |s.loop.payload| > GLOBAL_CAP then Shedding(s.objs[s.loop.i].id)
                 else Admitted(s.loop.i, s.loop.payload))
    case LoopLock =>
      var i := s.loop.i;
      if s.objs[i].closed then s.(loop := Idle)
      else SetObj(s, i, S.Push(s.objs[i], s.loop.payload)).(loop := Adding(i, |s.loop.payload|))
    case LoopBillSession => s.(loop := Added(s.loop.i, s.loop.n), buffered := s.buffered + s.loop.n)
    case LoopBillGlobal => SetObj(s, s.loop.i, S.PushDone(s.objs[s.loop.i])).(loop := Idle)
    case LoopShed(ok) => Emit(s, if ok then [S.Close(s.loop.id)] else []).(loop := LoopDropping(s.loop.id))
    case LoopRefuse(ok) => Emit(s, if ok then [S.OpenErr(s.loop.id)] else []).(loop := Idle)
    case LoopDrop =>
      LoadAndDelete(s, s.loop.id).(loop := if s.loop.id in s.table then LoopClosing(s.table[s.loop.id]) else Idle)
    case LoopDone => s.(loop := Idle)
    case LoopEnd => s.(loop := Ended)
  }

  function DoAll(s: Session, m: AllMove): (s': Session)
    requires CanAll(s, m)
    ensures SameClientEnd(s, s') && s'.loop == s.loop
  {
    match m
    case AllFlag => s.(closed := true, all := Flagged)
    case AllStart => s.(all := Ranging(s.table))
    case AllLoad(id) => s.(all := Visiting(s.all.must - {id}, s.table[id]))
    case AllSwap => SetObj(s, s.all.i, S.Swap(s.objs[s.all.i], true)).(all := Deleting(s.all.must, s.all.i))
    case AllDelete => Unlist(s, s.objs[s.all.i].id).(all := Ranging(s.all.must))
    case AllFinish => s.(all := Finished)
  }

  /** A move of the client on the state of one of its streams, apart from opening and receiving. */
  function Act(c: Client, m: ClientMove): Client
    requires !m.ClientOpen? && !m.ClientRecv?
    requires m.ClientFrame? ==> c.writer.Holding?
  {
    match m
    case ClientReturn(_) => c.(returned := true)
    case ClientGiveUp(_) => c.(registered := false, gaveUp := true)
    case ClientWrite(_, data) => c.(todo := c.todo + data)
    case ClientAcquire(_) =>
      var chunk := Next(c.todo);
      c.(writer := Holding(chunk), todo := c.todo[|chunk|..], spent := c.spent + |chunk|,
         window := if c.flow then c.window - |chunk| else c.window)
    case ClientRefuse(_) => c.(writer := Failed)
    case ClientFrame(_, ok) =>
      if ok then c.(writer := Quiet, framed := c.framed + c.writer.chunk) else c.(writer := Failed)
    case ClientClose(_) => c
  }

  /** The frame that move puts on the wire, if any. */
  function Sent(c: Client, m: ClientMove): seq<Up>
    requires !m.ClientOpen? && !m.ClientRecv?
    requires m.ClientFrame? ==> c.writer.Holding?
  {
    match m
    case ClientFrame(id, ok) => if ok then [DataFrame(id, c.writer.chunk)] else []
    case ClientClose(id) => [CloseFrame(id)]
    case _ => []
  }

  function DoClient(s: Session, m: ClientMove): (s': Session)
    requires CanClient(s, m)
    ensures s'.loop == s.loop && s'.all == s.all && s'.closed == s.closed
  {
    match m
    case ClientOpen =>
      var id := NextId(s.opens);
      SetClient(s, id, NEW_CLIENT).(
        c2s := s.c2s + [OpenFrame(id)], opens := s.opens + 1, rogue := s.rogue || id in s.clients)
    case ClientRecv =>
      var f := s.s2c[0];
      var rest := s.(s2c := s.s2c[1..], ponging := f.Ping?);
      if f.id in s.clients then SetClient(rest, f.id, Receive(s.clients[f.id], f)) else rest
    case _ =>
      var c := s.clients[m.id];
      SetClient(s, m.id, Act(c, m)).(c2s := s.c2s + Sent(c, m))
  }

  function DoBeat(s: Session, m: BeatMove): (s': Session)
    requires CanBeat(s, m)
    ensures s'.loop == s.loop && s'.all == s.all && s'.closed == s.closed
    ensures s'.clients == s.clients && s'.opens == s.opens && s'.rogue == s.rogue
  {
    match m
    case ServerPing => Emit(s, [S.Ping(0)])
    case ServerPong => Emit(s, [S.Pong(0)])
    case ClientPong(ok) => s.(ponging := false, c2s := s.c2s + if ok then [OtherFrame] else [])
  }

  function Do(s: Session, global: int, m: Move): Session
    requires Can(s, m)
  {
    match m
    case Local(i, act) => DoLocal(s, i, act)
    case DropBy(drop) => DoDrop(s, drop)
    case OpenerDoes(opener) => DoOpener(s, opener)
    case LoopDoes(step) => DoLoop(s, global, step)
    case AllDoes(sweep) => DoAll(s, sweep)
    case ClientDoes(client) => DoClient(s, client)
    case BeatDoes(beat) => DoBeat(s, beat)
    case Rogue(frame) => s.(c2s := s.c2s + [frame], rogue := true)
  }

  /** What a move adds to v2GlobalBuffered. */
  function GlobalDelta(s: Session, m: Move): int
    requires Can(s, m)
  {
    match m
    case Local(i, act) => S.GlobalDelta(s.objs[i], act)
    case LoopDoes(step) => if step.LoopBillGlobal? then s.loop.n else 0
    case _ => 0
  }
}
