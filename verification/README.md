# Verification of the v2 session

This project models the stream-multiplexing session of mxtr, both ends, and proves what its comments
and documents promise: that an upload through the proxy loses no byte and never stalls, that the
server's memory is bounded by the windows, that a slow stream never holds up the others, that closing
leaves nothing behind, and that what one end writes the other end reads. `dafny verify dfyconfig.toml`
checks everything.

## How it is built

**The protocol as steps.** `StreamObject` is one server-side stream with the program counters of the
goroutines that work on it (pump, upstream reader, `handleOpen`, closers). A step is a mutex
acquisition with the protected reads and writes behind it, one atomic operation on a shared counter, or
one call to the outside; in particular the budget test and the later addition are separate steps, each
counter is adjusted by its own step, and the swap on `closed` is separate from the locked reclaim.
`Session` adds the stream table, the read loop, `closeAll`, the two wires and the client end of every
stream; `Host` puts any number of sessions behind the accept gate, with the process-wide counter. A run
is any sequence of legal events, so a lemma about `After(Boot(limit), run)` is about every reachable
state under every interleaving. `Rogue` moves put arbitrary frames on the wire: what holds for any peer
(`Shape`, `Budget`, `Host`, `Semaphore`, `BackPressure`, `Traffic`, `Teardown`, `Aftermath`, `Rest`) is proved with them, what needs
a client that follows the client code (`Flow`, `Upload`, `Order`, `Hearing`, `Shedding`, `Stalls`, `Delivery`,
`SlowStreams`, `Endings`, `LoudFailures`) is stated for sessions in which none happened. `StreamView` is one stream seen end to end.
`Tightness`, `Witness`, `Leaks` and `Deadlock` build concrete runs.

**Liveness.** `Progress` has the measure that scheduling lowers. `BackPressure` gives the wires a capacity: a
run respects it if no move writes to a wire that is full, and what cannot move any more waits for room, for
the upstream of a slow stream, or for nothing. `Stalls`, `Delivery` and `SlowStreams` prove that uploads
arrive, for every capacity and every set of slow streams.

**Endings.** `Traffic` says which frame each step of the code has to write, and that the wires keep them all in
order; `Hearing` says what a client makes of the frames it takes. `Endings` and `LoudFailures` follow the end of
a stream from either side to the other: nothing of it stays on the server, and no writer is left waiting.

**The loops and objects.** `Server` and `PumpLoop` are the stream and session with the code's fields and
loops; each stream carries as ghost state the step machine's object, and contracts say which run of the
machine a method is (`StreamRuns`). `ClientStream` is the client's stream and `streamWriter`, `SendWindow`
the monitor around its window, `Download` the way from the upstream to `Read`.

**The codec.** `Codec`, `Wire` and `FrameBuffers` are the stream frame inside the padded plaintext inside
the length-prefixed ciphertext, the mutex-protected writers, and the pooled buffers. The cipher, HMAC and
HKDF are function parameters with only their round trip and lengths assumed (`Sound`, `MacsAreShort`);
random choices are parameters. `FrameTypes` says what the machine's frames are as stream frames. `Handshake`, `Base58`, `HttpDrain`, `Heartbeat` and `Padding` are the
self-contained parts, over the positional numerals of `Numeral` and `BigEndian`.

## Where the code does not keep a promise

- DATA sent before OPEN_OK can leave bytes in `v2GlobalBuffered` for ever (`Leaks.EarlyDataLeaks`). Exactly
  which steps do so is stated as `Aftermath.Spends`, and that nothing else does is
  `Aftermath.LeftoverExactly`, whose only premise besides rest is that the pumps of streams which outlive
  their session are asleep or gone. A client that waits for OPEN_OK never causes one (`Aftermath.CountersReturn`).
- Closing goes by id. An id used twice can make `handleOpen`'s cleanup delete another stream's entry, and
  that stream survives its session (`Leaks.ReusedIdLeaks`). The step is `Aftermath.Strikes`, and an announced
  stream outlives its session if and only if it was struck (`Aftermath.TeardownComplete`). Reusing an id
  after its stream was closed is harmless. Ids repeat after 2^31 opens (`Upload.IdsAreFresh`).
- The read loop never waits for a slow stream, but it writes its CLOSE for a shed stream and its OPEN_ERR
  for a refused OPEN to the wire itself, without a deadline, and the client's read loop writes PONG itself.
  With both wires full the two wait for each other and every upload of the session stands still
  (`Deadlock.WedgeIsReachable`) until a write fails, as when the reaper closes the idle session. It is the
  only way in which full wires stop a session (`BackPressure.SticksShortExactly`), and it cannot come about
  within the limits (`SlowStreams.FlowControlledUploadIsDelivered`).
- A second OPEN_OK for a stream can leave a writer waiting although its window suffices
  (`SendWindow.SecondOpenOkStrands`); `SendWindow.StrandedExactly` says exactly when. This server sends one.
- `docs/PROTOCOL.md:83` has sequence numbers start at 0; the code starts at 1, and so does the model.
  `docs/PROTOCOL.md:75` gives 5-50 ms of handshake jitter, the code 1-15 ms; the model has no such delay.

## Model

| member | source | states |
|---|---|---|
| `StreamObject.DoKeepsOk` | cmd/mxtr-server/session_v2.go:245-437 | every atomic step of the pump, the upstream reader, `handleOpen` and the closers keeps one stream's invariant: who holds `mu`, one winner of the swap on `closed`, `qbytes` = length of the queue, no credit held back by a pump with an empty queue, no lost wakeup, and a ledger in which every byte added to the global counter is still held or was taken out once |
| `StreamObject.PushKeepsOk` | cmd/mxtr-server/session_v2.go:571-581 | appending a payload to the queue under `mu` keeps that invariant while the counters are still to be adjusted |
| `StreamObject.CreditingFits` | cmd/mxtr-server/session_v2.go:426-436 | a WINDOW_UPDATE carries exactly the uncredited bytes; the conversion to uint32 loses nothing |
| `Shape.DoKeepsShape` | cmd/mxtr-server/session_v2.go:84-117 | every move keeps the stream table, the read loop's stream reference, `closeAll`'s position and the wires consistent, whatever the peer sends |
| `Budget.DoAccounted` | cmd/mxtr-server/session_v2.go:245-304 | each move keeps the session counter equal to its streams' shares and moves the global sum by exactly what it adds to `v2GlobalBuffered` |
| `Host.ExactAccounting` | cmd/mxtr-server/session_v2.go:403-414 | in every run with any peers, `v2GlobalBuffered` is the sum over all streams of all sessions of what they put in and did not take out, which for each stream is its queue plus the half-done critical sections and for a reclaimed stream nothing, for good; each session counter likewise |
| `Host.CapsHold` | cmd/mxtr-server/session_v2.go:563-579 | no session counter passes 128 MiB and the racing test-then-add of N read loops lifts the global counter above 256 MiB by at most (N-1)·16375 |
| `Host.TestKeepsBound` | cmd/mxtr-server/main.go:1024-1052 | the overshoot bound survives a read loop's test of the global budget whatever the other connections, limited by the accept gate, have admitted and not added |
| `Host.ServerCeiling` | cmd/mxtr-server/main.go:78 | with the server's 8192 connections the global counter stays below 384 MiB in every run |
| `Flow.DoKeepsFlow` | cmd/mxtr-server/session_v2.go:349-437 | every move of a session whose client keeps to the protocol keeps the end-to-end invariants of every stream |
| `Upload.ClientCodeKeepsTheProtocol` | cmd/mxtr-testclient-v2/main.go:561-599 | a client that only makes the client code's moves and opens at most 2^31 streams never leaves the protocol; this discharges the premise of the theorems on flow control |
| `Upload.IdsAreFresh` | cmd/mxtr-testclient-v2/main.go:562 | the first 2^31 ids of `open` are odd and pairwise distinct, and the next one is a repeat |
| `Upload.WindowConservation` | cmd/mxtr-testclient-v2/main.go:346-360 | over every interleaving, window + bytes acquired, on the wire, in the read loop's hands, queued, in the pump's hands, uncredited and credited on the way back never exceeds 4 MiB, and equals 4 MiB while nothing was closed or failed |
| `Upload.UploadIntegrity` | cmd/mxtr-testclient-v2/main.go:781-797 | delivered, in hand, queued, looked up and on the wire are, in this order, the bytes framed; the upstream always holds a prefix; a full window at the client means that every byte was delivered |
| `Upload.CreditFits` | cmd/mxtr-server/session_v2.go:427-430 | the credit sent in any reachable state is positive and not truncated |
| `Upload.CloseHitsOnlyItsOwn` | cmd/mxtr-server/session_v2.go:274-279 | a late `closeStream(id)` of a pump, reader or `handleOpen` call changes no other stream's object and removes no other entry |
| `Traffic.WiresAreFaithful` | cmd/mxtr-server/session_v2.go:165-189 | in every run and for any peer, the frames that a client has taken and those on the wire to it are, in order, exactly the frames that the server's steps had to say, and the other way round |
| `Traffic.NothingIsKeptBack` | cmd/mxtr-server/session_v2.go:359-434 | the CLOSE at the upstream's end, the CLOSE after a refused chunk, the CLOSE of a shed stream, the OPEN_ERR of a refused OPEN or failed dial, OPEN_OK with 4 MiB, every chunk of the upstream and every credit is on the wire to the client or has been taken by it, whatever happens later |
| `Hearing.ClientKnowsWhatItHeard` | cmd/mxtr-testclient-v2/main.go:514-552 | unless its user gave up, a stream is in the client's table until the first CLOSE or OPEN_ERR that the client took, is closed exactly if that was a CLOSE, is flow-controlled exactly if an OPEN_OK came before, and was credited the sum of the WINDOW_UPDATEs before |
| `Endings.ServerEndingsAreFinal` | cmd/mxtr-server/session_v2.go:359-437 | if at any point the upstream refused a chunk or ended, or the wire refused the stream's OPEN_OK, DATA or credit, then once the session is at rest the stream is closed, reclaimed and out of the table, its queue dropped and its upstream hung up |
| `Endings.ClientCloseIsObeyed` | cmd/mxtr-server/session_v2.go:582-583 | the same once the client's user has closed the stream |
| `LoudFailures.CloseFailsTheWriter` | cmd/mxtr-testclient-v2/main.go:346-360 | a client whose stream was ended by a CLOSE is closed, and at rest its writer has nothing left to write or has got its error, also when it was waiting for window |
| `LoudFailures.UploadsEndLoudly` | cmd/mxtr-server/session_v2.go:384-391 | while the connection takes the server's frames and the user leaves the stream open: at rest the writer has nothing left to write or has got its error; unless the client was closed, all that was framed is delivered and the window is full; and whatever has ended the stream on the server, the client is closed |
| `Order.OpenOkComesFirst` | cmd/mxtr-testclient-v2/main.go:514-547 | on the server-to-client wire no DATA, WINDOW_UPDATE or CLOSE of a stream stands before its OPEN_OK, and a client that takes one has taken the OPEN_OK |
| `Shedding.NeverShed` | cmd/mxtr-server/session_v2.go:548-569 | with at most 32 announced and unreclaimed streams in the session and 64 in all, both halves of the budget test pass in every reachable state, even with a chunk popped and not yet subtracted |
| `Tightness.ThirtyThreeStreamsAreShed` | cmd/mxtr-server/session_v2.go:72-73 | a reachable state with 33 streams of a client that did nothing wrong in which the session half of the test fails: 32 cannot be raised |
| `StreamView.FullWindowMeansDelivered` | cmd/mxtr-server/session_v2.go:417-425 | per stream: if the whole window is back at the client, everything it framed has reached the upstream |
| `StreamView.HeldFitsWindow` | cmd/mxtr-server/session_v2.go:46-55 | what the server holds for one stream never exceeds one window |
| `Progress.DrivenLowers` | cmd/mxtr-server/session_v2.go:392-437 | every move that scheduling alone makes happen, PONGs and returned semaphore places included, lowers a natural-number measure of the session |
| `Progress.OthersAdd` | cmd/mxtr-server/session_v2.go:501-608 | every other move raises the measure by at most an amount that depends on the move alone, such as 24 for each byte to upload and 4 for a chunk of download or a PING |
| `Semaphore.OpensAreBounded` | cmd/mxtr-server/session_v2.go:532-547 | in every run and for any peer, at most 64 `handleOpen` calls of a session are in flight, the taken places of `openSem` are these and the calls about to give theirs back, and an OPEN is refused if and only if all 64 are taken |
| `BackPressure.RunStaysWithin` | cmd/mxtr-server/session_v2.go:174-180 | a run in which no write goes to a full wire never has more frames than its capacity on either wire |
| `BackPressure.SticksShortExactly` | cmd/mxtr-server/session_v2.go:546-566 | back pressure stops a session short in exactly one way: in every reachable state, for any peer, any capacity and any slow streams, where each move that is left waits for room or for a slow upstream, some move waits for room if and only if the server's read loop is at its CLOSE or OPEN_ERR, the client's at a PONG, and both wires are full |
| `BackPressure.WedgedForGood` | cmd/mxtr-server/session_v2.go:174-180 | such a session never moves on: until one of the two writes fails, every continuation within the capacity leaves both wires and both read loops as they are, and no client frames another byte |
| `BackPressure.ReadLoopNeverWaits` | cmd/mxtr-server/session_v2.go:546-583 | in every reachable state with a frame to work on, for any peer, except at its two writes to the wire, the read loop's next step, those of its own `closeStream` included, is possible after at most two steps that others take inside a critical section; none of them writes to an upstream or the wire |
| `BackPressure.OwnWriteWaits` | cmd/mxtr-testclient-v2/main.go:553-554 | what those two writes wait for: if the session is not wedged, at most two steps of the client's read loop, a PONG and a frame taken, neither of which waits; if it is, no such steps exist |
| `Stalls.StuckMeansDelivered` | cmd/mxtr-testclient-v2/main.go:346-360 | no stalled upload on a served stream, and `LoudFailures` has the others: where each move that is left waits for room on wires of any capacity or for any set of slow upstreams, and the session is not wedged, no other served client waits for window or has bytes to write, its window is full and all it framed is delivered |
| `Delivery.SparedStays` | cmd/mxtr-server/session_v2.go:349-437 | an undisturbed stream stays undisturbed under every move of its session that does not itself end it: downloads on it, heartbeats, and opens, writes, failures and closes of other streams included |
| `Delivery.FiniteUploadIsDelivered` | cmd/mxtr-server/session_v2.go:417-436 | from any reachable state, under any continuation that spares the stream, for any capacity of the wires and any set of slow streams: the scheduling moves number at most the measure plus what the other moves add, and when each one left waits for room or a slow upstream and the session is not wedged, the upstream has received exactly the bytes the user asked to upload and the window is full |
| `SlowStreams.FlowControlledUploadIsDelivered` | cmd/mxtr-server/session_v2.go:82-89 | the same without the conditions that the server does not shed the stream and that the session is not wedged, while at most 32 streams of the session and 64 in all may hold bytes and no OPEN meets a full semaphore |
| `SlowStreams.SlowStreamsStopNobody` | cmd/mxtr-server/session_v2.go:82-89 | from every state that a run within the capacity reaches, within the limits and not wedged, for every set of slow streams there is a continuation by scheduling moves alone, within the capacity, no longer than the measure and without one byte accepted by a slow upstream, that delivers any undisturbed upload of another stream whole |
| `Deadlock.CompletedExactly` | cmd/mxtr-server/session_v2.go:174-180 | and for an upload with bytes yet to be framed such a continuation exists if and only if the session is not wedged |
| `Deadlock.WedgeIsReachable` | cmd/mxtr-server/session_v2.go:532-546 | for any upload and any capacity below 2^31 - 66 frames, a run of the ordinary client code that wedges its session while nothing is wrong with the uploading stream |
| `Deadlock.WedgedUploadStandsStill` | cmd/mxtr-testclient-v2/main.go:553-554 | afterwards, until one of the two writes fails, no upstream ever holds a byte beyond those framed when the session was wedged |
| `Witness.UploadCanBegin` | cmd/mxtr-testclient-v2/main.go:781-797 | the premises are met: for any data and any capacity, an ordinary client reaches an undisturbed stream with exactly that upload ahead, room in the limits and nothing wedged |
| `Witness.RestIsReachable` | cmd/mxtr-server/session_v2.go:395-398 | and so is the premise of the stall theorem: a served stream in a reachable session where nothing can move |
| `Teardown.DoKeepsTeardown` | cmd/mxtr-server/session_v2.go:326-344 | every move keeps the invariant that each table entry is awaited by `closeAll` or will be removed by its own `handleOpen` |
| `Aftermath.DoKeepsFate` | cmd/mxtr-server/session_v2.go:245-344 | every move keeps, for each stream, who will still close it, up to the two steps that lose a stream or its bytes |
| `Aftermath.TeardownComplete` | cmd/mxtr-server/session_v2.go:245-344 | for every race and peer, once a session is at rest its table is empty and no `closing` channel was closed twice; an announced stream has stayed open if and only if another `handleOpen`'s cleanup deleted its entry, past its own check and in no closer's hands, which takes two streams of one id; every other upstream is closed and no other pump parked |
| `Rest.TeardownFinishes` | cmd/mxtr-server/session_v2.go:245-272 | and rest is always within reach: from every reachable state in which the read loop has ended, for any peer, `closeAll`, the dials and everything half-way can be finished by steps none of which needs the wire or an upstream to take anything |
| `Aftermath.LeftoverExactly` | cmd/mxtr-server/session_v2.go:340-344 | for every race and peer, a session at rest, with the pumps of any streams that outlive it asleep or gone, leaves nothing in `v2GlobalBuffered` if and only if no step of the run left a stream for the last time, by `handleOpen`'s cleanup or a `closeStream` whose entry was not its own any more, with bytes queued and no closer that had it or was going to |
| `Aftermath.CountersReturn` | cmd/mxtr-server/session_v2.go:256-264 | a session of a client that waits for OPEN_OK closes every upstream and every stream it announced and gives every byte back to the global counter |
| `Teardown.NoLostWakeup` | cmd/mxtr-server/session_v2.go:395-402 | a pump in `cond.Wait` with data queued or the stream closed always has a waker that can move, though `closed` is set outside `mu` |
| `Leaks.EarlyDataLeaks` | cmd/mxtr-server/session_v2.go:340-344 | a run in which DATA before OPEN_OK leaves a byte in `v2GlobalBuffered` for ever |
| `Leaks.ReusedIdLeaks` | cmd/mxtr-server/session_v2.go:340-344 | a run in which a reused id lets `handleOpen`'s cleanup delete another stream's entry, whose upstream stays open and pump parked after complete teardown |
| `StreamRuns.ClosingDoes` | cmd/mxtr-server/session_v2.go:274-304 | `closeStream` on an open stream is four steps of the stream machine that take its queued bytes out of both counters once |
| `StreamRuns.TakingDoes` | cmd/mxtr-server/session_v2.go:403-414 | the pump's critical section is three steps of the machine that take one chunk out of the queue and both counters |
| `StreamRuns.ParkingDoes` | cmd/mxtr-server/session_v2.go:395-398 | a pump that goes to sleep on an open stream owes no credit |
| `Server.Stream.Enqueue` | cmd/mxtr-server/session_v2.go:577-581 | the chunk goes to the end of the queue and the stream becomes what the machine's enqueue makes of it |
| `Server.Session.OnData` | cmd/mxtr-server/session_v2.go:548-581 | the DATA branch: exactly when a budget would be passed the stream gets a CLOSE and is closed off; otherwise the chunk is queued and both counters grow by its length; an unknown id changes nothing |
| `Server.Session.AddChunk` | cmd/mxtr-server/session_v2.go:570-581 | from the lock on, for any stream looked up before: one that was closed meanwhile gets nothing, an open one gets the chunk and both counters grow |
| `Server.Session.CloseStream` | cmd/mxtr-server/session_v2.go:274-304 | the stream leaves the table closed, with its queue dropped, its bytes out of both counters and its upstream closed; other streams are untouched |
| `Server.Session.CloseAll` | cmd/mxtr-server/session_v2.go:245-272 | afterwards the table is empty, every stream that was in it is closed with its upstream, and the global counter has lost the sum of their `qbytes`, each once; the session counter is left alone |
| `Server.SweptByMachine` | cmd/mxtr-server/session_v2.go:251-268 | `closeAll`'s treatment of a stream is the machine's closer: nothing leaves the session counter, `qbytes` leaves the global one |
| `PumpLoop.Pump.Run` | cmd/mxtr-server/session_v2.go:392-437 | the pump loop is a run of the machine; it ends asleep with the whole queue delivered in order and credited to the last byte, or at the first failure with a prefix delivered nothing credited that was not delivered, the upstream hung up and a CLOSE written if the wire takes it; it fails only if the upstream or the wire refuses; and of n queued bytes at most n / 2 MiB + 1 WINDOW_UPDATEs go out |
| `PumpLoop.Pump.Round` | cmd/mxtr-server/session_v2.go:403-436 | once round the loop: the head of the queue is delivered, and credit plus what is still uncredited grows by its length |
| `Download.ReadKeepsArrived` | cmd/mxtr-testclient-v2/main.go:613-629 | Read moves bytes from the chunk at hand to its caller and loses none, for every buffer size and empty chunks |
| `Download.StepKeepsOk` | cmd/mxtr-server/session_v2.go:359-383 | every step of the server's reader, the wire, the client's read loop, `deliver` and Read keeps the download invariant |
| `Download.DownloadIntegrity` | cmd/mxtr-testclient-v2/main.go:314-341 | what Read returned is always a prefix of what the upstream sent; nothing is missing while the stream is open; and io.EOF comes after every byte when only the upstream's end closed the stream |
| `Download.EndIsHeard` | cmd/mxtr-server/session_v2.go:371-381 | in every run in which the CLOSE at the upstream's end could be written and nothing else closed the stream: once the reader is gone the client is closed or the CLOSE is on the wire, and once nothing is under way the next Read of any size returns io.EOF with every byte returned |
| `Download.OthersCloseIsHeard` | cmd/mxtr-testclient-v2/main.go:548-552 | a CLOSE that the pump or the read loop wrote is never lost: the client is closed, has given the stream up, or will read it |
| `Download.WireIsFaithful` | cmd/mxtr-server/session_v2.go:174-180 | the frames that the client has taken and those on the shared wire are, in order, the frames of all streams that the server's steps had to write |
| `Download.ReadsFinish` | cmd/mxtr-testclient-v2/main.go:613-629 | on a closed stream any reads with non-empty buffers, one for each byte and chunk left and one more, return every byte in order and then io.EOF |
| `Download.DownloadFinishes` | cmd/mxtr-testclient-v2/main.go:314-341 | from every state in which the upstream has ended and nothing broke the stream, the client's read loop, `deliver` with its 32 places and reads of any size go on until every byte and io.EOF have been returned |
| `ClientStream.Stream.Read` | cmd/mxtr-testclient-v2/main.go:613-629 | one call returns as many bytes as the buffer and the chunk at hand allow, the next of what has arrived, in order, leaves the rest unread, and says EOF exactly on an exhausted closed stream; it is the download machine's Read |
| `ClientStream.Stream.AcquireWindow` | cmd/mxtr-testclient-v2/main.go:346-360 | it waits through no more credits than it must, takes exactly n bytes of window or none, and refuses only on a closed stream |
| `ClientStream.StreamWriter.Write` | cmd/mxtr-testclient-v2/main.go:781-797 | the frames sent are the reported bytes in order, in full chunks but for the last, each paid for from the window; it stops short only for the stated reason |
| `SendWindow.StepKeepsOk` | cmd/mxtr-testclient-v2/main.go:326-360 | every step of `acquireWindow`, `markClosed`, WINDOW_UPDATE and a first OPEN_OK keeps: a waiting writer lacks window and has the closer's broadcast still to come |
| `SendWindow.NobodyIsForgotten` | cmd/mxtr-testclient-v2/main.go:333-339 | for any number of writers and any interleaving, a writer stays in Wait only without window, and once the stream is closed its wakeup is on the way |
| `SendWindow.NeverOverdrawn` | cmd/mxtr-testclient-v2/main.go:346-360 | for any number of writers, OPEN_OKs, credits and interleavings the window is what was last announced plus the credits since minus what the writers let through asked for, is never negative, and a writer is turned away only on a closed stream |
| `SendWindow.StrandedExactly` | cmd/mxtr-testclient-v2/main.go:514-547 | for any number of writers, OPEN_OKs and interleavings: the window has sufficed for a writer since it went to sleep if and only if since then an OPEN_OK assigned a window that serves it; and once the stream is closed every sleeper's wakeup is on the way |
| `SendWindow.SecondOpenOkStrands` | cmd/mxtr-testclient-v2/main.go:514-522 | a run with two OPEN_OKs that leaves a writer in Wait although its bytes fit the window |
| `Codec.DecodeEncode` | cmd/mxtr-server/session_v2.go:165-172 | parsing an encoded stream frame gives its id, type and payload |
| `Codec.DecodesExactly` | cmd/mxtr-server/session_v2.go:517-529 | a plaintext parses as a message if and only if it begins with that message's encoding |
| `Codec.FrameLayout` | cmd/mxtr-server/session_v2.go:169-173 | a stream frame byte by byte: id in four bytes, type in one, length in two, most significant first, then the payload |
| `Codec.NonceLayout` | cmd/mxtr-server/main.go:112-116 | a nonce is four zero bytes and the frame number in eight, most significant first |
| `Codec.WireLayout` | cmd/mxtr-server/main.go:236-262 | a frame on the wire is the length of the ciphertext in two bytes and the ciphertext, under the frame's nonce, of the plaintext's length in two bytes, the plaintext and the padding |
| `Codec.ReadOutcomes` | cmd/mxtr-server/main.go:264-290 | readFrame on any bytes, case by case: too short, length zero or over 16400, not authentic, inner length too large, or the plaintext, and what it leaves unread |
| `FrameTypes.ClientReadsIt` | cmd/mxtr-testclient-v2/main.go:514-557 | every frame of the server, encoded, is read by the client as the same frame of the same stream with the same bytes or number |
| `FrameTypes.ServerReadsIt` | cmd/mxtr-server/session_v2.go:522-606 | and every frame of the client by the server |
| `FrameTypes.NumbersOnTheWire` | cmd/mxtr-server/session_v2.go:349-352 | the window of an OPEN_OK and the credit of a WINDOW_UPDATE are the four payload bytes, most significant first |
| `FrameTypes.TypesOnTheWire` | cmd/mxtr-server/session_v2.go:39-46 | the type byte of each kind of frame |
| `Codec.ReadFrame` | cmd/mxtr-server/main.go:264-290 | reads one frame off a connection and consumes exactly what the reference reader consumes, in every error case |
| `Codec.ReadAll` | cmd/mxtr-server/session_v2.go:501-530 | the read loop returns the messages of the reference reader, numbering frames from 1 |
| `Codec.FrameFits` | cmd/mxtr-server/main.go:236-243 | every frame the writer makes fills a rung, and its ciphertext passes the reader's length check and fits the length field |
| `Codec.LargestFillsTheTop` | cmd/mxtr-server/main.go:59 | the largest payload, and no other, makes a frame that fills the largest rung to the last byte |
| `Codec.ReadTruncated` | cmd/mxtr-server/main.go:264-277 | a frame cut anywhere reads as the end of the connection |
| `Codec.NoncesDiffer` | cmd/mxtr-server/main.go:112-116 | different frame numbers below 2^64 have different nonces |
| `Wire.StepKeepsOk` | cmd/mxtr-server/session_v2.go:174-180 | every step of any number of writers under `writeMu`, at either end, keeps: whole frames numbered 1, 2, 3, ... in the order the mutex was held, then at most a piece of one |
| `Wire.WireRoundTrip` | cmd/mxtr-server/session_v2.go:165-189 | for any interleaving, padding and point of failure, the reader recovers from any prefix of the wire a prefix of the written messages, and from the whole wire all of them |
| `FrameBuffers.Pools.Take` | cmd/mxtr-server/main.go:145-151 | a buffer of exactly the asked size that no other holder has |
| `FrameBuffers.Pools.Put` | cmd/mxtr-server/main.go:153-157 | a buffer goes back to the pool of its size and to no other; a size without a pool is dropped |
| `FrameBuffers.SealInto` | cmd/mxtr-server/main.go:242-255 | length, plaintext and padding overwrite the whole inner buffer and the ciphertext fills its own: the frame does not depend on what was in the pooled buffers |
| `FrameBuffers.FrameWriter.WriteFrame` | cmd/mxtr-server/main.go:236-262 | the connection gets the frame as far as it takes bytes, and success means all of it; a plaintext too large or a failing random source changes nothing |
| `FrameBuffers.FrameWriter.WriteStreamFrame` | cmd/mxtr-server/session_v2.go:165-189 | one call is the wire machine's critical section, and the peer's reader gets one message more exactly when it reports success |
| `FrameBuffers.FrameWriter.constructor` | cmd/mxtr-testclient-v2/main.go:456-464 | a session starts with sequence number 1 and an empty wire |
| `Padding.NextPadSizeIsTightest` | cmd/mxtr-server/main.go:189-198 | the chosen rung holds the frame and every smaller one is too small |
| `Padding.Rungs` | cmd/mxtr-server/main.go:189 | the thirteen rungs are the powers of two from 256 to 16384 and one and a half times each but the last |
| `Padding.PickedRungFits` | cmd/mxtr-server/main.go:222-234 | bump or not, the size is a rung that holds the frame and, above 256 bytes, is less than twice what it needs |
| `Padding.BumpShare` | cmd/mxtr-server/main.go:211-234 | of the hundred draws exactly 30, 18 or 8 move a frame up one rung, and none at the top |
| `Handshake.ReadClientHello` | cmd/mxtr-server/main.go:686-719 | reads a client's hello in three reads and gives the reference result, consuming what it consumes, with the HTTP exception after four bytes |
| `Handshake.ReadServerHello` | cmd/mxtr-testclient-v2/main.go:424-448 | the client's counterpart, without the exception |
| `Handshake.HelloIsRead` | cmd/mxtr-testclient-v2/main.go:408-422 | a hello of any nonce and 0 to 255 bytes of padding is 33 + padding bytes long and is read back, leaving what follows |
| `Handshake.OnlyHellosAreRead` | cmd/mxtr-server/main.go:686-719 | nothing but an authenticated hello, not beginning like an HTTP request, is accepted |
| `Handshake.HelloLayout` | cmd/mxtr-testclient-v2/main.go:408-422 | a hello is the nonce, one byte that counts the padding, the padding, and the MAC of all that |
| `Handshake.GreetOutcomes` | cmd/mxtr-server/main.go:686-719 | the reader of a hello on any bytes, case by case: too short, bad MAC, HTTP, or the nonce, and what it leaves unread |
| `Handshake.NineMethods` | cmd/mxtr-server/main.go:592-608 | an HTTP probe is told by the first four characters of the nine methods |
| `Handshake.DirectionsApart` | cmd/mxtr-server/session_v2.go:478-479 | if key derivation separates labels, no frame of one direction is sealed under key and nonce of one of the other, although both count from 1 |
| `Handshake.HandshakeAgrees` | cmd/mxtr-server/main.go:592-608 | both ends come out with the same two keys, derived from both nonces under `c2s-key` and `s2c-key`, and the following frames untouched if and only if the nonce does not begin like one of the nine HTTP methods; otherwise both refuse |
| `Base58.Encode` | cmd/mxtr-server/share_string.go:17-43 | the division loop, the zeros and the reversal compute the reference encoding |
| `Base58.Decode` | cmd/mxtr-testclient-v2/main.go:129-149 | the multiply-and-add loop computes the reference decoding, with an error for the empty string and any foreign character |
| `Base58.DecodeOfEncode` | cmd/mxtr-server/share_string.go:17-43 | decode(encode(b)) = b for every non-empty byte string, leading zeros included |
| `Base58.EncodeOfDecode` | cmd/mxtr-testclient-v2/main.go:129-149 | exactly the non-empty strings over the alphabet decode, and encode(decode(s)) = s for each |
| `Base58.EncodingKeepsTheNumber` | cmd/mxtr-server/share_string.go:17-43 | read as a base-58 numeral, most significant digit first, the encoding is the number that the bytes are, with a leading 1 for each leading zero byte |
| `Base58.TheAlphabet` | cmd/mxtr-server/share_string.go:14-15 | the digits are the ASCII digits and letters in order, without 0, O, I and l |
| `HttpDrain.AdvanceIsExact` | cmd/mxtr-server/main.go:633-652 | the matcher's state is always the length of the longest suffix of the input that is a prefix of CRLFCRLF |
| `HttpDrain.FirstLineSnoc` | cmd/mxtr-server/main.go:626-632 | the capture is the first line without carriage returns, cut at 256 bytes, after every byte |
| `HttpDrain.Drain` | cmd/mxtr-server/main.go:615-669 | stops at the first blank line and never earlier, or else at the end of the connection or 8192 bytes; reads nothing beyond; returns the first line of what it saw |
| `HttpDrain.StopsOnce` | cmd/mxtr-server/main.go:615-669 | that determines the place: there is no second one |
| `Heartbeat.DerivedRanges` | cmd/mxtr-server/psk_config.go:50-57 | for every key, sleeps of 20 to 70.5 s, quiet time 10 to 22.75 s, padding 32 to 4095 bytes, also when min exceeds max |
| `Heartbeat.DerivedFrom` | cmd/mxtr-server/psk_config.go:50-57 | which of the sixteen derived bytes decides which setting, and how |
| `Heartbeat.PingFits` | cmd/mxtr-server/session_v2.go:209-219 | whatever the settings, the clamps keep a PING within one frame |
| `Heartbeat.HeartbeatBeatsReaper` | cmd/mxtr-server/session_v2.go:221-243 | in every run, writes are less than 93.25 s apart plus the heartbeat's lateness, and while that is at most 206.75 s no reaper tick finds the session old |
| `Heartbeat.NeverReapedExactly` | cmd/mxtr-server/session_v2.go:137-153 | for every configuration: a session with a live heartbeat is never reaped if and only if the longest silence, from quiet time, longest sleep and lateness, fits the idle timeout (or neither sleep nor lateness lets time pass at all) |
| `Heartbeat.ReceivingKeepsAlive` | cmd/mxtr-server/session_v2.go:137-158 | a frame from the client keeps its session from the reaper for five minutes, heartbeat or not |

## Left out

- TLS, certificates, camouflage pages, flags, logging and files; dialling, target parsing, the allowlist and socket deadlines. An upstream is a sink that accepts or errors and a source of bytes.
- The insides of ChaCha20-Poly1305, HMAC and HKDF: functions with a round trip.
- FrameBuffers.FrameWriter.WriteStreamFrame: assumes that the system random source works. `WriteFrame` has the failure, after which the server has used up a sequence number and the client rejects what follows.
- The heartbeat's PING and the goroutine that answers a PING may write at any time; their timing is `Heartbeat`'s, the jitter of the answer is left out.
- The capacity of a wire is a number of whole frames. A writer that has put down part of its frame holds `writeMu`, so nobody else gets through either; which waiting writer is next is arbitrary.
- FrameTypes.ClientReadsIt: an OPEN_OK or WINDOW_UPDATE with fewer than four bytes, which this server never sends, reads as no frame; the client would take such an OPEN_OK as one without flow control.
- Older servers that send an empty OPEN_OK, and older clients that ignore the window; the former is the case without flow control of `ClientStream.Stream.AcquireWindow`, the latter is covered by what holds for any peer.
- `sync.Map.Range` in `closeAll` visits every entry that was present when it began unless it was removed first, and may or may not visit later ones; the order is arbitrary.
- The download machine follows one stream and lets closes and other frames come from anywhere. It is not composed with the session machine, which moves DATA to the client without a bounded channel; so the liveness results assume that each stream's reader drains `incoming`.
- Liveness is a measure and a statement about states where nothing can move; that a scheduler keeps scheduling is not modelled.
- The client's `session.close` and the 15 s timeout of `open` are moves of the environment; the client's own teardown is `SendWindow`'s closer.
- Server.Session.OnData: runs without another goroutine between lookup and lock; `Server.Session.AddChunk` is the part from the lock on, and the interleavings are the step machine's.
- PumpLoop.Pump.Run: ends where the goroutine calls `closeStream`, which is `Server.Session.CloseStream`, and nothing else runs meanwhile; interleavings are the step machine's.
- ClientStream.Stream.AcquireWindow: the events that arrive during the wait are given as a list; interleavings are `SendWindow`'s.
- Heartbeat.HeartbeatBeatsReaper: assumes that writes succeed; a slow write counts as lateness of the heartbeat.
- HttpDrain.Drain: stops before the request path is split out of the first line, which depends on Unicode white space.
- SOCKS5, the one-shot HTTP modes, share-string parsing beyond base 58, host name validation: single-branch checks around library parsers.
