/**
 One direction of the wire: any number of goroutines call writeStreamFrame, the mutex writeMu lets one
 of them through at a time, and each frame goes out in two writes, the length and the ciphertext. A
 write may stop anywhere; after that the connection accepts nothing. The server takes its sequence
 number before the write, the client counts it after.
 */
module Wire {
  import opened Bytes
  import opened Codec

  /** The writer inside the mutex: its frame, the number it was given, and whether the length is out. */
  datatype Holder = Holder(job: Job, n: nat, lengthOut: bool)

  /** `log` is every job whose frame went out completely, in the order of their critical sections. */
  datatype Line = Line(bytes: seq<byte>, next: nat, holder: Option<Holder>, broken: bool, log: seq<Job>)

  const BEGIN := Line([], 1, None, false, [])

  datatype Step =
    | Lock(job: Job)
    | WriteLength(k: nat)
    | WriteBody(k: nat)

  datatype End = Server | Client

  function Body(a: Aead, h: Holder): seq<byte> {
    Sealed(a, h.n, Inner(Encode(h.job.msg), h.job.random))
  }

  function LengthField(a: Aead, h: Holder): seq<byte> {
    Enveloped(Body(a, h))[..2]
  }

  predicate Can(a: Aead, l: Line, s: Step) {
    match s
    case Lock(job) => l.holder.None? && JobOk(job)
    case WriteLength(k) =>
      l.holder.Some? && !l.holder.value.lengthOut && k <= 2 && (l.broken ==> k == 0)
    case WriteBody(k) =>
      l.holder.Some? && l.holder.value.lengthOut && k <= |Body(a, l.holder.value)| && (l.broken ==> k == 0)
  }

  function Do(a: Aead, end: End, l: Line, s: Step): Line
    requires Can(a, l, s)
  {
    match s
    case Lock(job) =>
      l.(holder := Some(Holder(job, l.next, false)), next := if end.Server? then l.next + 1 else l.next)
    case WriteLength(k) =>
      var h := l.holder.value;
      var out := l.(bytes := l.bytes + LengthField(a, h)[..k]);
      if k < 2 then out.(holder := None, broken := true) else out.(holder := Some(h.(lengthOut := true)))
    case WriteBody(k) =>
      var h := l.holder.value;
      var out := l.(bytes := l.bytes + Body(a, h)[..k], holder := None);
      if k < |Body(a, h)| then out.(broken := true)
      else out.(log := l.log + [h.job], next := if end.Server? then l.next else l.next + 1)
  }

  // ----- The reference: frames in order ------------------------------------------------------

  function FrameOf(a: Aead, n: nat, j: Job): seq<byte> {
    FrameBytes(a, n, Encode(j.msg), j.random)
  }

  /** Frames numbered n, n + 1, ... back to back. */
  function Frames(a: Aead, n: nat, log: seq<Job>): seq<byte>
    decreases |log|
  {
    if log == [] then [] else FrameOf(a, n, log[0]) + Frames(a, n + 1, log[1..])
  }

  function Messages(log: seq<Job>): seq<Message> {
    seq(|log|, k requires 0 <= k < |log| => log[k].msg)
  }

  predicate AllOk(log: seq<Job>) {
    forall j <- log :: JobOk(j)
  }

  /** A piece of frame number n that is not a whole frame. */
  ghost predicate Piece(a: Aead, n: nat, tail: seq<byte>) {
    tail == [] || exists j: Job :: JobOk(j) && tail < FrameOf(a, n, j)
  }

  lemma {:induction false} FramesSnoc(a: Aead, n: nat, log: seq<Job>, j: Job)
    ensures Frames(a, n, log + [j]) == Frames(a, n, log) + FrameOf(a, n + |log|, j)
    decreases |log|
  {
    if log == [] {
      assert Frames(a, n, [j]) == FrameOf(a, n, j) + Frames(a, n + 1, []);
    } else {
      assert (log + [j])[1..] == log[1..] + [j];
      FramesSnoc(a, n + 1, log[1..], j);
      assert FrameOf(a, n, log[0]) + (Frames(a, n + 1, log[1..]) + FrameOf(a, n + |log|, j))
          == (FrameOf(a, n, log[0]) + Frames(a, n + 1, log[1..])) + FrameOf(a, n + |log|, j);
    }
  }

  // ----- The invariant -----------------------------------------------------------------------

  /** Nothing has failed: whole frames in the order of the log, numbered from 1 without a gap. */
  predicate Flowing(a: Aead, end: End, l: Line) {
    && l.next == 1 + |l.log| + (if end.Server? && l.holder.Some? then 1 else 0)
    && (l.holder.Some? ==> l.holder.value.n == 1 + |l.log|)
    && l.bytes == Frames(a, 1, l.log)
                  + if l.holder.Some? && l.holder.value.lengthOut then LengthField(a, l.holder.value) else []
  }

  /** After a failure: whole frames, then at most a piece of the next, and nobody adds to them. */
  ghost predicate Stopped(a: Aead, l: Line) {
    && (l.holder.Some? ==> !l.holder.value.lengthOut)
    && Frames(a, 1, l.log) <= l.bytes && Piece(a, 1 + |l.log|, l.bytes[|Frames(a, 1, l.log)|..])
  }

  ghost predicate LineOk(a: Aead, end: End, l: Line) {
    && AllOk(l.log)
    && (l.holder.Some? ==> JobOk(l.holder.value.job))
    && if l.broken then Stopped(a, l) else Flowing(a, end, l)
  }

  lemma BodyIs(a: Aead, h: Holder)
    requires JobOk(h.job) && Sound(a)
    ensures FrameOf(a, h.n, h.job) == Enveloped(Body(a, h)) == LengthField(a, h) + Body(a, h)
    ensures |LengthField(a, h)| == 2 && 0 < |Body(a, h)|
  {
    JobFrame(a, h.n, h.job);
  }

  /** Stopping in the middle of a frame leaves a piece of it. */
  lemma BreaksOff(a: Aead, l: Line, h: Holder, tail: seq<byte>)
    requires JobOk(h.job) && h.n == 1 + |l.log| && tail < FrameOf(a, h.n, h.job)
    requires l.broken && l.holder.None? && AllOk(l.log) && l.bytes == Frames(a, 1, l.log) + tail
    ensures LineOk(a, Server, l) && LineOk(a, Client, l)
  {
    assert l.bytes[|Frames(a, 1, l.log)|..] == tail;
  }

  lemma LengthBreaksOff(a: Aead, end: End, l: Line, k: nat)
    requires Sound(a) && LineOk(a, end, l) && Can(a, l, WriteLength(k)) && !l.broken && k < 2
    ensures LineOk(a, end, Do(a, end, l, WriteLength(k)))
  {
    var h := l.holder.value;
    BodyIs(a, h);
    hide Sound, JobOk, FrameOf, Body, Frames, LengthField, Stopped, AllOk;
    var field, done := LengthField(a, h), Frames(a, 1, l.log);
    assert done + [] == done;
    assert field[..k] < FrameOf(a, h.n, h.job);
    BreaksOff(a, Do(a, end, l, WriteLength(k)), h, field[..k]);
  }

  lemma LengthCompletes(a: Aead, end: End, l: Line)
    requires Sound(a) && LineOk(a, end, l) && Can(a, l, WriteLength(2)) && !l.broken
    ensures LineOk(a, end, Do(a, end, l, WriteLength(2)))
  {
    BodyIs(a, l.holder.value);
    hide Sound, JobOk, FrameOf, Body, Frames, LengthField, Stopped, AllOk;
    var field, done := LengthField(a, l.holder.value), Frames(a, 1, l.log);
    assert done + [] == done && field[..2] == field;
  }

  /** On a broken connection a write takes nothing. */
  lemma WritesNothing(a: Aead, end: End, l: Line, s: Step)
    requires LineOk(a, end, l) && Can(a, l, s) && l.broken && !s.Lock?
    ensures LineOk(a, end, Do(a, end, l, s))
  {
    hide JobOk, Body, Frames, LengthField, AllOk, Piece, Flowing;
    assert s.WriteLength? && s.k == 0;
    var field := LengthField(a, l.holder.value);
    assert l.bytes + field[..0] == l.bytes;
  }

  lemma BodyBreaksOff(a: Aead, end: End, l: Line, k: nat)
    requires Sound(a) && LineOk(a, end, l) && Can(a, l, WriteBody(k)) && !l.broken
    requires l.holder.Some? && k < |Body(a, l.holder.value)|
    ensures LineOk(a, end, Do(a, end, l, WriteBody(k)))
  {
    var h := l.holder.value;
    BodyIs(a, h);
    hide Sound, JobOk, FrameOf, Body, Frames, LengthField, Stopped, AllOk;
    var field, body, done := LengthField(a, h), Body(a, h), Frames(a, 1, l.log);
    Regroup(done, field, body[..k]);
    ProperPart(field, body, k);
    BreaksOff(a, Do(a, end, l, WriteBody(k)), h, field + body[..k]);
  }

  lemma BodyEffect(a: Aead, end: End, l: Line, k: nat)
    requires Can(a, l, WriteBody(k)) && l.holder.Some? && k == |Body(a, l.holder.value)|
    ensures var l', h := Do(a, end, l, WriteBody(k)), l.holder.value;
            && l'.holder.None? && l'.broken == l.broken && l'.log == l.log + [h.job]
            && l'.next == (if end.Server? then l.next else l.next + 1)
            && l'.bytes == l.bytes + Body(a, h)
  {
    hide Body;
    var body := Body(a, l.holder.value);
    assert body[..k] == body;
  }

  lemma BodyCompletes(a: Aead, end: End, l: Line, k: nat)
    requires Sound(a) && LineOk(a, end, l) && Can(a, l, WriteBody(k)) && !l.broken
    requires l.holder.Some? && k == |Body(a, l.holder.value)|
    ensures LineOk(a, end, Do(a, end, l, WriteBody(k)))
  {
    hide Sound, JobOk, FrameOf, Body, Frames, LengthField, Stopped, AllOk, Do;
    var h := l.holder.value;
    BodyIs(a, h);
    FramesSnoc(a, 1, l.log, h.job);
    BodyEffect(a, end, l, k);
    Regroup(Frames(a, 1, l.log), LengthField(a, h), Body(a, h));
    Complete(a, end, l, Do(a, end, l, WriteBody(k)));
  }

  lemma Complete(a: Aead, end: End, l: Line, l': Line)
    requires LineOk(a, end, l) && !l.broken && l.holder.Some?
    requires l'.holder.None? && !l'.broken && l'.log == l.log + [l.holder.value.job]
    requires l'.next == 1 + |l'.log| && l'.bytes == Frames(a, 1, l'.log)
    ensures LineOk(a, end, l')
  {
    hide JobOk, Frames, LengthField, Stopped;
    assert l'.bytes + [] == l'.bytes;
  }

  lemma Regroup(done: seq<byte>, field: seq<byte>, part: seq<byte>)
    ensures (done + field) + part == done + (field + part)
  {
  }

  lemma ProperPart(field: seq<byte>, body: seq<byte>, k: nat)
    requires k < |body|
    ensures field + body[..k] < field + body
  {
  }

  lemma LockKeepsOk(a: Aead, end: End, l: Line, job: Job)
    requires LineOk(a, end, l) && Can(a, l, Lock(job))
    ensures LineOk(a, end, Do(a, end, l, Lock(job)))
  {
    hide JobOk, Frames, LengthField, Piece;
  }

  lemma StepKeepsOk(a: Aead, end: End, l: Line, s: Step)
    requires Sound(a) && LineOk(a, end, l) && Can(a, l, s)
    ensures LineOk(a, end, Do(a, end, l, s))
  {
    hide Sound, LineOk, Do, Body;
    match s
    case Lock(job) => LockKeepsOk(a, end, l, job);
    case WriteLength(k) =>
      if l.broken {
        WritesNothing(a, end, l, s);
      } else if k < 2 {
        LengthBreaksOff(a, end, l, k);
      } else {
        LengthCompletes(a, end, l);
      }
    case WriteBody(k) =>
      if l.broken {
        WritesNothing(a, end, l, s);
      } else if k < |Body(a, l.holder.value)| {
        BodyBreaksOff(a, end, l, k);
      } else {
        BodyCompletes(a, end, l, k);
      }
  }

  predicate Legal(a: Aead, end: End, l: Line, run: seq<Step>)
    decreases |run|
  {
    run == [] || (Can(a, l, run[0]) && Legal(a, end, Do(a, end, l, run[0]), run[1..]))
  }

  function After(a: Aead, end: End, l: Line, run: seq<Step>): Line
    requires Legal(a, end, l, run)
    decreases |run|
  {
    if run == [] then l else After(a, end, Do(a, end, l, run[0]), run[1..])
  }

  lemma {:induction false} RunKeepsOk(a: Aead, end: End, l: Line, run: seq<Step>)
    requires Sound(a) && LineOk(a, end, l) && Legal(a, end, l, run)
    ensures LineOk(a, end, After(a, end, l, run))
    decreases |run|
  {
    hide Sound, LineOk, Can, Do;
    if run != [] {
      StepKeepsOk(a, end, l, run[0]);
      RunKeepsOk(a, end, Do(a, end, l, run[0]), run[1..]);
    }
  }

  // ----- What the reader gets ----------------------------------------------------------------

  lemma ReceiveFirst(a: Aead, n: nat, j: Job, rest: seq<byte>)
    requires Sound(a) && JobOk(j)
    ensures Received(a, n, FrameOf(a, n, j) + rest) == [j.msg] + Received(a, n + 1, rest)
  {
    hide Sound;
    var ct := Sealed(a, n, Inner(Encode(j.msg), j.random));
    JobFrame(a, n, j);
    ReadEnveloped(a, n, ct, rest);
    DecodeEncode(j.msg);
    hide JobOk, ReadOne, Decode, OpenFrame, Enveloped, Encode, Inner, Sealed;
  }

  lemma ReceivePiece(a: Aead, n: nat, tail: seq<byte>)
    requires Sound(a) && Piece(a, n, tail)
    ensures Received(a, n, tail) == []
  {
    hide Sound;
    if tail != [] {
      var j: Job :| JobOk(j) && tail < FrameOf(a, n, j);
      JobFrame(a, n, j);
      ReadTruncated(a, n, Sealed(a, n, Inner(Encode(j.msg), j.random)), |tail|);
      assert FrameOf(a, n, j)[..|tail|] == tail;
    }
  }

  lemma {:induction false} ReceiveFrames(a: Aead, n: nat, log: seq<Job>, tail: seq<byte>)
    requires Sound(a) && AllOk(log) && Piece(a, n + |log|, tail)
    ensures Received(a, n, Frames(a, n, log) + tail) == Messages(log)
    decreases |log|
  {
    hide Sound, Received, JobOk, FrameOf, Piece;
    if log == [] {
      ReceivePiece(a, n, tail);
      assert [] + tail == tail;
    } else {
      var rest := Frames(a, n + 1, log[1..]) + tail;
      assert Frames(a, n, log) + tail == FrameOf(a, n, log[0]) + rest;
      ReceiveFirst(a, n, log[0], rest);
      ReceiveFrames(a, n + 1, log[1..], tail);
    }
  }

  /** A cut inside the frames leaves some of them whole and a piece of the next. */
  lemma {:induction false} CutFrames(a: Aead, n: nat, log: seq<Job>, k: nat)
    requires AllOk(log) && k <= |Frames(a, n, log)|
    ensures exists i: nat :: i <= |log| && CutAt(a, n, log, k, i)
    decreases |log|
  {
    hide JobOk, FrameOf;
    if log == [] {
      assert CutAt(a, n, log, k, 0);
    } else if k < |FrameOf(a, n, log[0])| {
      assert Frames(a, n, log)[..k] == FrameOf(a, n, log[0])[..k];
      assert FrameOf(a, n, log[0])[..k] < FrameOf(a, n, log[0]);
      assert CutAt(a, n, log, k, 0);
    } else {
      var first := FrameOf(a, n, log[0]);
      CutFrames(a, n + 1, log[1..], k - |first|);
      var i: nat :| i <= |log[1..]| && CutAt(a, n + 1, log[1..], k - |first|, i);
      assert Frames(a, n, log)[..k] == first + Frames(a, n + 1, log[1..])[..k - |first|];
      assert log[..i + 1][1..] == log[1..][..i];
      assert Frames(a, n, log[..i + 1]) == first + Frames(a, n + 1, log[1..][..i]);
      var tail := Frames(a, n, log)[..k][|Frames(a, n, log[..i + 1])|..];
      assert tail == Frames(a, n + 1, log[1..])[..k - |first|][|Frames(a, n + 1, log[1..][..i])|..];
      assert CutAt(a, n, log, k, i + 1);
    }
  }

  ghost predicate CutAt(a: Aead, n: nat, log: seq<Job>, k: nat, i: nat)
    requires k <= |Frames(a, n, log)| && i <= |log|
  {
    && Frames(a, n, log[..i]) <= Frames(a, n, log)[..k]
    && Piece(a, n + i, Frames(a, n, log)[..k][|Frames(a, n, log[..i])|..])
  }

  lemma BeginOk(a: Aead, end: End)
    ensures LineOk(a, end, BEGIN)
  {
  }

  lemma PieceOfPiece(a: Aead, n: nat, tail: seq<byte>, k: nat)
    requires Piece(a, n, tail) && k <= |tail|
    ensures Piece(a, n, tail[..k])
  {
    if tail != [] {
      hide FrameOf, JobOk;
      var j: Job :| JobOk(j) && tail < FrameOf(a, n, j);
      assert tail[..k] < FrameOf(a, n, j);
    }
  }

  /** A line's bytes are its log's frames followed by a piece. */
  lemma LineShape(a: Aead, end: End, l: Line) returns (tail: seq<byte>)
    requires Sound(a) && LineOk(a, end, l)
    ensures l.bytes == Frames(a, 1, l.log) + tail && Piece(a, 1 + |l.log|, tail) && AllOk(l.log)
    ensures !l.broken && l.holder.None? ==> tail == []
  {
    tail := l.bytes[|Frames(a, 1, l.log)|..];
    if !l.broken && l.holder.Some? && l.holder.value.lengthOut {
      var h := l.holder.value;
      BodyIs(a, h);
      hide Sound, JobOk, FrameOf, Body, LengthField, Frames;
      assert tail == LengthField(a, h);
      assert tail < FrameOf(a, h.n, h.job);
    }
  }

  /** However far the reader has got, cut anywhere, it holds a prefix of the messages in wire order. */
  lemma ReceiveCut(a: Aead, log: seq<Job>, tail: seq<byte>, k: nat)
    requires Sound(a) && AllOk(log) && Piece(a, 1 + |log|, tail) && k <= |Frames(a, 1, log) + tail|
    ensures Received(a, 1, (Frames(a, 1, log) + tail)[..k]) <= Messages(log)
  {
    hide Sound, Received, FrameOf, Piece, JobOk, Frames;
    var done := Frames(a, 1, log);
    if k <= |done| {
      CutFrames(a, 1, log, k);
      var i: nat :| i <= |log| && CutAt(a, 1, log, k, i);
      var piece := done[..k][|Frames(a, 1, log[..i])|..];
      assert (done + tail)[..k] == Frames(a, 1, log[..i]) + piece;
      ReceiveFrames(a, 1, log[..i], piece);
    } else {
      assert (done + tail)[..k] == done + tail[..k - |done|];
      PieceOfPiece(a, 1 + |log|, tail, k - |done|);
      ReceiveFrames(a, 1, log, tail[..k - |done|]);
    }
  }

  /**
   The wire with concurrent writers. In every run, whatever the order of the callers, the padding and
   the point of a failure: the frames on the wire are exactly the log, in the order the mutex was
   held, sealed with 1, 2, 3, ...; and the reader's loop recovers from any prefix of the bytes a prefix
   of their (id, type, payload) sequence, and all of it once nobody is writing and nothing has failed.
   */
  lemma WireRoundTrip(a: Aead, end: End, run: seq<Step>, k: nat)
    requires Sound(a) && Legal(a, end, BEGIN, run) && k <= |After(a, end, BEGIN, run).bytes|
    ensures var l := After(a, end, BEGIN, run);
            && Frames(a, 1, l.log) <= l.bytes
            && Received(a, 1, l.bytes[..k]) <= Messages(l.log)
            && Received(a, 1, l.bytes) == Messages(l.log)
            && (!l.broken && l.holder.None? ==> l.bytes == Frames(a, 1, l.log) && l.next == 1 + |l.log|)
  {
    hide Sound, Received, Piece, Frames, Legal, After, JobOk;
    BeginOk(a, end);
    RunKeepsOk(a, end, BEGIN, run);
    var l := After(a, end, BEGIN, run);
    var tail := LineShape(a, end, l);
    ReceiveCut(a, l.log, tail, k);
    ReceiveFrames(a, 1, l.log, tail);
  }
}
