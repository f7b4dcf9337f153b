/**
 The pooled buffers of writeFrame. Buffers are handed out with whatever the last frame left in them;
 the frame that comes out depends on none of it.
 */
module FrameBuffers {
  import opened Bytes
  import opened Limits
  import opened Codec
  import BigEndian
  import Wire

  /** Pools of idle buffers, one for each of a fixed set of sizes. */
  class Pools {
    const sizes: set<nat>
    var free: map<nat, seq<array<byte>>>

    /** Every idle buffer has its pool's size and lies in its pool once. */
    ghost predicate Valid()
      reads this
    {
      && free.Keys == sizes
      && (forall size <- free, i | 0 <= i < |free[size]| :: free[size][i].Length == size)
      && (forall size <- free, i, j | 0 <= i < j < |free[size]| :: free[size][i] != free[size][j])
    }

    ghost function Idle(): set<array<byte>>
      reads this
    {
      set size <- free, buf <- free[size] :: buf
    }

    constructor (sizes: set<nat>)
      ensures Valid() && this.sizes == sizes && Idle() == {}
    {
      this.sizes := sizes;
      free := map size <- sizes :: [];
    }

    /** A buffer of exactly this size, which no other holder has. */
    method Take(size: nat) returns (buf: array<byte>)
      requires Valid()
      modifies this
      ensures Valid() && buf.Length == size
      ensures fresh(buf) || buf in old(Idle())
      ensures Idle() == old(Idle()) - {buf}
    {
      if size in free && free[size] != [] {
        var idle := free[size];
        buf := idle[|idle| - 1];
        free := free[size := idle[..|idle| - 1]];
        assert idle == old(free)[size] && buf in idle;
        assert buf in old(Idle());
        forall b <- old(Idle()) - {buf} ensures b in Idle() {
          var n :| n in old(free) && b in old(free)[n];
          assert n in free && b in free[n];
        }
        forall b <- Idle() ensures b in old(Idle()) && b != buf {
          var n :| n in free && b in free[n];
          assert n in old(free) && b in old(free)[n];
        }
      } else {
        buf := new byte[size];
      }
    }

    /** A buffer that is done with goes back to the pool of its size; without one it is dropped. */
    method Put(buf: array<byte>)
      requires Valid() && buf !in Idle()
      modifies this
      ensures Valid()
      ensures Idle() == old(Idle()) + if buf.Length in sizes then {buf} else {}
    {
      if buf.Length in free {
        assert forall b <- free[buf.Length] :: b in Idle();
        free := free[buf.Length := free[buf.Length] + [buf]];
        assert buf in free[buf.Length];
        forall b <- old(Idle()) ensures b in Idle() {
          var n :| n in old(free) && b in old(free)[n];
          assert n in free && b in free[n];
        }
      }
    }
  }

  method CopyInto(dst: array<byte>, at: nat, src: seq<byte>)
    requires at + |src| <= dst.Length
    modifies dst
    ensures dst[..] == old(dst[..at]) + src + old(dst[at + |src|..])
  {
    for i := 0 to |src|
      invariant dst[..at] == old(dst[..at])
      invariant dst[at..at + i] == src[..i]
      invariant dst[at + i..] == old(dst[at + i..])
    {
      dst[at + i] := src[i];
    }
    assert dst[..] == dst[..at] + dst[at..at + |src|] + dst[at + |src|..];
  }

  /**
   The buffer part of writeFrame: length, plaintext and padding cover every byte of the inner buffer,
   and the ciphertext fills its own buffer exactly, so the result is the same whatever was in them.
   */
  method SealInto(inner: array<byte>, ct: array<byte>, a: Aead, n: nat, pt: seq<byte>, random: seq<byte>)
    requires inner.Length == 2 + |pt| + |random| && ct.Length == inner.Length + TAG
    requires Sound(a)
    modifies inner, ct
    ensures inner[..] == Inner(pt, random)
    ensures ct[..] == Sealed(a, n, Inner(pt, random))
  {
    hide Sound;
    CopyInto(inner, 0, BigEndian.Put(|pt|, 2));
    CopyInto(inner, 2, pt);
    CopyInto(inner, 2 + |pt|, random);
    assert inner[..] == Inner(pt, random);
    SoundAt(a, FrameNonce(n), inner[..]);
    CopyInto(ct, 0, Sealed(a, n, inner[..]));
  }

  /** The sending side of a connection that takes `room` more bytes and then nothing. */
  class Outlet {
    var sent: seq<byte>
    var room: nat

    constructor (room: nat)
      ensures sent == [] && this.room == room
    {
      sent, this.room := [], room;
    }

    method Write(data: seq<byte>) returns (ok: bool)
      modifies this
      ensures var k := Accepts(old(room), |data|);
              sent == old(sent) + data[..k] && room == old(room) - k && (ok <==> k == |data|)
    {
      var k := Accepts(room, |data|);
      sent, room := sent + data[..k], room - k;
      ok := k == |data|;
    }
  }

  function Accepts(room: nat, n: nat): nat {
    if room < n then room else n
  }

  /** The wire machine's steps for one critical section on a connection with this much room. */
  function Section(a: Aead, end: Wire.End, l: Wire.Line, job: Job, room: nat): (run: seq<Wire.Step>)
  {
    var h := Wire.Holder(job, l.next, false);
    [Wire.Lock(job), Wire.WriteLength(Accepts(room, 2))]
    + if room < 2 then [] else [Wire.WriteBody(Accepts(room - 2, |Wire.Body(a, h)|))]
  }

  /** What the peer's read loop makes of the line is its log, before and after a critical section. */
  lemma SectionArrives(a: Aead, end: Wire.End, l: Wire.Line, job: Job, room: nat)
    requires Sound(a) && Wire.LineOk(a, end, l) && JobOk(job) && l.holder.None? && (l.broken ==> room == 0)
    ensures Wire.Legal(a, end, l, Section(a, end, l, job, room))
    ensures var l' := Wire.After(a, end, l, Section(a, end, l, job, room));
            && Wire.LineOk(a, end, l')
            && Received(a, 1, l.bytes) == Wire.Messages(l.log)
            && Received(a, 1, l'.bytes) == Wire.Messages(l'.log)
            && Wire.Messages(l.log + [job]) == Wire.Messages(l.log) + [job.msg]
  {
    hide Sound, JobOk, Wire.LineOk, Received, Wire.Legal, Wire.After, Section, Wire.Frames, Wire.AllOk;
    var run := Section(a, end, l, job, room);
    SectionDoes(a, end, l, job, room);
    Wire.RunKeepsOk(a, end, l, run);
    var l' := Wire.After(a, end, l, run);
    var tail := Wire.LineShape(a, end, l);
    Wire.ReceiveFrames(a, 1, l.log, tail);
    tail := Wire.LineShape(a, end, l');
    Wire.ReceiveFrames(a, 1, l'.log, tail);
  }

  /** What a critical section does: it is legal, appends as much of the frame as fits, and logs it if all did. */
  lemma SectionDoes(a: Aead, end: Wire.End, l: Wire.Line, job: Job, room: nat)
    requires Sound(a) && JobOk(job) && l.holder.None? && (l.broken ==> room == 0)
    ensures Wire.Legal(a, end, l, Section(a, end, l, job, room))
    ensures var l' := Wire.After(a, end, l, Section(a, end, l, job, room));
            var frame := Wire.FrameOf(a, l.next, job);
            var k := Accepts(room, |frame|);
            && l'.bytes == l.bytes + frame[..k] && l'.holder.None?
            && (k < |frame| ==> l'.broken && l'.log == l.log && k == room)
            && (k == |frame| ==> l'.broken == l.broken && l'.log == l.log + [job])
            && l'.next == if end.Server? || k == |frame| then l.next + 1 else l.next
  {
    hide Sound, JobOk, Wire.FrameOf, Wire.Legal, Wire.After;
    var h := Wire.Holder(job, l.next, false);
    Wire.BodyIs(a, h);
    var field, body := Wire.LengthField(a, h), Wire.Body(a, h);
    var run := Section(a, end, l, job, room);
    hide Wire.Body, Wire.LengthField, Enveloped;
    if room < 2 {
      assert run == [run[0], run[1]];
      RunTwo(a, end, l, run[0], run[1]);
      assert (field + body)[..room] == field[..room];
    } else {
      assert run == [run[0], run[1], run[2]];
      RunThree(a, end, l, run[0], run[1], run[2]);
      var k := Accepts(room - 2, |body|);
      assert field[..2] == field;
      assert (field + body)[..k + 2] == field + body[..k];
      Wire.Regroup(l.bytes, field, body[..k]);
    }
  }

  lemma RunTwo(a: Aead, end: Wire.End, l: Wire.Line, s: Wire.Step, t: Wire.Step)
    requires Wire.Can(a, l, s) && Wire.Can(a, Wire.Do(a, end, l, s), t)
    ensures Wire.Legal(a, end, l, [s, t])
    ensures Wire.After(a, end, l, [s, t]) == Wire.Do(a, end, Wire.Do(a, end, l, s), t)
  {
    hide Wire.Can, Wire.Do;
    var m := Wire.Do(a, end, Wire.Do(a, end, l, s), t);
    assert Wire.Legal(a, end, m, []) && Wire.After(a, end, m, []) == m;
    assert [s, t][1..] == [t] && [t][1..] == [];
  }

  lemma RunThree(a: Aead, end: Wire.End, l: Wire.Line, s: Wire.Step, t: Wire.Step, u: Wire.Step)
    requires Wire.Can(a, l, s) && Wire.Can(a, Wire.Do(a, end, l, s), t)
    requires Wire.Can(a, Wire.Do(a, end, Wire.Do(a, end, l, s), t), u)
    ensures Wire.Legal(a, end, l, [s, t, u])
    ensures Wire.After(a, end, l, [s, t, u]) == Wire.Do(a, end, Wire.Do(a, end, Wire.Do(a, end, l, s), t), u)
  {
    hide Wire.Can, Wire.Do;
    assert [s, t, u][1..] == [t, u];
    RunTwo(a, end, Wire.Do(a, end, l, s), t, u);
  }

  lemma FrameInParts(before: seq<byte>, ct: seq<byte>, room: nat)
    ensures var field := BigEndian.Put(|ct|, 2);
            var k := Accepts(room, |Enveloped(ct)|);
            && |Enveloped(ct)| == 2 + |ct|
            && (room < 2 ==> before + Enveloped(ct)[..k] == before + field[..room])
            && (room >= 2 ==> before + Enveloped(ct)[..k] == before + field[..2] + ct[..Accepts(room - 2, |ct|)])
  {
    var field := BigEndian.Put(|ct|, 2);
    if room >= 2 {
      var j := Accepts(room - 2, |ct|);
      assert Enveloped(ct)[..j + 2] == field + ct[..j];
    }
  }

  /** The length field, then the ciphertext, each as far as the connection takes it. */
  method SendFrame(conn: Outlet, ct: array<byte>) returns (ok: bool)
    modifies conn
    ensures var k := Accepts(old(conn.room), |Enveloped(ct[..])|);
            && conn.sent == old(conn.sent) + Enveloped(ct[..])[..k] && conn.room == old(conn.room) - k
            && (ok <==> k == |Enveloped(ct[..])|)
  {
    FrameInParts(conn.sent, ct[..], conn.room);
    ok := conn.Write(BigEndian.Put(ct.Length, 2));
    if ok {
      ok := conn.Write(ct[..]);
    }
  }

  /**
   A session's writing side. `line` is the state of the wire machine that it implements: one call of
   WriteStreamFrame is that machine's critical section from lock to release.
   */
  class FrameWriter {
    const aead: Aead
    const end: Wire.End
    const conn: Outlet
    const inners: Pools
    const cts: Pools
    var seqWrite: nat
    ghost var line: Wire.Line

    ghost predicate Valid()
      reads this, conn, inners, cts
    {
      && Sound(aead) && inners != cts && inners.Valid() && cts.Valid()
      && line.bytes == conn.sent && line.next == seqWrite && line.holder.None?
      && (line.broken ==> conn.room == 0) && Wire.LineOk(aead, end, line)
    }

    constructor (aead: Aead, end: Wire.End, conn: Outlet, inners: Pools, cts: Pools)
      requires Sound(aead) && conn.sent == [] && inners != cts && inners.Valid() && cts.Valid()
      ensures Valid() && line == Wire.BEGIN && this.conn == conn && this.aead == aead && this.end == end
      ensures this.inners == inners && this.cts == cts
    {
      this.aead, this.end, this.conn, this.inners, this.cts := aead, end, conn, inners, cts;
      seqWrite, line := 1, Wire.BEGIN;
      Wire.BeginOk(aead, end);
    }

    /**
     writeFrame: a plaintext that is too large, or a random source that fails, changes nothing; otherwise
     frame number n goes out, as far as the connection takes it, and success means that it took all of it.
     */
    method WriteFrame(n: nat, pt: seq<byte>, draw: nat, padding: Option<seq<byte>>) returns (ok: bool)
      requires Sound(aead) && inners != cts && inners.Valid() && cts.Valid()
      requires |pt| <= MAX_PLAINTEXT && padding.Some? ==> 2 + |pt| + |padding.value| == RungFor(pt, draw)
      modifies conn, inners, cts, inners.Idle(), cts.Idle()
      ensures inners.Valid() && cts.Valid()
      ensures |pt| > MAX_PLAINTEXT || padding.None? ==> !ok && conn.sent == old(conn.sent) && conn.room == old(conn.room)
      ensures |pt| <= MAX_PLAINTEXT && padding.Some? ==>
                var frame := FrameBytes(aead, n, pt, padding.value);
                var k := Accepts(old(conn.room), |frame|);
                && conn.sent == old(conn.sent) + frame[..k] && conn.room == old(conn.room) - k
                && (ok <==> k == |frame|)
    {
      hide Sound, RungFor, Sealed, Inner, Enveloped, Accepts;
      if |pt| > MAX_PLAINTEXT {
        return false;
      }
      var innerSize := RungFor(pt, draw);
      var inner := inners.Take(innerSize);
      if padding.None? {
        inners.Put(inner);
        return false;
      }
      var ct := cts.Take(innerSize + TAG);
      SealInto(inner, ct, aead, n, pt, padding.value);
      ok := SendFrame(conn, ct);
      inners.Put(inner);
      cts.Put(ct);
    }

    /**
     writeStreamFrame, from lock to release: the wire machine's critical section, and for the peer one
     more message exactly when it reports success.
     */
    method WriteStreamFrame(m: Message, draw: nat, random: seq<byte>) returns (ok: bool)
      requires Valid() && (|m.payload| <= MAX_PAYLOAD ==> JobOk(Job(m, draw, random)))
      modifies this, conn, inners, cts, inners.Idle(), cts.Idle()
      ensures Valid()
      ensures |m.payload| > MAX_PAYLOAD ==> !ok && line == old(line) && conn.room == old(conn.room)
      ensures |m.payload| <= MAX_PAYLOAD ==>
                var run := Section(aead, end, old(line), Job(m, draw, random), old(conn.room));
                Wire.Legal(aead, end, old(line), run) && line == Wire.After(aead, end, old(line), run)
      ensures Received(aead, 1, conn.sent) == old(Received(aead, 1, conn.sent)) + if ok then [m] else []
    {
      hide Sound, JobOk, Received, Wire.LineOk, Section, Wire.Legal, Wire.After, Encode, FrameBytes, RungFor;
      ghost var job := Job(m, draw, random);
      if |m.payload| > MAX_PAYLOAD {
        return false;
      }
      SizeOfJob(job);
      SectionDoes(aead, end, line, job, conn.room);
      SectionArrives(aead, end, line, job, conn.room);
      if end.Server? {
        var n := seqWrite;
        seqWrite := seqWrite + 1;
        ok := WriteFrame(n, Encode(m), draw, Some(random));
      } else {
        ok := WriteFrame(seqWrite, Encode(m), draw, Some(random));
        if ok {
          seqWrite := seqWrite + 1;
        }
      }
      line := Wire.After(aead, end, line, Section(aead, end, line, job, old(conn.room)));
    }
  }

  lemma SizeOfJob(j: Job)
    requires JobOk(j)
    ensures |Encode(j.msg)| <= MAX_PLAINTEXT
    ensures 2 + |Encode(j.msg)| + |j.random| == RungFor(Encode(j.msg), j.draw)
  {
  }
}
