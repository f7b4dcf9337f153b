/**
 Heartbeat against reaper. The server sends a PING when it has written nothing for a while; a reaper
 closes sessions without activity for five minutes. Time is an integer number of nanoseconds.
 */
module Heartbeat {
  import opened Bytes
  import opened Limits
  import BigEndian

  const MS := 1_000_000
  const IDLE_TIMEOUT := 300_000 * MS

  /** The five heartbeat settings of a deployment, in milliseconds and bytes. */
  datatype Config = Config(minMs: nat, maxMs: nat, padMin: nat, padMax: nat, idleMs: nat)

  /** derivePskConfig on the sixteen bytes that HKDF gives for the key. */
  function Derive(out: seq<byte>): Config
    requires |out| == 16
  {
    Config(20_000 + out[2] as nat * 100, 45_000 + out[3] as nat * 100,
           32 + out[4] as nat, 512 + BigEndian.Get(out[5..7]) % 3584,
           10_000 + out[8] as nat * 50)
  }

  function Minus(a: nat, b: nat): nat {
    if a < b then 0 else a - b
  }

  /** The longest sleep between two looks at the clock: a range that is negative counts as empty. */
  function LongestSleep(c: Config): nat {
    (c.minMs + Minus(c.maxMs, c.minMs)) * MS
  }

  function Quiet(c: Config): nat {
    c.idleMs * MS
  }

  predicate Sleep(c: Config, j: nat) {
    c.minMs * MS <= j <= LongestSleep(c)
  }

  /** The padding of a PING: a smallest size and how many bytes it may have more, both capped. */
  function PadBounds(c: Config): (nat, nat) {
    var padMin := if c.padMin > MAX_PAYLOAD then MAX_PAYLOAD else c.padMin;
    var padRange := Minus(c.padMax, c.padMin);
    (padMin, if padMin + padRange > MAX_PAYLOAD then MAX_PAYLOAD - padMin else padRange)
  }

  /** Which of the sixteen bytes decides what. */
  lemma DerivedFrom(out: seq<byte>)
    requires |out| == 16
    ensures var c := Derive(out);
            && c.minMs == 20_000 + 100 * out[2] as nat && c.maxMs == 45_000 + 100 * out[3] as nat
            && c.padMin == 32 + out[4] as nat
            && c.padMax == 512 + (out[5] as nat * 0x100 + out[6] as nat) % 3584
            && c.idleMs == 10_000 + 50 * out[8] as nat
  {
    BigEndian.GetTwo(out[5..7]);
  }

  /** For every key: sleeps between 20 and 70.5 s, quiet time from 10 to 22.75 s, padding 32 to 4095. */
  lemma DerivedRanges(out: seq<byte>)
    requires |out| == 16
    ensures var c := Derive(out);
            && 20_000 <= c.minMs <= 45_500 && 45_000 <= c.maxMs <= 70_500
            && LongestSleep(c) == (if c.minMs > c.maxMs then c.minMs else c.maxMs) * MS <= 70_500 * MS
            && 10_000 * MS <= Quiet(c) <= 22_750 * MS
            && (forall j: nat :: Sleep(c, j) ==> 20_000 * MS <= j <= 70_500 * MS)
            && 32 <= PadBounds(c).0 && PadBounds(c).0 + PadBounds(c).1 <= 4095
  {
  }

  /** Whatever the settings, a PING fits a frame. */
  lemma PingFits(c: Config, draw: nat)
    requires draw <= PadBounds(c).1
    ensures PadBounds(c).0 + draw <= MAX_PAYLOAD
    ensures c.padMin <= c.padMax <= MAX_PAYLOAD ==> c.padMin <= PadBounds(c).0 + draw <= c.padMax
    ensures c.padMin <= c.padMax <= MAX_PAYLOAD ==> PadBounds(c).0 == c.padMin && PadBounds(c).0 + PadBounds(c).1 == c.padMax
  {
  }

  // ----- The clocks --------------------------------------------------------------------------

  datatype Clock = Clock(now: nat, lastWrite: nat, lastActivity: nat, wake: nat, reaped: bool)

  datatype Step =
    | Pass(d: nat)           // time passes
    | Beat(j: nat)           // the heartbeat wakes, sends a PING if it must, and sleeps again for j
    | Send                   // another frame to the client
    | Receive                // a frame from the client
    | Reap(at: nat)          // the reaper looks, with the time of its tick

  function Begin(start: nat, j: nat): Clock {
    Clock(start, start, start, start + j, false)
  }

  /** The heartbeat may be up to `late` behind its timer, PING included; nothing else is assumed on time. */
  predicate Can(c: Config, late: nat, k: Clock, s: Step) {
    match s
    case Pass(d) => k.now + d <= k.wake + late
    case Beat(j) => k.wake <= k.now && Sleep(c, j)
    case Send => true
    case Receive => true
    case Reap(at) => at <= k.now
  }

  function Do(c: Config, k: Clock, s: Step): Clock {
    match s
    case Pass(d) => k.(now := k.now + d)
    case Beat(j) =>
      if k.now - k.lastWrite < Quiet(c) then k.(wake := k.now + j)
      else k.(wake := k.now + j, lastWrite := k.now, lastActivity := k.now)
    case Send => k.(lastWrite := k.now, lastActivity := k.now)
    case Receive => k.(lastActivity := k.now)
    case Reap(at) => k.(reaped := k.reaped || k.lastActivity < at - IDLE_TIMEOUT)
  }

  predicate Legal(c: Config, late: nat, k: Clock, run: seq<Step>)
    decreases |run|
  {
    run == [] || (Can(c, late, k, run[0]) && Legal(c, late, Do(c, k, run[0]), run[1..]))
  }

  function After(c: Config, k: Clock, run: seq<Step>): Clock
    decreases |run|
  {
    if run == [] then k else After(c, Do(c, k, run[0]), run[1..])
  }

  /** The longest that the server is ever silent. */
  function LongestGap(c: Config, late: nat): nat {
    Minus(Quiet(c), 1) + LongestSleep(c) + late
  }

  predicate ClockOk(c: Config, late: nat, k: Clock) {
    && k.lastWrite <= k.lastActivity <= k.now <= k.wake + late
    && k.wake - k.lastWrite <= Minus(Quiet(c), 1) + LongestSleep(c)
  }

  lemma {:induction false} RunKeepsOk(c: Config, late: nat, k: Clock, run: seq<Step>)
    requires ClockOk(c, late, k) && Legal(c, late, k, run)
    ensures ClockOk(c, late, After(c, k, run))
    ensures LongestGap(c, late) <= IDLE_TIMEOUT && !k.reaped ==> !After(c, k, run).reaped
    decreases |run|
  {
    if run != [] {
      RunKeepsOk(c, late, Do(c, k, run[0]), run[1..]);
    }
  }

  /**
   In every run of every deployment, server writes are less than 93.25 s apart, plus whatever the
   heartbeat is late; and as long as that is at most 206.75 s no tick of the reaper finds the session old.
   */
  lemma HeartbeatBeatsReaper(out: seq<byte>, late: nat, start: nat, j: nat, run: seq<Step>)
    requires |out| == 16 && Sleep(Derive(out), j) && Legal(Derive(out), late, Begin(start, j), run)
    ensures var k := After(Derive(out), Begin(start, j), run);
            && k.now - k.lastWrite < 93_250_000_000 + late
            && (late <= 206_750_000_000 ==> !k.reaped)
  {
    DerivedRanges(out);
    RunKeepsOk(Derive(out), late, Begin(start, j), run);
  }

  /** A frame from the client keeps its session for five minutes, heartbeat or not. */
  lemma {:induction false} ReceivingKeepsAlive(c: Config, late: nat, k: Clock, run: seq<Step>, since: nat)
    requires Legal(c, late, k, run) && !k.reaped && since <= k.now
    requires since <= k.lastActivity || (run != [] && run[0] == Receive)
    requires forall a <- run :: a.Reap? ==> a.at <= since + 300_000_000_000
    ensures !After(c, k, run).reaped
    decreases |run|
  {
    if run != [] {
      assert run[0] in run && forall a <- run[1..] :: a in run;
      ReceivingKeepsAlive(c, late, Do(c, k, run[0]), run[1..], since);
    }
  }

  ghost predicate NeverReaped(c: Config, late: nat) {
    forall start: nat, j: nat, run: seq<Step> ::
      Sleep(c, j) && Legal(c, late, Begin(start, j), run) ==> !After(c, Begin(start, j), run).reaped
  }

  lemma Steps(c: Config, late: nat, k: Clock, s: Step, rest: seq<Step>)
    requires Can(c, late, k, s) && Legal(c, late, Do(c, k, s), rest)
    ensures Legal(c, late, k, [s] + rest) && After(c, k, [s] + rest) == After(c, Do(c, k, s), rest)
  {
    assert ([s] + rest)[1..] == rest;
  }

  /** Heartbeats that are as late as can be and find that the server has written recently enough. */
  function Rounds(period: nat, sleep: nat, n: nat): seq<Step> {
    if n == 0 then [] else [Pass(period), Beat(sleep)] + Rounds(period, sleep, n - 1)
  }

  /** A clock whose heartbeat has just gone to sleep, `since` after the last write of anyone. */
  function Asleep(now: nat, since: nat, sleep: nat): Clock
    requires since <= now
  {
    Clock(now, now - since, now - since, now + sleep, false)
  }

  function Elapsed(period: nat, n: nat): nat {
    if n == 0 then 0 else period + Elapsed(period, n - 1)
  }

  lemma {:induction false} RoundsPass(c: Config, late: nat, now: nat, since: nat, n: nat, rest: seq<Step>)
    requires var p, m := LongestSleep(c) + late, LongestSleep(c);
             var e := Elapsed(p, n);
             && since <= now && (n == 0 || since + e < Quiet(c))
             && Legal(c, late, Asleep(now + e, since + e, m), rest)
    ensures var p, m := LongestSleep(c) + late, LongestSleep(c);
            var e := Elapsed(p, n);
            && Legal(c, late, Asleep(now, since, m), Rounds(p, m, n) + rest)
            && After(c, Asleep(now, since, m), Rounds(p, m, n) + rest) == After(c, Asleep(now + e, since + e, m), rest)
    decreases n
  {
    hide LongestSleep, Quiet, Legal, After;
    var p, m := LongestSleep(c) + late, LongestSleep(c);
    if n == 0 {
      assert [] + rest == rest;
    } else {
      var k := Asleep(now, since, m);
      var k1 := Do(c, k, Pass(p));
      SleepsLongest(c);
      assert Do(c, k1, Beat(m)) == Asleep(now + p, since + p, m);
      RoundsPass(c, late, now + p, since + p, n - 1, rest);
      var tail := Rounds(p, m, n - 1) + rest;
      Steps(c, late, k1, Beat(m), tail);
      Steps(c, late, k, Pass(p), [Beat(m)] + tail);
      assert Rounds(p, m, n) + rest == [Pass(p)] + ([Beat(m)] + tail);
    }
  }

  lemma SleepsLongest(c: Config)
    ensures Sleep(c, LongestSleep(c))
  {
  }

  /** Rounds and a remainder make up any time. */
  lemma {:induction false} Divided(q: nat, p: nat) returns (n: nat, r: nat)
    requires p > 0
    ensures q == Elapsed(p, n) + r && r < p
  {
    if q < p {
      n, r := 0, q;
    } else {
      n, r := Divided(q - p, p);
      n := n + 1;
    }
  }

  /** The worst run: the heartbeat looks just before the quiet time is over, and then sleeps its longest. */
  lemma WorstRun(c: Config, late: nat) returns (run: seq<Step>)
    requires LongestSleep(c) + late > 0
    ensures Legal(c, late, Begin(0, LongestSleep(c)), run)
    ensures After(c, Begin(0, LongestSleep(c)), run).reaped <==> LongestGap(c, late) > IDLE_TIMEOUT
  {
    hide Legal, After, Quiet, LongestSleep;
    var p, m, q := LongestSleep(c) + late, LongestSleep(c), Minus(Quiet(c), 1);
    var n, r := Divided(q, p);
    var e := Elapsed(p, n);
    var rest := LastSleep(c, late, p + e, r + e);
    RoundsPass(c, late, p, r, n, rest);
    run := Prologue(c, late, r, Rounds(p, m, n) + rest);
  }

  /** The last sleep and the tick of the reaper after it. */
  lemma LastSleep(c: Config, late: nat, now: nat, since: nat) returns (rest: seq<Step>)
    requires since <= now
    ensures Legal(c, late, Asleep(now, since, LongestSleep(c)), rest)
    ensures After(c, Asleep(now, since, LongestSleep(c)), rest).reaped
            <==> since + LongestSleep(c) + late > IDLE_TIMEOUT
  {
    hide LongestSleep, Quiet;
    var p := LongestSleep(c) + late;
    var k := Asleep(now, since, LongestSleep(c));
    var k1 := Do(c, k, Pass(p));
    assert Legal(c, late, Do(c, k1, Reap(now + p)), []);
    Steps(c, late, k1, Reap(now + p), []);
    Steps(c, late, k, Pass(p), [Reap(now + p)]);
    assert [Reap(now + p)] + [] == [Reap(now + p)];
    rest := [Pass(p)] + [Reap(now + p)];
  }

  /** Up to the first beat, which finds the last frame r old. */
  lemma Prologue(c: Config, late: nat, r: nat, tail: seq<Step>) returns (run: seq<Step>)
    requires var p, m := LongestSleep(c) + late, LongestSleep(c);
             r < p && (r < Quiet(c) || r == 0) && Legal(c, late, Asleep(p, r, m), tail)
    ensures var p, m := LongestSleep(c) + late, LongestSleep(c);
            Legal(c, late, Begin(0, m), run) && After(c, Begin(0, m), run) == After(c, Asleep(p, r, m), tail)
  {
    var p, m := LongestSleep(c) + late, LongestSleep(c);
    var k0 := Begin(0, m);
    var k1 := Do(c, k0, Pass(p - r));
    var k2 := Do(c, k1, Send);
    var k3 := Do(c, k2, Pass(r));
    assert Do(c, k3, Beat(m)) == Asleep(p, r, m);
    Steps(c, late, k3, Beat(m), tail);
    Steps(c, late, k2, Pass(r), [Beat(m)] + tail);
    Steps(c, late, k1, Send, [Pass(r)] + ([Beat(m)] + tail));
    Steps(c, late, k0, Pass(p - r), [Send] + ([Pass(r)] + ([Beat(m)] + tail)));
    run := [Pass(p - r)] + ([Send] + ([Pass(r)] + ([Beat(m)] + tail)));
  }

  /**
   Exactly how late the heartbeat may be, for every configuration: a live session is never reaped if and
   only if its longest silence fits the idle timeout. (With no sleep and no lateness at all time stands
   still and nothing is reaped either.)
   */
  lemma NeverReapedExactly(c: Config, late: nat)
    ensures NeverReaped(c, late) <==>
            || Minus(c.idleMs * 1_000_000, 1) + (if c.minMs > c.maxMs then c.minMs else c.maxMs) * 1_000_000 + late
               <= 300_000_000_000
            || (c.minMs == c.maxMs == 0 && late == 0)
  {
    if LongestGap(c, late) <= IDLE_TIMEOUT {
      forall start: nat, j: nat, run: seq<Step> | Sleep(c, j) && Legal(c, late, Begin(start, j), run)
        ensures !After(c, Begin(start, j), run).reaped
      {
        RunKeepsOk(c, late, Begin(start, j), run);
      }
    } else if LongestSleep(c) + late == 0 {
      forall start: nat, j: nat, run: seq<Step> | Sleep(c, j) && Legal(c, late, Begin(start, j), run)
        ensures !After(c, Begin(start, j), run).reaped
      {
        Frozen(c, Begin(start, j), run);
      }
    } else {
      var run := WorstRun(c, late);
      assert Sleep(c, LongestSleep(c));
    }
  }

  lemma {:induction false} Frozen(c: Config, k: Clock, run: seq<Step>)
    requires LongestSleep(c) == 0 && k.now == k.wake == k.lastActivity == k.lastWrite && !k.reaped && Legal(c, 0, k, run)
    ensures !After(c, k, run).reaped
    decreases |run|
  {
    if run != [] {
      Frozen(c, Do(c, k, run[0]), run[1..]);
    }
  }
}
