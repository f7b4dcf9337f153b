/**
 The client's send window as a monitor: any number of writers in acquireWindow, the read loop that
 credits, and the closer, whose `closed` flag is set outside the monitor's mutex winMu.
 */
module SendWindow {

  datatype Writer =
    | Idle
    | Entering(n: nat)    // wants winMu: at the call, or woken from Wait
    | Testing(n: nat)     // holds winMu, about to look at the window
    | Deciding(n: nat)    // holds winMu, has seen too little window and `closed` unset, about to Wait
    | Parked(n: nat)      // inside Wait
    | Acquired | Failed

  datatype Closer = Away | Flagged | Finished

  /** `announced` counts the OPEN_OK frames that carried a window. */
  datatype Window = Window(
    window: int, flow: bool, closed: bool, holder: int, closer: Closer, writers: seq<Writer>, announced: nat)

  const NOBODY := -1

  datatype Step =
    | Call(i: nat, n: nat) | Enter(i: nat) | Test(i: nat) | Park(i: nat)
    | Flag | Broadcast | Credit(c: nat) | Announce(w: nat)

  predicate Can(s: Window, a: Step) {
    match a
    case Call(i, _) => i < |s.writers| && s.writers[i].Idle?
    case Enter(i) => i < |s.writers| && s.writers[i].Entering? && s.holder == NOBODY
    case Test(i) => i < |s.writers| && s.writers[i].Testing?
    case Park(i) => i < |s.writers| && s.writers[i].Deciding?
    case Flag => !s.closed
    case Broadcast => s.closer.Flagged? && s.holder == NOBODY
    case Credit(_) => s.holder == NOBODY
    case Announce(_) => s.holder == NOBODY
  }

  function Woken(w: Writer): Writer {
    if w.Parked? then Entering(w.n) else w
  }

  function WakeAll(ws: seq<Writer>): (r: seq<Writer>)
    ensures |r| == |ws| && forall i :: 0 <= i < |ws| ==> r[i] == Woken(ws[i])
  {
    seq(|ws|, i requires 0 <= i < |ws| => Woken(ws[i]))
  }

  function Set(s: Window, i: nat, w: Writer): Window
    requires i < |s.writers|
  {
    s.(writers := s.writers[i := w])
  }

  /** The loop of acquireWindow, from the test of the window to leaving or deciding to wait. */
  function DoTest(s: Window, i: nat): Window
    requires i < |s.writers| && s.writers[i].Testing?
  {
    var n := s.writers[i].n;
    if !s.flow then Set(s, i, Acquired).(holder := NOBODY)
    else if s.window >= n then Set(s, i, Acquired).(holder := NOBODY, window := s.window - n)
    else if s.closed then Set(s, i, Failed).(holder := NOBODY)
    else Set(s, i, Deciding(n))
  }

  function Do(s: Window, a: Step): Window
    requires Can(s, a)
  {
    match a
    case Call(i, n) => Set(s, i, Entering(n))
    case Enter(i) => Set(s, i, Testing(s.writers[i].n)).(holder := i)
    case Test(i) => DoTest(s, i)
    case Park(i) => Set(s, i, Parked(s.writers[i].n)).(holder := NOBODY)
    case Flag => s.(closed := true, closer := Flagged)
    case Broadcast => s.(closer := Finished, writers := WakeAll(s.writers))
    case Credit(c) => s.(window := s.window + c, writers := WakeAll(s.writers))
    case Announce(w) => s.(window := w, flow := true, announced := s.announced + 1)
  }

  // ----- The invariant -----------------------------------------------------------------------

  predicate HolderOk(s: Window) {
    forall i: nat :: i < |s.writers| ==> (s.writers[i].Testing? || s.writers[i].Deciding? <==> s.holder == i)
  }

  predicate CloserOk(s: Window) {
    s.closed <==> !s.closer.Away?
  }

  /** A writer that waits, or is about to, lacks window, and a closer has its broadcast still to come. */
  predicate WaitOk(s: Window) {
    forall i: nat :: i < |s.writers| && (s.writers[i].Parked? || s.writers[i].Deciding?) ==>
      s.flow && s.window < s.writers[i].n && !s.closer.Finished?
  }

  predicate Ok(s: Window) {
    HolderOk(s) && CloserOk(s) && WaitOk(s) && (s.flow <==> s.announced > 0) && s.holder >= NOBODY
  }

  lemma StepKeepsOk(s: Window, a: Step)
    requires Ok(s) && Can(s, a) && (a.Announce? ==> s.announced == 0)
    ensures Ok(Do(s, a))
  {
  }

  predicate Legal(s: Window, run: seq<Step>)
    decreases |run|
  {
    run == [] || (Can(s, run[0]) && Legal(Do(s, run[0]), run[1..]))
  }

  function After(s: Window, run: seq<Step>): Window
    requires Legal(s, run)
    decreases |run|
  {
    if run == [] then s else After(Do(s, run[0]), run[1..])
  }

  function Begin(writers: nat): Window {
    Window(0, false, false, NOBODY, Away, seq(writers, _ => Idle), 0)
  }

  lemma {:induction false} AnnouncedGrows(s: Window, run: seq<Step>)
    requires Legal(s, run)
    ensures s.announced <= After(s, run).announced
    decreases |run|
  {
    hide Can;
    if run != [] {
      AnnouncedGrows(Do(s, run[0]), run[1..]);
    }
  }

  lemma {:induction false} RunKeepsOk(s: Window, run: seq<Step>)
    requires Ok(s) && Legal(s, run) && After(s, run).announced <= 1
    ensures Ok(After(s, run))
    decreases |run|
  {
    if run != [] {
      AnnouncedGrows(Do(s, run[0]), run[1..]);
      StepKeepsOk(s, run[0]);
      hide Ok;
      RunKeepsOk(Do(s, run[0]), run[1..]);
    }
  }

  /** Nothing in the monitor is about to move: no writer entering or inside, no broadcast pending. */
  predicate AtRest(s: Window) {
    && !s.closer.Flagged?
    && forall w <- s.writers :: !w.Entering? && !w.Testing? && !w.Deciding?
  }

  /**
   No writer is forgotten: for any number of writers and any interleaving, a writer inside Wait lacks
   window, and once the stream is closed its wakeup is still on the way; so when all is quiet, a writer
   waits only on an open stream for a credit that has not come. This needs that OPEN_OK came once.
   */
  lemma NobodyIsForgotten(writers: nat, run: seq<Step>, i: nat)
    requires Legal(Begin(writers), run) && After(Begin(writers), run).announced <= 1
    requires i < |After(Begin(writers), run).writers| && After(Begin(writers), run).writers[i].Parked?
    ensures var s := After(Begin(writers), run);
            && s.window < s.writers[i].n
            && (s.closed ==> s.closer.Flagged?)
            && (AtRest(s) ==> !s.closed)
  {
    RunKeepsOk(Begin(writers), run);
  }

  // ----- The books ---------------------------------------------------------------------------

  /** What the window must be: an OPEN_OK sets it, a credit adds to it, and each writer let through pays. */
  function Ledger(s: Window, run: seq<Step>, w: int): int
    requires Legal(s, run)
    decreases |run|
  {
    if run == [] then w
    else
      var s' := Do(s, run[0]);
      Ledger(s', run[1..],
             match run[0] {
               case Announce(x) => x
               case Credit(c) => w + c
               case Test(i) => if s.flow && s'.writers[i].Acquired? then w - s.writers[i].n else w
               case _ => w
             })
  }

  predicate Solvent(s: Window) {
    0 <= s.window && forall w <- s.writers :: w.Failed? ==> s.closed
  }

  lemma StepIsBooked(s: Window, a: Step)
    requires Solvent(s) && Can(s, a)
    ensures Solvent(Do(s, a))
    ensures Do(s, a).window ==
            match a {
              case Announce(x) => x
              case Credit(c) => s.window + c
              case Test(i) => if s.flow && Do(s, a).writers[i].Acquired? then s.window - s.writers[i].n else s.window
              case _ => s.window
            }
  {
  }

  lemma {:induction false} RunIsBooked(s: Window, run: seq<Step>)
    requires Solvent(s) && Legal(s, run)
    ensures Solvent(After(s, run)) && After(s, run).window == Ledger(s, run, s.window)
    decreases |run|
  {
    hide Can, Do, Solvent;
    if run != [] {
      StepIsBooked(s, run[0]);
      RunIsBooked(Do(s, run[0]), run[1..]);
    }
  }

  /**
   The window is never overdrawn. For any number of writers, OPEN_OKs, credits and interleavings it is what was
   last announced, plus the credits since, minus what the writers let through asked for; it is never negative;
   and a writer is turned away only on a closed stream.
   */
  lemma NeverOverdrawn(writers: nat, run: seq<Step>)
    requires Legal(Begin(writers), run)
    ensures var s := After(Begin(writers), run);
            && 0 <= s.window == Ledger(Begin(writers), run, 0)
            && forall w <- s.writers :: w.Failed? ==> s.closed
  {
    RunIsBooked(Begin(writers), run);
  }

  // ----- Any number of OPEN_OKs --------------------------------------------------------------

  /** What holds however often OPEN_OK comes: a writer about to wait lacks window, and closers still come. */
  predicate AlwaysOk(s: Window) {
    && HolderOk(s) && CloserOk(s) && s.holder >= NOBODY
    && forall i: nat :: i < |s.writers| ==>
         && (s.writers[i].Parked? || s.writers[i].Deciding? ==> !s.closer.Finished?)
         && (s.writers[i].Deciding? ==> s.window < s.writers[i].n)
  }

  lemma StepKeepsAlways(s: Window, a: Step)
    requires AlwaysOk(s) && Can(s, a)
    ensures AlwaysOk(Do(s, a)) && |Do(s, a).writers| == |s.writers|
  {
  }

  /** Writer i is inside Wait and the window would serve it. */
  predicate Stranded(s: Window, i: nat) {
    i < |s.writers| && s.writers[i].Parked? && s.writers[i].n <= s.window
  }

  /** Given whether it held before step a: since writer i last went to sleep the window has once sufficed for it. */
  predicate NowStranded(s: Window, a: Step, i: nat, before: bool)
    requires Can(s, a)
  {
    var s' := Do(s, a);
    i < |s'.writers| && s'.writers[i].Parked? && (before || Stranded(s', i))
  }

  /** Likewise: since writer i last went to sleep an OPEN_OK assigned a window that serves it. */
  predicate NowPassedOver(s: Window, a: Step, i: nat, before: bool)
    requires Can(s, a)
  {
    var s' := Do(s, a);
    i < |s'.writers| && s'.writers[i].Parked? && (before || (a.Announce? && s'.writers[i].n <= a.w))
  }

  predicate WasStranded(s: Window, run: seq<Step>, i: nat, before: bool)
    requires Legal(s, run)
    decreases |run|
  {
    if run == [] then before else WasStranded(Do(s, run[0]), run[1..], i, NowStranded(s, run[0], i, before))
  }

  predicate WasPassedOver(s: Window, run: seq<Step>, i: nat, before: bool)
    requires Legal(s, run)
    decreases |run|
  {
    if run == [] then before else WasPassedOver(Do(s, run[0]), run[1..], i, NowPassedOver(s, run[0], i, before))
  }

  /** Only an OPEN_OK makes the window suffice for a sleeper without waking it. */
  lemma OnlyAnnounceStrands(s: Window, a: Step, i: nat, before: bool)
    requires AlwaysOk(s) && Can(s, a) && (Stranded(s, i) ==> before)
    requires before ==> i < |s.writers| && s.writers[i].Parked?
    ensures NowStranded(s, a, i, before) == NowPassedOver(s, a, i, before)
    ensures Stranded(Do(s, a), i) ==> NowStranded(s, a, i, before)
    ensures NowStranded(s, a, i, before) ==> i < |Do(s, a).writers| && Do(s, a).writers[i].Parked?
  {
  }

  lemma {:induction false} StrandedIsPassedOver(s: Window, run: seq<Step>, i: nat, before: bool)
    requires AlwaysOk(s) && Legal(s, run) && (Stranded(s, i) ==> before)
    requires before ==> i < |s.writers| && s.writers[i].Parked?
    ensures WasStranded(s, run, i, before) == WasPassedOver(s, run, i, before)
    ensures Stranded(After(s, run), i) ==> WasPassedOver(s, run, i, before)
    ensures AlwaysOk(After(s, run))
    decreases |run|
  {
    hide AlwaysOk, Can, Do, Stranded, NowStranded, NowPassedOver;
    if run != [] {
      OnlyAnnounceStrands(s, run[0], i, before);
      StepKeepsAlways(s, run[0]);
      StrandedIsPassedOver(Do(s, run[0]), run[1..], i, NowStranded(s, run[0], i, before));
    }
  }

  /**
   Exactly which sleepers are failed, for any number of writers, OPEN_OKs and interleavings: the window has
   sufficed for a writer since it went to sleep if and only if since then an OPEN_OK has assigned a window
   that serves it. So a writer waits with enough window only after such an OPEN_OK; and once the stream is
   closed the wakeup of every writer in Wait is on the way.
   */
  lemma StrandedExactly(writers: nat, run: seq<Step>, i: nat)
    requires Legal(Begin(writers), run)
    ensures WasStranded(Begin(writers), run, i, false) <==> WasPassedOver(Begin(writers), run, i, false)
    ensures Stranded(After(Begin(writers), run), i) ==> WasPassedOver(Begin(writers), run, i, false)
    ensures var s := After(Begin(writers), run);
            i < |s.writers| && s.writers[i].Parked? && s.closed ==> s.closer.Flagged?
  {
    assert AlwaysOk(Begin(writers));
    StrandedIsPassedOver(Begin(writers), run, i, false);
    hide Legal, After, WasStranded, WasPassedOver;
  }

  /** A second OPEN_OK strands a writer: it fits the window, all is quiet, and it stays in Wait. */
  lemma SecondOpenOkStrands() returns (run: seq<Step>)
    ensures Legal(Begin(1), run)
    ensures var s := After(Begin(1), run);
            AtRest(s) && s.writers == [Parked(10)] && s.window == 20 && !s.closed && s.announced == 2
  {
    var s0 := Begin(1);
    var s1 := Do(s0, Announce(5));
    var s2 := Do(s1, Call(0, 10));
    var s3 := Do(s2, Enter(0));
    var s4 := Do(s3, Test(0));
    var s5 := Do(s4, Park(0));
    var s6 := Do(s5, Announce(20));
    assert s4.writers == [Deciding(10)] && s6.writers == [Parked(10)];
    run := [];
    run := Cons(s5, Announce(20), run);
    run := Cons(s4, Park(0), run);
    run := Cons(s3, Test(0), run);
    run := Cons(s2, Enter(0), run);
    run := Cons(s1, Call(0, 10), run);
    run := Cons(s0, Announce(5), run);
  }

  lemma Cons(s: Window, a: Step, rest: seq<Step>) returns (run: seq<Step>)
    requires Can(s, a) && Legal(Do(s, a), rest)
    ensures run == [a] + rest && Legal(s, run) && After(s, run) == After(Do(s, a), rest)
  {
    run := [a] + rest;
    assert run[1..] == rest;
  }
}
