/**
 Draining an HTTP request: a state machine that looks for the empty line ending the header block
 (section 2.1 of RFC 9112), with the first line captured on the way.
 */
module HttpDrain {
  import opened Bytes
  import Connection

  const CR: byte := 13
  const LF: byte := 10
  const BLANK_LINE: seq<byte> := [CR, LF, CR, LF]
  const MAX_HEADER := 8192
  const MAX_LINE := 256

  // ----- The matcher -------------------------------------------------------------------------

  /** The state after one more byte; 4 is the end. */
  function Advance(s: nat, b: byte): (next: nat)
    requires s < 4
  {
    if b == CR then (if s == 0 || s == 2 then s + 1 else 1)
    else if b == LF then (if s == 1 || s == 3 then s + 1 else 0)
    else 0
  }

  /** The last k bytes of the input are the first k of CRLFCRLF. */
  predicate Border(x: seq<byte>, k: nat) {
    k <= 4 && k <= |x| && x[|x| - k..] == BLANK_LINE[..k]
  }

  ghost predicate Longest(x: seq<byte>, s: nat) {
    Border(x, s) && forall k: nat :: Border(x, k) ==> k <= s
  }

  /** A border of x + [b] is a border of x followed by b. */
  lemma BorderSnoc(x: seq<byte>, b: byte, k: nat)
    requires 0 < k <= 4
    ensures Border(x + [b], k) <==> Border(x, k - 1) && b == BLANK_LINE[k - 1]
  {
    var y := x + [b];
    if k <= |y| {
      assert y[|y| - k..] == x[|x| - (k - 1)..] + [b];
      assert BLANK_LINE[..k] == BLANK_LINE[..k - 1] + [BLANK_LINE[k - 1]];
    }
  }

  lemma ShorterBorders(x: seq<byte>, s: nat)
    requires Border(x, s)
    ensures Border(x, 0)
    ensures s == 2 ==> !Border(x, 1)
    ensures s == 3 ==> Border(x, 1) && !Border(x, 2)
  {
    assert s >= 2 ==> x[|x| - 1] == BLANK_LINE[s - 1];
    assert s == 3 ==> x[|x| - 2] == LF;
    if s == 3 {
      assert x[|x| - 1..] == [CR];
    }
  }

  lemma AtMostFour(x: seq<byte>, k: nat)
    requires Border(x, k)
    ensures k <= 4
  {
  }

  lemma IsLongest(x: seq<byte>, s: nat)
    requires Border(x, s)
    requires s < 1 ==> !Border(x, 1)
    requires s < 2 ==> !Border(x, 2)
    requires s < 3 ==> !Border(x, 3)
    requires s < 4 ==> !Border(x, 4)
    ensures Longest(x, s)
  {
    hide Border;
    forall k: nat | Border(x, k) ensures k <= s {
      AtMostFour(x, k);
      assert k == 0 || k == 1 || k == 2 || k == 3 || k == 4;
    }
  }

  lemma BlankLine()
    ensures BLANK_LINE[0] == CR && BLANK_LINE[1] == LF && BLANK_LINE[2] == CR && BLANK_LINE[3] == LF
  {
  }

  /** The state is always the length of the longest suffix of the input that is a prefix of CRLFCRLF. */
  lemma AdvanceIsExact(x: seq<byte>, s: nat, b: byte)
    requires s < 4 && Longest(x, s)
    ensures Longest(x + [b], Advance(s, b))
  {
    hide Border;
    ShorterBorders(x, s);
    BorderSnoc(x, b, 1);
    BorderSnoc(x, b, 2);
    BorderSnoc(x, b, 3);
    BorderSnoc(x, b, 4);
    NoBorder(x + [b]);
    BlankLine();
    assert s < 1 ==> !Border(x, 1);
    assert s < 2 ==> !Border(x, 2);
    assert s < 3 ==> !Border(x, 3);
    IsLongest(x + [b], Advance(s, b));
  }

  lemma NoBorder(x: seq<byte>)
    ensures Border(x, 0)
  {
  }

  // ----- The first line ----------------------------------------------------------------------

  function BeforeLf(x: seq<byte>): (r: seq<byte>)
    ensures LF !in r
    ensures LF !in x ==> r == x
  {
    if x == [] || x[0] == LF then [] else [x[0]] + BeforeLf(x[1..])
  }

  function WithoutCr(x: seq<byte>): seq<byte> {
    if x == [] then [] else (if x[0] == CR then [] else [x[0]]) + WithoutCr(x[1..])
  }

  function Cut(x: seq<byte>): seq<byte> {
    if |x| > MAX_LINE then x[..MAX_LINE] else x
  }

  /** The first line without its carriage returns, cut at 256 bytes. */
  function FirstLine(x: seq<byte>): seq<byte> {
    Cut(WithoutCr(BeforeLf(x)))
  }

  lemma {:induction false} BeforeLfSnoc(x: seq<byte>, b: byte)
    ensures BeforeLf(x + [b]) == if LF in x || b == LF then BeforeLf(x) else BeforeLf(x) + [b]
  {
    if x != [] && x[0] != LF {
      assert (x + [b])[1..] == x[1..] + [b];
      BeforeLfSnoc(x[1..], b);
      assert LF in x <==> LF in x[1..];
    } else if x == [] {
      assert x + [b] == [b];
      assert BeforeLf([b]) == if b == LF then [] else [b] + BeforeLf([]);
    }
  }

  lemma {:induction false} WithoutCrSnoc(x: seq<byte>, b: byte)
    ensures WithoutCr(x + [b]) == WithoutCr(x) + if b == CR then [] else [b]
  {
    if x == [] {
      assert x + [b] == [b];
      assert WithoutCr([b]) == (if b == CR then [] else [b]) + WithoutCr([]);
    } else {
      assert (x + [b])[1..] == x[1..] + [b];
      WithoutCrSnoc(x[1..], b);
    }
  }

  lemma FirstLineSnoc(x: seq<byte>, b: byte)
    ensures FirstLine(x + [b]) ==
            if 10 in x || b == 10 || b == 13 || |FirstLine(x)| >= 256 then FirstLine(x) else FirstLine(x) + [b]
    ensures FirstLine([]) == []
  {
    BeforeLfSnoc(x, b);
    if !(LF in x || b == LF) {
      WithoutCrSnoc(BeforeLf(x), b);
      hide BeforeLf, WithoutCr;
      var line := WithoutCr(BeforeLf(x));
      assert b == CR ==> line + [] == line;
      assert |line| > MAX_LINE ==> (line + [b])[..MAX_LINE] == line[..MAX_LINE];
      assert |line| == MAX_LINE ==> (line + [b])[..MAX_LINE] == line;
    }
  }

  // ----- The loops ---------------------------------------------------------------------------

  class Scanner {
    var s: nat
    var firstLine: seq<byte>
    var lineDone: bool
    ghost var seen: seq<byte>

    ghost predicate Valid()
      reads this
    {
      && s <= 4 && Longest(seen, s)
      && firstLine == FirstLine(seen) && (lineDone <==> LF in seen)
    }

    constructor ()
      ensures Valid() && seen == [] && s == 0
    {
      s, firstLine, lineDone, seen := 0, [], false, [];
      new;
      assert Border([], 0);
    }

    /** One byte; true once it completes the blank line. */
    method Step(b: byte) returns (found: bool)
      requires Valid() && s < 4
      modifies this
      ensures Valid() && seen == old(seen) + [b]
      ensures found <==> s == 4
    {
      AdvanceIsExact(seen, s, b);
      FirstLineSnoc(seen, b);
      hide Longest, FirstLine;
      if !lineDone {
        if b == LF {
          lineDone := true;
        } else if b != CR && |firstLine| < MAX_LINE {
          firstLine := firstLine + [b];
        }
      }
      if b == CR {
        s := if s == 0 || s == 2 then s + 1 else 1;
      } else if b == LF {
        s := if s == 1 || s == 3 then s + 1 else 0;
      } else {
        s := 0;
      }
      seen := seen + [b];
      found := s == 4;
    }
  }

  /** The blank line ends just before position k. */
  predicate Ends(all: seq<byte>, k: nat) {
    4 <= k <= |all| && all[k - 4..k] == [13, 10, 13, 10]
  }

  /**
   Where draining stops, given that `p` bytes had been read before: at the first blank line and never
   earlier, or else at the end of the connection or at 8192 bytes.
   */
  ghost predicate Stops(all: seq<byte>, p: nat, stop: nat) {
    && stop <= |all|
    && (forall k: nat :: k < stop ==> !Ends(all, k))
    && (Ends(all, stop) || (stop >= p && (stop == |all| || stop >= 8192)))
    && (stop <= p || stop <= 8192)
  }

  /** That says where it stops: there is no second such place. */
  lemma StopsOnce(all: seq<byte>, p: nat, i: nat, j: nat)
    requires Stops(all, p, i) && Stops(all, p, j)
    ensures i == j
  {
    hide Ends;
  }

  lemma EndsIsBorder(all: seq<byte>, k: nat)
    requires k <= |all|
    ensures Ends(all, k) <==> Border(all[..k], 4)
  {
    if 4 <= k {
      assert all[..k][k - 4..] == all[k - 4..k];
      assert BLANK_LINE[..4] == BLANK_LINE;
    }
  }

  lemma NeverAtOnce(all: seq<byte>)
    ensures !Ends(all, 0)
  {
  }

  /** drainHTTPRequest up to the parsing of the first line. */
  method Drain(conn: Connection.Conn, prefix: seq<byte>) returns (line: seq<byte>, stop: nat)
    modifies conn
    ensures var all := prefix + old(conn.input);
            && Stops(all, |prefix|, stop)
            && line == FirstLine(all[..stop])
            && conn.input == if stop <= |prefix| then old(conn.input) else all[stop..]
  {
    hide Ends, FirstLine, Border;
    ghost var all := prefix + conn.input;
    var scan := new Scanner();
    NeverAtOnce(all);
    for i := 0 to |prefix|
      invariant scan.Valid() && scan.s < 4 && scan.seen == all[..i]
      invariant forall k: nat :: k <= i ==> !Ends(all, k)
      invariant conn.input == old(conn.input) && fresh(scan)
    {
      var found := scan.Step(prefix[i]);
      assert scan.seen == all[..i + 1];
      EndsIsBorder(all, i + 1);
      if found {
        return scan.firstLine, i + 1;
      }
    }
    var read := |prefix|;
    while read < MAX_HEADER
      invariant |prefix| <= read <= |all| && (read <= |prefix| || read <= MAX_HEADER)
      invariant scan.Valid() && scan.s < 4 && scan.seen == all[..read] && fresh(scan)
      invariant forall k: nat :: k <= read ==> !Ends(all, k)
      invariant conn.input == all[read..]
    {
      var b, ok := conn.ReadByte();
      if !ok {
        return scan.firstLine, read;
      }
      read := read + 1;
      var found := scan.Step(b);
      assert scan.seen == all[..read];
      EndsIsBorder(all, read);
      if found {
        return scan.firstLine, read;
      }
    }
    return scan.firstLine, read;
  }
}
