/** The ladder of padded frame sizes, and the rung that a frame is padded to. */
module Padding {

  const PAD_SIZES: seq<nat> := [256, 384, 512, 768, 1024, 1536, 2048, 3072, 4096, 6144, 8192, 12288, 16384]
  const LARGEST := 16384

  /** The first rung from index i on that holds n bytes, or the last one. */
  function FirstFit(n: nat, i: nat): nat
    requires i < |PAD_SIZES|
    decreases |PAD_SIZES| - i
  {
    if PAD_SIZES[i] >= n || i + 1 == |PAD_SIZES| then i else FirstFit(n, i + 1)
  }

  function NextPadSize(n: nat): nat {
    PAD_SIZES[FirstFit(n, 0)]
  }

  /** In percent. */
  function BumpProbability(minSize: nat): nat {
    if minSize < 1024 then 30 else if minSize < 4096 then 18 else 8
  }

  /** `draw` is the random number below 100 that decides about the bump. */
  function PickPadRung(minSize: nat, draw: nat): nat {
    var i := FirstFit(minSize, 0);
    if draw < BumpProbability(minSize) && i + 1 < |PAD_SIZES| then PAD_SIZES[i + 1] else PAD_SIZES[i]
  }

  lemma LadderClimbs()
    ensures forall i: nat, j: nat :: i < j < |PAD_SIZES| ==> PAD_SIZES[i] < PAD_SIZES[j]
    ensures forall i: nat :: i + 2 < |PAD_SIZES| ==> PAD_SIZES[i + 2] == 2 * PAD_SIZES[i]
    ensures forall i: nat :: i + 1 < |PAD_SIZES| ==> 2 * PAD_SIZES[i + 1] <= 3 * PAD_SIZES[i]
    ensures forall i: nat :: 2 * i + 1 < |PAD_SIZES| ==> 2 * PAD_SIZES[2 * i + 1] == 3 * PAD_SIZES[2 * i]
    ensures |PAD_SIZES| == 13 && PAD_SIZES[0] == 256 && PAD_SIZES[|PAD_SIZES| - 1] == LARGEST
  {
  }

  lemma {:induction false} FirstFitIsFirst(n: nat, i: nat)
    requires i < |PAD_SIZES|
    ensures i <= FirstFit(n, i) < |PAD_SIZES|
    ensures n <= LARGEST ==> PAD_SIZES[FirstFit(n, i)] >= n
    ensures n > LARGEST ==> PAD_SIZES[FirstFit(n, i)] == LARGEST
    ensures forall j: nat :: i <= j < FirstFit(n, i) ==> PAD_SIZES[j] < n
    decreases |PAD_SIZES| - i
  {
    LadderClimbs();
    if PAD_SIZES[i] < n && i + 1 < |PAD_SIZES| {
      FirstFitIsFirst(n, i + 1);
    }
  }

  /** nextPadSize gives the tightest rung: it holds n bytes and every smaller rung is too small. */
  lemma NextPadSizeIsTightest(n: nat)
    ensures NextPadSize(n) in PAD_SIZES
    ensures n <= LARGEST ==> NextPadSize(n) >= n
    ensures n > LARGEST ==> NextPadSize(n) == LARGEST
    ensures forall size <- PAD_SIZES :: size < NextPadSize(n) ==> size < n
  {
    hide PAD_SIZES, FirstFit;
    LadderClimbs();
    FirstFitIsFirst(n, 0);
  }

  /** The rungs are the powers of two from 2^8 to 2^14 and, between each and the next, one and a half times it. */
  lemma Rungs(i: nat)
    requires 2 * i < |PAD_SIZES|
    ensures |PAD_SIZES| == 13 && PAD_SIZES[2 * i] == 256 * Doubled(i)
    ensures 2 * i + 1 < |PAD_SIZES| ==> 2 * PAD_SIZES[2 * i + 1] == 3 * PAD_SIZES[2 * i]
  {
    LadderClimbs();
    hide PAD_SIZES;
    if i > 0 {
      Rungs(i - 1);
    }
  }

  function Doubled(i: nat): nat {
    if i == 0 then 1 else 2 * Doubled(i - 1)
  }

  /**
   Whatever the draw, the chosen size is a rung that holds the frame; above 256 bytes it is less than
   twice what the frame needs, bump included, because two rungs up is exactly double.
   */
  lemma PickedRungFits(n: nat, draw: nat)
    requires n <= LARGEST
    ensures PickPadRung(n, draw) in PAD_SIZES && n <= PickPadRung(n, draw) <= LARGEST
    ensures n > 256 ==> PickPadRung(n, draw) < 2 * n
    ensures n <= 256 ==> PickPadRung(n, draw) <= 384
  {
    hide PAD_SIZES, FirstFit;
    LadderClimbs();
    FirstFitIsFirst(n, 0);
    var i := FirstFit(n, 0);
    assert n > 256 ==> i > 0 && PAD_SIZES[i - 1] < n;
    assert 0 < i && i + 1 < |PAD_SIZES| ==> PAD_SIZES[i + 1] == 2 * PAD_SIZES[i - 1];
  }

  function Bumped(n: nat): set<nat> {
    set draw <- Below(100) | PickPadRung(n, draw) != NextPadSize(n)
  }

  function Below(k: nat): set<nat> {
    if k == 0 then {} else Below(k - 1) + {k - 1}
  }

  lemma {:induction false} BelowIsBelow(k: nat)
    ensures |Below(k)| == k && forall d: nat :: d in Below(k) <==> d < k
  {
    if k > 0 {
      BelowIsBelow(k - 1);
    }
  }

  /** Of the hundred draws exactly 30, 18 or 8 move a frame up a rung, by its size; none do at the top. */
  lemma BumpShare(n: nat)
    ensures |Bumped(n)| ==
            if NextPadSize(n) == 16384 then 0 else if n < 1024 then 30 else if n < 4096 then 18 else 8
  {
    hide PAD_SIZES, FirstFit;
    LadderClimbs();
    FirstFitIsFirst(n, 0);
    var share: nat := if NextPadSize(n) == LARGEST then 0 else BumpProbability(n);
    BelowIsBelow(100);
    BelowIsBelow(share);
    hide Below;
    assert forall d <- Below(100) :: PickPadRung(n, d) != NextPadSize(n) <==> d < share;
    assert Bumped(n) == Below(share);
  }
}
