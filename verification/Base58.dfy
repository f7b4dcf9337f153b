/** Base 58, the form of the key in a share-string: leading zero bytes become leading '1's. */
module Base58 {
  import opened Bytes
  import BigEndian
  import Numeral

  const DIGITS := "123456789"
  const UPPER := "ABCDEFGH" + "JKLMN" + "PQRSTUVWXYZ"
  const LOWER := "abcdefghijk" + "mnopqrstuvwxyz"
  const ALPHABET := DIGITS + UPPER + LOWER

  predicate Climbs(s: string) {
    forall i, j :: 0 <= i < j < |s| ==> s[i] < s[j]
  }

  lemma ClimbsOn(s: string, t: string)
    requires Climbs(s) && Climbs(t) && s != "" && t != "" && s[|s| - 1] < t[0]
    ensures Climbs(s + t)
  {
    forall i, j | 0 <= i < j < |s + t| ensures (s + t)[i] < (s + t)[j] {
      assert i < |s| ==> s[i] <= s[|s| - 1];
      assert j >= |s| ==> t[0] <= t[j - |s|];
    }
  }

  lemma UpperClimbs()
    ensures Climbs(UPPER) && |UPPER| == 24 && UPPER[0] == 'A' && UPPER[23] == 'Z'
  {
    ClimbsOn("ABCDEFGH", "JKLMN");
    ClimbsOn("ABCDEFGH" + "JKLMN", "PQRSTUVWXYZ");
  }

  lemma LowerClimbs()
    ensures Climbs(LOWER) && |LOWER| == 25 && LOWER[0] == 'a'
  {
    ClimbsOn("abcdefghijk", "mnopqrstuvwxyz");
  }

  lemma DigitsClimb()
    ensures Climbs(DIGITS) && |DIGITS| == 9 && DIGITS[0] == '1' && DIGITS[8] == '9'
  {
  }

  lemma AlphabetIsSound()
    ensures |ALPHABET| == 58 && ALPHABET[0] == '1'
    ensures forall i, j :: 0 <= i < j < 58 ==> ALPHABET[i] != ALPHABET[j]
  {
    DigitsClimb();
    UpperClimbs();
    LowerClimbs();
    hide DIGITS, UPPER, LOWER;
    ClimbsOn(DIGITS, UPPER);
    ClimbsOn(DIGITS + UPPER, LOWER);
  }

  predicate Between(c: char, lo: char, hi: char) {
    lo <= c <= hi
  }

  /** The digits and letters in ASCII order, without the four that are easily misread. */
  lemma TheAlphabet(c: char)
    ensures Climbs(ALPHABET)
    ensures c in ALPHABET <==>
            (Between(c, '0', '9') || Between(c, 'A', 'Z') || Between(c, 'a', 'z')) && c !in {'0', 'O', 'I', 'l'}
  {
    DigitsClimb();
    UpperClimbs();
    LowerClimbs();
    InDigits(c);
    InUpper(c);
    InLower(c);
    hide DIGITS, UPPER, LOWER;
    ClimbsOn(DIGITS, UPPER);
    ClimbsOn(DIGITS + UPPER, LOWER);
  }

  lemma InDigits(c: char)
    ensures c in DIGITS <==> Between(c, '1', '9')
  {
    assert forall k :: 0 <= k < 9 ==> DIGITS[k] as int == '1' as int + k;
    if Between(c, '1', '9') {
      assert DIGITS[c as int - '1' as int] == c;
    }
  }

  lemma InUpper(c: char)
    ensures c in UPPER <==> Between(c, 'A', 'Z') && c != 'I' && c != 'O'
  {
    InRange(c, "ABCDEFGH", 'A');
    InRange(c, "JKLMN", 'J');
    InRange(c, "PQRSTUVWXYZ", 'P');
  }

  lemma InLower(c: char)
    ensures c in LOWER <==> Between(c, 'a', 'z') && c != 'l'
  {
    InRange(c, "abcdefghijk", 'a');
    InRange(c, "mnopqrstuvwxyz", 'm');
  }

  /** A string of consecutive characters holds exactly those. */
  lemma InRange(c: char, s: string, first: char)
    requires forall k :: 0 <= k < |s| ==> s[k] as int == first as int + k
    ensures c in s <==> 0 <= c as int - first as int < |s|
  {
    if 0 <= c as int - first as int < |s| {
      assert s[c as int - first as int] == c;
    }
  }

  /** strings.IndexRune: the first position of c from i on, or the length if there is none. */
  function Index(c: char, i: nat): (k: nat)
    requires i <= |ALPHABET|
    ensures i <= k <= |ALPHABET|
    ensures k < |ALPHABET| ==> ALPHABET[k] == c
    ensures k == |ALPHABET| ==> forall j :: i <= j < |ALPHABET| ==> ALPHABET[j] != c
    decreases |ALPHABET| - i
  {
    if i == |ALPHABET| || ALPHABET[i] == c then i else Index(c, i + 1)
  }

  predicate InAlphabet(s: string) {
    forall k :: 0 <= k < |s| ==> Index(s[k], 0) < |ALPHABET|
  }

  function Chars(ds: seq<nat>): (s: string)
    requires Numeral.Digits(58, ds)
    ensures |s| == |ds|
  {
    AlphabetIsSound();
    seq(|ds|, k requires 0 <= k < |ds| => ALPHABET[ds[k]])
  }

  function Indices(s: string): (ds: seq<nat>)
    requires InAlphabet(s)
    ensures |ds| == |s| && Numeral.Digits(58, ds)
  {
    AlphabetIsSound();
    seq(|s|, k requires 0 <= k < |s| => Index(s[k], 0))
  }

  /** How many of the first elements are x. */
  function Leading<T(==)>(x: T, s: seq<T>): (k: nat)
    ensures k <= |s| && (forall j :: 0 <= j < k ==> s[j] == x) && (k < |s| ==> s[k] != x)
  {
    if s == [] || s[0] != x then 0 else 1 + Leading(x, s[1..])
  }

  function Repeat<T>(x: T, k: nat): (s: seq<T>)
    ensures |s| == k && forall j :: 0 <= j < k ==> s[j] == x
  {
    seq(k, _ => x)
  }

  function Encoded(input: seq<byte>): string {
    var zeros := Leading(0 as byte, input);
    Repeat('1', zeros) + Chars(Numeral.Shortest(58, BigEndian.Get(input[zeros..])))
  }

  function Decoded(s: string): Option<seq<byte>> {
    if s == "" || !InAlphabet(s) then None
    else
      Some(Repeat(0 as byte, Leading('1', s)) + BigEndian.ToBytes(Numeral.Shortest(256, Numeral.Value(58, Indices(s)))))
  }

  // ----- The loops ---------------------------------------------------------------------------

  function Reversed<T>(s: seq<T>): (r: seq<T>)
    ensures |r| == |s| && forall k :: 0 <= k < |s| ==> r[k] == s[|s| - 1 - k]
  {
    seq(|s|, k requires 0 <= k < |s| => s[|s| - 1 - k])
  }

  lemma ReversedSnoc<T>(s: seq<T>, x: T)
    ensures Reversed(s + [x]) == [x] + Reversed(s)
  {
  }

  lemma CharsSnoc(ds: seq<nat>, d: nat)
    requires Numeral.Digits(58, ds) && d < 58
    ensures Numeral.Digits(58, ds + [d])
    ensures |ALPHABET| == 58 && Chars(ds + [d]) == Chars(ds) + [ALPHABET[d]]
  {
    AlphabetIsSound();
  }

  /** The division loop: the digits of n, last first. */
  method DigitsBackwards(value: nat) returns (rev: string)
    ensures Reversed(rev) == Chars(Numeral.Shortest(58, value))
  {
    hide ALPHABET;
    AlphabetIsSound();
    var n := value;
    rev := "";
    while n > 0
      invariant Chars(Numeral.Shortest(58, n)) + Reversed(rev) == Chars(Numeral.Shortest(58, value))
    {
      Numeral.Smaller(58, n);
      CharsSnoc(Numeral.Shortest(58, n / 58), n % 58);
      ReversedSnoc(rev, ALPHABET[n % 58]);
      var mod := n % 58;
      n := n / 58;
      rev := rev + [ALPHABET[mod]];
    }
  }

  method Flip(rev: string) returns (out: array<char>)
    ensures fresh(out) && out[..] == Reversed(rev)
  {
    out := new char[|rev|];
    for i := 0 to |rev|
      invariant forall k :: 0 <= k < i ==> out[|rev| - 1 - k] == rev[k]
    {
      out[|rev| - 1 - i] := rev[i];
    }
  }

  lemma EmptyEncodes()
    ensures Encoded([]) == ""
  {
    assert BigEndian.ToDigits([]) == [];
  }

  /** base58Encode: digits come out last first, then the zeros, then everything is turned round. */
  method Encode(input: seq<byte>) returns (out: array<char>)
    ensures fresh(out) && out[..] == Encoded(input)
  {
    hide ALPHABET, Chars, BigEndian.Get;
    if |input| == 0 {
      EmptyEncodes();
      out := new char[0];
      return;
    }
    var zeros := 0;
    while zeros < |input| && input[zeros] == 0
      invariant zeros <= |input| && forall j :: 0 <= j < zeros ==> input[j] == 0
    {
      zeros := zeros + 1;
    }
    assert zeros == Leading(0 as byte, input);
    var rev := DigitsBackwards(BigEndian.Get(input[zeros..]));
    ghost var digits := rev;
    AlphabetIsSound();
    for i := 0 to zeros
      invariant rev == digits + Repeat('1', i)
    {
      rev := rev + [ALPHABET[0]];
    }
    assert Reversed(rev) == Repeat('1', zeros) + Reversed(digits);
    out := Flip(rev);
  }

  lemma IndicesSnoc(s: string, i: nat)
    requires i < |s| && InAlphabet(s[..i + 1])
    ensures InAlphabet(s[..i]) && Indices(s[..i + 1]) == Indices(s[..i]) + [Index(s[i], 0)]
  {
    assert s[..i + 1] == s[..i] + [s[i]];
    assert forall k :: 0 <= k < i ==> s[..i][k] == s[..i + 1][k];
  }

  /** base58Decode: one multiplication and addition a character; any foreign character is an error. */
  method Decode(s: string) returns (r: Option<seq<byte>>)
    ensures r == Decoded(s)
  {
    hide ALPHABET, Index;
    AlphabetIsSound();
    if s == "" {
      return None;
    }
    var zeros := 0;
    while zeros < |s| && s[zeros] == ALPHABET[0]
      invariant zeros <= |s| && forall j :: 0 <= j < zeros ==> s[j] == '1'
    {
      zeros := zeros + 1;
    }
    assert zeros == Leading('1', s);
    var n: nat := 0;
    for i := 0 to |s|
      invariant InAlphabet(s[..i]) && n == Numeral.Value(58, Indices(s[..i]))
    {
      var idx := Index(s[i], 0);
      if idx == |ALPHABET| {
        return None;
      }
      assert forall k :: 0 <= k < i ==> s[..i + 1][k] == s[..i][k];
      IndicesSnoc(s, i);
      Numeral.ValueSnoc(58, Indices(s[..i]), idx);
      n := n * 58;
      n := n + idx;
    }
    assert s[..|s|] == s;
    r := Some(Repeat(0 as byte, zeros) + BigEndian.ToBytes(Numeral.Shortest(256, n)));
  }

  // ----- Round trips -------------------------------------------------------------------------

  lemma IndexOfChar(d: nat)
    requires d < |ALPHABET|
    ensures Index(ALPHABET[d], 0) == d
  {
    AlphabetIsSound();
    hide ALPHABET;
  }

  lemma IndicesOfChars(ds: seq<nat>)
    requires Numeral.Digits(58, ds)
    ensures InAlphabet(Chars(ds)) && Indices(Chars(ds)) == ds
  {
    AlphabetIsSound();
    hide ALPHABET;
    forall k | 0 <= k < |ds| ensures Index(Chars(ds)[k], 0) == ds[k] {
      IndexOfChar(ds[k]);
    }
  }

  lemma CharsOfIndices(s: string)
    requires InAlphabet(s)
    ensures Chars(Indices(s)) == s
  {
    hide ALPHABET;
  }

  /** Only digit zero is written '1'. */
  lemma OneIsZero(s: string)
    requires InAlphabet(s)
    ensures Leading('1', s) == Leading(0, Indices(s))
  {
    AlphabetIsSound();
    hide ALPHABET;
    forall k | 0 <= k < |s| ensures s[k] == '1' <==> Indices(s)[k] == 0 {
      IndexOfChar(0);
    }
  }

  lemma LeadingOf<T>(x: T, k: nat, s: seq<T>)
    requires s != [] ==> s[0] != x
    ensures Leading(x, Repeat(x, k) + s) == k && (Repeat(x, k) + s)[k..] == s
  {
  }

  lemma NoLeading<T>(x: T, s: seq<T>)
    ensures s == Repeat(x, Leading(x, s)) + s[Leading(x, s)..]
    ensures s[Leading(x, s)..] != [] ==> s[Leading(x, s)..][0] != x
  {
  }

  /** The digits after the leading zeros are the shortest numeral of the whole. */
  lemma SignificantDigits(base: Numeral.Base, ds: seq<nat>)
    requires Numeral.Digits(base, ds)
    ensures Numeral.Shortest(base, Numeral.Value(base, ds)) == ds[Leading(0, ds)..]
  {
    var k := Leading(0, ds);
    NoLeading(0, ds);
    assert Repeat(0 as nat, k) == Numeral.Zeros(k);
    Numeral.ValueOfZeros(base, k, ds[k..]);
    Numeral.ShortestOfValue(base, ds[k..]);
  }

  lemma ShortestStartsBig(base: Numeral.Base, n: nat)
    ensures Numeral.Shortest(base, n) != [] ==> Numeral.Shortest(base, n)[0] != 0
  {
    if n > 0 {
      Numeral.ShortestHasNoLeadingZero(base, n);
    }
  }

  /** The indices of an encoding: one zero for each zero byte, then the base-58 digits of the number. */
  lemma EncodedIndices(b: seq<byte>)
    ensures var zeros := Leading(0 as byte, b);
            var ds := Numeral.Shortest(58, BigEndian.Get(b[zeros..]));
            && InAlphabet(Encoded(b)) && Indices(Encoded(b)) == Numeral.Zeros(zeros) + ds
            && Leading('1', Encoded(b)) == zeros
  {
    AlphabetIsSound();
    hide ALPHABET, Index;
    var zeros := Leading(0 as byte, b);
    var ds := Numeral.Shortest(58, BigEndian.Get(b[zeros..]));
    var all := Numeral.Zeros(zeros) + ds;
    assert Encoded(b) == Chars(all);
    IndicesOfChars(all);
    OneIsZero(Encoded(b));
    ShortestStartsBig(58, BigEndian.Get(b[zeros..]));
    assert Numeral.Zeros(zeros) == Repeat(0 as nat, zeros);
    LeadingOf(0, zeros, ds);
  }

  /** decode(encode(b)) == b for every non-empty byte string, leading zeros and all. */
  lemma DecodeOfEncode(b: seq<byte>)
    requires b != []
    ensures Decoded(Encoded(b)) == Some(b)
  {
    hide ALPHABET, Encoded, Index, Indices, InAlphabet;
    EncodedIndices(b);
    var zeros := Leading(0 as byte, b);
    var rest := b[zeros..];
    var n := BigEndian.Get(rest);
    Numeral.ValueOfZeros(58, zeros, Numeral.Shortest(58, n));
    Numeral.ValueOfShortest(58, n);
    NoLeading(0 as byte, b);
    Numeral.ShortestOfValue(256, BigEndian.ToDigits(rest));
    BigEndian.BytesOfDigits(rest);
    NotEmpty(b);
  }

  lemma NotEmpty(b: seq<byte>)
    requires b != []
    ensures Encoded(b) != ""
  {
    var zeros := Leading(0 as byte, b);
    if zeros == 0 {
      BigEndian.BytesOfDigits(b);
      Numeral.ValueIsPositive(256, BigEndian.ToDigits(b));
    }
  }

  /**
   What an encoding means: read as a base-58 numeral, most significant digit first, it is the number that
   the bytes are as a base-256 numeral; and it has a leading '1' for each leading zero byte.
   */
  lemma EncodingKeepsTheNumber(b: seq<byte>)
    ensures InAlphabet(Encoded(b))
    ensures Numeral.Value(58, Indices(Encoded(b))) == Numeral.Value(256, BigEndian.ToDigits(b))
    ensures Leading('1', Encoded(b)) == Leading(0 as byte, b)
  {
    hide ALPHABET, Encoded, Index, Indices, InAlphabet;
    EncodedIndices(b);
    var zeros := Leading(0 as byte, b);
    var rest := b[zeros..];
    Numeral.ValueOfZeros(58, zeros, Numeral.Shortest(58, BigEndian.Get(rest)));
    Numeral.ValueOfShortest(58, BigEndian.Get(rest));
    Numeral.ValueOfZeros(256, zeros, BigEndian.ToDigits(rest));
    assert BigEndian.ToDigits(b) == Numeral.Zeros(zeros) + BigEndian.ToDigits(rest);
  }

  /** encode(decode(s)) == s for every non-empty string over the alphabet, and nothing else decodes. */
  lemma EncodeOfDecode(s: string)
    ensures Decoded(s).Some? <==> s != "" && InAlphabet(s)
    ensures Decoded(s).Some? ==> Encoded(Decoded(s).value) == s
  {
    hide ALPHABET, Index, InAlphabet, Chars, Indices;
    if s != "" && InAlphabet(s) {
      var zeros := Leading('1', s);
      var n := Numeral.Value(58, Indices(s));
      var digits := Numeral.Shortest(256, n);
      var tail := BigEndian.ToBytes(digits);
      BigEndian.DigitsOfBytes(digits);
      ShortestStartsBig(256, n);
      assert tail != [] ==> tail[0] as nat == digits[0];
      LeadingOf(0 as byte, zeros, tail);
      Numeral.ValueOfShortest(256, n);
      OneIsZero(s);
      SignificantDigits(58, Indices(s));
      OnesAndRest(s);
    }
  }

  lemma OnesAndRest(s: string)
    requires InAlphabet(s)
    ensures s == Repeat('1', Leading('1', s)) + Chars(Indices(s)[Leading('1', s)..])
  {
    CharsOfIndices(s);
    NoLeading('1', s);
    hide ALPHABET;
  }
}
