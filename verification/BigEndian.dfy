/** Big-endian fields: fixed-width numbers as bytes, and back. */
module BigEndian {
  import opened Bytes
  import Numeral

  function ToBytes(ds: seq<nat>): (bs: seq<byte>)
    requires Numeral.Digits(256, ds)
    ensures |bs| == |ds|
  {
    seq(|ds|, k requires 0 <= k < |ds| => ds[k] as byte)
  }

  function ToDigits(bs: seq<byte>): (ds: seq<nat>)
    ensures |ds| == |bs| && Numeral.Digits(256, ds)
  {
    seq(|bs|, k requires 0 <= k < |bs| => bs[k] as nat)
  }

  /** PutUint16, PutUint32, PutUint64: the last `width` base-256 digits of n. */
  function Put(n: nat, width: nat): (bs: seq<byte>)
    ensures |bs| == width
  {
    ToBytes(Numeral.Fixed(256, n, width))
  }

  /** Uint16, Uint32, and big.Int's SetBytes. */
  function Get(bs: seq<byte>): nat {
    Numeral.Value(256, ToDigits(bs))
  }

  lemma DigitsOfBytes(ds: seq<nat>)
    requires Numeral.Digits(256, ds)
    ensures ToDigits(ToBytes(ds)) == ds
  {
  }

  lemma BytesOfDigits(bs: seq<byte>)
    ensures ToBytes(ToDigits(bs)) == bs
  {
  }

  /** A number that fits its field is read back. */
  lemma GetPut(n: nat, width: nat)
    requires n < Numeral.Power(256, width)
    ensures Get(Put(n, width)) == n
  {
    DigitsOfBytes(Numeral.Fixed(256, n, width));
    Numeral.ValueOfFixed(256, n, width);
  }

  /** Every field is the encoding of the number it holds, and of no smaller width than its own. */
  lemma PutGet(bs: seq<byte>)
    ensures Put(Get(bs), |bs|) == bs && Get(bs) < Numeral.Power(256, |bs|)
  {
    Numeral.FixedOfValue(256, ToDigits(bs));
    BytesOfDigits(bs);
  }

  lemma Widths()
    ensures Numeral.Power(256, 2) == 0x1_0000
    ensures Numeral.Power(256, 4) == 0x1_0000_0000
    ensures Numeral.Power(256, 8) == 0x1_0000_0000_0000_0000
  {
    assert Numeral.Power(256, 0) == 1;
    assert Numeral.Power(256, 1) == 0x100;
    assert Numeral.Power(256, 2) == 0x1_0000;
    assert Numeral.Power(256, 3) == 0x100_0000;
    assert Numeral.Power(256, 4) == 0x1_0000_0000;
    assert Numeral.Power(256, 5) == 0x100_0000_0000;
    assert Numeral.Power(256, 6) == 0x1_0000_0000_0000;
    assert Numeral.Power(256, 7) == 0x100_0000_0000_0000;
  }

  /** The last byte counts once, and those before it 256 times as much. */
  lemma GetSnoc(bs: seq<byte>, b: byte)
    ensures Get(bs + [b]) == 0x100 * Get(bs) + b as nat
  {
    assert ToDigits(bs + [b]) == ToDigits(bs) + [b as nat];
    Numeral.ValueSnoc(256, ToDigits(bs), b as nat);
  }

  /** What two, four and eight bytes stand for, written out. */
  lemma GetTwo(bs: seq<byte>)
    requires |bs| == 2
    ensures Get(bs) == bs[0] as nat * 0x100 + bs[1] as nat
  {
    hide Get;
    assert bs == ([] + [bs[0]]) + [bs[1]];
    GetSnoc([] + [bs[0]], bs[1]);
    GetSnoc([], bs[0]);
    GetNone();
  }

  lemma GetNone()
    ensures Get([]) == 0
  {
  }

  lemma GetFour(bs: seq<byte>)
    requires |bs| == 4
    ensures Get(bs) == bs[0] as nat * 0x100_0000 + bs[1] as nat * 0x1_0000 + bs[2] as nat * 0x100 + bs[3] as nat
  {
    hide Get;
    assert bs == (bs[..2] + [bs[2]]) + [bs[3]];
    GetSnoc(bs[..2] + [bs[2]], bs[3]);
    GetSnoc(bs[..2], bs[2]);
    GetTwo(bs[..2]);
  }

  lemma GetEight(bs: seq<byte>)
    requires |bs| == 8
    ensures Get(bs) ==
            bs[0] as nat * 0x100_0000_0000_0000 + bs[1] as nat * 0x1_0000_0000_0000
            + bs[2] as nat * 0x100_0000_0000 + bs[3] as nat * 0x1_0000_0000
            + bs[4] as nat * 0x100_0000 + bs[5] as nat * 0x1_0000 + bs[6] as nat * 0x100 + bs[7] as nat
  {
    hide Get;
    assert bs == (((bs[..4] + [bs[4]]) + [bs[5]]) + [bs[6]]) + [bs[7]];
    GetSnoc(((bs[..4] + [bs[4]]) + [bs[5]]) + [bs[6]], bs[7]);
    GetSnoc((bs[..4] + [bs[4]]) + [bs[5]], bs[6]);
    GetSnoc(bs[..4] + [bs[4]], bs[5]);
    GetSnoc(bs[..4], bs[4]);
    GetFour(bs[..4]);
  }

  /** Numbers that differ and fit have different fields. */
  lemma PutIsInjective(m: nat, n: nat, width: nat)
    requires m < Numeral.Power(256, width) && n < Numeral.Power(256, width) && m != n
    ensures Put(m, width) != Put(n, width)
  {
    GetPut(m, width);
    GetPut(n, width);
  }
}
