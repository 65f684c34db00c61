/** Positional numerals, most significant digit first, as the wire codecs and base58 use them. */
module Numerals {
  import opened Results

  type Byte = x: int | 0 <= x < 256

  ghost predicate DigitsOf(base: nat, ds: seq<nat>) {
    forall i :: 0 <= i < |ds| ==> ds[i] < base
  }

  function Value(base: nat, ds: seq<nat>): nat {
    if ds == [] then 0 else Value(base, ds[..|ds| - 1]) * base + ds[|ds| - 1]
  }

  /** The digits of n without leading zeros; 0 has no digits. */
  function Numeral(base: nat, n: nat): (ds: seq<nat>)
    requires base >= 2
    ensures forall i :: 0 <= i < |ds| ==> ds[i] < base
    ensures ds != [] ==> ds[0] != 0
    ensures n == 0 <==> ds == []
  {
    if n == 0 then [] else Numeral(base, n / base) + [n % base]
  }

  lemma DivModId(n: nat, base: nat)
    requires base > 0
    ensures n == n / base * base + n % base
  {
  }

  lemma DivShrinks(n: nat, base: nat)
    requires base >= 2 && n > 0
    ensures 0 <= n / base < n
  {
  }

  lemma SmallMultiple(x: int, base: int)
    requires -base < x * base < base
    ensures x == 0
  {
  }

  lemma DivModOf(base: nat, q: nat, d: nat)
    requires d < base
    ensures (q * base + d) / base == q && (q * base + d) % base == d
  {
    var n := q * base + d;
    var k, r := n / base, n % base;
    DivModId(n, base);
    assert (q - k) * base == q * base - k * base == r - d;
    SmallMultiple(q - k, base);
  }

  lemma ValueSnoc(base: nat, front: seq<nat>, d: nat)
    ensures Value(base, front + [d]) == Value(base, front) * base + d
  {
    var ds := front + [d];
    assert ds[..|ds| - 1] == front;
  }

  lemma {:induction false} ValueOfNumeral(base: nat, n: nat)
    requires base >= 2
    ensures Value(base, Numeral(base, n)) == n
  {
    if n != 0 {
      DivShrinks(n, base);
      var q, d := n / base, n % base;
      ValueOfNumeral(base, q);
      ValueSnoc(base, Numeral(base, q), d);
      DivModId(n, base);
    }
  }

  lemma NumeralSnoc(base: nat, v: nat, d: nat)
    requires base >= 2 && d < base && (v > 0 || d > 0)
    ensures Numeral(base, v * base + d) == Numeral(base, v) + [d]
  {
    DivModOf(base, v, d);
    assert v > 0 ==> v * base > 0;
  }

  lemma {:induction false} NumeralOfValue(base: nat, ds: seq<nat>)
    requires base >= 2 && DigitsOf(base, ds)
    requires ds != [] ==> ds[0] != 0
    ensures Numeral(base, Value(base, ds)) == ds
  {
    if ds != [] {
      var front, d := ds[..|ds| - 1], ds[|ds| - 1];
      NumeralOfValue(base, front);
      assert ds == front + [d];
      ValueSnoc(base, front, d);
      NumeralSnoc(base, Value(base, front), d);
    }
  }

  // ----- big-endian bytes of a fixed width -----

  /** The k lowest bytes of n. */
  function BigEndian(n: nat, k: nat): (bs: seq<Byte>)
    ensures |bs| == k
    decreases k
  {
    if k == 0 then [] else BigEndian(n / 256, k - 1) + [n % 256]
  }

  /** n fits in k bytes. */
  predicate Fits(n: nat, k: nat)
    decreases k
  {
    if k == 0 then n == 0 else Fits(n / 256, k - 1)
  }

  lemma {:induction false} ValueOfBigEndian(n: nat, k: nat)
    requires Fits(n, k)
    ensures Value(256, BigEndian(n, k)) == n
  {
    if k > 0 {
      ValueOfBigEndian(n / 256, k - 1);
      ValueSnoc(256, BigEndian(n / 256, k - 1), n % 256);
    }
  }

  lemma {:induction false} BigEndianOfValue(bs: seq<Byte>)
    ensures Fits(Value(256, bs), |bs|)
    ensures BigEndian(Value(256, bs), |bs|) == bs
  {
    if bs != [] {
      var front, d := bs[..|bs| - 1], bs[|bs| - 1];
      BigEndianOfValue(front);
      assert bs == front + [d];
      ValueSnoc(256, front, d);
    }
  }

  lemma FitsIn16(n: nat)
    ensures Fits(n, 2) <==> n < 0x1_0000
  {
    assert Fits(n, 2) <==> Fits(n / 256, 1);
    assert Fits(n / 256, 1) <==> Fits(n / 256 / 256, 0);
  }

  lemma FitsIn32(n: nat)
    ensures Fits(n, 4) <==> n < 0x1_0000_0000
  {
    assert Fits(n, 4) <==> Fits(n / 256, 3);
    assert Fits(n / 256, 3) <==> Fits(n / 256 / 256, 2);
    FitsIn16(n / 256 / 256);
  }

  lemma FitsIn64(n: nat)
    ensures Fits(n, 8) <==> n < 0x1_0000_0000_0000_0000
  {
    var a := n / 256;
    var b := a / 256;
    var c := b / 256;
    assert Fits(n, 8) <==> Fits(a, 7);
    assert Fits(a, 7) <==> Fits(b, 6);
    assert Fits(b, 6) <==> Fits(c, 5);
    assert Fits(c, 5) <==> Fits(c / 256, 4);
    FitsIn32(c / 256);
  }

  // ----- little-endian bytes of a fixed width -----

  function LittleEndian(n: nat, k: nat): (bs: seq<Byte>)
    ensures |bs| == k
    decreases k
  {
    if k == 0 then [] else [n % 256] + LittleEndian(n / 256, k - 1)
  }

  function FromLittleEndian(bs: seq<Byte>): nat {
    if bs == [] then 0 else bs[0] as int + 256 * FromLittleEndian(bs[1..])
  }

  lemma {:induction false} FromLittleEndianOf(n: nat, k: nat)
    requires Fits(n, k)
    ensures FromLittleEndian(LittleEndian(n, k)) == n
  {
    if k > 0 {
      FromLittleEndianOf(n / 256, k - 1);
      assert LittleEndian(n, k)[1..] == LittleEndian(n / 256, k - 1);
    }
  }

  lemma {:induction false} LittleEndianOfFrom(bs: seq<Byte>)
    ensures LittleEndian(FromLittleEndian(bs), |bs|) == bs
    ensures Fits(FromLittleEndian(bs), |bs|)
  {
    if bs != [] {
      LittleEndianOfFrom(bs[1..]);
      var n := FromLittleEndian(bs);
      assert n / 256 == FromLittleEndian(bs[1..]) && n % 256 == bs[0];
    }
  }

  // ----- decimal text -----

  predicate IsDecimal(c: char) { '0' <= c <= '9' }

  function DigitChar(d: nat): (c: char)
    requires d < 10
    ensures IsDecimal(c) && (c - '0') as nat == d
  {
    '0' + d as char
  }

  /** n without leading zeros, so nothing for 0. */
  function Decimal(n: nat): (t: string)
    ensures t == "" <==> n == 0
  {
    var ds := Numeral(10, n);
    seq(|ds|, i requires 0 <= i < |ds| => DigitChar(ds[i]))
  }

  function ReadDecimal(t: string): Option<nat> {
    if forall i :: 0 <= i < |t| ==> IsDecimal(t[i])
    then Some(Value(10, seq(|t|, i requires 0 <= i < |t| => (t[i] - '0') as nat)))
    else None
  }

  lemma DecimalReadsBack(n: nat)
    ensures ReadDecimal(Decimal(n)) == Some(n)
  {
    hide Numeral, Value, DigitChar;
    var ds, t := Numeral(10, n), Decimal(n);
    ValueOfNumeral(10, n);
    assert seq(|t|, i requires 0 <= i < |t| => (t[i] - '0') as nat) == ds;
  }

  function FormatUint(n: nat): string {
    if n == 0 then "0" else Decimal(n)
  }

  lemma FormatReadsBack(n: nat)
    ensures ReadDecimal(FormatUint(n)) == Some(n) && FormatUint(n) != ""
  {
    hide Decimal;
    if n == 0 {
      ZeroReads();
    } else {
      DecimalReadsBack(n);
    }
  }

  lemma ZeroReads()
    ensures ReadDecimal("0") == Some(0)
  {
    var ds := seq(1, i requires 0 <= i < 1 => ("0"[i] - '0') as nat);
    assert ds == [0] && ds[..0] == [];
    assert Value(10, ds[..0]) == 0;
  }

  /** t writes n in decimal digits, without leading zeros. */
  ghost predicate Writes(t: string, n: nat) {
    t != "" && ReadDecimal(t) == Some(n) && (|t| > 1 ==> t[0] != '0')
  }

  lemma DecimalDigits(n: nat)
    ensures forall i :: 0 <= i < |Decimal(n)| ==> IsDecimal(Decimal(n)[i])
    ensures n > 0 ==> Decimal(n) != "" && Decimal(n)[0] != '0'
  {
    hide Numeral;
  }

  /** The text of a number is the only one that writes it. */
  lemma FormatWritten(t: string, n: nat)
    ensures Writes(t, n) <==> t == FormatUint(n)
  {
    hide Value, Numeral, Decimal, ReadDecimal;
    if n == 0 {
      ZeroWritten(t);
    } else {
      DecimalReadsBack(n);
      DecimalDigits(n);
      if Writes(t, n) {
        WrittenIsDecimal(t, n);
      }
    }
  }

  lemma ZeroWritten(t: string)
    ensures Writes(t, 0) <==> t == "0"
  {
    hide Value;
    if Writes(t, 0) {
      var ds := seq(|t|, i requires 0 <= i < |t| => (t[i] - '0') as nat);
      if ds[0] != 0 {
        ValuePositive(ds);
      } else {
        assert t == "0";
      }
    }
    ZeroReads();
  }

  lemma WrittenIsDecimal(t: string, n: nat)
    requires Writes(t, n) && n > 0
    ensures t == Decimal(n)
  {
    hide Value, Numeral;
    var ds := seq(|t|, i requires 0 <= i < |t| => (t[i] - '0') as nat);
    if t == "0" {
      assert ds == [0];
      ZeroValue();
    }
    NumeralOfValue(10, ds);
    assert Numeral(10, n) == ds;
    assert forall i :: 0 <= i < |t| ==> DigitChar(ds[i]) == t[i];
  }

  lemma ZeroValue()
    ensures Value(10, [0]) == 0
  {
    assert [0][..0] == [];
  }

  lemma {:induction false} ValuePositive(ds: seq<nat>)
    requires ds != [] && ds[0] > 0
    ensures Value(10, ds) > 0
  {
    if |ds| > 1 {
      ValuePositive(ds[..|ds| - 1]);
    }
  }
}
