/** Base58 with a caller-chosen alphabet (internal/chain/base58/base58.go). */
module Base58 {
  import opened Numerals
  import opened Results

  function Zeros(k: nat): seq<nat> { seq(k, _ => 0) }

  /** How many times c repeats at the start of t. */
  function FirstRun(t: seq<nat>, c: nat): (z: nat)
    ensures z <= |t| && (forall i :: 0 <= i < z ==> t[i] == c) && (z < |t| ==> t[z] != c)
  {
    if t == [] || t[0] != c then 0 else 1 + FirstRun(t[1..], c)
  }

  lemma FirstRunUnique(t: seq<nat>, c: nat, z: nat)
    requires z <= |t| && (forall i :: 0 <= i < z ==> t[i] == c) && (z < |t| ==> t[z] != c)
    ensures FirstRun(t, c) == z
  {
  }

  /** Rewrite digits of base `from` in base `to`, keeping each leading zero. */
  function Recode(from: nat, to: nat, ds: seq<nat>): seq<nat>
    requires to >= 2
  {
    Zeros(FirstRun(ds, 0)) + Numeral(to, Value(from, ds))
  }

  lemma {:induction false} ValueSkipsZeros(base: nat, k: nat, ds: seq<nat>)
    ensures Value(base, Zeros(k) + ds) == Value(base, ds)
    decreases k + |ds|
  {
    var all := Zeros(k) + ds;
    if ds != [] {
      assert all[..|all| - 1] == Zeros(k) + ds[..|ds| - 1];
      ValueSkipsZeros(base, k, ds[..|ds| - 1]);
    } else if k > 0 {
      assert all[..|all| - 1] == Zeros(k - 1) + [];
      ValueSkipsZeros(base, k - 1, []);
    }
  }

  /** Changing base and back is the identity on every digit string. */
  lemma RecodeInverse(from: nat, to: nat, ds: seq<nat>)
    requires from >= 2 && to >= 2 && DigitsOf(from, ds)
    ensures DigitsOf(to, Recode(from, to, ds))
    ensures Recode(to, from, Recode(from, to, ds)) == ds
  {
    hide Value, Numeral, FirstRun;
    var z := FirstRun(ds, 0);
    var core := ds[z..];
    var v := Value(from, ds);
    assert ds == Zeros(z) + core;
    ValueSkipsZeros(from, z, core);
    FirstRunUnique(Zeros(z) + Numeral(to, v), 0, z);
    ValueSkipsZeros(to, z, Numeral(to, v));
    ValueOfNumeral(to, v);
    NumeralOfValue(from, core);
  }

  // ----- symbols -----

  /** The index recorded for symbol c: its last position in the alphabet, or -1. */
  function IndexOf(symbols: seq<nat>, c: nat): (i: int)
    ensures i < 0 <==> c !in symbols
    ensures -1 <= i < |symbols|
    ensures i >= 0 ==> symbols[i] == c
  {
    if symbols == [] then -1
    else if symbols[|symbols| - 1] == c then |symbols| - 1
    else IndexOf(symbols[..|symbols| - 1], c)
  }

  ghost predicate Distinct(symbols: seq<nat>) {
    forall i, j :: 0 <= i < j < |symbols| ==> symbols[i] != symbols[j]
  }

  function Spell(symbols: seq<nat>, ds: seq<nat>): (t: seq<nat>)
    requires forall i :: 0 <= i < |ds| ==> ds[i] < |symbols|
    ensures |t| == |ds| && forall i :: 0 <= i < |ds| ==> t[i] == symbols[ds[i]]
  {
    seq(|ds|, i requires 0 <= i < |ds| => symbols[ds[i]])
  }

  function EncodeText(symbols: seq<nat>, b: seq<nat>): seq<nat>
    requires |symbols| == 58
  {
    Spell(symbols, Recode(256, 58, b))
  }

  function DigitsIn(symbols: seq<nat>, t: seq<nat>): (ds: seq<nat>)
    requires forall c :: c in t ==> c in symbols
    ensures |ds| == |t| && forall i :: 0 <= i < |t| ==> ds[i] < |symbols| && ds[i] == IndexOf(symbols, t[i])
  {
    seq(|t|, i requires 0 <= i < |t| => IndexOf(symbols, t[i]))
  }

  /** What Decode returns; leading zeros are counted by comparing symbols, not digits. */
  function DecodeText(symbols: seq<nat>, t: seq<nat>): Result<seq<nat>>
    requires |symbols| == 58
  {
    if t == [] then Err("base58: empty string")
    else if exists c :: c in t && c !in symbols then Err("base58: invalid character")
    else Ok(Zeros(FirstRun(t, symbols[0])) + Numeral(256, Value(58, DigitsIn(symbols, t))))
  }

  lemma IndexOfSymbol(symbols: seq<nat>, i: nat)
    requires Distinct(symbols) && i < |symbols|
    ensures IndexOf(symbols, symbols[i]) == i
  {
  }

  lemma NoDigits(symbols: seq<nat>)
    ensures Value(58, DigitsIn(symbols, [])) == 0
  {
  }

  lemma OneMoreDigit(symbols: seq<nat>, t: seq<nat>, i: nat)
    requires i < |t| && t[i] in symbols && forall c :: c in t[..i] ==> c in symbols
    ensures forall c :: c in t[..i + 1] ==> c in symbols
    ensures Value(58, DigitsIn(symbols, t[..i + 1])) == Value(58, DigitsIn(symbols, t[..i])) * 58 + IndexOf(symbols, t[i])
  {
    hide IndexOf;
    assert t[..i + 1] == t[..i] + [t[i]];
    var ds := DigitsIn(symbols, t[..i + 1]);
    assert ds[..|ds| - 1] == DigitsIn(symbols, t[..i]);
  }

  lemma RunIsLeadingZeros(symbols: seq<nat>, t: seq<nat>)
    requires |symbols| == 58 && Distinct(symbols)
    requires forall c :: c in t ==> c in symbols
    ensures FirstRun(t, symbols[0]) == FirstRun(DigitsIn(symbols, t), 0)
  {
    IndexOfSymbol(symbols, 0);
    FirstRunUnique(DigitsIn(symbols, t), 0, FirstRun(t, symbols[0]));
  }

  /** For distinct symbols, decoding text is changing its digits from base 58 to base 256. */
  lemma DecodeIsRecode(symbols: seq<nat>, t: seq<nat>)
    requires |symbols| == 58 && Distinct(symbols) && t != []
    requires forall c :: c in t ==> c in symbols
    ensures DecodeText(symbols, t) == Ok(Recode(58, 256, DigitsIn(symbols, t)))
  {
    RunIsLeadingZeros(symbols, t);
  }

  lemma RecodeEmpty(from: nat, to: nat, ds: seq<nat>)
    requires to >= 2
    ensures ds == [] ==> Recode(from, to, ds) == []
    ensures from >= 2 && DigitsOf(from, ds) && Recode(from, to, ds) == [] ==> ds == []
  {
    if from >= 2 && DigitsOf(from, ds) && Recode(from, to, ds) == [] {
      RecodeInverse(from, to, ds);
    }
  }

  lemma DigitsOfSpelling(symbols: seq<nat>, ds: seq<nat>)
    requires Distinct(symbols) && forall i :: 0 <= i < |ds| ==> ds[i] < |symbols|
    ensures forall c :: c in Spell(symbols, ds) ==> c in symbols
    ensures DigitsIn(symbols, Spell(symbols, ds)) == ds
  {
    forall i | 0 <= i < |ds| ensures IndexOf(symbols, symbols[ds[i]]) == ds[i] {
      IndexOfSymbol(symbols, ds[i]);
    }
  }

  /** Decode undoes Encode on every byte string but the empty one, whose text is empty and refused. */
  lemma DecodeEncode(symbols: seq<nat>, b: seq<nat>)
    requires |symbols| == 58 && Distinct(symbols) && DigitsOf(256, b)
    ensures DecodeText(symbols, EncodeText(symbols, b)) == Ok(b) <==> b != []
  {
    var ds := Recode(256, 58, b);
    RecodeInverse(256, 58, b);
    RecodeEmpty(256, 58, b);
    if b != [] {
      DigitsOfSpelling(symbols, ds);
      DecodeIsRecode(symbols, Spell(symbols, ds));
    }
  }

  /** Encode undoes Decode: no two texts decode to the same bytes. */
  lemma EncodeDecode(symbols: seq<nat>, t: seq<nat>)
    requires |symbols| == 58 && Distinct(symbols)
    ensures DecodeText(symbols, t).Ok? <==> t != [] && forall c :: c in t ==> c in symbols
    ensures DecodeText(symbols, t).Ok? ==>
              DigitsOf(256, DecodeText(symbols, t).value) &&
              EncodeText(symbols, DecodeText(symbols, t).value) == t
  {
    if t != [] && forall c :: c in t ==> c in symbols {
      DecodeIsRecode(symbols, t);
      RecodeInverse(58, 256, DigitsIn(symbols, t));
    }
  }

  /** The text and the bytes are the same number, written after as many zero digits as there are zero bytes and without
    * more of them. */
  lemma SameNumber(symbols: seq<nat>, b: seq<nat>)
    requires |symbols| == 58 && Distinct(symbols) && DigitsOf(256, b)
    ensures var t, z := EncodeText(symbols, b), FirstRun(b, 0);
            && (forall c :: c in t ==> c in symbols)
            && Value(58, DigitsIn(symbols, t)) == Value(256, b) && FirstRun(t, symbols[0]) == z
            && (|t| == z <==> Value(256, b) == 0)
  {
    hide Value, FirstRun, Numeral;
    var z, v := FirstRun(b, 0), Value(256, b);
    var ds := Recode(256, 58, b);
    RecodeInverse(256, 58, b);
    DigitsOfSpelling(symbols, ds);
    ValueSkipsZeros(58, z, Numeral(58, v));
    ValueOfNumeral(58, v);
    FirstRunUnique(ds, 0, z);
    RunIsLeadingZeros(symbols, Spell(symbols, ds));
  }

  /** Two zero bytes and 256 are two zero digits and 4 * 58 + 24; decoding gives the bytes back. */
  lemma Example(symbols: seq<nat>)
    requires |symbols| == 58 && Distinct(symbols)
    ensures EncodeText(symbols, [0, 0, 1, 0]) == [symbols[0], symbols[0], symbols[4], symbols[24]]
    ensures DecodeText(symbols, [symbols[0], symbols[0], symbols[4], symbols[24]]) == Ok([0, 0, 1, 0])
  {
    var b: seq<nat> := [0, 0, 1, 0];
    FirstRunUnique(b, 0, 2);
    ValueOf256(b);
    assert Numeral(58, 256) == Numeral(58, 4) + [24];
    assert Numeral(58, 4) == Numeral(58, 0) + [4];
    assert Zeros(2) + [4, 24] == [0, 0, 4, 24];
    assert Recode(256, 58, b) == [0, 0, 4, 24];
    DecodeEncode(symbols, b);
  }

  lemma ValueOf256(b: seq<nat>)
    requires b == [0, 0, 1, 0]
    ensures Value(256, b) == 256
  {
    var none: seq<nat> := [];
    ValueSnoc(256, none, 0);
    ValueSnoc(256, [0], 0);
    ValueSnoc(256, [0, 0], 1);
    ValueSnoc(256, [0, 0, 1], 0);
    assert none + [0] == [0] && [0] + [0] == [0, 0] && [0, 0] + [1] == [0, 0, 1] && [0, 0, 1] + [0] == b;
  }

  /** Distinct byte strings have distinct texts. */
  lemma EncodeInjective(symbols: seq<nat>, a: seq<nat>, b: seq<nat>)
    requires |symbols| == 58 && Distinct(symbols) && DigitsOf(256, a) && DigitsOf(256, b)
    requires EncodeText(symbols, a) == EncodeText(symbols, b)
    ensures a == b
  {
    DecodeEncode(symbols, a);
    DecodeEncode(symbols, b);
  }

  // ----- the tables and the loops -----

  /** out spells the digits ds backwards. */
  ghost predicate Spells(symbols: seq<nat>, ds: seq<nat>, out: seq<nat>) {
    |out| == |ds| && forall i :: 0 <= i < |ds| ==> ds[i] < |symbols| && out[|ds| - 1 - i] == symbols[ds[i]]
  }

  lemma SpellsMore(symbols: seq<nat>, ds: seq<nat>, out: seq<nat>, d: nat)
    requires Spells(symbols, ds, out) && d < |symbols|
    ensures Spells(symbols, [d] + ds, out + [symbols[d]])
  {
  }

  lemma SpelledBackwards(symbols: seq<nat>, ds: seq<nat>, out: seq<nat>, text: seq<nat>)
    requires Spells(symbols, ds, out)
    requires |text| == |out| && forall k :: 0 <= k < |out| ==> text[k] == out[|out| - 1 - k]
    ensures text == Spell(symbols, ds)
  {
  }

  lemma ZerosMore(k: nat, ds: seq<nat>)
    ensures [0] + (Zeros(k) + ds) == Zeros(k + 1) + ds
  {
  }

  class Alphabet {
    const enc: array<nat>
    const dec: array<int>

    ghost predicate Valid()
      reads this, enc, dec
    {
      && enc.Length == 58 && dec.Length == 256
      && (forall i :: 0 <= i < 58 ==> enc[i] < 256)
      && (forall c :: 0 <= c < 256 ==> dec[c] == IndexOf(enc[..], c))
    }

    constructor (s: seq<nat>)
      requires |s| == 58 && forall i :: 0 <= i < 58 ==> s[i] < 256
      ensures Valid() && enc[..] == s && fresh(enc) && fresh(dec)
    {
      enc := new nat[58];
      dec := new int[256](_ => -1);
      new;
      var i := 0;
      while i < 58
        invariant 0 <= i <= 58
        invariant enc[..i] == s[..i]
        invariant forall c :: 0 <= c < 256 ==> dec[c] == IndexOf(s[..i], c)
      {
        enc[i] := s[i];
        dec[s[i]] := i;
        assert s[..i + 1][..i] == s[..i];
        i := i + 1;
      }
      assert s[..58] == s;
      assert enc[..58] == enc[..];
    }

    method Encode(b: seq<nat>) returns (text: seq<nat>)
      requires Valid() && DigitsOf(256, b)
      ensures text == EncodeText(enc[..], b)
    {
      var zeros := 0;
      while zeros < |b| && b[zeros] == 0
        invariant zeros <= |b| && forall i :: 0 <= i < zeros ==> b[i] == 0
      {
        zeros := zeros + 1;
      }
      FirstRunUnique(b, 0, zeros);
      var n := Value(256, b);
      ghost var symbols, digits := enc[..], Numeral(58, n);
      var out: seq<nat> := [];
      ghost var low: seq<nat> := [];  // digits taken so far, most significant first
      while n > 0
        invariant digits == Numeral(58, n) + low
        invariant Spells(symbols, low, out)
      {
        var q, d := n / 58, n % 58;
        assert Numeral(58, n) + low == Numeral(58, q) + ([d] + low);
        SpellsMore(symbols, low, out, d);
        out, low, n := out + [enc[d]], [d] + low, q;
      }
      var i := 0;
      while i < zeros
        invariant 0 <= i <= zeros
        invariant low == Zeros(i) + digits
        invariant Spells(symbols, low, out)
      {
        SpellsMore(symbols, low, out, 0);
        ZerosMore(i, digits);
        out, low, i := out + [enc[0]], [0] + low, i + 1;
      }
      text := Reversed(out);
      SpelledBackwards(symbols, low, out, text);
    }

    method Decode(s: seq<nat>) returns (r: Result<seq<nat>>)
      requires Valid() && DigitsOf(256, s)
      ensures r == DecodeText(enc[..], s)
    {
      hide Value, Numeral, IndexOf, FirstRun;
      if s == [] {
        return Err("base58: empty string");
      }
      var zeros := 0;
      while zeros < |s| && s[zeros] == enc[0]
        invariant zeros <= |s| && forall i :: 0 <= i < zeros ==> s[i] == enc[0]
      {
        zeros := zeros + 1;
      }
      FirstRunUnique(s, enc[0], zeros);
      NoDigits(enc[..]);
      assert s[..0] == [];
      var n := 0;
      var i := 0;
      while i < |s|
        invariant 0 <= i <= |s|
        invariant forall c :: c in s[..i] ==> c in enc[..]
        invariant n == Value(58, DigitsIn(enc[..], s[..i]))
      {
        var d := dec[s[i]];
        if d < 0 {
          assert s[i] in s && s[i] !in enc[..];
          return Err("base58: invalid character");
        }
        OneMoreDigit(enc[..], s, i);
        n := n * 58 + d;
        i := i + 1;
      }
      assert s[..i] == s;
      r := Ok(Zeros(zeros) + Numeral(256, n));
    }
  }

  method Reverse(a: array<nat>)
    modifies a
    ensures forall k :: 0 <= k < a.Length ==> a[k] == old(a[a.Length - 1 - k])
  {
    var i, j := 0, a.Length - 1;
    while i < j
      invariant 0 <= i && i + j == a.Length - 1 && j >= i - 1
      invariant forall k :: (0 <= k < i || j < k < a.Length) ==> a[k] == old(a[a.Length - 1 - k])
      invariant forall k :: i <= k <= j ==> a[k] == old(a[k])
    {
      a[i], a[j] := a[j], a[i];
      i, j := i + 1, j - 1;
    }
  }

  method Reversed(s: seq<nat>) returns (r: seq<nat>)
    ensures |r| == |s| && forall k :: 0 <= k < |s| ==> r[k] == s[|s| - 1 - k]
  {
    var buffer := new nat[|s|](k requires 0 <= k < |s| => s[k]);
    Reverse(buffer);
    r := buffer[..];
  }
}
