/** The syntax of JSON texts, said without the decoder (sections 2 to 7 of RFC 8259): what each text means, that the
  * decoder reads exactly that, and that it reads nothing else. */
module JsonSyntax {
  import opened Results
  import opened JsonText

  // ----- characters -----

  /** d is the hexadecimal digit n, in either case. */
  predicate IsHex(d: char, n: nat) {
    n < 16 && (d == "0123456789abcdef"[n] || d == "0123456789ABCDEF"[n])
  }

  /** t is a backslash, u and the four hexadecimal digits of n. */
  ghost predicate IsUnit(t: string, n: nat) {
    && |t| == 6 && t[0] == '\\' && t[1] == 'u'
    && exists a: nat, b: nat, c: nat, d: nat :: IsHex(t[2], a) && IsHex(t[3], b) && IsHex(t[4], c) && IsHex(t[5], d)
                            && n == a * 4096 + b * 256 + c * 16 + d
  }

  /** The two-character escapes: quote, backslash, slash, and five control characters by letter. */
  predicate IsShort(e: char, c: char) {
    || (e in ['\"', '\\', '/'] && c == e)
    || (e == 'b' && c as int == 8) || (e == 'f' && c as int == 12) || (e == 'n' && c as int == 10)
    || (e == 'r' && c as int == 13) || (e == 't' && c as int == 9)
  }

  /** t is a way of writing c inside a string: as itself, by a short escape, by its number, or, from 0x10000 up, by
    * the numbers of a surrogate pair. */
  ghost predicate Spells(t: string, c: char) {
    || (t == [c] && c as int >= 0x20 && c != '\"' && c != '\\')
    || (|t| == 2 && t[0] == '\\' && IsShort(t[1], c))
    || IsUnit(t, c as int)
    || (|t| == 12 && exists high: nat, low: nat ::
          IsUnit(t[..6], high) && IsUnit(t[6..], low) && 0xD800 <= high <= 0xDBFF && 0xDC00 <= low <= 0xDFFF
          && c as int == 0x1_0000 + (high - 0xD800) * 0x400 + (low - 0xDC00))
  }

  /** Half a surrogate pair alone, which stands for the replacement character. */
  ghost predicate SpellsHalf(t: string, after: string) {
    exists n: nat :: IsUnit(t, n) && 0xD800 <= n <= 0xDFFF && (n >= 0xDC00 || !StartsLow(after))
  }

  ghost predicate StartsLow(s: string) {
    |s| >= 6 && exists low: nat :: IsUnit(s[..6], low) && 0xDC00 <= low <= 0xDFFF
  }

  /** One character of a string and the text that writes it. */
  datatype Part = Part(text: string, c: char)

  function PartsText(ps: seq<Part>): string {
    if ps == [] then "" else ps[0].text + PartsText(ps[1..])
  }

  function PartsMeaning(ps: seq<Part>): string {
    if ps == [] then "" else [ps[0].c] + PartsMeaning(ps[1..])
  }

  ghost predicate Spelling(ps: seq<Part>) {
    ps != [] ==>
      && (Spells(ps[0].text, ps[0].c) || (SpellsHalf(ps[0].text, PartsText(ps[1..])) && ps[0].c == REPLACEMENT))
      && Spelling(ps[1..])
  }

  lemma HexDigit(d: char, n: nat)
    ensures IsHex(d, n) <==> HexOf(d) == n
  {
    if HexOf(d) >= 0 {
      assert IsHex(d, HexOf(d));
    }
  }

  lemma UnitRead(t: string, n: nat, rest: string)
    requires IsUnit(t, n)
    ensures n < 0x1_0000 && ReadU4(t + rest) == n && (t + rest)[6..] == rest
  {
    hide IsHex, HexOf;
    var a: nat, b: nat, c: nat, d: nat :| IsHex(t[2], a) && IsHex(t[3], b) && IsHex(t[4], c) && IsHex(t[5], d)
                      && n == a * 4096 + b * 256 + c * 16 + d;
    HexDigit(t[2], a);
    HexDigit(t[3], b);
    HexDigit(t[4], c);
    HexDigit(t[5], d);
    assert forall i :: 0 <= i < 6 ==> (t + rest)[i] == t[i];
  }

  lemma ReadIsUnit(s: string)
    requires ReadU4(s) >= 0
    ensures IsUnit(s[..6], ReadU4(s))
  {
    hide IsHex, HexOf;
    HexDigit(s[2], HexOf(s[2]));
    HexDigit(s[3], HexOf(s[3]));
    HexDigit(s[4], HexOf(s[4]));
    HexDigit(s[5], HexOf(s[5]));
    var t := s[..6];
    assert forall i :: 0 <= i < 6 ==> t[i] == s[i];
  }

  /** The decoder reads any spelling of a character as that character. */
  lemma SpelledIsRead(t: string, c: char, rest: string)
    requires Spells(t, c)
    ensures t != "" && t[0] != '\"' && ScanChar(t + rest) == Got(c, rest)
  {
    hide ReadU4, IsUnit;
    var s := t + rest;
    if t == [c] && c as int >= 0x20 && c != '\"' && c != '\\' {
      assert s[1..] == rest;
    } else if |t| == 2 && t[0] == '\\' && IsShort(t[1], c) {
      assert s[0] == '\\' && s[1] == t[1] && s[2..] == rest;
    } else if IsUnit(t, c as int) {
      UnitShape(t, c as int);
      UnitRead(t, c as int, rest);
      assert s[0] == '\\' && s[1] == 'u';
    } else {
      var high: nat, low: nat :| IsUnit(t[..6], high) && IsUnit(t[6..], low) && 0xD800 <= high <= 0xDBFF && 0xDC00 <= low <= 0xDFFF
                       && c as int == 0x1_0000 + (high - 0xD800) * 0x400 + (low - 0xDC00);
      PairRead(t, high, low, rest);
      UnitShape(t[..6], high);
      assert s[0] == '\\' && s[1] == 'u';
    }
  }

  lemma UnitShape(t: string, n: nat)
    requires IsUnit(t, n)
    ensures |t| == 6 && t[0] == '\\' && t[1] == 'u'
  {
  }

  lemma PairRead(t: string, high: nat, low: nat, rest: string)
    requires |t| == 12 && IsUnit(t[..6], high) && IsUnit(t[6..], low)
    ensures ReadU4(t + rest) == high && ReadU4((t + rest)[6..]) == low && (t + rest)[12..] == rest
  {
    hide ReadU4, IsUnit;
    assert t + rest == t[..6] + (t[6..] + rest);
    UnitRead(t[..6], high, t[6..] + rest);
    UnitRead(t[6..], low, rest);
    assert (t + rest)[6..] == t[6..] + rest;
  }

  /** ... and half a pair as the replacement character. */
  lemma HalfIsRead(t: string, after: string, rest: string)
    requires SpellsHalf(t, after)
    ensures t != "" && t[0] != '\"' && ScanChar(t + (after + (['\"'] + rest))) == Got(REPLACEMENT, after + (['\"'] + rest))
  {
    hide ReadU4, IsUnit;
    var n: nat :| IsUnit(t, n) && 0xD800 <= n <= 0xDFFF && (n >= 0xDC00 || !StartsLow(after));
    var tail := after + (['\"'] + rest);
    UnitShape(t, n);
    UnitRead(t, n, tail);
    assert (t + tail)[0] == '\\' && (t + tail)[1] == 'u';
    if n < 0xDC00 {
      NoLow(after, rest);
    }
  }

  lemma NoLow(after: string, rest: string)
    requires !StartsLow(after)
    ensures !(0xDC00 <= ReadU4(after + (['\"'] + rest)) <= 0xDFFF)
  {
    var tail := after + (['\"'] + rest);
    assert |after| >= 6 ==> tail[..6] == after[..6];
    assert tail[|after|] == '\"';
    if 0xDC00 <= ReadU4(tail) <= 0xDFFF {
      ReadIsUnit(tail);
    }
  }

  /** The decoder reads any spelling of a string, up to the closing quote, as that string. */
  lemma {:induction false} SpellingIsRead(ps: seq<Part>, rest: string)
    requires Spelling(ps)
    ensures ScanChars(PartsText(ps) + (['\"'] + rest)) == Got(PartsMeaning(ps), rest)
    decreases |ps|
  {
    hide ScanChar, Spells, SpellsHalf;
    var s := PartsText(ps) + (['\"'] + rest);
    if ps == [] {
      assert s[0] == '\"' && s[1..] == rest;
    } else {
      var p, after := ps[0], PartsText(ps[1..]);
      assert s == p.text + (after + (['\"'] + rest));
      if Spells(p.text, p.c) {
        SpelledIsRead(p.text, p.c, after + (['\"'] + rest));
      } else {
        HalfIsRead(p.text, after, rest);
      }
      assert s[0] == p.text[0];
      SpellingIsRead(ps[1..], rest);
    }
  }

  // ----- and nothing else is read -----

  lemma ReadIsSpelled(s: string) returns (t: string)
    requires s != "" && s[0] != '\"' && ScanChar(s).Got?
    ensures s == t + ScanChar(s).rest
    ensures Spells(t, ScanChar(s).value) || (HalfHere(t, ScanChar(s).rest) && ScanChar(s).value == REPLACEMENT)
  {
    hide ReadU4, IsUnit;
    var r := ScanChar(s);
    if s[0] == '\\' && s[1] == 'u' {
      ReadIsUnit(s);
      var n := ReadU4(s);
      if 0xD800 <= n <= 0xDBFF && 0xDC00 <= ReadU4(s[6..]) <= 0xDFFF {
        ReadIsUnit(s[6..]);
        t := s[..12];
        assert t[..6] == s[..6] && t[6..] == s[6..][..6];
        assert IsUnit(t[..6], n) && IsUnit(t[6..], ReadU4(s[6..]));
      } else {
        t := s[..6];
        assert IsUnit(t, n);
      }
    } else if s[0] == '\\' {
      t := s[..2];
    } else {
      t := s[..1];
    }
  }

  /** Half a pair, with no low half after it. */
  ghost predicate HalfHere(t: string, rest: string) {
    exists n: nat :: IsUnit(t, n) && 0xD800 <= n <= 0xDFFF && (n >= 0xDC00 || !(0xDC00 <= ReadU4(rest) <= 0xDFFF))
  }

  lemma {:induction false} ReadIsSpelling(s: string) returns (ps: seq<Part>)
    requires ScanChars(s).Got?
    ensures Spelling(ps) && PartsMeaning(ps) == ScanChars(s).value
    ensures s == PartsText(ps) + (['\"'] + ScanChars(s).rest)
    decreases |s|
  {
    hide ScanChar, Spells, SpellsHalf, HalfHere;
    if s[0] == '\"' {
      ps := [];
      assert s == [s[0]] + s[1..];
    } else {
      var t := ReadIsSpelled(s);
      var more := ReadIsSpelling(ScanChar(s).rest);
      ps := [Part(t, ScanChar(s).value)] + more;
      assert ps[1..] == more;
      if !Spells(t, ScanChar(s).value) {
        HalfOfSpelling(t, PartsText(more), ScanChars(s).rest);
      }
    }
  }

  lemma HalfOfSpelling(t: string, after: string, rest: string)
    requires HalfHere(t, after + (['\"'] + rest))
    ensures SpellsHalf(t, after)
  {
    hide ReadU4, IsUnit;
    var tail := after + (['\"'] + rest);
    var n: nat :| IsUnit(t, n) && 0xD800 <= n <= 0xDFFF && (n >= 0xDC00 || !(0xDC00 <= ReadU4(tail) <= 0xDFFF));
    if n < 0xDC00 && StartsLow(after) {
      var low: nat :| IsUnit(after[..6], low) && 0xDC00 <= low <= 0xDFFF;
      assert tail == after[..6] + (after[6..] + (['\"'] + rest));
      UnitRead(after[..6], low, after[6..] + (['\"'] + rest));
    }
  }

  // ----- how the encoder writes -----

  function EscapedParts(s: string): seq<Part> {
    if s == "" then [] else [Part(Escape(s[0]), s[0])] + EscapedParts(s[1..])
  }

  /** The encoder's text of a character is a spelling of it, the shortest there is: escaped only when it must be, or
    * when it is one of the two line separators. */
  lemma EscapeSpells(c: char)
    ensures Spells(Escape(c), c)
    ensures c as int >= 0x20 && c != '\"' && c != '\\' && c as int != 0x2028 && c as int != 0x2029 ==> Escape(c) == [c]
    ensures (exists e :: e != '/' && IsShort(e, c)) ==> |Escape(c)| == 2
  {
    var n := c as int;
    if |Escape(c)| == 6 {
      EscapedUnit(n);
    }
  }

  lemma EscapedUnit(n: nat)
    requires n < 0x1_0000
    ensures IsUnit(U4(n), n)
  {
    hide HexChar, IsHex;
    FourDigits(n);
    HexCharIs(n / 4096);
    HexCharIs(n / 256 % 16);
    HexCharIs(n / 16 % 16);
    HexCharIs(n % 16);
    var t := U4(n);
    assert IsHex(t[2], n / 4096) && IsHex(t[3], n / 256 % 16) && IsHex(t[4], n / 16 % 16) && IsHex(t[5], n % 16);
  }

  lemma HexCharIs(n: nat)
    requires n < 16
    ensures IsHex(HexChar(n), n)
  {
  }

  lemma {:induction false} EscapedSpelling(s: string)
    ensures Spelling(EscapedParts(s)) && PartsText(EscapedParts(s)) == EscapeAll(s) && PartsMeaning(EscapedParts(s)) == s
  {
    hide Spells, Escape;
    if s != "" {
      EscapeSpells(s[0]);
      EscapedSpelling(s[1..]);
      assert EscapedParts(s)[1..] == EscapedParts(s[1..]);
      assert s == [s[0]] + s[1..];
    }
  }

  // ----- numbers -----

  ghost predicate AllDigits(s: string) {
    forall i :: 0 <= i < |s| ==> IsDigit(s[i])
  }

  function Unsigned(s: string): string {
    if s != "" && s[0] == '-' then s[1..] else s
  }

  /** An optional minus, then digits with no leading zero but 0 itself. */
  ghost predicate IsWhole(s: string) {
    Unsigned(s) != "" && AllDigits(Unsigned(s)) && (Unsigned(s)[0] == '0' ==> |Unsigned(s)| == 1)
  }

  ghost predicate IsFraction(s: string) {
    s == "" || (s[0] == '.' && s[1..] != "" && AllDigits(s[1..]))
  }

  function Magnitude(s: string): string
    requires s != ""
  {
    if |s| > 1 && (s[1] == '+' || s[1] == '-') then s[2..] else s[1..]
  }

  ghost predicate IsExponent(s: string) {
    s == "" || ((s[0] == 'e' || s[0] == 'E') && Magnitude(s) != "" && AllDigits(Magnitude(s)))
  }

  ghost predicate IsNumber(t: string) {
    exists whole, fraction, exponent ::
      t == whole + fraction + exponent && IsWhole(whole) && IsFraction(fraction) && IsExponent(exponent)
  }

  lemma {:induction false} RunOf(d: string, tail: string)
    requires AllDigits(d) && (tail != "" ==> !IsDigit(tail[0]))
    ensures DigitRun(d + tail) == |d|
  {
    if d == "" {
      assert d + tail == tail;
    } else {
      assert (d + tail)[1..] == d[1..] + tail;
      RunOf(d[1..], tail);
    }
  }

  lemma WholeRead(s: string, tail: string)
    requires IsWhole(s) && (tail != "" ==> !IsDigit(tail[0]))
    ensures IntegerPart(s + tail) == Some(|s|)
  {
    var sign := |s| - |Unsigned(s)|;
    assert (s + tail)[sign..] == Unsigned(s) + tail;
    assert (s + tail)[sign] == Unsigned(s)[0] && (s + tail)[0] == s[0];
    RunOf(Unsigned(s), tail);
  }

  lemma FractionRead(s: string, tail: string)
    requires IsFraction(s) && (tail != "" ==> !IsDigit(tail[0]) && tail[0] != '.')
    ensures FractionPart(s + tail) == Some(|s|)
  {
    if s == "" {
      assert s + tail == tail;
    } else {
      assert (s + tail)[1..] == s[1..] + tail;
      RunOf(s[1..], tail);
    }
  }

  lemma ExponentRead(s: string)
    requires IsExponent(s)
    ensures ExponentPart(s) == Some(|s|)
  {
    if s != "" {
      RunOf(Magnitude(s), "");
      assert Magnitude(s) + "" == Magnitude(s);
    }
  }

  lemma NumberParts(t: string)
    requires ValidNumber(t)
    ensures IsNumber(t)
  {
    hide IntegerPart, FractionPart, ExponentPart, IsWhole, IsFraction, IsExponent;
    var i := IntegerPart(t).value;
    var f := FractionPart(t[i..]).value;
    WholeOf(t);
    FractionOf(t[i..]);
    ExponentOf(t[i + f..]);
    assert t[i..][..f] == t[i..i + f];
    ThreeSlices(t, i, i + f);
  }

  lemma ThreeSlices(t: string, i: nat, j: nat)
    requires i <= j <= |t|
    ensures t == t[..i] + t[i..j] + t[j..]
  {
  }

  lemma WholeOf(s: string)
    requires IntegerPart(s).Some?
    ensures IsWhole(s[..IntegerPart(s).value])
  {
    var sign := if s[0] == '-' then 1 else 0;
    var w := s[..IntegerPart(s).value];
    assert Unsigned(w) == w[sign..];
    assert forall k :: 0 <= k < |w| - sign ==> w[sign..][k] == s[sign..][k];
  }

  lemma FractionOf(s: string)
    requires FractionPart(s).Some?
    ensures IsFraction(s[..FractionPart(s).value])
  {
    var w := s[..FractionPart(s).value];
    assert w != "" ==> forall k :: 0 <= k < |w| - 1 ==> w[1..][k] == s[1..][k];
  }

  lemma ExponentOf(s: string)
    requires ExponentPart(s) == Some(|s|)
    ensures IsExponent(s)
  {
  }

  /** Number literals are exactly those of the grammar. */
  lemma NumberGrammar(t: string)
    ensures IsNumber(t) <==> ValidNumber(t)
  {
    hide IntegerPart, FractionPart, ExponentPart, IsWhole, IsFraction, IsExponent;
    if ValidNumber(t) {
      NumberParts(t);
    }
    if IsNumber(t) {
      var whole, fraction, exponent :|
        t == whole + fraction + exponent && IsWhole(whole) && IsFraction(fraction) && IsExponent(exponent);
      Follows(fraction, exponent);
      assert t == whole + (fraction + exponent);
      WholeRead(whole, fraction + exponent);
      assert t[|whole|..] == fraction + exponent;
      FractionRead(fraction, exponent);
      assert t[|whole| + |fraction|..] == exponent;
      ExponentRead(exponent);
      assert t[..|t|] == t && t[|t|..] == "";
    }
  }

  lemma Follows(fraction: string, exponent: string)
    requires IsFraction(fraction) && IsExponent(exponent)
    ensures exponent != "" ==> !IsDigit(exponent[0]) && exponent[0] != '.'
    ensures fraction + exponent != "" ==> !IsDigit((fraction + exponent)[0])
  {
    assert fraction == "" ==> fraction + exponent == exponent;
  }
}
