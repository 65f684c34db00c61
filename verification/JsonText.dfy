/**
 * JSON text: the decoder that canonicalizing starts from, and every way of writing a value. Text is a sequence of
 * Unicode scalar values; sorting by UTF-8 bytes and by scalar value is the same order. String syntax is that of
 * section 7 of RFC 8259.
 */
module JsonText {
  import opened Results
  import opened SortedSets

  datatype Json =
    | Null
    | Bool(b: bool)
    | Number(text: string)  // the literal as written
    | Str(s: string)
    | Arr(items: seq<Json>)
    | Obj(members: map<string, Json>)

  /** A scanner takes text from the front and leaves the rest. */
  datatype Scan<+T> = Got(value: T, rest: string) | Bad {
    predicate IsFailure() { Bad? }

    function PropagateFailure<U>(): Scan<U>
      requires Bad?
    {
      Bad
    }

    function Extract(): (T, string)
      requires Got?
    {
      (value, rest)
    }
  }

  // ----- key order -----

  predicate LexLess(a: string, b: string) {
    if b == "" then false
    else if a == "" then true
    else a[0] < b[0] || (a[0] == b[0] && LexLess(a[1..], b[1..]))
  }

  lemma {:induction false} LexIrreflexive(a: string)
    ensures !LexLess(a, a)
  {
    if a != "" { LexIrreflexive(a[1..]); }
  }

  lemma {:induction false} LexConnected(a: string, b: string)
    requires a != b
    ensures LexLess(a, b) || LexLess(b, a)
  {
    if a != "" && b != "" && a[0] == b[0] {
      assert a == [a[0]] + a[1..] && b == [b[0]] + b[1..];
      LexConnected(a[1..], b[1..]);
    }
  }

  lemma {:induction false} LexTransitive(a: string, b: string, c: string)
    requires LexLess(a, b) && LexLess(b, c)
    ensures LexLess(a, c)
  {
    if a != "" && a[0] == b[0] && b[0] == c[0] {
      LexTransitive(a[1..], b[1..], c[1..]);
    }
  }

  lemma LexIsTotal()
    ensures StrictTotalOrder(LexLess)
  {
    forall a, b, c
      ensures !LexLess(a, a)
      ensures a != b ==> LexLess(a, b) || LexLess(b, a)
      ensures LexLess(a, b) && LexLess(b, c) ==> LexLess(a, c)
    {
      LexIrreflexive(a);
      if a != b { LexConnected(a, b); }
      if LexLess(a, b) && LexLess(b, c) { LexTransitive(a, b, c); }
    }
  }

  // ----- strings -----

  function HexChar(n: nat): char
    requires n < 16
  {
    if n < 10 then '0' + n as char else 'a' + (n - 10) as char
  }

  function HexOf(c: char): (n: int)
    ensures -1 <= n < 16
  {
    if '0' <= c <= '9' then (c - '0') as int
    else if 'a' <= c <= 'f' then (c - 'a') as int + 10
    else if 'A' <= c <= 'F' then (c - 'A') as int + 10
    else -1
  }

  function U4(n: nat): string
    requires n < 0x1_0000
  {
    ['\\', 'u', HexChar(n / 4096), HexChar(n / 256 % 16), HexChar(n / 16 % 16), HexChar(n % 16)]
  }

  /** How the encoder writes one character of a string. */
  function Escape(c: char): (t: string)
    ensures t != "" && t[0] != '\"' && (t[0] != '\\' ==> t == [c] && c as int >= 0x20)
  {
    var n := c as int;
    if c == '\"' || c == '\\' then ['\\', c]
    else if n == 0x08 then ['\\', 'b']
    else if n == 0x0c then ['\\', 'f']
    else if n == 0x0a then ['\\', 'n']
    else if n == 0x0d then ['\\', 'r']
    else if n == 0x09 then ['\\', 't']
    else if n < 0x20 || n == 0x2028 || n == 0x2029 then U4(n)
    else [c]
  }

  function EscapeAll(s: string): string {
    if s == "" then "" else Escape(s[0]) + EscapeAll(s[1..])
  }

  function Quote(s: string): string { ['\"'] + EscapeAll(s) + ['\"'] }

  /** Four hexadecimal digits after a backslash and u, or -1. */
  function ReadU4(s: string): (n: int)
    ensures -1 <= n < 0x1_0000
    ensures n >= 0 ==> |s| >= 6
  {
    if |s| < 6 || s[0] != '\\' || s[1] != 'u' || HexOf(s[2]) < 0 || HexOf(s[3]) < 0 || HexOf(s[4]) < 0 || HexOf(s[5]) < 0
    then -1
    else HexOf(s[2]) * 4096 + HexOf(s[3]) * 256 + HexOf(s[4]) * 16 + HexOf(s[5])
  }

  const REPLACEMENT := 0xFFFD as char

  /** A surrogate pair is one character; a lone surrogate is replaced. */
  function ScanUnicode(s: string): (r: Scan<char>)
    ensures r.Got? ==> |r.rest| < |s|
  {
    var n := ReadU4(s);
    if n < 0 then Bad
    else if n < 0xD800 || n > 0xDFFF then Got(n as char, s[6..])
    else
      var low := ReadU4(s[6..]);
      if n <= 0xDBFF && 0xDC00 <= low <= 0xDFFF then
        Got((0x1_0000 + (n - 0xD800) * 0x400 + (low - 0xDC00)) as char, s[12..])
      else Got(REPLACEMENT, s[6..])
  }

  function ScanChar(s: string): (r: Scan<char>)
    requires s != ""
    ensures r.Got? ==> |r.rest| < |s|
  {
    if s[0] as int < 0x20 then Bad
    else if s[0] != '\\' then Got(s[0], s[1..])
    else if |s| < 2 then Bad
    else if s[1] == 'u' then ScanUnicode(s)
    else if s[1] in ['\"', '\\', '/'] then Got(s[1], s[2..])
    else if s[1] == 'b' then Got(0x08 as char, s[2..])
    else if s[1] == 'f' then Got(0x0c as char, s[2..])
    else if s[1] == 'n' then Got(0x0a as char, s[2..])
    else if s[1] == 'r' then Got(0x0d as char, s[2..])
    else if s[1] == 't' then Got(0x09 as char, s[2..])
    else Bad
  }

  /** The characters of a string up to and including its closing quote. */
  function ScanChars(s: string): (r: Scan<string>)
    ensures r.Got? ==> |r.rest| < |s|
    decreases |s|
  {
    if s == "" then Bad
    else if s[0] == '\"' then Got("", s[1..])
    else
      var (c, s) :- ScanChar(s);
      var (cs, s) :- ScanChars(s);
      Got([c] + cs, s)
  }

  lemma HexReadsBack(n: nat)
    requires n < 16
    ensures HexOf(HexChar(n)) == n
  {
  }

  lemma FourDigits(n: nat)
    requires n < 0x1_0000
    ensures n / 4096 < 16
    ensures n == n / 4096 * 4096 + n / 256 % 16 * 256 + n / 16 % 16 * 16 + n % 16
  {
    assert n / 16 / 16 == n / 256 && n / 256 / 16 == n / 4096;
  }

  /** Reading back six characters that spell four given digits. */
  lemma FourRead(s: string, a: nat, b: nat, c: nat, d: nat)
    requires a < 16 && b < 16 && c < 16 && d < 16
    requires |s| >= 6 && s[..6] == ['\\', 'u', HexChar(a), HexChar(b), HexChar(c), HexChar(d)]
    ensures ReadU4(s) == a * 4096 + b * 256 + c * 16 + d
  {
    hide HexOf, HexChar;
    HexReadsBack(a);
    HexReadsBack(b);
    HexReadsBack(c);
    HexReadsBack(d);
    assert s[0] == s[..6][0] && s[1] == s[..6][1] && s[2] == s[..6][2];
    assert s[3] == s[..6][3] && s[4] == s[..6][4] && s[5] == s[..6][5];
  }

  lemma DigitsReadBack(n: nat, rest: string)
    requires n < 0x1_0000
    ensures ReadU4(U4(n) + rest) == n && (U4(n) + rest)[6..] == rest
  {
    hide HexChar, ReadU4;
    var s := U4(n) + rest;
    FourDigits(n);
    assert s[..6] == U4(n);
    FourRead(s, n / 4096, n / 256 % 16, n / 16 % 16, n % 16);
  }

  lemma U4ReadsBack(n: nat, rest: string)
    requires n < 0xD800
    ensures ScanChar(U4(n) + rest) == Got(n as char, rest)
  {
    hide ReadU4, HexChar;
    DigitsReadBack(n, rest);
    var s := U4(n) + rest;
    assert s[0] == '\\' && s[1] == 'u';
  }

  lemma EscapeReadsBack(c: char, rest: string)
    ensures ScanChar(Escape(c) + rest) == Got(c, rest)
  {
    var s := Escape(c) + rest;
    if |Escape(c)| == 6 {
      U4ReadsBack(c as int, rest);
    } else if |Escape(c)| == 2 {
      assert s[2..] == rest;
    } else {
      assert s[1..] == rest;
    }
  }

  lemma {:induction false} StringReadsBack(s: string, rest: string)
    ensures ScanChars(EscapeAll(s) + (['\"'] + rest)) == Got(s, rest)
  {
    hide Escape, ScanChar;
    var t := EscapeAll(s) + (['\"'] + rest);
    if s == "" {
      assert t[0] == '\"' && t[1..] == rest;
    } else {
      var tail := EscapeAll(s[1..]) + (['\"'] + rest);
      assert t == Escape(s[0]) + tail;
      assert t[0] == Escape(s[0])[0];
      EscapeReadsBack(s[0], tail);
      StringReadsBack(s[1..], rest);
      assert s == [s[0]] + s[1..];
    }
  }

  // ----- numbers -----

  predicate IsDigit(c: char) { '0' <= c <= '9' }

  function DigitRun(s: string): (n: nat)
    ensures n <= |s|
    ensures forall i :: 0 <= i < n ==> IsDigit(s[i])
    ensures n < |s| ==> !IsDigit(s[n])
  {
    if s == "" || !IsDigit(s[0]) then 0 else 1 + DigitRun(s[1..])
  }

  lemma {:induction false} DigitRunExtends(t: string, rest: string)
    requires rest != "" ==> !IsDigit(rest[0])
    ensures DigitRun(t + rest) == DigitRun(t)
  {
    if t != "" {
      assert (t + rest)[1..] == t[1..] + rest;
      DigitRunExtends(t[1..], rest);
    } else {
      assert t + rest == rest;
    }
  }

  /** Length of each part of a number literal; None where a required digit is missing. */
  function IntegerPart(s: string): (n: Option<nat>)
    ensures n.Some? ==> 0 < n.value <= |s|
  {
    var sign := if s != "" && s[0] == '-' then 1 else 0;
    if |s| == sign then None
    else if s[sign] == '0' then Some(sign + 1)
    else
      var run := DigitRun(s[sign..]);
      if run == 0 then None else Some(sign + run)
  }

  function FractionPart(s: string): (n: Option<nat>)
    ensures n.Some? ==> n.value <= |s|
  {
    if s == "" || s[0] != '.' then Some(0)
    else
      var run := DigitRun(s[1..]);
      if run == 0 then None else Some(1 + run)
  }

  function ExponentPart(s: string): (n: Option<nat>)
    ensures n.Some? ==> n.value <= |s|
  {
    if s == "" || (s[0] != 'e' && s[0] != 'E') then Some(0)
    else
      var sign := if |s| > 1 && (s[1] == '+' || s[1] == '-') then 2 else 1;
      var run := DigitRun(s[sign..]);
      if run == 0 then None else Some(sign + run)
  }

  function ScanNumber(s: string): (r: Scan<string>)
    ensures r.Got? ==> |r.rest| < |s| && s == r.value + r.rest
  {
    var i := IntegerPart(s);
    if i.None? then Bad else
    var f := FractionPart(s[i.value..]);
    if f.None? then Bad else
    var e := ExponentPart(s[i.value + f.value..]);
    if e.None? then Bad else
    var n := i.value + f.value + e.value;
    Got(s[..n], s[n..])
  }

  ghost predicate ValidNumber(t: string) {
    ScanNumber(t) == Got(t, "")
  }

  /** A character that cannot continue a number. */
  ghost predicate Ends(rest: string) {
    rest != "" ==> !IsDigit(rest[0]) && rest[0] !in ['.', 'e', 'E', '+', '-']
  }

  lemma NumberReadsBack(t: string, rest: string)
    requires ValidNumber(t) && Ends(rest)
    ensures ScanNumber(t + rest) == Got(t, rest)
    ensures t != "" && (t[0] == '-' || IsDigit(t[0]))
  {
    hide IntegerPart, FractionPart, ExponentPart;
    var s := t + rest;
    var i := IntegerPart(t).value;
    var f := FractionPart(t[i..]).value;
    IntegerExtends(t, rest);
    assert s[i..] == t[i..] + rest;
    FractionExtends(t[i..], rest);
    assert s[i + f..] == t[i + f..] + rest;
    ExponentExtends(t[i + f..], rest);
    assert s[..|t|] == t && s[|t|..] == rest;
  }

  lemma IntegerExtends(t: string, rest: string)
    requires IntegerPart(t).Some? && Ends(rest)
    ensures IntegerPart(t + rest) == IntegerPart(t)
    ensures t[0] == '-' || IsDigit(t[0])
  {
    var sign := if t[0] == '-' then 1 else 0;
    assert (t + rest)[sign..] == t[sign..] + rest;
    DigitRunExtends(t[sign..], rest);
  }

  lemma FractionExtends(t: string, rest: string)
    requires FractionPart(t).Some? && Ends(rest)
    ensures FractionPart(t + rest) == FractionPart(t)
  {
    if t != "" {
      assert (t + rest)[1..] == t[1..] + rest;
      DigitRunExtends(t[1..], rest);
    } else {
      assert t + rest == rest;
    }
  }

  lemma ExponentExtends(t: string, rest: string)
    requires ExponentPart(t).Some? && Ends(rest)
    ensures ExponentPart(t + rest) == ExponentPart(t)
  {
    if t != "" && (t[0] == 'e' || t[0] == 'E') {
      var sign := if |t| > 1 && (t[1] == '+' || t[1] == '-') then 2 else 1;
      assert (t + rest)[sign..] == t[sign..] + rest;
      DigitRunExtends(t[sign..], rest);
    } else if t == "" {
      assert t + rest == rest;
    }
  }

  // ----- the encoder -----

  ghost predicate IsSpace(w: string) {
    forall i :: 0 <= i < |w| ==> w[i] in [' ', '\t', '\r', '\n']
  }

  /** An order to write object keys in: every key, none twice. */
  ghost predicate IsOrder(order: set<string> -> seq<string>) {
    forall s :: Enumerates(order(s), s)
  }

  ghost predicate Enumerates(ks: seq<string>, s: set<string>) {
    (forall k :: k in ks <==> k in s) && forall i, j :: 0 <= i < j < |ks| ==> ks[i] != ks[j]
  }

  /** v as text, with white space w around every token and object keys in the given order. */
  ghost function Render(v: Json, w: string, order: set<string> -> seq<string>): (t: string)
    requires IsOrder(order)
    ensures v.Number? || t != ""
    decreases v, 1, 0
  {
    match v
    case Null => "null"
    case Bool(b) => if b then "true" else "false"
    case Number(text) => text
    case Str(s) => Quote(s)
    case Arr(items) => "[" + (w + (RenderItems(v, 0, w, order) + "]"))
    case Obj(members) => "{" + (w + (RenderMembers(v, order(members.Keys), w, order) + "}"))
  }

  ghost function RenderItems(v: Json, i: nat, w: string, order: set<string> -> seq<string>): string
    requires IsOrder(order) && v.Arr? && i <= |v.items|
    decreases v, 0, |v.items| - i
  {
    if i == |v.items| then ""
    else Render(v.items[i], w, order)
         + (w + if i + 1 == |v.items| then "" else "," + (w + RenderItems(v, i + 1, w, order)))
  }

  ghost function RenderMembers(v: Json, ks: seq<string>, w: string, order: set<string> -> seq<string>): string
    requires IsOrder(order) && v.Obj? && forall k :: k in ks ==> k in v.members
    decreases v, 0, |ks|
  {
    if ks == [] then ""
    else Quote(ks[0]) + (w + (":" + (w + (Render(v.members[ks[0]], w, order)
         + (w + if |ks| == 1 then "" else "," + (w + RenderMembers(v, ks[1..], w, order)))))))
  }

  // ----- the decoder -----

  const MAX_NESTING := 10000

  function SkipSpace(s: string): (r: string)
    ensures |r| <= |s|
    ensures r != "" ==> r[0] !in [' ', '\t', '\r', '\n']
  {
    if s != "" && s[0] in [' ', '\t', '\r', '\n'] then SkipSpace(s[1..]) else s
  }

  predicate Starts(s: string, t: string) { t <= s }

  /** One value, inside `depth` open arrays and objects. */
  function ScanValue(s: string, depth: nat): (r: Scan<Json>)
    ensures r.Got? ==> |r.rest| < |s|
    decreases |s|, 0
  {
    var s := SkipSpace(s);
    if s == "" then Bad
    else if s[0] == '{' then
      if depth >= MAX_NESTING then Bad
      else
        var t := SkipSpace(s[1..]);
        if t != "" && t[0] == '}' then Got(Obj(map[]), t[1..])
        else
          var (m, rest) :- ScanMembers(t, map[], depth + 1);
          Got(Obj(m), rest)
    else if s[0] == '[' then
      if depth >= MAX_NESTING then Bad
      else
        var t := SkipSpace(s[1..]);
        if t != "" && t[0] == ']' then Got(Arr([]), t[1..])
        else
          var (items, rest) :- ScanItems(t, depth + 1);
          Got(Arr(items), rest)
    else if s[0] == '\"' then
      var (cs, rest) :- ScanChars(s[1..]);
      Got(Str(cs), rest)
    else if Starts(s, "null") then Got(Null, s[4..])
    else if Starts(s, "true") then Got(Bool(true), s[4..])
    else if Starts(s, "false") then Got(Bool(false), s[5..])
    else
      var (text, rest) :- ScanNumber(s);
      Got(Number(text), rest)
  }

  /** Values separated by commas, up to and including the closing bracket. */
  function ScanItems(s: string, depth: nat): (r: Scan<seq<Json>>)
    ensures r.Got? ==> |r.rest| < |s|
    decreases |s|, 1
  {
    var (v, t) :- ScanValue(s, depth);
    var t := SkipSpace(t);
    if t != "" && t[0] == ']' then Got([v], t[1..])
    else if t != "" && t[0] == ',' then
      var (vs, rest) :- ScanItems(t[1..], depth);
      Got([v] + vs, rest)
    else Bad
  }

  /** Members up to and including the closing brace; a repeated key keeps its last value. */
  function ScanMembers(s: string, m: map<string, Json>, depth: nat): (r: Scan<map<string, Json>>)
    ensures r.Got? ==> |r.rest| < |s|
    decreases |s|, 1
  {
    var s := SkipSpace(s);
    if s == "" || s[0] != '\"' then Bad
    else
      var (k, t) :- ScanChars(s[1..]);
      var t := SkipSpace(t);
      if t == "" || t[0] != ':' then Bad
      else
        var (v, t) :- ScanValue(t[1..], depth);
        var t := SkipSpace(t);
        if t != "" && t[0] == '}' then Got(m[k := v], t[1..])
        else if t != "" && t[0] == ',' then ScanMembers(t[1..], m[k := v], depth)
        else Bad
  }

  // ----- printing, then scanning -----

  /** Numbers are well written and at most d arrays and objects nest. */
  ghost predicate WellFormed(v: Json, d: nat)
    decreases v
  {
    match v
    case Number(text) => ValidNumber(text)
    case Arr(items) => d > 0 && forall i :: 0 <= i < |items| ==> WellFormed(items[i], d - 1)
    case Obj(members) => d > 0 && forall k :: k in members ==> WellFormed(members[k], d - 1)
    case _ => true
  }

  lemma {:induction false} SpaceSkipped(w: string, t: string)
    requires IsSpace(w) && (t != "" ==> t[0] !in [' ', '\t', '\r', '\n'])
    ensures SkipSpace(w + t) == t
  {
    if w != "" {
      assert (w + t)[1..] == w[1..] + t;
      SpaceSkipped(w[1..], t);
    } else {
      assert w + t == t;
    }
  }

  lemma SpaceEnds(w: string, t: string)
    requires IsSpace(w) && Ends(t)
    ensures Ends(w + t)
  {
    if w == "" {
      assert w + t == t;
    } else {
      assert (w + t)[0] == w[0];
    }
  }

  /** Values start with none of these, so scanners do not mistake a value for a delimiter. */
  ghost predicate StartsValue(t: string) {
    t != "" && t[0] !in [' ', '\t', '\r', '\n', ']', '}', ',', ':']
  }

  lemma RenderStarts(v: Json, w: string, order: set<string> -> seq<string>, d: nat)
    requires IsOrder(order) && WellFormed(v, d)
    ensures StartsValue(Render(v, w, order))
  {
    hide RenderItems, RenderMembers, ScanNumber, EscapeAll;
    if v.Number? {
      NumberReadsBack(v.text, "");
    }
  }

  lemma Regroup(a: string, b: string, c: string)
    ensures a + b + c == a + (b + c)
  {
  }

  lemma ScanSkipsSpace(lead: string, t: string, depth: nat)
    requires IsSpace(lead) && StartsValue(t)
    ensures ScanValue(lead + t, depth) == ScanValue(t, depth)
  {
    SpaceSkipped(lead, t);
    SpaceSkipped("", t);
    assert "" + t == t;
  }

  /** What is read after an item or a member: white space, then a comma and the rest, or the closing mark. */
  function AfterOne(w: string, more: Option<string>, close: string): string {
    w + (if more.Some? then "," + (w + more.value) + close else close)
  }

  ghost predicate Closes(close: string) {
    close != "" && (close[0] == ']' || close[0] == '}')
  }

  lemma AfterOneEnds(w: string, more: Option<string>, close: string)
    requires IsSpace(w) && Closes(close)
    ensures Ends(AfterOne(w, more, close))
    ensures SkipSpace(AfterOne(w, more, close)) == if more.Some? then "," + (w + (more.value + close)) else close
  {
    var t := if more.Some? then "," + (w + more.value) + close else close;
    SpaceSkipped(w, t);
    SpaceEnds(w, t);
    if more.Some? {
      Regroup(",", w + more.value, close);
      Regroup(w, more.value, close);
    }
  }

  lemma NoLead(t: string)
    requires t != "" ==> t[0] !in [' ', '\t', '\r', '\n']
    ensures SkipSpace(t) == t
  {
  }

  lemma ScanWord(v: Json, rest: string, depth: nat)
    requires v.Null? || v.Bool?
    ensures ScanValue(LeafText(v) + rest, depth) == Got(v, rest)
  {
    var t := LeafText(v) + rest;
    NoLead(t);
    assert t[|LeafText(v)|..] == rest;
  }

  lemma ScanNumeral(text: string, rest: string, depth: nat)
    requires ValidNumber(text) && Ends(rest)
    ensures ScanValue(text + rest, depth) == Got(Number(text), rest)
  {
    hide ScanNumber;
    NumberReadsBack(text, rest);
    assert (text + rest)[0] == text[0];
    NoLead(text + rest);
  }

  lemma ScanQuoted(s: string, rest: string, depth: nat)
    ensures ScanValue(Quote(s) + rest, depth) == Got(Str(s), rest)
  {
    hide EscapeAll, ScanChars;
    QuoteText(s, rest);
    var t := Quote(s) + rest;
    NoLead(t);
    assert t[1..] == EscapeAll(s) + (['\"'] + rest);
    StringReadsBack(s, rest);
  }

  lemma ScanLeaf(v: Json, rest: string, depth: nat)
    requires !v.Arr? && !v.Obj? && WellFormed(v, 0) && Ends(rest)
    ensures ScanValue(LeafText(v) + rest, depth) == Got(v, rest)
  {
    hide ScanValue;
    match v
    case Number(text) => ScanNumeral(text, rest, depth);
    case Str(s) => ScanQuoted(s, rest, depth);
    case _ => ScanWord(v, rest, depth);
  }

  lemma ScanOpenArray(w: string, body: string, depth: nat)
    requires IsSpace(w) && depth < MAX_NESTING && body != "" && body[0] !in [' ', '\t', '\r', '\n']
    ensures var items := ScanItems(body, depth + 1);
            ScanValue("[" + (w + body), depth) ==
              if body[0] == ']' then Got(Arr([]), body[1..])
              else if items.Bad? then Bad else Got(Arr(items.value), items.rest)
  {
    var t := "[" + (w + body);
    assert t[1..] == w + body;
    NoLead(t);
    SpaceSkipped(w, body);
  }

  lemma ScanOpenObject(w: string, body: string, depth: nat)
    requires IsSpace(w) && depth < MAX_NESTING && body != "" && body[0] !in [' ', '\t', '\r', '\n']
    ensures var m := ScanMembers(body, map[], depth + 1);
            ScanValue("{" + (w + body), depth) ==
              if body[0] == '}' then Got(Obj(map[]), body[1..])
              else if m.Bad? then Bad else Got(Obj(m.value), m.rest)
  {
    var t := "{" + (w + body);
    assert t[1..] == w + body;
    NoLead(t);
    SpaceSkipped(w, body);
  }

  function LeafText(v: Json): string
    requires !v.Arr? && !v.Obj?
  {
    match v
    case Null => "null"
    case Bool(b) => if b then "true" else "false"
    case Number(text) => text
    case Str(s) => Quote(s)
  }

  /** Scanning what was rendered, after any white space, gives the value back and leaves what follows. */
  lemma {:induction false} ScanRendered(v: Json, lead: string, w: string, order: set<string> -> seq<string>, rest: string, depth: nat)
    requires IsOrder(order) && IsSpace(lead) && IsSpace(w) && depth <= MAX_NESTING
    requires WellFormed(v, MAX_NESTING - depth) && Ends(rest)
    ensures ScanValue(lead + (Render(v, w, order) + rest), depth) == Got(v, rest)
    decreases v, 1, 0
  {
    var text := Render(v, w, order);
    RenderStarts(v, w, order, MAX_NESTING - depth);
    assert (text + rest)[0] == text[0];
    ScanSkipsSpace(lead, text + rest, depth);
    match v
    case Arr(items) => ScanArray(v, w, order, rest, depth);
    case Obj(members) => ScanObject(v, w, order, rest, depth);
    case _ => ScanLeaf(v, rest, depth);
  }

  lemma ArrayText(v: Json, w: string, order: set<string> -> seq<string>, rest: string)
    requires IsOrder(order) && v.Arr?
    ensures Render(v, w, order) + rest == "[" + (w + (RenderItems(v, 0, w, order) + ("]" + rest)))
  {
    var inner := RenderItems(v, 0, w, order);
    Regroup("[", w + (inner + "]"), rest);
    Regroup(w, inner + "]", rest);
    Regroup(inner, "]", rest);
  }

  lemma ObjectText(v: Json, w: string, order: set<string> -> seq<string>, rest: string)
    requires IsOrder(order) && v.Obj?
    ensures Render(v, w, order) + rest == "{" + (w + (RenderMembers(v, order(v.members.Keys), w, order) + ("}" + rest)))
  {
    var inner := RenderMembers(v, order(v.members.Keys), w, order);
    Regroup("{", w + (inner + "}"), rest);
    Regroup(w, inner + "}", rest);
    Regroup(inner, "}", rest);
  }

  ghost function MoreItems(v: Json, i: nat, w: string, order: set<string> -> seq<string>): Option<string>
    requires IsOrder(order) && v.Arr? && i < |v.items|
  {
    if i + 1 == |v.items| then None else Some(RenderItems(v, i + 1, w, order))
  }

  lemma ItemText(v: Json, i: nat, w: string, order: set<string> -> seq<string>, tail: string)
    requires IsOrder(order) && v.Arr? && i < |v.items|
    ensures RenderItems(v, i, w, order) + tail ==
            Render(v.items[i], w, order) + AfterOne(w, MoreItems(v, i, w, order), tail)
  {
    var x := if i + 1 == |v.items| then "" else "," + (w + RenderItems(v, i + 1, w, order));
    Regroup(Render(v.items[i], w, order), w + x, tail);
    Regroup(w, x, tail);
    assert "" + tail == tail;
  }

  ghost function MoreMembers(v: Json, ks: seq<string>, w: string, order: set<string> -> seq<string>): Option<string>
    requires IsOrder(order) && v.Obj? && ks != [] && forall k :: k in ks ==> k in v.members
  {
    if |ks| == 1 then None else Some(RenderMembers(v, ks[1..], w, order))
  }

  lemma MemberText(v: Json, ks: seq<string>, w: string, order: set<string> -> seq<string>, tail: string)
    requires IsOrder(order) && v.Obj? && ks != [] && forall k :: k in ks ==> k in v.members
    ensures RenderMembers(v, ks, w, order) + tail ==
            ['\"'] + (EscapeAll(ks[0]) + (['\"'] + (w + (":" + (w + (Render(v.members[ks[0]], w, order)
            + AfterOne(w, MoreMembers(v, ks, w, order), tail)))))))
  {
    var x := if |ks| == 1 then "" else "," + (w + RenderMembers(v, ks[1..], w, order));
    var t5 := w + x;
    var t4 := Render(v.members[ks[0]], w, order) + t5;
    var t3 := w + t4;
    var t2 := ":" + t3;
    var t1 := w + t2;
    Regroup(Quote(ks[0]), t1, tail);
    Regroup(w, t2, tail);
    Regroup(":", t3, tail);
    Regroup(w, t4, tail);
    Regroup(Render(v.members[ks[0]], w, order), t5, tail);
    Regroup(w, x, tail);
    assert "" + tail == tail;
    QuoteText(ks[0], t1 + tail);
  }

  lemma QuoteText(s: string, tail: string)
    ensures Quote(s) + tail == ['\"'] + (EscapeAll(s) + (['\"'] + tail))
  {
  }

  lemma {:induction false} ScanArray(v: Json, w: string, order: set<string> -> seq<string>, rest: string, depth: nat)
    requires IsOrder(order) && IsSpace(w) && v.Arr? && depth <= MAX_NESTING
    requires WellFormed(v, MAX_NESTING - depth)
    ensures ScanValue(Render(v, w, order) + rest, depth) == Got(v, rest)
    decreases v, 0, |v.items| + 1
  {
    hide Render, ScanValue, ScanItems, RenderItems;
    ArrayText(v, w, order, rest);
    var body := RenderItems(v, 0, w, order) + ("]" + rest);
    if v.items == [] {
      NoItemText(v, w, order);
      assert body == "]" + rest && body[1..] == rest;
    } else {
      ItemsStart(v, w, order, MAX_NESTING - depth, "]" + rest);
      ScanItemsRendered(v, 0, "", w, order, rest, depth + 1);
      assert "" + body == body && v.items[0..] == v.items;
    }
    ScanOpenArray(w, body, depth);
  }

  lemma NoItemText(v: Json, w: string, order: set<string> -> seq<string>)
    requires IsOrder(order) && v.Arr? && v.items == []
    ensures RenderItems(v, 0, w, order) == ""
  {
  }

  lemma ItemsStart(v: Json, w: string, order: set<string> -> seq<string>, d: nat, tail: string)
    requires IsOrder(order) && v.Arr? && WellFormed(v, d) && v.items != []
    ensures StartsValue(RenderItems(v, 0, w, order) + tail)
  {
    ItemText(v, 0, w, order, tail);
    RenderStarts(v.items[0], w, order, d - 1);
  }

  lemma ScanItemsOnce(s: string, depth: nat, v: Json, t: string)
    requires ScanValue(s, depth) == Got(v, t)
    ensures var t := SkipSpace(t);
            ScanItems(s, depth) ==
              if t != "" && t[0] == ']' then Got([v], t[1..])
              else if t != "" && t[0] == ',' then
                (match ScanItems(t[1..], depth)
                 case Bad => Bad
                 case Got(vs, rest) => Got([v] + vs, rest))
              else Bad
  {
    hide ScanValue;
  }

  lemma {:induction false} ScanItemsRendered(v: Json, i: nat, lead: string, w: string, order: set<string> -> seq<string>, rest: string, depth: nat)
    requires IsOrder(order) && IsSpace(lead) && IsSpace(w) && v.Arr? && i < |v.items| && depth <= MAX_NESTING
    requires forall k :: 0 <= k < |v.items| ==> WellFormed(v.items[k], MAX_NESTING - depth)
    ensures ScanItems(lead + (RenderItems(v, i, w, order) + ("]" + rest)), depth) == Got(v.items[i..], rest)
    decreases v, 0, |v.items| - i
  {
    hide Render, RenderItems, WellFormed, ScanItems, ScanValue, SkipSpace;
    var tail := "]" + rest;
    var more := MoreItems(v, i, w, order);
    ItemText(v, i, w, order, tail);
    AfterOneEnds(w, more, tail);
    ScanRendered(v.items[i], lead, w, order, AfterOne(w, more, tail), depth);
    ScanItemsOnce(lead + (Render(v.items[i], w, order) + AfterOne(w, more, tail)), depth, v.items[i], AfterOne(w, more, tail));
    if more.Some? {
      var next := w + (more.value + tail);
      assert ("," + next)[1..] == next;
      ScanItemsRendered(v, i + 1, w, w, order, rest, depth);
      assert v.items[i..] == [v.items[i]] + v.items[i + 1..];
    } else {
      assert tail[1..] == rest;
      assert v.items[i..] == [v.items[i]];
    }
  }

  /** The map a member list leaves behind. */
  ghost function Put(m: map<string, Json>, v: Json, ks: seq<string>): map<string, Json>
    requires v.Obj? && forall k :: k in ks ==> k in v.members
    decreases |ks|
  {
    if ks == [] then m else Put(m[ks[0] := v.members[ks[0]]], v, ks[1..])
  }

  lemma {:induction false} PutAll(m: map<string, Json>, v: Json, ks: seq<string>)
    requires v.Obj? && forall k :: k in ks ==> k in v.members
    requires forall k :: k in m ==> k in v.members && m[k] == v.members[k]
    ensures var p := Put(m, v, ks);
            (forall k :: k in p <==> k in m || k in ks) && forall k :: k in p ==> k in v.members && p[k] == v.members[k]
    decreases |ks|
  {
    if ks != [] {
      PutAll(m[ks[0] := v.members[ks[0]]], v, ks[1..]);
      assert forall k :: k in ks <==> k == ks[0] || k in ks[1..];
    }
  }

  lemma {:induction false} ScanObject(v: Json, w: string, order: set<string> -> seq<string>, rest: string, depth: nat)
    requires IsOrder(order) && IsSpace(w) && v.Obj? && depth <= MAX_NESTING
    requires WellFormed(v, MAX_NESTING - depth)
    ensures ScanValue(Render(v, w, order) + rest, depth) == Got(v, rest)
    decreases v, 0, |order(v.members.Keys)| + 1
  {
    hide Render, RenderMembers, ScanValue, IsOrder, ScanMembers, EscapeAll, WellFormed;
    ObjectText(v, w, order, rest);
    MembersWellFormed(v, MAX_NESTING - depth);
    var ks := order(v.members.Keys);
    OrderEnumerates(order, v.members.Keys);
    var body := RenderMembers(v, ks, w, order) + ("}" + rest);
    if ks == [] {
      NoKeys(v, ks, w, order);
      assert body == "}" + rest && body[1..] == rest;
    } else {
      MemberText(v, ks, w, order, "}" + rest);
      assert body[0] == '\"';
      ScanMembersRendered(v, ks, map[], "", w, order, rest, depth + 1);
      assert "" + body == body;
      PutEverything(v, ks);
    }
    ScanOpenObject(w, body, depth);
  }

  lemma MembersWellFormed(v: Json, d: nat)
    requires v.Obj? && WellFormed(v, d)
    ensures d > 0 && forall k :: k in v.members ==> WellFormed(v.members[k], d - 1)
  {
  }

  lemma PutEverything(v: Json, ks: seq<string>)
    requires v.Obj? && forall k :: k in ks <==> k in v.members.Keys
    ensures Put(map[], v, ks) == v.members
  {
    hide Put;
    PutAll(map[], v, ks);
  }

  lemma OrderEnumerates(order: set<string> -> seq<string>, s: set<string>)
    requires IsOrder(order)
    ensures forall k :: k in order(s) <==> k in s
  {
    assert Enumerates(order(s), s);
  }

  lemma NoKeys(v: Json, ks: seq<string>, w: string, order: set<string> -> seq<string>)
    requires v.Obj? && ks == [] && IsOrder(order) && forall k :: k in ks <==> k in v.members.Keys
    ensures v == Obj(map[]) && RenderMembers(v, ks, w, order) == ""
  {
    assert forall k :: k in v.members ==> k in ks;
  }

  lemma {:induction false} ScanMembersRendered(v: Json, ks: seq<string>, m: map<string, Json>, lead: string, w: string,
                                               order: set<string> -> seq<string>, rest: string, depth: nat)
    requires IsOrder(order) && IsSpace(lead) && IsSpace(w) && v.Obj? && depth <= MAX_NESTING
    requires ks != [] && forall k :: k in ks ==> k in v.members
    requires forall k :: k in v.members ==> WellFormed(v.members[k], MAX_NESTING - depth)
    ensures ScanMembers(lead + (RenderMembers(v, ks, w, order) + ("}" + rest)), m, depth) == Got(Put(m, v, ks), rest)
    decreases v, 0, |ks|
  {
    hide Render, RenderMembers, WellFormed, EscapeAll;
    var tail := "}" + rest;
    var more := MoreMembers(v, ks, w, order);
    MemberText(v, ks, w, order, tail);
    var after := AfterOne(w, more, tail);
    var t4 := w + (Render(v.members[ks[0]], w, order) + after);
    var t3 := ":" + t4;
    var t2 := w + t3;
    var t1 := EscapeAll(ks[0]) + (['\"'] + t2);
    var t0 := ['\"'] + t1;
    SpaceSkipped(lead, t0);
    assert t0[1..] == t1 && t3[1..] == t4;
    StringReadsBack(ks[0], t2);
    SpaceSkipped(w, t3);
    AfterOneEnds(w, more, tail);
    ScanRendered(v.members[ks[0]], w, w, order, after, depth);
    if more.Some? {
      var next := w + (more.value + tail);
      assert ("," + next)[1..] == next;
      ScanMembersRendered(v, ks[1..], m[ks[0] := v.members[ks[0]]], w, w, order, rest, depth);
    } else {
      assert tail[1..] == rest;
    }
  }

  // ----- what the decoder accepts is well formed -----

  lemma {:induction false} DigitRunPrefix(s: string, m: nat)
    requires DigitRun(s) <= m <= |s|
    ensures DigitRun(s[..m]) == DigitRun(s)
  {
    if m > 0 && IsDigit(s[0]) {
      assert s[..m][1..] == s[1..][..m - 1];
      DigitRunPrefix(s[1..], m - 1);
    }
  }

  lemma IntegerPrefix(s: string, m: nat)
    requires IntegerPart(s).Some? && IntegerPart(s).value <= m <= |s|
    ensures IntegerPart(s[..m]) == IntegerPart(s)
  {
    var sign := if s[0] == '-' then 1 else 0;
    assert s[..m][sign..] == s[sign..][..m - sign];
    if s[sign] != '0' {
      DigitRunPrefix(s[sign..], m - sign);
    }
  }

  lemma FractionPrefix(s: string, m: nat)
    requires FractionPart(s).Some? && FractionPart(s).value <= m <= |s|
    ensures FractionPart(s[..m]) == FractionPart(s)
  {
    if s != "" && s[0] == '.' {
      assert s[..m][1..] == s[1..][..m - 1];
      DigitRunPrefix(s[1..], m - 1);
    }
  }

  lemma ExponentPrefix(s: string, m: nat)
    requires ExponentPart(s) == Some(m)
    ensures ExponentPart(s[..m]) == Some(m)
  {
    if s != "" && (s[0] == 'e' || s[0] == 'E') {
      var sign := if |s| > 1 && (s[1] == '+' || s[1] == '-') then 2 else 1;
      assert s[..m][sign..] == s[sign..][..m - sign];
      DigitRunPrefix(s[sign..], m - sign);
    }
  }

  /** A scanned number literal is a number literal by itself. */
  lemma ScannedNumber(s: string)
    requires ScanNumber(s).Got?
    ensures ValidNumber(ScanNumber(s).value)
  {
    hide IntegerPart, FractionPart, ExponentPart;
    var i := IntegerPart(s).value;
    var f := FractionPart(s[i..]).value;
    var e := ExponentPart(s[i + f..]).value;
    var t := s[..i + f + e];
    IntegerPrefix(s, i + f + e);
    assert t[i..] == s[i..][..f + e];
    FractionPrefix(s[i..], f + e);
    assert t[i + f..] == s[i + f..][..e];
    ExponentPrefix(s[i + f..], e);
    assert t[..|t|] == t && t[|t|..] == "";
  }

  lemma {:induction false} ScannedWellFormed(s: string, depth: nat)
    requires depth <= MAX_NESTING && ScanValue(s, depth).Got?
    ensures WellFormed(ScanValue(s, depth).value, MAX_NESTING - depth)
    decreases |s|, 0
  {
    hide ScanNumber, ScanChars;
    var s := SkipSpace(s);
    if s[0] == '{' {
      var t := SkipSpace(s[1..]);
      if t[0] != '}' {
        ScannedMembersWellFormed(t, map[], depth + 1);
      }
    } else if s[0] == '[' {
      var t := SkipSpace(s[1..]);
      if t[0] != ']' {
        ScannedItemsWellFormed(t, depth + 1);
      }
    } else if s[0] != '\"' && !Starts(s, "null") && !Starts(s, "true") && !Starts(s, "false") {
      ScannedNumber(s);
    }
  }

  lemma {:induction false} ScannedItemsWellFormed(s: string, depth: nat)
    requires depth <= MAX_NESTING && ScanItems(s, depth).Got?
    ensures forall i :: 0 <= i < |ScanItems(s, depth).value| ==>
              WellFormed(ScanItems(s, depth).value[i], MAX_NESTING - depth)
    decreases |s|, 1
  {
    hide ScanValue, WellFormed;
    ScannedWellFormed(s, depth);
    var t := SkipSpace(ScanValue(s, depth).rest);
    if t[0] != ']' {
      ScannedItemsWellFormed(t[1..], depth);
    }
  }

  lemma {:induction false} ScannedMembersWellFormed(s: string, m: map<string, Json>, depth: nat)
    requires depth <= MAX_NESTING && ScanMembers(s, m, depth).Got?
    requires forall k :: k in m ==> WellFormed(m[k], MAX_NESTING - depth)
    ensures forall k :: k in ScanMembers(s, m, depth).value ==>
              WellFormed(ScanMembers(s, m, depth).value[k], MAX_NESTING - depth)
    decreases |s|, 1
  {
    hide ScanValue, WellFormed, ScanChars;
    var s := SkipSpace(s);
    var key := ScanChars(s[1..]);
    var t := SkipSpace(key.rest);
    ScannedWellFormed(t[1..], depth);
    var v := ScanValue(t[1..], depth);
    var t' := SkipSpace(v.rest);
    if t'[0] == ',' {
      ScannedMembersWellFormed(t'[1..], m[key.value := v.value], depth);
    }
  }
}
