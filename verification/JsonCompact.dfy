/** What canonical JSON looks like: no white space, keys in order, every character written the shortest way
  * (internal/x402/x402.go). */
module JsonCompact {
  import opened SortedSets
  import opened JsonText
  import opened JsonSyntax
  import opened JsonGrammar
  import opened CanonicalJson

  // ----- the order of keys -----

  /** a comes before b where they first differ, or is the start of b. */
  ghost predicate Before(a: string, b: string) {
    exists i: nat :: i <= |a| && i < |b| && a[..i] == b[..i] && (i == |a| || a[i] < b[i])
  }

  lemma {:induction false} LexIsBefore(a: string, b: string)
    ensures LexLess(a, b) <==> Before(a, b)
  {
    if a != "" && b != "" {
      LexIsBefore(a[1..], b[1..]);
      if Before(a, b) {
        var i: nat :| i <= |a| && i < |b| && a[..i] == b[..i] && (i == |a| || a[i] < b[i]);
        if i > 0 {
          assert a[0] == a[..i][0] == b[..i][0];
          assert a[1..][..i - 1] == a[..i][1..] == b[..i][1..] == b[1..][..i - 1];
          assert Before(a[1..], b[1..]);
        } else {
          assert a[0] < b[0];
        }
      }
      if a[0] == b[0] && Before(a[1..], b[1..]) {
        var j: nat :| j <= |a[1..]| && j < |b[1..]| && a[1..][..j] == b[1..][..j] && (j == |a[1..]| || a[1..][j] < b[1..][j]);
        assert a[..j + 1] == [a[0]] + a[1..][..j] && b[..j + 1] == [b[0]] + b[1..][..j];
        assert Before(a, b);
      }
      if a[0] < b[0] {
        assert a[..0] == b[..0];
      }
    } else if a == "" && b != "" {
      assert a[..0] == b[..0];
    }
  }

  // ----- compact texts -----

  /** A character as itself unless it must be escaped or separates lines; then by letter if it has one, else by its
    * number in small hexadecimal digits. */
  ghost predicate Shortest(p: Part) {
    var n := p.c as int;
    if n >= 0x20 && p.c != '\"' && p.c != '\\' && n != 0x2028 && n != 0x2029 then p.text == [p.c]
    else if p.c in ['\"', '\\'] || n in [8, 9, 10, 12, 13] then |p.text| == 2 && p.text[0] == '\\' && IsShort(p.text[1], p.c)
    else IsUnit(p.text, n) && forall i :: 2 <= i < 6 ==> p.text[i] !in "ABCDEF"
  }

  ghost predicate ShortestAll(ps: seq<Part>) {
    forall i :: 0 <= i < |ps| ==> Shortest(ps[i])
  }

  function KeysIn(pairs: seq<Pair>): (ks: seq<string>)
    ensures |ks| == |pairs| && forall i :: 0 <= i < |pairs| ==> ks[i] == PartsMeaning(pairs[i].key)
  {
    seq(|pairs|, i requires 0 <= i < |pairs| => PartsMeaning(pairs[i].key))
  }

  ghost predicate Compact(t: Text)
    decreases t, 2
  {
    match t
    case Quoted(ps) => ShortestAll(ps)
    case Array(gap, items) => gap == "" && forall i :: 0 <= i < |items| ==> CompactItem(items[i])
    case Object(gap, pairs) =>
      && gap == "" && (forall i :: 0 <= i < |pairs| ==> CompactPair(pairs[i]))
      && Increasing(Before, KeysIn(pairs))
    case _ => true
  }

  ghost predicate CompactItem(i: Item)
    decreases i, 0
  {
    i.lead == "" && i.trail == "" && Compact(i.value)
  }

  ghost predicate CompactPair(p: Pair)
    decreases p, 1
  {
    p.lead == "" && p.mid == "" && ShortestAll(p.key) && CompactItem(p.item)
  }

  // ----- strings -----

  lemma DigitIs(d: char, n: nat)
    requires IsHex(d, n) && d !in "ABCDEF"
    ensures d == HexChar(n)
  {
  }

  lemma UnitIs(t: string, n: nat)
    requires IsUnit(t, n) && forall i :: 2 <= i < 6 ==> t[i] !in "ABCDEF"
    ensures n < 0x1_0000 && t == U4(n)
  {
    hide IsHex, HexChar;
    var a: nat, b: nat, c: nat, d: nat :| IsHex(t[2], a) && IsHex(t[3], b) && IsHex(t[4], c) && IsHex(t[5], d)
                                          && n == a * 4096 + b * 256 + c * 16 + d;
    DigitBound(t[2], a);
    DigitBound(t[3], b);
    DigitBound(t[4], c);
    DigitBound(t[5], d);
    DigitIs(t[2], a);
    DigitIs(t[3], b);
    DigitIs(t[4], c);
    DigitIs(t[5], d);
    FourOf(a, b, c, d);
  }

  lemma DigitBound(d: char, n: nat)
    requires IsHex(d, n)
    ensures n < 16
  {
  }

  lemma FourOf(a: nat, b: nat, c: nat, d: nat)
    requires a < 16 && b < 16 && c < 16 && d < 16
    ensures var n := a * 4096 + b * 256 + c * 16 + d;
            n < 0x1_0000 && n / 4096 == a && n / 256 % 16 == b && n / 16 % 16 == c && n % 16 == d
  {
    var n := a * 4096 + b * 256 + c * 16 + d;
    var x := a * 256 + b * 16 + c;
    var y := a * 16 + b;
    Digit(x, d, n);
    Digit(y, c, x);
    Digit(a, b, y);
    Quotients(n);
  }

  lemma Digit(q: nat, r: nat, n: nat)
    requires n == q * 16 + r && r < 16
    ensures n / 16 == q && n % 16 == r
  {
  }

  lemma Quotients(n: nat)
    ensures n / 256 == n / 16 / 16 && n / 4096 == n / 16 / 16 / 16
  {
    var m := n / 16;
    assert n / 256 == m / 16;
    assert n / 4096 == m / 256;
    assert m / 256 == m / 16 / 16;
  }

  lemma ShortestIsEscape(p: Part)
    requires Shortest(p)
    ensures p.text == Escape(p.c)
  {
    var n := p.c as int;
    if n < 0x20 || p.c == '\"' || p.c == '\\' || n == 0x2028 || n == 0x2029 {
      if p.c !in ['\"', '\\'] && n !in [8, 9, 10, 12, 13] {
        UnitIs(p.text, n);
      }
    }
  }

  lemma {:induction false} ShortestSpelling(ps: seq<Part>)
    requires ShortestAll(ps)
    ensures PartsText(ps) == EscapeAll(PartsMeaning(ps))
  {
    hide Shortest, Escape;
    if ps != [] {
      ShortestIsEscape(ps[0]);
      ShortestSpelling(ps[1..]);
      assert PartsMeaning(ps)[1..] == PartsMeaning(ps[1..]);
    }
  }

  // ----- arrays and objects -----

  lemma {:induction false} ValuesAt(items: seq<Item>, i: nat)
    requires i < |items|
    ensures |Values(items)| == |items| && Values(items)[i] == Meaning(items[i].value)
  {
    hide Meaning;
    if |items| > 1 {
      ValuesAt(items[1..], if i > 0 then i - 1 else 0);
    } else {
      assert Values(items[1..]) == [];
    }
  }

  lemma ShownItem(items: seq<Item>, i: nat)
    requires i < |items| && CompactItem(items[i])
    ensures ShowItems(items[i..])
            == Show(items[i].value) + if i + 1 == |items| then "" else "," + ShowItems(items[i + 1..])
  {
    hide Show, Compact;
    assert items[i..][1..] == items[i + 1..];
    var t := Show(items[i].value);
    assert "" + (t + "") == t;
  }

  lemma {:induction false} ItemsCompact(items: seq<Item>, i: nat, d: nat)
    requires i < |items| && (forall j :: 0 <= j < |items| ==> CompactItem(items[j]) && ProperItem(items[j], d))
    ensures |Values(items)| == |items| && ShowItems(items[i..]) == RenderItems(Arr(Values(items)), i, "", ByKey())
    decreases items, |items| - i
  {
    hide Show, ShowItems, Meaning, Values, Compact, Proper, ByKey, Render;
    ValuesAt(items, i);
    ShownItem(items, i);
    CompactIsCanonical(items[i].value, d);
    RenderedItem(Arr(Values(items)), i);
    if i + 1 < |items| {
      ItemsCompact(items, i + 1, d);
    }
  }

  lemma RenderedItem(v: Json, i: nat)
    requires v.Arr? && i < |v.items|
    ensures RenderItems(v, i, "", ByKey())
            == Canon(v.items[i]) + if i + 1 == |v.items| then "" else "," + RenderItems(v, i + 1, "", ByKey())
  {
    hide ByKey, Render;
    assert forall t: string :: "" + t == t;
  }

  lemma {:induction false} MembersAre(pairs: seq<Pair>, m: map<string, Json>, k: string)
    requires Increasing(LexLess, KeysIn(pairs))
    ensures k in Members(pairs, m) <==> k in m || k in KeysIn(pairs)
    ensures k !in KeysIn(pairs) && k in m ==> Members(pairs, m)[k] == m[k]
    ensures forall i :: 0 <= i < |pairs| && k == KeysIn(pairs)[i] ==> Members(pairs, m)[k] == Meaning(pairs[i].item.value)
    decreases pairs
  {
    hide Meaning, PartsMeaning;
    if pairs != [] {
      var ks := KeysIn(pairs);
      assert KeysIn(pairs[1..]) == ks[1..];
      LexIsTotal();
      assert ks == [ks[0]] + ks[1..];
      assert forall i :: 0 < i < |ks| ==> ks[i] != ks[0];
      MembersAre(pairs[1..], m[ks[0] := Meaning(pairs[0].item.value)], k);
    }
  }

  lemma KeysAscend(ks: seq<string>)
    requires Increasing(Before, ks)
    ensures Increasing(LexLess, ks)
  {
    forall i, j | 0 <= i < j < |ks| ensures LexLess(ks[i], ks[j]) {
      LexIsBefore(ks[i], ks[j]);
    }
  }

  lemma KeysListed(pairs: seq<Pair>)
    requires Increasing(LexLess, KeysIn(pairs))
    ensures var ks, m := KeysIn(pairs), Members(pairs, map[]);
            && (forall k :: k in ks <==> k in m)
            && forall i :: 0 <= i < |pairs| ==> m[ks[i]] == Meaning(pairs[i].item.value)
  {
    hide Meaning, PartsMeaning, Members, Increasing;
    var ks, m := KeysIn(pairs), Members(pairs, map[]);
    forall k ensures k in ks <==> k in m {
      MembersAre(pairs, map[], k);
    }
    forall i | 0 <= i < |pairs| ensures m[ks[i]] == Meaning(pairs[i].item.value) {
      MembersAre(pairs, map[], ks[i]);
    }
  }

  lemma KeysOrdered(pairs: seq<Pair>)
    requires Increasing(Before, KeysIn(pairs))
    ensures var ks, m := KeysIn(pairs), Members(pairs, map[]);
            && ks == ByKey()(m.Keys) && (forall k :: k in ks ==> k in m)
            && forall i :: 0 <= i < |pairs| ==> m[ks[i]] == Meaning(pairs[i].item.value)
  {
    hide Meaning, PartsMeaning, Members, Increasing, ByKey, Before;
    var ks, m := KeysIn(pairs), Members(pairs, map[]);
    KeysAscend(ks);
    KeysListed(pairs);
    LexIsTotal();
    ListingUnique(LexLess, ks, ByKey()(m.Keys), m.Keys);
  }

  lemma ShownPair(pairs: seq<Pair>, i: nat)
    requires i < |pairs| && CompactPair(pairs[i])
    ensures var p := pairs[i];
            ShowPairs(pairs[i..]) == Quote(PartsMeaning(p.key)) + (":" + (Show(p.item.value)
                                       + if i + 1 == |pairs| then "" else "," + ShowPairs(pairs[i + 1..])))
  {
    hide Show, Compact;
    var p := pairs[i];
    assert pairs[i..][1..] == pairs[i + 1..];
    ShortestSpelling(p.key);
    var key, t, more := Quote(PartsMeaning(p.key)), Show(p.item.value),
                        if i + 1 == |pairs| then "" else "," + ShowPairs(pairs[i + 1..]);
    assert QuotedText(p.key) == key by {
      Regroup(['\"'], EscapeAll(PartsMeaning(p.key)), ['\"']);
    }
    assert forall u: string :: "" + u == u && u + "" == u;
    assert ShowPair(p) == key + (":" + t);
    assert ShowPairs(pairs[i..]) == ShowPair(p) + more;
    Regroup(key, ":" + t, more);
    Regroup(":", t, more);
  }

  lemma RenderedPair(v: Json, ks: seq<string>, i: nat)
    requires v.Obj? && i < |ks| && forall k :: k in ks ==> k in v.members
    ensures RenderMembers(v, ks[i..], "", ByKey())
            == Quote(ks[i]) + (":" + (Canon(v.members[ks[i]])
                 + if i + 1 == |ks| then "" else "," + RenderMembers(v, ks[i + 1..], "", ByKey())))
  {
    hide ByKey, Render, Quote;
    var tail := ks[i..];
    assert tail[1..] == ks[i + 1..];
    var end := if |tail| == 1 then "" else "," + ("" + RenderMembers(v, tail[1..], "", ByKey()));
    NoGap(end);
    NoGap(Canon(v.members[tail[0]]) + end);
    NoGap(":" + (Canon(v.members[tail[0]]) + end));
    NoGap(RenderMembers(v, tail[1..], "", ByKey()));
  }

  lemma NoGap(t: string)
    ensures "" + t == t
  {
  }

  lemma OnePair(pairs: seq<Pair>, i: nat, v: Json, ks: seq<string>)
    requires i < |pairs| == |ks| && CompactPair(pairs[i]) && ks[i] == PartsMeaning(pairs[i].key)
    requires v.Obj? && forall k :: k in ks ==> k in v.members
    requires Show(pairs[i].item.value) == Canon(v.members[ks[i]])
    requires i + 1 < |pairs| ==> ShowPairs(pairs[i + 1..]) == RenderMembers(v, ks[i + 1..], "", ByKey())
    ensures ShowPairs(pairs[i..]) == RenderMembers(v, ks[i..], "", ByKey())
  {
    hide Show, ShowPairs, Compact, RenderMembers, ByKey, Render, Quote;
    ShownPair(pairs, i);
    RenderedPair(v, ks, i);
  }

  lemma ItemOfPair(p: Pair, d: nat)
    requires CompactPair(p) && ProperPair(p, d)
    ensures Compact(p.item.value) && Proper(p.item.value, d)
  {
    hide Compact, Proper;
  }

  lemma {:induction false} PairsCompact(pairs: seq<Pair>, i: nat, d: nat, v: Json, ks: seq<string>)
    requires i < |pairs| == |ks| && (forall j :: 0 <= j < |pairs| ==> CompactPair(pairs[j]) && ProperPair(pairs[j], d))
    requires v.Obj? && forall k :: k in ks ==> k in v.members
    requires forall j :: 0 <= j < |pairs| ==>
               ks[j] == PartsMeaning(pairs[j].key) && v.members[ks[j]] == Meaning(pairs[j].item.value)
    ensures ShowPairs(pairs[i..]) == RenderMembers(v, ks[i..], "", ByKey())
    decreases pairs, |pairs| - i
  {
    hide Show, ShowPairs, Meaning, PartsMeaning, Compact, Proper, RenderMembers, ByKey, Render;
    ItemOfPair(pairs[i], d);
    CompactIsCanonical(pairs[i].item.value, d);
    if i + 1 < |pairs| {
      PairsCompact(pairs, i + 1, d, v, ks);
    }
    OnePair(pairs, i, v, ks);
  }

  lemma ArrayCompact(items: seq<Item>, d: nat)
    requires Compact(Array("", items)) && Proper(Array("", items), d)
    ensures Show(Array("", items)) == Canon(Meaning(Array("", items)))
    decreases items, |items| + 1
  {
    hide ByKey, RenderItems, ShowItems;
    var v := Arr(Values(items));
    assert items[0..] == items;
    if items == [] {
      NoneShown();
    } else {
      ItemsCompact(items, 0, d - 1);
    }
    assert forall u: string :: "" + u == u;
  }

  lemma NoneShown()
    ensures ShowItems([]) == "" && ShowPairs([]) == ""
    ensures RenderItems(Arr([]), 0, "", ByKey()) == "" && RenderMembers(Obj(map[]), [], "", ByKey()) == ""
  {
    hide ByKey;
  }

  lemma CanonOfObject(v: Json, ks: seq<string>)
    requires v.Obj? && ks == ByKey()(v.members.Keys) && forall k :: k in ks ==> k in v.members
    ensures Canon(v) == "{" + (RenderMembers(v, ks, "", ByKey()) + "}")
  {
    hide ByKey, RenderMembers;
    NoGap(RenderMembers(v, ks, "", ByKey()) + "}");
  }

  lemma ObjectCompact(pairs: seq<Pair>, d: nat)
    requires Compact(Object("", pairs)) && Proper(Object("", pairs), d)
    ensures Show(Object("", pairs)) == Canon(Meaning(Object("", pairs)))
    decreases pairs, |pairs| + 1
  {
    hide ByKey, RenderMembers, ShowPairs, Canon, Members, KeysIn, Before;
    var v, ks := Obj(Members(pairs, map[])), KeysIn(pairs);
    KeysOrdered(pairs);
    CanonOfObject(v, ks);
    assert pairs[0..] == pairs && ks[0..] == ks;
    if pairs == [] {
      NoneShown();
      NoMembers(map[]);
    } else {
      PairsCompact(pairs, 0, d - 1, v, ks);
    }
    NoGap(ShowPairs(pairs) + "}");
  }

  lemma NoMembers(m: map<string, Json>)
    ensures Members([], m) == m
  {
  }

  /** The compact text of a value is its canonical text: whoever writes it without white space, with its keys in order
    * and each character the shortest way writes exactly what is fingerprinted. */
  lemma {:induction false} CompactIsCanonical(t: Text, d: nat)
    requires Compact(t) && Proper(t, d)
    ensures Show(t) == Canon(Meaning(t))
    decreases t
  {
    match t
    case Word(v) =>
    case Numeral(text) =>
    case Quoted(ps) => ShortestSpelling(ps);
    case Array(gap, items) => ArrayCompact(items, d);
    case Object(gap, pairs) => ObjectCompact(pairs, d);
  }

  // ----- every value has a compact text -----

  ghost function Tree(v: Json): Text
    decreases v
  {
    match v
    case Number(text) => Numeral(text)
    case Str(s) => Quoted(EscapedParts(s))
    case Arr(items) => Array("", seq(|items|, i requires 0 <= i < |items| => Item("", Tree(items[i]), "")))
    case Obj(m) =>
      var ks := ByKey()(m.Keys);
      assert Enumerates(ks, m.Keys);
      Object("", seq(|ks|, i requires 0 <= i < |ks| && ks[i] in m =>
                             Pair("", EscapedParts(ks[i]), "", Item("", Tree(m[ks[i]]), ""))))
    case _ => Word(v)
  }

  lemma EscapeShortest(c: char)
    ensures Shortest(Part(Escape(c), c))
  {
    var n := c as int;
    if |Escape(c)| == 6 {
      EscapedUnit(n);
      SmallDigits(n);
    }
  }

  lemma SmallDigits(n: nat)
    requires n < 0x1_0000
    ensures forall i :: 2 <= i < 6 ==> U4(n)[i] !in "ABCDEF"
  {
  }

  lemma {:induction false} EscapedShortest(s: string)
    ensures ShortestAll(EscapedParts(s))
  {
    hide Shortest, Escape;
    if s != "" {
      EscapeShortest(s[0]);
      EscapedShortest(s[1..]);
    }
  }

  lemma StringTree(s: string)
    ensures ShortestAll(EscapedParts(s)) && Spelling(EscapedParts(s)) && PartsMeaning(EscapedParts(s)) == s
  {
    hide ShortestAll, Spelling;
    EscapedShortest(s);
    EscapedSpelling(s);
  }

  lemma EmptySpace()
    ensures IsSpace("")
  {
  }

  lemma {:induction false} TreeIsCompact(v: Json, d: nat)
    requires WellFormed(v, d)
    ensures Compact(Tree(v)) && Proper(Tree(v), d) && Meaning(Tree(v)) == v
    decreases v, 1
  {
    hide IsNumber, ValidNumber, EscapedParts, Spelling, ShortestAll, ByKey, IsSpace;
    EmptySpace();
    match v
    case Number(text) => NumberGrammar(text);
    case Str(s) => StringTree(s);
    case Arr(items) => ArrayTree(v, d);
    case Obj(m) => ObjectTree(v, d);
    case _ =>
  }

  lemma ArrayTree(v: Json, d: nat)
    requires v.Arr? && WellFormed(v, d)
    ensures Compact(Tree(v)) && Proper(Tree(v), d) && Meaning(Tree(v)) == v
    decreases v, 0
  {
    hide IsSpace, Values;
    EmptySpace();
    var items, ts := v.items, Tree(v).items;
    forall i | 0 <= i < |items|
      ensures CompactItem(ts[i]) && ProperItem(ts[i], d - 1) && Meaning(ts[i].value) == items[i]
    {
      TreeIsCompact(items[i], d - 1);
    }
    ValuesAre(ts, items);
  }

  lemma {:induction false} ValuesAre(ts: seq<Item>, vs: seq<Json>)
    requires |ts| == |vs| && forall i :: 0 <= i < |ts| ==> Meaning(ts[i].value) == vs[i]
    ensures Values(ts) == vs
    decreases |ts|
  {
    hide Meaning;
    if ts != [] {
      ValuesAre(ts[1..], vs[1..]);
      assert vs == [vs[0]] + vs[1..];
    }
  }

  lemma PairTree(k: string, t: Text, d: nat)
    requires Compact(t) && Proper(t, d)
    ensures var p := Pair("", EscapedParts(k), "", Item("", t, ""));
            CompactPair(p) && ProperPair(p, d) && PartsMeaning(p.key) == k
  {
    hide IsSpace, EscapedParts, ShortestAll, Spelling, Compact, Proper;
    EmptySpace();
    StringTree(k);
  }

  lemma ObjectTree(v: Json, d: nat)
    requires v.Obj? && WellFormed(v, d)
    ensures Compact(Tree(v)) && Proper(Tree(v), d) && Meaning(Tree(v)) == v
    decreases v, 0
  {
    hide IsSpace, Members, ByKey, EscapedParts, Before, CompactPair, ProperPair, PartsMeaning;
    EmptySpace();
    var m := v.members;
    var ps, ks := Tree(v).pairs, ByKey()(m.Keys);
    assert Lists(LexLess, ks, m.Keys);
    forall i | 0 <= i < |ks|
      ensures CompactPair(ps[i]) && ProperPair(ps[i], d - 1) && PartsMeaning(ps[i].key) == ks[i]
      ensures Meaning(ps[i].item.value) == m[ks[i]]
    {
      TreeIsCompact(m[ks[i]], d - 1);
      PairTree(ks[i], Tree(m[ks[i]]), d - 1);
    }
    assert KeysIn(ps) == ks;
    MembersBack(ps, m);
    AscendBefore(ks);
  }

  lemma MembersBack(ps: seq<Pair>, m: map<string, Json>)
    requires Lists(LexLess, KeysIn(ps), m.Keys)
    requires forall i :: 0 <= i < |ps| ==> Meaning(ps[i].item.value) == m[KeysIn(ps)[i]]
    ensures Members(ps, map[]) == m
  {
    hide Members, KeysIn, Meaning, Increasing;
    KeysListed(ps);
    var back, ks := Members(ps, map[]), KeysIn(ps);
    assert |ks| == |ps|;
    forall i | 0 <= i < |ks| ensures ks[i] in back && ks[i] in m && back[ks[i]] == m[ks[i]] {
      assert back[ks[i]] == Meaning(ps[i].item.value);
    }
    SameOn(back, m, ks);
  }

  lemma SameOn<K, V>(a: map<K, V>, b: map<K, V>, ks: seq<K>)
    requires (forall k :: k in ks <==> k in a) && (forall k :: k in ks <==> k in b)
    requires forall i :: 0 <= i < |ks| ==> a[ks[i]] == b[ks[i]]
    ensures a == b
  {
    forall k | k in a ensures k in b && a[k] == b[k] {
      assert k in ks;
      var i :| 0 <= i < |ks| && ks[i] == k;
      assert a[ks[i]] == b[ks[i]];
    }
    assert a.Keys == b.Keys;
  }

  lemma AscendBefore(ks: seq<string>)
    requires Increasing(LexLess, ks)
    ensures Increasing(Before, ks)
  {
    forall i, j | 0 <= i < j < |ks| ensures Before(ks[i], ks[j]) {
      LexIsBefore(ks[i], ks[j]);
    }
  }

  /** The canonical text of a value is its one compact text. */
  lemma CanonicalTextIs(v: Json, text: string)
    requires WellFormed(v, MAX_NESTING)
    ensures text == Canon(v) <==> exists t :: Compact(t) && Proper(t, MAX_NESTING) && Meaning(t) == v && Show(t) == text
  {
    hide Canon, Compact, Proper, Meaning, Show, Tree;
    TreeIsCompact(v, MAX_NESTING);
    CompactIsCanonical(Tree(v), MAX_NESTING);
    forall t | Compact(t) && Proper(t, MAX_NESTING) && Meaning(t) == v && Show(t) == text ensures text == Canon(v) {
      CompactIsCanonical(t, MAX_NESTING);
    }
  }
}
