/** Every JSON text as a tree of what was written: any white space, any spelling of every string and key, any number
  * literal, keys in any order and repeated. The decoder reads exactly the texts of such trees, each as what it means. */
module JsonGrammar {
  import opened Results
  import opened JsonText
  import opened JsonSyntax

  datatype Text =
    | Word(v: Json)            // null, true or false
    | Numeral(text: string)
    | Quoted(parts: seq<Part>)
    | Array(gap: string, items: seq<Item>)
    | Object(gap: string, pairs: seq<Pair>)

  /** A value with the white space around it. */
  datatype Item = Item(lead: string, value: Text, trail: string)

  /** A key, the white space around it, and its value after the colon. */
  datatype Pair = Pair(lead: string, key: seq<Part>, mid: string, item: Item)

  function WordText(v: Json): string {
    if v.Null? then "null" else if v == Bool(true) then "true" else "false"
  }

  function QuotedText(ps: seq<Part>): string { ['\"'] + (PartsText(ps) + ['\"']) }

  function Show(t: Text): string
    decreases t, 2
  {
    match t
    case Word(v) => WordText(v)
    case Numeral(text) => text
    case Quoted(ps) => QuotedText(ps)
    case Array(gap, items) => "[" + (gap + (ShowItems(items) + "]"))
    case Object(gap, pairs) => "{" + (gap + (ShowPairs(pairs) + "}"))
  }

  function ShowItem(i: Item): string
    decreases i, 0
  {
    i.lead + (Show(i.value) + i.trail)
  }

  function ShowItems(items: seq<Item>): string
    decreases items, 1
  {
    if items == [] then "" else ShowItem(items[0]) + if |items| == 1 then "" else "," + ShowItems(items[1..])
  }

  function ShowPair(p: Pair): string
    decreases p, 1
  {
    p.lead + (QuotedText(p.key) + (p.mid + (":" + ShowItem(p.item))))
  }

  function ShowPairs(pairs: seq<Pair>): string
    decreases pairs, 2
  {
    if pairs == [] then "" else ShowPair(pairs[0]) + if |pairs| == 1 then "" else "," + ShowPairs(pairs[1..])
  }

  /** The value a text stands for; of a repeated key the last value counts. */
  function Meaning(t: Text): Json
    decreases t, 2
  {
    match t
    case Word(v) => v
    case Numeral(text) => Number(text)
    case Quoted(ps) => Str(PartsMeaning(ps))
    case Array(_, items) => Arr(Values(items))
    case Object(_, pairs) => Obj(Members(pairs, map[]))
  }

  function Values(items: seq<Item>): seq<Json>
    decreases items, 1
  {
    if items == [] then [] else [Meaning(items[0].value)] + Values(items[1..])
  }

  function Members(pairs: seq<Pair>, m: map<string, Json>): map<string, Json>
    decreases pairs, 1
  {
    if pairs == [] then m
    else Members(pairs[1..], m[PartsMeaning(pairs[0].key) := Meaning(pairs[0].item.value)])
  }

  /** White space is white space, strings and numbers are well written, and at most d arrays and objects nest. */
  ghost predicate Proper(t: Text, d: nat)
    decreases t, 2
  {
    match t
    case Word(v) => v.Null? || v.Bool?
    case Numeral(text) => IsNumber(text)
    case Quoted(ps) => Spelling(ps)
    case Array(gap, items) => d > 0 && IsSpace(gap) && forall i :: 0 <= i < |items| ==> ProperItem(items[i], d - 1)
    case Object(gap, pairs) => d > 0 && IsSpace(gap) && forall i :: 0 <= i < |pairs| ==> ProperPair(pairs[i], d - 1)
  }

  ghost predicate ProperItem(i: Item, d: nat)
    decreases i, 0
  {
    IsSpace(i.lead) && Proper(i.value, d) && IsSpace(i.trail)
  }

  ghost predicate ProperPair(p: Pair, d: nat)
    decreases p, 1
  {
    IsSpace(p.lead) && Spelling(p.key) && IsSpace(p.mid) && ProperItem(p.item, d)
  }

  ghost predicate ProperItems(items: seq<Item>, d: nat) {
    forall i :: 0 <= i < |items| ==> ProperItem(items[i], d)
  }

  ghost predicate ProperPairs(pairs: seq<Pair>, d: nat) {
    forall i :: 0 <= i < |pairs| ==> ProperPair(pairs[i], d)
  }

  // ----- every text is read as what it means -----

  lemma ShowStarts(t: Text, d: nat)
    requires Proper(t, d)
    ensures StartsValue(Show(t))
  {
    hide ShowItems, ShowPairs, PartsText, IsNumber, ScanNumber;
    if t.Numeral? {
      NumberGrammar(t.text);
      NumberReadsBack(t.text, "");
    }
  }

  lemma LeafReads(t: Text, rest: string, depth: nat)
    requires t.Word? || t.Numeral? || t.Quoted?
    requires Proper(t, 0) && Ends(rest)
    ensures ScanValue(Show(t) + rest, depth) == Got(Meaning(t), rest)
  {
    hide ScanValue, IsNumber, Spelling, PartsText, PartsMeaning;
    match t
    case Word(v) => ScanWord(v, rest, depth);
    case Numeral(text) =>
      NumberGrammar(text);
      ScanNumeral(text, rest, depth);
    case Quoted(ps) => QuotedReads(ps, rest, depth);
  }

  lemma QuotedReads(ps: seq<Part>, rest: string, depth: nat)
    requires Spelling(ps)
    ensures ScanValue(QuotedText(ps) + rest, depth) == Got(Str(PartsMeaning(ps)), rest)
    ensures QuotedText(ps) + rest == ['\"'] + (PartsText(ps) + (['\"'] + rest))
  {
    hide ScanChars, PartsText, PartsMeaning, Spelling;
    var t := QuotedText(ps) + rest;
    assert t == ['\"'] + (PartsText(ps) + (['\"'] + rest));
    NoLead(t);
    assert t[1..] == PartsText(ps) + (['\"'] + rest);
    SpellingIsRead(ps, rest);
  }

  lemma JoinSpace(a: string, b: string)
    requires IsSpace(a) && IsSpace(b)
    ensures IsSpace(a + b)
  {
  }

  lemma {:induction false} TextReads(t: Text, lead: string, rest: string, depth: nat)
    requires depth <= MAX_NESTING && Proper(t, MAX_NESTING - depth) && IsSpace(lead) && Ends(rest)
    ensures ScanValue(lead + (Show(t) + rest), depth) == Got(Meaning(t), rest)
    decreases t, 2
  {
    hide ScanValue, Show, Meaning, IsSpace, Ends, StartsValue;
    ShowStarts(t, MAX_NESTING - depth);
    Continues(Show(t), rest);
    ScanSkipsSpace(lead, Show(t) + rest, depth);
    match t
    case Array(gap, items) =>
      ArrayParts(gap, items, MAX_NESTING - depth);
      ArrayReads(gap, items, rest, depth);
    case Object(gap, pairs) =>
      ObjectParts(gap, pairs, MAX_NESTING - depth);
      ObjectReads(gap, pairs, rest, depth);
    case _ =>
      LeafProper(t, MAX_NESTING - depth);
      LeafReads(t, rest, depth);
  }

  lemma LeafProper(t: Text, d: nat)
    requires Proper(t, d) && !t.Array? && !t.Object?
    ensures Proper(t, 0)
  {
  }

  lemma ArrayParts(gap: string, items: seq<Item>, d: nat)
    requires Proper(Array(gap, items), d)
    ensures d > 0 && IsSpace(gap) && ProperItems(items, d - 1)
  {
  }

  lemma ObjectParts(gap: string, pairs: seq<Pair>, d: nat)
    requires Proper(Object(gap, pairs), d)
    ensures d > 0 && IsSpace(gap) && ProperPairs(pairs, d - 1)
  {
  }

  lemma Continues(t: string, rest: string)
    requires StartsValue(t)
    ensures StartsValue(t + rest)
  {
  }

  lemma ItemsSkip(s: string, depth: nat)
    ensures ScanItems(SkipSpace(s), depth) == ScanItems(s, depth)
  {
    hide ScanChars, ScanNumber, ScanMembers;
    NoLead(SkipSpace(s));
    ValueSkips(s, depth);
  }

  lemma ValueSkips(s: string, depth: nat)
    ensures ScanValue(SkipSpace(s), depth) == ScanValue(s, depth)
  {
    hide ScanChars, ScanNumber, ScanMembers, ScanItems;
    NoLead(SkipSpace(s));
  }

  lemma MembersSkip(s: string, m: map<string, Json>, depth: nat)
    ensures ScanMembers(SkipSpace(s), m, depth) == ScanMembers(s, m, depth)
  {
    hide ScanChars, ScanValue;
    NoLead(SkipSpace(s));
  }

  /** An array's text after its bracket. */
  lemma OpensArray(body: string, depth: nat)
    requires depth < MAX_NESTING && SkipSpace(body) != ""
    ensures var items := ScanItems(body, depth + 1);
            ScanValue("[" + body, depth)
            == if SkipSpace(body)[0] == ']' then Got(Arr([]), SkipSpace(body)[1..])
               else if items.Bad? then Bad else Got(Arr(items.value), items.rest)
  {
    hide ScanItems, ScanMembers, ScanChars, ScanNumber;
    ItemsSkip(body, depth + 1);
    NoLead("[" + body);
    assert ("[" + body)[1..] == body;
  }

  lemma OpensObject(body: string, depth: nat)
    requires depth < MAX_NESTING && SkipSpace(body) != ""
    ensures var m := ScanMembers(body, map[], depth + 1);
            ScanValue("{" + body, depth)
            == if SkipSpace(body)[0] == '}' then Got(Obj(map[]), SkipSpace(body)[1..])
               else if m.Bad? then Bad else Got(Obj(m.value), m.rest)
  {
    hide ScanItems, ScanMembers, ScanChars, ScanNumber;
    MembersSkip(body, map[], depth + 1);
    NoLead("{" + body);
    assert ("{" + body)[1..] == body;
  }

  lemma {:induction false} ArrayReads(gap: string, items: seq<Item>, rest: string, depth: nat)
    requires depth < MAX_NESTING && IsSpace(gap) && ProperItems(items, MAX_NESTING - depth - 1)
    ensures ScanValue(Show(Array(gap, items)) + rest, depth) == Got(Meaning(Array(gap, items)), rest)
    decreases items, 3
  {
    hide ScanValue, ScanItems, ShowItems, Values, IsSpace, SkipSpace, ProperItems;
    var body := gap + (ShowItems(items) + ("]" + rest));
    ArrayShape(gap, items, rest);
    if items == [] {
      NoItems(gap, rest);
    } else {
      ItemsStart(gap, items, rest, MAX_NESTING - depth - 1);
      ItemsRead(gap, items, rest, depth + 1);
    }
    OpensArray(body, depth);
  }

  lemma ArrayShape(gap: string, items: seq<Item>, rest: string)
    ensures Show(Array(gap, items)) + rest == "[" + (gap + (ShowItems(items) + ("]" + rest)))
  {
    hide ShowItems;
  }

  lemma NoItems(gap: string, rest: string)
    requires IsSpace(gap)
    ensures SkipSpace(gap + (ShowItems([]) + ("]" + rest))) == "]" + rest && ("]" + rest)[1..] == rest
    ensures Meaning(Array(gap, [])) == Arr([])
  {
    assert ShowItems([]) + ("]" + rest) == "]" + rest;
    SpaceSkipped(gap, "]" + rest);
  }

  lemma ItemsStart(gap: string, items: seq<Item>, rest: string, d: nat)
    requires IsSpace(gap) && items != [] && ProperItems(items, d)
    ensures var s := SkipSpace(gap + (ShowItems(items) + ("]" + rest))); s != "" && s[0] != ']'
  {
    hide Show, StartsValue, IsSpace, SkipSpace;
    var i := items[0];
    assert ProperItem(i, d);
    ShowStarts(i.value, d);
    var more := i.trail + ((if |items| == 1 then "" else "," + ShowItems(items[1..])) + ("]" + rest));
    assert gap + (ShowItems(items) + ("]" + rest)) == gap + i.lead + (Show(i.value) + more);
    JoinSpace(gap, i.lead);
    Continues(Show(i.value), more);
    StartSkips(gap + i.lead, Show(i.value) + more);
  }

  lemma StartSkips(w: string, t: string)
    requires IsSpace(w) && StartsValue(t)
    ensures SkipSpace(w + t) == t && t != "" && t[0] != ']' && t[0] != '}'
  {
    SpaceSkipped(w, t);
  }

  /** What follows an item's value: white space, then a comma and the other items, or the closing bracket. */
  function Behind(items: seq<Item>, tail: string): string
    requires items != []
  {
    if |items| == 1 then tail else "," + (ShowItems(items[1..]) + tail)
  }

  lemma ItemShape(lead: string, items: seq<Item>, tail: string)
    requires items != []
    ensures lead + (ShowItems(items) + tail)
            == lead + items[0].lead + (Show(items[0].value) + (items[0].trail + Behind(items, tail)))
  {
    hide Show;
    var i := items[0];
    var more := if |items| == 1 then "" else "," + ShowItems(items[1..]);
    assert ShowItems(items) == i.lead + (Show(i.value) + i.trail) + more;
    assert more + tail == Behind(items, tail) by { MoreItems(items, tail); }
    FlatItem(lead, i.lead, Show(i.value), i.trail, more, tail);
  }

  lemma MoreItems(items: seq<Item>, tail: string)
    requires items != []
    ensures (if |items| == 1 then "" else "," + ShowItems(items[1..])) + tail == Behind(items, tail)
  {
    hide ShowItems;
    assert "" + tail == tail;
  }

  lemma Assoc(a: string, b: string, c: string)
    ensures a + b + c == a + (b + c)
  {
  }

  lemma FlatItem(a: string, b: string, v: string, d: string, more: string, tail: string)
    ensures a + (b + (v + d) + more + tail) == a + b + (v + (d + (more + tail)))
  {
    Assoc(b + (v + d), more, tail);
    Assoc(b, v + d, more + tail);
    Assoc(v, d, more + tail);
    Assoc(a, b, v + (d + (more + tail)));
  }

  lemma BehindEnds(trail: string, items: seq<Item>, rest: string)
    requires IsSpace(trail) && items != []
    ensures Ends(trail + Behind(items, "]" + rest))
    ensures SkipSpace(trail + Behind(items, "]" + rest)) == Behind(items, "]" + rest)
  {
    hide ShowItems;
    SpaceEnds(trail, Behind(items, "]" + rest));
    SpaceSkipped(trail, Behind(items, "]" + rest));
  }

  lemma {:induction false} ItemsRead(lead: string, items: seq<Item>, rest: string, depth: nat)
    requires depth <= MAX_NESTING && IsSpace(lead) && items != [] && ProperItems(items, MAX_NESTING - depth)
    ensures ScanItems(lead + (ShowItems(items) + ("]" + rest)), depth) == Got(Values(items), rest)
    decreases items, 2
  {
    hide ScanValue, ScanItems, Show, ShowItems, Meaning, IsSpace, SkipSpace, Ends, Proper;
    var i, tail := items[0], "]" + rest;
    assert ProperItem(i, MAX_NESTING - depth);
    var after := i.trail + Behind(items, tail);
    ItemShape(lead, items, tail);
    BehindEnds(i.trail, items, rest);
    JoinSpace(lead, i.lead);
    TextReads(i.value, lead + i.lead, after, depth);
    ScanItemsOnce(lead + i.lead + (Show(i.value) + after), depth, Meaning(i.value), after);
    if |items| == 1 {
      assert tail[1..] == rest;
      assert items[1..] == [] && Values(items) == [Meaning(i.value)];
    } else {
      assert forall k :: 0 <= k < |items[1..]| ==> items[1..][k] == items[k + 1];
      NoSpace();
      ItemsRead("", items[1..], rest, depth);
      var next := ShowItems(items[1..]) + tail;
      assert "" + next == next && ("," + next)[1..] == next;
    }
  }

  lemma NoSpace()
    ensures IsSpace("")
  {
  }

  // ----- objects -----

  lemma {:induction false} ObjectReads(gap: string, pairs: seq<Pair>, rest: string, depth: nat)
    requires depth < MAX_NESTING && IsSpace(gap) && ProperPairs(pairs, MAX_NESTING - depth - 1)
    ensures ScanValue(Show(Object(gap, pairs)) + rest, depth) == Got(Meaning(Object(gap, pairs)), rest)
    decreases pairs, 4
  {
    hide ScanValue, ScanMembers, ShowPairs, Members, IsSpace, SkipSpace, ProperPairs;
    var body := gap + (ShowPairs(pairs) + ("}" + rest));
    ObjectShape(gap, pairs, rest);
    if pairs == [] {
      NoPairs(gap, rest);
    } else {
      PairsStart(gap, pairs, rest, MAX_NESTING - depth - 1);
      PairsRead(gap, pairs, map[], rest, depth + 1);
    }
    OpensObject(body, depth);
  }

  lemma ObjectShape(gap: string, pairs: seq<Pair>, rest: string)
    ensures Show(Object(gap, pairs)) + rest == "{" + (gap + (ShowPairs(pairs) + ("}" + rest)))
  {
    hide ShowPairs;
  }

  lemma NoPairs(gap: string, rest: string)
    requires IsSpace(gap)
    ensures SkipSpace(gap + (ShowPairs([]) + ("}" + rest))) == "}" + rest && ("}" + rest)[1..] == rest
    ensures Meaning(Object(gap, [])) == Obj(map[])
  {
    assert ShowPairs([]) + ("}" + rest) == "}" + rest;
    SpaceSkipped(gap, "}" + rest);
  }

  function BehindPair(pairs: seq<Pair>, tail: string): string
    requires pairs != []
  {
    if |pairs| == 1 then tail else "," + (ShowPairs(pairs[1..]) + tail)
  }

  /** A member's text: key, colon, value, then the rest. */
  function AfterKey(pairs: seq<Pair>, tail: string): string
    requires pairs != []
  {
    var p := pairs[0];
    p.mid + (":" + (p.item.lead + (Show(p.item.value) + (p.item.trail + BehindPair(pairs, tail)))))
  }

  lemma PairShape(lead: string, pairs: seq<Pair>, tail: string)
    requires pairs != []
    ensures lead + (ShowPairs(pairs) + tail)
            == lead + pairs[0].lead + (['\"'] + (PartsText(pairs[0].key) + (['\"'] + AfterKey(pairs, tail))))
  {
    hide Show, PartsText;
    var p := pairs[0];
    var more := if |pairs| == 1 then "" else "," + ShowPairs(pairs[1..]);
    var item := p.item.lead + (Show(p.item.value) + p.item.trail);
    assert ShowItem(p.item) == item;
    assert QuotedText(p.key) == ['\"'] + (PartsText(p.key) + ['\"']);
    assert ShowPairs(pairs) == p.lead + (QuotedText(p.key) + (p.mid + (":" + item))) + more;
    assert more + tail == BehindPair(pairs, tail) by { MorePairs(pairs, tail); }
    FlatPair(lead, p.lead, PartsText(p.key), p.mid, item, more, tail);
    Assoc(p.item.lead, Show(p.item.value) + p.item.trail, more + tail);
    Assoc(Show(p.item.value), p.item.trail, more + tail);
  }

  lemma MorePairs(pairs: seq<Pair>, tail: string)
    requires pairs != []
    ensures (if |pairs| == 1 then "" else "," + ShowPairs(pairs[1..])) + tail == BehindPair(pairs, tail)
  {
    hide ShowPairs;
    assert "" + tail == tail;
  }

  lemma FlatPair(a: string, b: string, key: string, mid: string, item: string, more: string, tail: string)
    ensures a + (b + (['\"'] + (key + ['\"']) + (mid + (":" + item))) + more + tail)
            == a + b + (['\"'] + (key + (['\"'] + (mid + (":" + (item + (more + tail)))))))
  {
    var quoted, value, all := ['\"'] + (key + ['\"']), mid + (":" + item), more + tail;
    var z := mid + (":" + (item + all));
    Assoc(b + (quoted + value), more, tail);
    Assoc(b, quoted + value, all);
    Assoc(quoted, value, all);
    Assoc(mid, ":" + item, all);
    Assoc(":", item, all);
    Assoc(['\"'], key + ['\"'], z);
    Assoc(key, ['\"'], z);
    Assoc(a, b, ['\"'] + (key + (['\"'] + z)));
  }

  lemma PairsStart(gap: string, pairs: seq<Pair>, rest: string, d: nat)
    requires IsSpace(gap) && pairs != [] && ProperPairs(pairs, d)
    ensures var s := SkipSpace(gap + (ShowPairs(pairs) + ("}" + rest))); s != "" && s[0] == '\"'
  {
    hide ShowPairs, AfterKey, PartsText, IsSpace, SkipSpace;
    assert ProperPair(pairs[0], d);
    PairShape(gap, pairs, "}" + rest);
    JoinSpace(gap, pairs[0].lead);
    SpaceSkipped(gap + pairs[0].lead, ['\"'] + (PartsText(pairs[0].key) + (['\"'] + AfterKey(pairs, "}" + rest))));
  }

  lemma BehindPairEnds(trail: string, pairs: seq<Pair>, rest: string)
    requires IsSpace(trail) && pairs != []
    ensures Ends(trail + BehindPair(pairs, "}" + rest))
    ensures SkipSpace(trail + BehindPair(pairs, "}" + rest)) == BehindPair(pairs, "}" + rest)
  {
    hide ShowPairs;
    SpaceEnds(trail, BehindPair(pairs, "}" + rest));
    SpaceSkipped(trail, BehindPair(pairs, "}" + rest));
  }

  /** Reading one member, given what its key and its value are read as. */
  lemma MembersOnce(w: string, t: string, m: map<string, Json>, depth: nat, k: string, mid: string, s: string, v: Json, u: string)
    requires IsSpace(w) && IsSpace(mid) && ScanChars(t) == Got(k, mid + (":" + s)) && ScanValue(s, depth) == Got(v, u)
    ensures var z := SkipSpace(u);
            ScanMembers(w + (['\"'] + t), m, depth)
            == if z != "" && z[0] == '}' then Got(m[k := v], z[1..])
               else if z != "" && z[0] == ',' then ScanMembers(z[1..], m[k := v], depth)
               else Bad
  {
    hide ScanValue, ScanChars;
    SpaceSkipped(w, ['\"'] + t);
    assert (['\"'] + t)[1..] == t;
    SpaceSkipped(mid, ":" + s);
    assert (":" + s)[1..] == s;
  }

  lemma {:induction false} PairsRead(lead: string, pairs: seq<Pair>, m: map<string, Json>, rest: string, depth: nat)
    requires depth <= MAX_NESTING && IsSpace(lead) && pairs != [] && ProperPairs(pairs, MAX_NESTING - depth)
    ensures ScanMembers(lead + (ShowPairs(pairs) + ("}" + rest)), m, depth) == Got(Members(pairs, m), rest)
    decreases pairs, 3
  {
    hide ScanValue, ScanMembers, ScanChars, Show, ShowPairs, Meaning, IsSpace, SkipSpace, Ends, Proper, PartsText,
      PartsMeaning, Spelling;
    var p, tail := pairs[0], "}" + rest;
    assert ProperPair(p, MAX_NESTING - depth);
    var after := p.item.trail + BehindPair(pairs, tail);
    var value := p.item.lead + (Show(p.item.value) + after);
    PairShape(lead, pairs, tail);
    assert AfterKey(pairs, tail) == p.mid + (":" + value);
    BehindPairEnds(p.item.trail, pairs, rest);
    JoinSpace(lead, p.lead);
    SpellingIsRead(p.key, AfterKey(pairs, tail));
    TextReads(p.item.value, p.item.lead, after, depth);
    MembersOnce(lead + p.lead, PartsText(p.key) + (['\"'] + AfterKey(pairs, tail)), m, depth, PartsMeaning(p.key), p.mid,
                value, Meaning(p.item.value), after);
    if |pairs| == 1 {
      assert tail[1..] == rest;
      assert pairs[1..] == [];
    } else {
      assert forall k :: 0 <= k < |pairs[1..]| ==> pairs[1..][k] == pairs[k + 1];
      NoSpace();
      PairsRead("", pairs[1..], m[PartsMeaning(p.key) := Meaning(p.item.value)], rest, depth);
      var next := ShowPairs(pairs[1..]) + tail;
      assert "" + next == next && ("," + next)[1..] == next;
    }
  }

  // ----- and nothing else is read -----

  lemma {:induction false} LeadingSpace(s: string) returns (w: string)
    ensures IsSpace(w) && s == w + SkipSpace(s)
  {
    if s != "" && s[0] in [' ', '\t', '\r', '\n'] {
      var more := LeadingSpace(s[1..]);
      w := [s[0]] + more;
    } else {
      w := "";
    }
  }

  /** Whatever is read is a text, with white space before it, that means what was read. */
  lemma {:induction false} ReadIsText(s: string, depth: nat) returns (lead: string, t: Text)
    requires depth <= MAX_NESTING && ScanValue(s, depth).Got?
    ensures IsSpace(lead) && Proper(t, MAX_NESTING - depth) && Meaning(t) == ScanValue(s, depth).value
    ensures s == lead + (Show(t) + ScanValue(s, depth).rest)
    decreases |s|, 1
  {
    hide ScanValue, IsNumber, Spelling, PartsText, PartsMeaning, IsSpace, SkipSpace, Show, Meaning, Proper;
    lead := LeadingSpace(s);
    var x := SkipSpace(s);
    ValueSkips(s, depth);
    NotEmpty(x, depth);
    if x[0] == '{' {
      t := ReadIsObject(x, depth);
    } else if x[0] == '[' {
      t := ReadIsArray(x, depth);
    } else if x[0] == '\"' {
      t := ReadIsQuoted(x, depth);
      LeafAnyDepth(t, MAX_NESTING - depth);
    } else {
      t := ReadIsLeaf(x, depth);
      LeafAnyDepth(t, MAX_NESTING - depth);
    }
  }

  lemma NotEmpty(x: string, depth: nat)
    requires ScanValue(x, depth).Got?
    ensures x != ""
  {
  }

  lemma LeafAnyDepth(t: Text, d: nat)
    requires Proper(t, 0)
    ensures Proper(t, d)
  {
  }

  lemma ReadIsLeaf(x: string, depth: nat) returns (t: Text)
    requires ScanValue(x, depth).Got? && x != "" && x[0] !in ['{', '[', '\"', ' ', '\t', '\r', '\n']
    ensures Proper(t, 0) && Meaning(t) == ScanValue(x, depth).value && x == Show(t) + ScanValue(x, depth).rest
  {
    hide ScanChars, ScanNumber, ScanItems, ScanMembers, IsNumber;
    NoLead(x);
    if Starts(x, "null") {
      t := Word(Null);
      assert x == "null" + x[4..];
    } else if Starts(x, "true") {
      t := Word(Bool(true));
      assert x == "true" + x[4..];
    } else if Starts(x, "false") {
      t := Word(Bool(false));
      assert x == "false" + x[5..];
    } else {
      t := Numeral(ScanNumber(x).value);
      ScannedNumber(x);
      NumberGrammar(ScanNumber(x).value);
    }
  }

  lemma ReadIsQuoted(x: string, depth: nat) returns (t: Text)
    requires ScanValue(x, depth).Got? && x != "" && x[0] == '\"'
    ensures Proper(t, 0) && Meaning(t) == ScanValue(x, depth).value && x == Show(t) + ScanValue(x, depth).rest
    ensures t.Quoted? && ScanChars(x[1..]).Got? && ScanValue(x, depth).rest == ScanChars(x[1..]).rest
    ensures x == QuotedText(t.parts) + ScanChars(x[1..]).rest && PartsMeaning(t.parts) == ScanChars(x[1..]).value
    ensures Spelling(t.parts)
  {
    hide ScanChars, Spelling, PartsText, PartsMeaning;
    NoLead(x);
    var ps := ReadIsSpelling(x[1..]);
    t := Quoted(ps);
    var rest := ScanChars(x[1..]).rest;
    assert x == [x[0]] + x[1..];
    Assoc(['\"'], PartsText(ps) + ['\"'], rest);
    Assoc(PartsText(ps), ['\"'], rest);
  }

  lemma {:induction false} ReadIsArray(x: string, depth: nat) returns (t: Text)
    requires depth <= MAX_NESTING && ScanValue(x, depth).Got? && x != "" && x[0] == '['
    ensures Proper(t, MAX_NESTING - depth) && Meaning(t) == ScanValue(x, depth).value
    ensures x == Show(t) + ScanValue(x, depth).rest
    decreases |x|, 0
  {
    hide ScanItems, ShowItems, Values, IsSpace, ProperItem;
    NoLead(x);
    var body := x[1..];
    var gap := LeadingSpace(body);
    var y := SkipSpace(body);
    var rest := ScanValue(x, depth).rest;
    assert x == "[" + body;
    if y != "" && y[0] == ']' {
      t := Array(gap, []);
      NoItems(gap, rest);
      assert ShowItems([]) + "]" == "]" by { NothingShown(); }
      assert y == "]" + rest;
      Assoc(gap, "]", rest);
      Assoc("[", gap + "]", rest);
    } else {
      var items := ReadIsItems(y, depth + 1);
      t := Array(gap, items);
      ArrayShape(gap, items, rest);
    }
  }

  lemma NothingShown()
    ensures ShowItems([]) == "" && ShowPairs([]) == ""
  {
  }

  lemma {:induction false} ReadIsItems(s: string, depth: nat) returns (items: seq<Item>)
    requires depth <= MAX_NESTING && ScanItems(s, depth).Got?
    ensures items != [] && ProperItems(items, MAX_NESTING - depth) && Values(items) == ScanItems(s, depth).value
    ensures s == ShowItems(items) + ("]" + ScanItems(s, depth).rest)
    decreases |s|, 2
  {
    hide ScanValue, ScanItems, Show, ShowItems, Meaning, IsSpace, Proper;
    ItemsNeedValue(s, depth);
    var lead, t := ReadIsText(s, depth);
    var u := ScanValue(s, depth).rest;
    var trail := LeadingSpace(u);
    var i := Item(lead, t, trail);
    var z := SkipSpace(u);
    ScanItemsOnce(s, depth, Meaning(t), u);
    assert ProperItem(i, MAX_NESTING - depth);
    if z != "" && z[0] == ']' {
      items := [i];
      OneItem(i);
      assert z == "]" + z[1..];
      ItemAround(lead, Show(t), trail, z);
    } else {
      var more := ReadIsItems(z[1..], depth);
      items := [i] + more;
      var tail := "]" + ScanItems(s, depth).rest;
      ItemsCons(i, more, MAX_NESTING - depth);
      assert z == "," + z[1..];
      ItemAround(lead, Show(t), trail, z);
      Assoc(ShowItem(i), "," + ShowItems(more), tail);
      Assoc(",", ShowItems(more), tail);
    }
  }

  lemma ItemsNeedValue(s: string, depth: nat)
    requires ScanItems(s, depth).Got?
    ensures ScanValue(s, depth).Got?
  {
    hide ScanValue;
  }

  lemma OneItem(i: Item)
    ensures ShowItems([i]) == ShowItem(i) && Values([i]) == [Meaning(i.value)]
  {
    hide Show, Meaning;
    assert [i][1..] == [];
  }

  lemma ItemsCons(i: Item, more: seq<Item>, d: nat)
    requires more != [] && ProperItem(i, d) && ProperItems(more, d)
    ensures ProperItems([i] + more, d) && Values([i] + more) == [Meaning(i.value)] + Values(more)
    ensures ShowItems([i] + more) == ShowItem(i) + ("," + ShowItems(more))
  {
    hide Show, Meaning, ProperItem;
    assert ([i] + more)[1..] == more;
  }

  lemma ItemAround(lead: string, v: string, trail: string, z: string)
    ensures lead + (v + (trail + z)) == lead + (v + trail) + z
  {
    Assoc(v, trail, z);
    Assoc(lead, v + trail, z);
  }

  lemma {:induction false} ReadIsObject(x: string, depth: nat) returns (t: Text)
    requires depth <= MAX_NESTING && ScanValue(x, depth).Got? && x != "" && x[0] == '{'
    ensures Proper(t, MAX_NESTING - depth) && Meaning(t) == ScanValue(x, depth).value
    ensures x == Show(t) + ScanValue(x, depth).rest
    decreases |x|, 0
  {
    hide ScanMembers, ShowPairs, Members, IsSpace, ProperPair;
    NoLead(x);
    var body := x[1..];
    var gap := LeadingSpace(body);
    var y := SkipSpace(body);
    var rest := ScanValue(x, depth).rest;
    assert x == "{" + body;
    if y != "" && y[0] == '}' {
      t := Object(gap, []);
      NoPairs(gap, rest);
      assert ShowPairs([]) + "}" == "}" by { NothingShown(); }
      assert y == "}" + rest;
      Assoc(gap, "}", rest);
      Assoc("{", gap + "}", rest);
    } else {
      var pairs := ReadIsPairs(y, map[], depth + 1);
      t := Object(gap, pairs);
      ObjectShape(gap, pairs, rest);
    }
  }

  lemma {:induction false} ReadIsPairs(s: string, m: map<string, Json>, depth: nat) returns (pairs: seq<Pair>)
    requires depth <= MAX_NESTING && ScanMembers(s, m, depth).Got?
    ensures pairs != [] && ProperPairs(pairs, MAX_NESTING - depth) && Members(pairs, m) == ScanMembers(s, m, depth).value
    ensures s == ShowPairs(pairs) + ("}" + ScanMembers(s, m, depth).rest)
    decreases |s|, 2
  {
    hide ScanValue, ScanMembers, ScanChars, Show, ShowPairs, Members, Meaning, IsSpace, Proper, Spelling, PartsText,
      PartsMeaning, QuotedText;
    var lead := LeadingSpace(s);
    var key, mid, value, u := MemberParts(s, m, depth);
    var inner, t := ReadIsText(value, depth);
    var trail := LeadingSpace(u);
    var z := SkipSpace(u);
    var p := Pair(lead, key, mid, Item(inner, t, trail));
    assert ProperItem(p.item, MAX_NESTING - depth);
    assert ProperPair(p, MAX_NESTING - depth);
    PairAround(lead, QuotedText(key), mid, inner, Show(t), trail, z);
    assert s == ShowPair(p) + z;
    if z != "" && z[0] == '}' {
      pairs := [p];
      OnePair(p, m);
      assert z == "}" + z[1..];
    } else {
      var m' := m[PartsMeaning(key) := Meaning(t)];
      var more := ReadIsPairs(z[1..], m', depth);
      pairs := [p] + more;
      var tail := "}" + ScanMembers(s, m, depth).rest;
      PairsCons(p, more, m, MAX_NESTING - depth);
      assert z == "," + z[1..];
      Assoc(ShowPair(p), "," + ShowPairs(more), tail);
      Assoc(",", ShowPairs(more), tail);
    }
  }

  /** The key, the white space behind it and the value's text of the first member, and what follows the value. */
  lemma MemberParts(s: string, m: map<string, Json>, depth: nat)
    returns (key: seq<Part>, mid: string, value: string, u: string)
    requires ScanMembers(s, m, depth).Got?
    ensures Spelling(key) && IsSpace(mid) && |value| < |s| && |SkipSpace(u)| < |s|
    ensures SkipSpace(s) == QuotedText(key) + (mid + (":" + value))
    ensures ScanValue(value, depth).Got? && ScanValue(value, depth).rest == u
    ensures var m', z := m[PartsMeaning(key) := ScanValue(value, depth).value], SkipSpace(u);
            && z != "" && (z[0] == '}' || z[0] == ',')
            && ScanMembers(s, m, depth) == if z[0] == '}' then Got(m', z[1..]) else ScanMembers(z[1..], m', depth)
  {
    hide ScanValue, ScanChars, Spelling, PartsText, PartsMeaning, IsSpace;
    var x := SkipSpace(s);
    var r := ScanChars(x[1..]);
    key := ReadIsSpelling(x[1..]);
    mid := LeadingSpace(r.rest);
    var y := SkipSpace(r.rest);
    value := y[1..];
    u := ScanValue(value, depth).rest;
    assert y == ":" + value;
    assert x == ['\"'] + x[1..];
    Assoc(['\"'], PartsText(key) + ['\"'], r.rest);
    Assoc(PartsText(key), ['\"'], r.rest);
  }

  lemma OnePair(p: Pair, m: map<string, Json>)
    ensures ShowPairs([p]) == ShowPair(p) && Members([p], m) == m[PartsMeaning(p.key) := Meaning(p.item.value)]
  {
    hide ShowPair, Meaning, PartsMeaning;
    assert [p][1..] == [];
  }

  lemma PairsCons(p: Pair, more: seq<Pair>, m: map<string, Json>, d: nat)
    requires more != [] && ProperPair(p, d) && ProperPairs(more, d)
    ensures ProperPairs([p] + more, d)
    ensures Members([p] + more, m) == Members(more, m[PartsMeaning(p.key) := Meaning(p.item.value)])
    ensures ShowPairs([p] + more) == ShowPair(p) + ("," + ShowPairs(more))
  {
    hide ShowPair, Meaning, PartsMeaning, ProperPair;
    assert ([p] + more)[1..] == more;
  }

  lemma PairAround(lead: string, q: string, mid: string, inner: string, v: string, trail: string, z: string)
    ensures lead + (q + (mid + (":" + (inner + (v + (trail + z))))))
            == lead + (q + (mid + (":" + (inner + (v + trail))))) + z
  {
    var item := inner + (v + trail);
    ItemAround(inner, v, trail, z);
    Assoc(":", item, z);
    Assoc(mid, ":" + item, z);
    Assoc(q, mid + (":" + item), z);
    Assoc(lead, q + (mid + (":" + item)), z);
  }
}
