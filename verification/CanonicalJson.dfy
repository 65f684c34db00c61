/** Canonical JSON: keys sorted, no white space (internal/x402/x402.go). */
module CanonicalJson {
  import opened Results
  import opened SortedSets
  import opened JsonText
  import opened JsonGrammar

  // ----- canonical text -----

  ghost function ByKey(): (order: set<string> -> seq<string>)
    ensures IsOrder(order)
    ensures forall s :: Lists(LexLess, order(s), s)
  {
    LexIsTotal();
    var order := (s: set<string>) => Sorted(LexLess, s);
    assert forall s :: Lists(LexLess, order(s), s);
    assert forall s :: Enumerates(order(s), s) by {
      forall s ensures Enumerates(order(s), s) {
        assert Lists(LexLess, order(s), s);
      }
    }
    order
  }

  /** No white space, keys in order. */
  ghost function Canon(v: Json): string {
    Render(v, "", ByKey())
  }

  /** Decoder.More: another element seems to follow unless the text ends here or at a closing mark. */
  predicate More(rest: string) {
    var t := SkipSpace(rest);
    t != "" && t[0] != ']' && t[0] != '}'
  }

  ghost function Canonical(raw: string): Result<string> {
    match ScanValue(raw, 0)
    case Bad => Err("invalid JSON")
    case Got(v, rest) => if More(rest) then Err("trailing JSON") else Ok(Canon(v))
  }

  lemma RenderedScans(v: Json, lead: string, w: string, order: set<string> -> seq<string>, tail: string)
    requires IsOrder(order) && IsSpace(lead) && IsSpace(w) && WellFormed(v, MAX_NESTING) && Ends(tail)
    ensures ScanValue(lead + (Render(v, w, order) + tail), 0) == Got(v, tail)
  {
    ScanRendered(v, lead, w, order, tail, 0);
  }

  lemma CanonScans(v: Json, tail: string)
    requires WellFormed(v, MAX_NESTING) && Ends(tail)
    ensures ScanValue(Canon(v) + tail, 0) == Got(v, tail)
  {
    hide ScanValue, WellFormed, Render, ByKey;
    RenderedScans(v, "", "", ByKey(), tail);
    assert "" + (Canon(v) + tail) == Canon(v) + tail;
  }

  lemma CanonReadsBack(v: Json)
    requires WellFormed(v, MAX_NESTING)
    ensures ScanValue(Canon(v), 0) == Got(v, "")
  {
    hide ScanValue, WellFormed, Canon;
    CanonScans(v, "");
    assert Canon(v) + "" == Canon(v);
  }

  /** Two values have the same canonical text exactly when they are the same value. */
  lemma CanonInjective(u: Json, v: Json)
    requires WellFormed(u, MAX_NESTING) && WellFormed(v, MAX_NESTING)
    ensures Canon(u) == Canon(v) <==> u == v
  {
    CanonReadsBack(u);
    CanonReadsBack(v);
  }

  lemma MeaningWellFormed(t: Text)
    requires Proper(t, MAX_NESTING)
    ensures WellFormed(Meaning(t), MAX_NESTING)
  {
    hide ScanValue, Proper, WellFormed, Meaning, Show;
    TextReads(t, "", "", 0);
    ScannedWellFormed("" + (Show(t) + ""), 0);
  }

  /** Every way of writing a value has the value's canonical text: any white space, key order, spelling of strings and
    * keys, and repeated keys, of which the last counts. */
  lemma LayoutIgnored(t: Text, lead: string, trail: string)
    requires Proper(t, MAX_NESTING) && IsSpace(lead) && IsSpace(trail)
    ensures Canonical(lead + (Show(t) + trail)) == Ok(Canon(Meaning(t)))
  {
    hide ScanValue, Proper, Canon, Meaning, Show;
    SpaceEnds(trail, "");
    assert trail + "" == trail;
    SpaceSkipped(trail, "");
    TextReads(t, lead, trail, 0);
  }

  /** What is accepted, and as what: a text, white space before it, and after it nothing that Decoder.More sees. */
  lemma AcceptedTexts(raw: string, c: string)
    ensures Canonical(raw) == Ok(c) <==>
              exists lead, t, tail :: IsSpace(lead) && Proper(t, MAX_NESTING) && raw == lead + (Show(t) + tail)
                                      && !More(tail) && c == Canon(Meaning(t))
  {
    hide ScanValue, Proper, Canon, Meaning, Show, More, IsSpace;
    if Canonical(raw) == Ok(c) {
      var lead, t := ReadIsText(raw, 0);
      assert raw == lead + (Show(t) + ScanValue(raw, 0).rest);
    }
    forall lead, t, tail | IsSpace(lead) && Proper(t, MAX_NESTING) && raw == lead + (Show(t) + tail)
                           && !More(tail) && c == Canon(Meaning(t))
      ensures Canonical(raw) == Ok(c)
    {
      NoMoreEnds(tail);
      TextReads(t, lead, tail, 0);
    }
  }

  lemma NoMoreEnds(tail: string)
    requires !More(tail)
    ensures Ends(tail)
  {
    if tail != "" && tail[0] !in [' ', '\t', '\r', '\n'] {
      NoLead(tail);
    }
  }

  /** Canonical text is its own canonical text. */
  lemma CanonicalStable(raw: string)
    requires Canonical(raw).Ok?
    ensures Canonical(Canonical(raw).value) == Canonical(raw)
  {
    hide ScanValue, WellFormed, Canon, SkipSpace;
    ScannedWellFormed(raw, 0);
    CanonReadsBack(ScanValue(raw, 0).value);
    NothingMore();
  }

  lemma NothingMore()
    ensures !More("")
  {
  }

  /** Two texts have the same canonical text exactly when they mean the same value. */
  lemma SameTextSameValue(t: Text, u: Text)
    requires Proper(t, MAX_NESTING) && Proper(u, MAX_NESTING)
    ensures Canonical(Show(t)) == Canonical(Show(u)) <==> Meaning(t) == Meaning(u)
  {
    hide Canonical, WellFormed, Canon, Proper, Meaning, Show;
    NoSpace();
    LayoutIgnored(t, "", "");
    LayoutIgnored(u, "", "");
    assert "" + (Show(t) + "") == Show(t) && "" + (Show(u) + "") == Show(u);
    MeaningWellFormed(t);
    MeaningWellFormed(u);
    CanonInjective(Meaning(t), Meaning(u));
  }

  /** Text after the value is refused unless it is white space, or white space and then a closing bracket or
    * brace: whatever follows that mark goes unnoticed. */
  lemma TrailingText(v: Json, tail: string)
    requires WellFormed(v, MAX_NESTING) && Ends(tail)
    ensures Canonical(Canon(v) + tail) ==
            if SkipSpace(tail) == "" || SkipSpace(tail)[0] == ']' || SkipSpace(tail)[0] == '}' then Ok(Canon(v))
            else Err("trailing JSON")
  {
    hide ScanValue, WellFormed, Canon;
    CanonScans(v, tail);
  }

  /** Not every trailing text is refused. */
  lemma TrailingTextAccepted()
    ensures Canonical("null] null") == Ok("null")
  {
    TrailingText(Null, "] null");
    assert Canon(Null) + "] null" == "null] null";
  }

  // ----- the encoder as it runs -----

  lemma EscapeStep(before: string, s: string, i: nat)
    requires i < |s|
    ensures before + EscapeAll(s[i..]) == before + Escape(s[i]) + EscapeAll(s[i + 1..])
  {
    hide Escape;
    assert s[i..][1..] == s[i + 1..];
  }

  lemma EscapeDone(before: string, text: string, s: string)
    requires text + EscapeAll(s[|s|..]) == before + ['\"'] + EscapeAll(s)
    ensures text + ['\"'] == before + Quote(s)
  {
    hide EscapeAll;
    NoEscape(s[|s|..]);
    assert text + "" == text;
    Regroup(before, ['\"'], EscapeAll(s));
    Regroup(before, ['\"'] + EscapeAll(s), ['\"']);
  }

  lemma NoEscape(s: string)
    requires s == ""
    ensures EscapeAll(s) == ""
  {
  }

  class Buffer {
    var text: string

    constructor ()
      ensures text == ""
    {
      text := "";
    }

    method Write(s: string)
      modifies this
      ensures text == old(text) + s
    {
      text := text + s;
    }

    method WriteString(s: string)
      modifies this
      ensures text == old(text) + Quote(s)
    {
      hide Escape, EscapeAll, Quote;
      text := text + ['\"'];
      var i := 0;
      assert s[0..] == s;
      while i < |s|
        invariant 0 <= i <= |s|
        invariant text + EscapeAll(s[i..]) == old(text) + ['\"'] + EscapeAll(s)
      {
        EscapeStep(text, s, i);
        text := text + Escape(s[i]);
        i := i + 1;
      }
      EscapeDone(old(text), text, s);
      text := text + ['\"'];
    }
  }

  function Comma(i: nat): string {
    if i > 0 then "," else ""
  }

  /** What remains of an array's canonical text before item i. */
  ghost function RestItems(v: Json, i: nat): string
    requires v.Arr? && i <= |v.items|
  {
    if i == |v.items| then "" else Comma(i) + RenderItems(v, i, "", ByKey())
  }

  ghost function RestMembers(v: Json, ks: seq<string>, i: nat): string
    requires v.Obj? && i <= |ks| && forall k :: k in ks ==> k in v.members
  {
    if i == |ks| then "" else Comma(i) + RenderMembers(v, ks[i..], "", ByKey())
  }

  lemma RestItemsStep(v: Json, i: nat)
    requires v.Arr? && i < |v.items|
    ensures RestItems(v, i) == Comma(i) + (Canon(v.items[i]) + RestItems(v, i + 1))
  {
    hide ByKey, Render;
    assert forall t: string :: "" + t == t;
  }

  lemma RestMembersStep(v: Json, ks: seq<string>, i: nat)
    requires v.Obj? && i < |ks| && forall k :: k in ks ==> k in v.members
    ensures RestMembers(v, ks, i)
            == Comma(i) + (Quote(ks[i]) + (":" + (Canon(v.members[ks[i]]) + RestMembers(v, ks, i + 1))))
  {
    hide ByKey, Render, Quote;
    assert ks[i..][1..] == ks[i + 1..];
    assert forall t: string :: "" + t == t;
  }

  /** Append v's canonical text. */
  method WriteCanonical(b: Buffer, v: Json)
    modifies b
    ensures b.text == old(b.text) + Canon(v)
    decreases v, 1
  {
    hide RenderItems, RenderMembers, ByKey;
    match v
    case Null => b.Write("null");
    case Bool(t) => b.Write(if t then "true" else "false");
    case Number(text) => b.Write(text);
    case Str(s) => b.WriteString(s);
    case Arr(items) => WriteArray(b, v);
    case Obj(members) => WriteObject(b, v);
  }

  lemma ArrayCanon(v: Json)
    requires v.Arr?
    ensures Canon(v) == "[" + RestItems(v, 0) + "]"
  {
    hide ByKey, RenderItems;
    assert RestItems(v, 0) == RenderItems(v, 0, "", ByKey()) by { NoItems(v); }
    assert forall t: string :: "" + t == t;
  }

  lemma NoItems(v: Json)
    requires v.Arr?
    ensures v.items == [] ==> RenderItems(v, 0, "", ByKey()) == ""
    ensures forall t: string :: "" + t == t
  {
  }

  lemma ObjectCanon(v: Json, ks: seq<string>)
    requires v.Obj? && Lists(LexLess, ks, v.members.Keys)
    ensures Canon(v) == "{" + RestMembers(v, ks, 0) + "}"
  {
    hide RenderMembers;
    LexIsTotal();
    assert Lists(LexLess, ByKey()(v.members.Keys), v.members.Keys);
    ListingUnique(LexLess, ks, ByKey()(v.members.Keys), v.members.Keys);
    assert ks[0..] == ks;
    NoMembers(v, ks);
    assert forall t: string :: "" + t == t;
  }

  lemma NoMembers(v: Json, ks: seq<string>)
    requires v.Obj? && forall k :: k in ks ==> k in v.members
    ensures ks == [] ==> RenderMembers(v, ks, "", ByKey()) == ""
  {
  }

  method WriteArray(b: Buffer, v: Json)
    requires v.Arr?
    modifies b
    ensures b.text == old(b.text) + Canon(v)
    decreases v, 0
  {
    hide RenderItems, ByKey, Canon, Comma;
    ghost var start := b.text;
    ArrayCanon(v);
    b.Write("[");
    var i := 0;
    while i < |v.items|
      invariant 0 <= i <= |v.items|
      invariant b.text + RestItems(v, i) == start + ("[" + RestItems(v, 0))
    {
      RestItemsStep(v, i);
      ghost var before := b.text;
      b.Write(Comma(i));
      WriteCanonical(b, v.items[i]);
      Regroup(before, Comma(i), Canon(v.items[i]));
      Regroup(before, Comma(i) + Canon(v.items[i]), RestItems(v, i + 1));
      Regroup(Comma(i), Canon(v.items[i]), RestItems(v, i + 1));
      i := i + 1;
    }
    assert b.text + "" == b.text;
    b.Write("]");
    Regroup(start, "[" + RestItems(v, 0), "]");
  }

  method WriteObject(b: Buffer, v: Json)
    requires v.Obj?
    modifies b
    ensures b.text == old(b.text) + Canon(v)
    decreases v, 0
  {
    hide RenderMembers, ByKey, Canon, Comma, Quote;
    ghost var start := b.text;
    LexIsTotal();
    var ks := Sort(LexLess, v.members.Keys);
    ObjectCanon(v, ks);
    b.Write("{");
    var i := 0;
    while i < |ks|
      invariant 0 <= i <= |ks|
      invariant b.text + RestMembers(v, ks, i) == start + ("{" + RestMembers(v, ks, 0))
    {
      RestMembersStep(v, ks, i);
      ghost var before := b.text;
      b.Write(Comma(i));
      b.WriteString(ks[i]);
      b.Write(":");
      WriteCanonical(b, v.members[ks[i]]);
      FiveGroups(before, Comma(i), Quote(ks[i]), ":", Canon(v.members[ks[i]]), RestMembers(v, ks, i + 1));
      i := i + 1;
    }
    assert b.text + "" == b.text;
    b.Write("}");
    Regroup(start, "{" + RestMembers(v, ks, 0), "}");
  }

  lemma FiveGroups(a: string, b: string, c: string, d: string, e: string, f: string)
    ensures a + b + c + d + e + f == a + (b + (c + (d + (e + f))))
  {
  }

  /** Canonicalize a text that has been decoded. */
  method CanonicalText(raw: string) returns (r: Result<string>)
    ensures r == Canonical(raw)
  {
    match ScanValue(raw, 0)
    case Bad => return Err("invalid JSON");
    case Got(v, rest) =>
      if More(rest) {
        return Err("trailing JSON");
      }
      var b := new Buffer();
      WriteCanonical(b, v);
      assert "" + Canon(v) == Canon(v);
      return Ok(b.text);
  }
}
