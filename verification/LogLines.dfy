/** The two logs' records as lines of JSON text (json.Marshal in internal/fastlane/store.go and
  * internal/gateway/journal.go): a way of writing them that can be read back, and how long a line can get. */
module LogLines {
  import opened Results
  import opened DurableLog
  import opened PaymentTypes
  import opened JsonText
  import opened CanonicalJson
  import N = Numerals
  import J = GatewayJournal
  import L = ReceiptLedger

  // ----- canonical text is one line -----

  ghost predicate Printable(t: string) {
    forall i :: 0 <= i < |t| ==> t[i] >= ' '
  }

  lemma {:induction false} EscapedPrintable(s: string)
    ensures Printable(EscapeAll(s)) && |EscapeAll(s)| >= |s|
  {
    if s != "" {
      EscapedPrintable(s[1..]);
    }
  }

  lemma IntegerPrintable(s: string)
    requires IntegerPart(s).Some?
    ensures Printable(s[..IntegerPart(s).value])
  {
    var sign := if s[0] == '-' then 1 else 0;
    assert forall k :: sign <= k < |s| ==> s[k] == s[sign..][k - sign];
  }

  lemma FractionPrintable(s: string)
    requires FractionPart(s).Some?
    ensures Printable(s[..FractionPart(s).value])
  {
    assert forall k :: 1 <= k < |s| ==> s[k] == s[1..][k - 1];
  }

  lemma ExponentPrintable(s: string)
    requires ExponentPart(s).Some?
    ensures Printable(s[..ExponentPart(s).value])
  {
    if s != "" {
      var sign := if |s| > 1 && (s[1] == '+' || s[1] == '-') then 2 else 1;
      assert forall k :: sign <= k < |s| ==> s[k] == s[sign..][k - sign];
    }
  }

  lemma PrintableJoin(a: string, b: string)
    requires Printable(a) && Printable(b)
    ensures Printable(a + b)
  {
  }

  lemma NumberPrintable(t: string)
    requires ValidNumber(t)
    ensures Printable(t)
  {
    hide IntegerPart, FractionPart, ExponentPart, Printable;
    var i := IntegerPart(t).value;
    var f := FractionPart(t[i..]).value;
    var e := ExponentPart(t[i + f..]).value;
    IntegerPrintable(t);
    FractionPrintable(t[i..]);
    ExponentPrintable(t[i + f..]);
    assert t[i..][..f] + t[i + f..][..e] == t[i..];
    PrintableJoin(t[i..][..f], t[i + f..][..e]);
    assert t[..i] + t[i..] == t;
    PrintableJoin(t[..i], t[i..]);
  }

  lemma QuotePrintable(s: string)
    ensures Printable(Quote(s))
  {
    EscapedPrintable(s);
  }

  lemma ItemJoin(v: Json, i: nat, order: set<string> -> seq<string>)
    requires IsOrder(order) && v.Arr? && i < |v.items|
    requires Printable(Render(v.items[i], "", order)) && Printable(RenderItems(v, i + 1, "", order))
    ensures Printable(RenderItems(v, i, "", order))
  {
    hide IsOrder, Render;
    var value, tail := Render(v.items[i], "", order), RenderItems(v, i + 1, "", order);
    assert RenderItems(v, i, "", order) == value + (if i + 1 == |v.items| then "" else "," + tail);
  }

  lemma MemberJoin(v: Json, ks: seq<string>, order: set<string> -> seq<string>)
    requires IsOrder(order) && v.Obj? && (forall k :: k in ks ==> k in v.members) && ks != []
    requires Printable(Quote(ks[0])) && Printable(Render(v.members[ks[0]], "", order))
    requires Printable(RenderMembers(v, ks[1..], "", order))
    ensures Printable(RenderMembers(v, ks, "", order))
  {
    hide IsOrder, Quote, Render;
    var key, value, tail := Quote(ks[0]), Render(v.members[ks[0]], "", order), RenderMembers(v, ks[1..], "", order);
    assert RenderMembers(v, ks, "", order) == key + ":" + value + (if |ks| == 1 then "" else "," + tail);
  }

  lemma LeafPrintable(v: Json, d: nat)
    requires !v.Arr? && !v.Obj? && WellFormed(v, d)
    ensures Printable(LeafText(v))
  {
    hide Quote;
    match v
    case Null =>
    case Bool(b) =>
    case Number(text) => NumberPrintable(text);
    case Str(s) => QuotePrintable(s);
  }

  lemma WrapPrintable(left: char, body: string, right: char)
    requires left >= ' ' && right >= ' ' && Printable(body)
    ensures Printable([left] + ("" + (body + [right])))
  {
  }

  lemma {:induction false} RenderPrintable(v: Json, d: nat, order: set<string> -> seq<string>)
    requires IsOrder(order) && WellFormed(v, d)
    ensures Printable(Render(v, "", order))
    decreases v, 1, 0
  {
    hide Printable, IsOrder;
    match v
    case Arr(items) =>
      ItemsPrintable(v, 0, d, order);
      WrapPrintable('[', RenderItems(v, 0, "", order), ']');
    case Obj(members) =>
      OrderEnumerates(order, members.Keys);
      MembersPrintable(v, order(members.Keys), d, order);
      WrapPrintable('{', RenderMembers(v, order(members.Keys), "", order), '}');
    case _ =>
      LeafPrintable(v, d);
      assert Render(v, "", order) == LeafText(v);
  }

  lemma {:induction false} ItemsPrintable(v: Json, i: nat, d: nat, order: set<string> -> seq<string>)
    requires IsOrder(order) && v.Arr? && i <= |v.items| && WellFormed(v, d)
    ensures Printable(RenderItems(v, i, "", order))
    decreases v, 0, |v.items| - i
  {
    hide IsOrder, Printable, Render;
    if i < |v.items| {
      RenderPrintable(v.items[i], d - 1, order);
      ItemsPrintable(v, i + 1, d, order);
      ItemJoin(v, i, order);
    } else {
      EscapedPrintable("");
    }
  }

  lemma {:induction false} MembersPrintable(v: Json, ks: seq<string>, d: nat, order: set<string> -> seq<string>)
    requires IsOrder(order) && v.Obj? && (forall k :: k in ks ==> k in v.members) && WellFormed(v, d)
    ensures Printable(RenderMembers(v, ks, "", order))
    decreases v, 0, |ks|
  {
    hide IsOrder, Printable, Quote;
    if ks != [] {
      RenderPrintable(v.members[ks[0]], d - 1, order);
      MembersPrintable(v, ks[1..], d, order);
      QuotePrintable(ks[0]);
      MemberJoin(v, ks, order);
    } else {
      EscapedPrintable("");
    }
  }

  /** A member's text is part of its object's. */
  lemma {:induction false} MemberWithin(v: Json, ks: seq<string>, k: string, order: set<string> -> seq<string>)
    requires IsOrder(order) && v.Obj? && (forall k :: k in ks ==> k in v.members) && k in ks
    ensures |RenderMembers(v, ks, "", order)| >= |Render(v.members[k], "", order)|
    decreases |ks|
  {
    hide IsOrder;
    if k != ks[0] {
      MemberWithin(v, ks[1..], k, order);
    }
  }

  lemma StringWithin(v: Json, k: string)
    requires v.Obj? && k in v.members && v.members[k].Str?
    ensures |Canon(v)| >= |v.members[k].s| + 2
  {
    OrderEnumerates(ByKey(), v.members.Keys);
    MemberWithin(v, ByKey()(v.members.Keys), k, ByKey());
    EscapedPrintable(v.members[k].s);
  }

  // ----- one value, one line -----

  /** A log that writes each record as the canonical JSON of an object. */
  ghost function JsonLines<R>(write: R -> Json, read: Json -> Option<R>): Codec<R> {
    Codec(r => Canon(write(r)), t => ReadLine(read, t))
  }

  function ReadLine<R>(read: Json -> Option<R>, t: string): Option<R> {
    match ScanValue(t, 0)
    case Bad => None
    case Got(v, rest) => if rest == "" then read(v) else None
  }

  lemma JsonLinesLawful<R(!new)>(write: R -> Json, read: Json -> Option<R>)
    requires forall r :: write(r).Obj? && WellFormed(write(r), MAX_NESTING) && read(write(r)) == Some(r)
    ensures Lawful(JsonLines(write, read))
  {
    var c := JsonLines(write, read);
    forall r: R ensures Bare(c.enc(r)) && c.dec(c.enc(r)) == Some(r) {
      CanonReadsBack(write(r));
      RenderPrintable(write(r), MAX_NESTING, ByKey());
      ObjectEnds(write(r));
    }
  }

  lemma ObjectEnds(v: Json)
    requires v.Obj?
    ensures Canon(v) != "" && Canon(v)[|Canon(v)| - 1] == '}'
  {
  }

  // ----- the values in a record -----

  function StateText(s: PayState): string {
    match s
    case Pending => "pending"
    case Settled => "settled"
    case Unknown => "unknown"
  }

  function ReadState(t: string): Option<PayState> {
    if t == "pending" then Some(Pending) else if t == "settled" then Some(Settled)
    else if t == "unknown" then Some(Unknown) else None
  }

  /** The text of a string member, when v is an object that has it. */
  function Member(v: Json, k: string): Option<string> {
    if v.Obj? && k in v.members && v.members[k].Str? then Some(v.members[k].s) else None
  }

  function AuthJson(a: Auth): Json {
    Arr([Str(a.network), Str(a.scheme), Str(a.payload)])
  }

  function ReadAuth(v: Json): Option<Auth> {
    if v.Arr? && |v.items| == 3 && v.items[0].Str? && v.items[1].Str? && v.items[2].Str?
    then Some(Auth(v.items[0].s, v.items[1].s, v.items[2].s)) else None
  }

  // ----- receipts -----

  function ReceiptJson(r: L.Receipt): Json {
    Obj(map["session" := Str(r.session), "fingerprint" := AuthJson(r.fingerprint), "state" := Str(StateText(r.state)),
            "network" := Str(r.network), "payer" := Str(r.payer), "transaction" := Str(r.transaction),
            "policy_id" := Str(r.policy), "expires" := Str(N.Decimal(r.expires))])
  }

  function ReadReceipt(v: Json): Option<L.Receipt> {
    if v.Obj? && "fingerprint" in v.members then
      match (Member(v, "session"), ReadAuth(v.members["fingerprint"]), Member(v, "state"), Member(v, "network"),
             Member(v, "payer"), Member(v, "transaction"), Member(v, "policy_id"), Member(v, "expires"))
      case (Some(session), Some(fingerprint), Some(state), Some(network), Some(payer), Some(transaction), Some(policy),
            Some(expires)) =>
        (match (ReadState(state), N.ReadDecimal(expires))
         case (Some(s), Some(e)) => Some(L.Receipt(session, fingerprint, s, network, payer, transaction, policy, e))
         case _ => None)
      case _ => None
    else None
  }

  lemma FlatWellFormed(v: Json)
    requires v.Obj? && forall k :: k in v.members ==> v.members[k].Str? || v.members[k].Null? || StringsOnly(v.members[k])
    ensures WellFormed(v, MAX_NESTING)
  {
    forall k | k in v.members ensures WellFormed(v.members[k], MAX_NESTING - 1) {
      if StringsOnly(v.members[k]) {
        assert forall i :: 0 <= i < |v.members[k].items| ==> WellFormed(v.members[k].items[i], MAX_NESTING - 2);
      }
    }
  }

  predicate StringsOnly(v: Json) {
    v.Arr? && forall i :: 0 <= i < |v.items| ==> v.items[i].Str?
  }

  lemma ReceiptReadsBack(r: L.Receipt)
    ensures ReceiptJson(r).Obj? && WellFormed(ReceiptJson(r), MAX_NESTING) && ReadReceipt(ReceiptJson(r)) == Some(r)
  {
    hide N.Decimal, N.ReadDecimal, WellFormed;
    N.DecimalReadsBack(r.expires);
    FlatWellFormed(ReceiptJson(r));
  }

  ghost function ReceiptLines(): Codec<L.Receipt> {
    JsonLines(ReceiptJson, ReadReceipt)
  }

  /** The receipts' line format is lawful, and a line is at least as long as the policy ID in it. */
  lemma ReceiptLinesLawful(r: L.Receipt)
    ensures Lawful(ReceiptLines())
    ensures |ReceiptLines().enc(r)| > |r.policy|
  {
    hide Canon, WellFormed;
    forall x ensures ReceiptJson(x).Obj? && WellFormed(ReceiptJson(x), MAX_NESTING)
                     && ReadReceipt(ReceiptJson(x)) == Some(x) {
      ReceiptReadsBack(x);
    }
    JsonLinesLawful(ReceiptJson, ReadReceipt);
    StringWithin(ReceiptJson(r), "policy_id");
  }

  // ----- settlement records -----

  function TermsJson(t: Terms): Json {
    Arr([Str(t.network), Str(t.scheme), Str(t.price)])
  }

  function ReadTerms(v: Json): Option<Terms> {
    if v.Arr? && |v.items| == 3 && v.items[0].Str? && v.items[1].Str? && v.items[2].Str?
    then Some(Terms(v.items[0].s, v.items[1].s, v.items[2].s)) else None
  }

  function ResponseJson(r: Option<Response>): Json {
    match r
    case None => Null
    case Some(x) =>
      Arr([Str(if x.success then "true" else "false"), Str(x.transaction), Str(x.network), Str(x.payer)])
  }

  function ReadResponse(v: Json): Option<Option<Response>> {
    if v.Null? then Some(None)
    else if v.Arr? && |v.items| == 4 && v.items[0].Str? && v.items[1].Str? && v.items[2].Str? && v.items[3].Str?
    then Some(Some(Response(v.items[0].s == "true", v.items[1].s, v.items[2].s, v.items[3].s)))
    else None
  }

  function RecordJson(r: J.Record): Json {
    Obj(map["id" := AuthJson(r.id), "terms" := TermsJson(r.terms), "payer" := Str(r.payer),
            "state" := Str(StateText(r.state)), "response" := ResponseJson(r.response)])
  }

  function ReadRecord(v: Json): Option<J.Record> {
    if v.Obj? && "id" in v.members && "terms" in v.members && "response" in v.members then
      match (ReadAuth(v.members["id"]), ReadTerms(v.members["terms"]), Member(v, "payer"), Member(v, "state"),
             ReadResponse(v.members["response"]))
      case (Some(id), Some(terms), Some(payer), Some(state), Some(response)) =>
        (match ReadState(state)
         case Some(s) => Some(J.Record(id, terms, payer, s, response))
         case None => None)
      case _ => None
    else None
  }

  lemma RecordReadsBack(r: J.Record)
    ensures RecordJson(r).Obj? && WellFormed(RecordJson(r), MAX_NESTING) && ReadRecord(RecordJson(r)) == Some(r)
  {
    hide WellFormed;
    FlatWellFormed(RecordJson(r));
  }

  ghost function RecordLines(): Codec<J.Record> {
    JsonLines(RecordJson, ReadRecord)
  }

  lemma RecordLinesLawful()
    ensures Lawful(RecordLines())
  {
    hide Canon, WellFormed;
    forall x ensures RecordJson(x).Obj? && WellFormed(RecordJson(x), MAX_NESTING)
                     && ReadRecord(RecordJson(x)) == Some(x) {
      RecordReadsBack(x);
    }
    JsonLinesLawful(RecordJson, ReadRecord);
  }
}
