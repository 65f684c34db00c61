/** Which blobs the XRPL decoder accepts, and what it makes of their amounts, said of bytes: the grammar of the
  * "Serialization Format", as far as internal/chain/xrpl/codec.go reads it. */
module XrplAcceptance {
  import opened Numerals
  import opened Results
  import opened SortedSets
  import opened XrplCodec
  import opened XrplPayment

  // ----- the grammar -----

  /** A field: one value, the steps of a path set, or a container of fields. */
  datatype Node =
    | Plain(id: FieldID, val: seq<Byte>)
    | Paths(id: FieldID, steps: seq<PathStep>)
    | Nested(id: FieldID, inner: seq<Node>)

  /** One step of a path, or the mark between two paths. */
  datatype PathStep = Next | Step(account: seq<Byte>, currency: seq<Byte>, issuer: seq<Byte>)

  predicate IsPart(p: seq<Byte>) { |p| == 0 || |p| == 20 }

  predicate StepOk(p: PathStep) {
    p.Step? ==> IsPart(p.account) && IsPart(p.currency) && IsPart(p.issuer)
                && |p.account| + |p.currency| + |p.issuer| > 0
  }

  function StepType(p: PathStep): Byte
  {
    if p.Next? then 0xff
    else (if p.account != [] then 0x01 else 0) + (if p.currency != [] then 0x10 else 0) + (if p.issuer != [] then 0x20 else 0)
  }

  function StepBytes(p: PathStep): seq<Byte> {
    [StepType(p)] + if p.Next? then [] else p.account + p.currency + p.issuer
  }

  function StepsBytes(ps: seq<PathStep>): seq<Byte> {
    if ps == [] then [0x00] else StepBytes(ps[0]) + StepsBytes(ps[1..])
  }

  /** How many bytes a value of each plain type has; an amount's first byte tells. */
  predicate PlainSize(typ: nat, val: seq<Byte>) {
    match typ
    case 16 => |val| == 1
    case 1 => |val| == 2
    case 2 => |val| == 4
    case 10 => |val| == 4
    case 3 => |val| == 8
    case 11 => |val| == 8
    case 9 => |val| == 12
    case 20 => |val| == 12
    case 4 => |val| == 16
    case 17 => |val| == 20
    case 26 => |val| == 20
    case 21 => |val| == 24
    case 5 => |val| == 32
    case 22 => |val| == 48
    case 23 => |val| == 64
    case 6 => |val| > 0 && |val| == (if val[0] >= 0x80 then 48 else if val[0] >= 0x60 || 0x20 <= val[0] < 0x40 then 33 else 8)
    case 7 => |val| <= 929984
    case 8 => |val| <= 929984
    case 19 => |val| <= 929984
    case _ => false
  }

  predicate Prefixed(typ: nat) { typ == 7 || typ == 8 || typ == 19 }

  function Close(typ: nat): Byte { if typ == 15 then 0xf1 else 0xe1 }

  /** The field may stand inside `depth` containers. */
  ghost predicate Well(n: Node, depth: nat)
    decreases n
  {
    && 1 <= n.id.typ <= 255 && 1 <= n.id.nth <= 255 && depth <= 4
    && match n
       case Plain(id, val) => PlainSize(id.typ, val)
       case Paths(id, steps) => id.typ == 18 && forall i :: 0 <= i < |steps| ==> StepOk(steps[i])
       case Nested(id, inner) =>
         && (id.typ == 14 || id.typ == 15)
         && forall i :: 0 <= i < |inner| ==> Well(inner[i], depth + 1) && inner[i].id != FieldID(id.typ, 1)
  }

  /** The value alone, as it is reported. */
  ghost function Val(n: Node): seq<Byte>
    decreases n, 1
  {
    match n
    case Plain(_, val) => val
    case Paths(_, steps) => StepsBytes(steps)
    case Nested(_, inner) => if inner == [] then [] else Concat(inner)
  }

  /** The value as it is serialized. */
  ghost function Body(n: Node): seq<Byte>
    decreases n, 2
  {
    match n
    case Plain(id, val) => (if Prefixed(id.typ) then WriteVL(|val|) else []) + val
    case Paths(_, _) => Val(n)
    case Nested(id, _) => Val(n) + [Close(id.typ)]
  }

  ghost function Bytes(n: Node): seq<Byte>
    decreases n, 3
  {
    (if ValidID(n.id) then WriteHeader(n.id) else []) + Body(n)
  }

  ghost function Concat(ns: seq<Node>): seq<Byte>
    decreases ns
  {
    if ns == [] then [] else Bytes(ns[0]) + Concat(ns[1..])
  }

  // ----- well-formed fields are read -----

  lemma PlainReads(id: FieldID, val: seq<Byte>, rest: seq<Byte>, depth: nat)
    requires PlainSize(id.typ, val) && depth <= 4
    ensures var body := (if Prefixed(id.typ) then WriteVL(|val|) else []) + val;
            ReadValue(body + rest, id, depth) == Done(val, |body|)
  {
    hide WriteVL, ReadVL, ReadPaths, ReadInner;
    var body := (if Prefixed(id.typ) then WriteVL(|val|) else []) + val;
    if Prefixed(id.typ) {
      LengthReadsBack(|val|, val + rest);
      assert body + rest == WriteVL(|val|) + (val + rest);
      assert (body + rest)[|WriteVL(|val|)|..] == val + rest;
      assert (val + rest)[..|val|] == val;
    } else {
      assert body == val && (val + rest)[..|val|] == val;
    }
  }

  lemma StepReads(p: PathStep, rest: seq<Byte>)
    requires StepOk(p)
    ensures ReadPaths(StepBytes(p) + rest) == Shift(ReadPaths(rest), |StepBytes(p)|)
  {
    var s, k := StepBytes(p) + rest, |StepBytes(p)|;
    assert s[0] == StepType(p) && s[k..] == rest;
    if p.Step? {
      StepParts(p);
    }
  }

  lemma StepParts(p: PathStep)
    requires StepOk(p) && p.Step?
    ensures var t := StepType(p);
            t != 0 && t != 0xff && !UnknownStepBits(t) && StepSize(t, 3) == |p.account| + |p.currency| + |p.issuer|
  {
    var t := StepType(p);
    assert StepHas(t, 0) <==> p.account != [];
    assert StepHas(t, 1) <==> p.currency != [];
    assert StepHas(t, 2) <==> p.issuer != [];
    StepSizes(t);
  }

  lemma StepSizes(t: Byte)
    ensures StepSize(t, 1) == if StepHas(t, 0) then 20 else 0
    ensures StepSize(t, 2) == StepSize(t, 1) + if StepHas(t, 1) then 20 else 0
    ensures StepSize(t, 3) == StepSize(t, 2) + if StepHas(t, 2) then 20 else 0
  {
    hide StepHas;
    assert StepSize(t, 0) == 0;
    assert StepSize(t, 1) == StepSize(t, 0) + if StepHas(t, 0) then 20 else 0;
  }

  lemma {:induction false} StepsRead(ps: seq<PathStep>, rest: seq<Byte>)
    requires forall i :: 0 <= i < |ps| ==> StepOk(ps[i])
    ensures ReadPaths(StepsBytes(ps) + rest) == Done((), |StepsBytes(ps)|)
    decreases |ps|
  {
    hide StepBytes, ReadPaths;
    if ps == [] {
      EndReads(rest);
    } else {
      StepsRead(ps[1..], rest);
      assert StepsBytes(ps) + rest == StepBytes(ps[0]) + (StepsBytes(ps[1..]) + rest);
      StepReads(ps[0], StepsBytes(ps[1..]) + rest);
    }
  }

  lemma EndReads(rest: seq<Byte>)
    ensures ReadPaths([0x00] + rest) == Done((), 1)
  {
  }

  /** A well-formed field is read back, whatever follows it. */
  lemma {:induction false} WellReads(n: Node, rest: seq<Byte>, depth: nat)
    requires Well(n, depth)
    ensures ReadValue(Body(n) + rest, n.id, depth) == Done(Val(n), |Body(n)|)
    decreases n, 1, 0
  {
    hide ReadPaths, ReadInner, StepsBytes, WriteVL, ReadVL;
    match n
    case Plain(id, val) => PlainReads(id, val, rest, depth);
    case Paths(id, steps) =>
      StepsRead(steps, rest);
      assert (Body(n) + rest)[..|Body(n)|] == Body(n);
    case Nested(id, inner) =>
      InnerReads(n, 0, rest, depth);
      assert Body(n) == Concat(inner) + [Close(id.typ)];
      assert Body(n) + rest == Concat(inner[0..]) + ([Close(id.typ)] + rest) by { assert inner[0..] == inner; }
      assert (Body(n) + rest)[..|Body(n)| - 1] == Concat(inner);
  }

  lemma {:induction false} InnerReads(n: Node, i: nat, rest: seq<Byte>, depth: nat)
    requires Well(n, depth) && n.Nested? && i <= |n.inner|
    ensures ReadInner(Concat(n.inner[i..]) + ([Close(n.id.typ)] + rest), Close(n.id.typ), depth)
            == Done((), |Concat(n.inner[i..])| + 1)
    decreases n, 0, |n.inner| - i
  {
    hide ReadValue, ReadHeader, ReadInner, WriteHeader, Body, Val, Concat, Well;
    var end := Close(n.id.typ);
    var tail := [end] + rest;
    NestedDepth(n, depth);
    if i == |n.inner| {
      NothingInside(n.inner, tail);
      InnerEnds(tail, end, depth);
    } else {
      var m, more := n.inner[i], Concat(n.inner[i + 1..]);
      InsideIsWell(n, i, depth);
      WellReads(m, more + tail, depth + 1);
      InnerReads(n, i + 1, rest, depth);
      NextInside(n.inner, i, tail);
      OneInside(n.id, m, more, tail, depth);
    }
  }

  lemma NestedDepth(n: Node, depth: nat)
    requires Well(n, depth) && n.Nested?
    ensures depth <= MAX_DEPTH && (n.id.typ == 14 || n.id.typ == 15)
  {
  }

  lemma InsideIsWell(n: Node, i: nat, depth: nat)
    requires Well(n, depth) && n.Nested? && i < |n.inner|
    ensures Well(n.inner[i], depth + 1) && n.inner[i].id != FieldID(n.id.typ, 1) && ValidID(n.inner[i].id)
  {
  }

  lemma NothingInside(ns: seq<Node>, tail: seq<Byte>)
    ensures Concat(ns[|ns|..]) == [] && Concat(ns[|ns|..]) + tail == tail
  {
    assert ns[|ns|..] == [];
  }

  /** One field of a container is read, then the rest. */
  lemma OneInside(id: FieldID, m: Node, more: seq<Byte>, tail: seq<Byte>, depth: nat)
    requires (id.typ == 14 || id.typ == 15) && depth <= MAX_DEPTH && ValidID(m.id) && m.id != FieldID(id.typ, 1)
    requires ReadValue(Body(m) + (more + tail), m.id, depth + 1) == Done(Val(m), |Body(m)|)
    requires ReadInner(more + tail, Close(id.typ), depth) == Done((), |more| + 1)
    ensures ReadInner(WriteHeader(m.id) + (Body(m) + (more + tail)), Close(id.typ), depth)
            == Done((), |WriteHeader(m.id)| + |Body(m)| + |more| + 1)
  {
    hide ReadValue, ReadHeader, ReadInner, WriteHeader, Body, Val;
    var h := WriteHeader(m.id);
    var s := h + (Body(m) + (more + tail));
    HeaderReadsBack(m.id, Body(m) + (more + tail));
    assert s[|h|..] == Body(m) + (more + tail);
    assert s[|h| + |Body(m)|..] == more + tail;
    NotTheEnd(id, m.id, s);
    InnerOnce(s, Close(id.typ), depth);
  }

  lemma NextInside(ns: seq<Node>, i: nat, tail: seq<Byte>)
    requires i < |ns| && ValidID(ns[i].id)
    ensures Concat(ns[i..]) + tail
            == WriteHeader(ns[i].id) + (Body(ns[i]) + (Concat(ns[i + 1..]) + tail))
    ensures |Concat(ns[i..])| == |WriteHeader(ns[i].id)| + |Body(ns[i])| + |Concat(ns[i + 1..])|
  {
    hide WriteHeader, Body;
    var h, b, more := WriteHeader(ns[i].id), Body(ns[i]), Concat(ns[i + 1..]);
    assert ns[i..][1..] == ns[i + 1..];
    assert Concat(ns[i..]) == Bytes(ns[i]) + more;
    assert Bytes(ns[i]) == h + b;
    assert (h + b + more) + tail == h + (b + (more + tail));
  }

  /** A field's header never looks like the mark that closes the container it may stand in. */
  lemma NotTheEnd(id: FieldID, m: FieldID, s: seq<Byte>)
    requires (id.typ == 14 || id.typ == 15) && ValidID(m) && m != FieldID(id.typ, 1)
    requires ReadHeader(s) == Done(m, |WriteHeader(m)|)
    ensures s != [] && s[0] != Close(id.typ)
  {
  }

  // ----- and nothing else is -----

  lemma PlainNode(s: seq<Byte>, id: FieldID, depth: nat)
    requires ReadValue(s, id, depth).Done? && id.typ != 14 && id.typ != 15 && id.typ != 18
    ensures var r := ReadValue(s, id, depth);
            && depth <= 4 && PlainSize(id.typ, r.value)
            && s[..r.used] == (if Prefixed(id.typ) then WriteVL(|r.value|) else []) + r.value
  {
    hide WriteVL, ReadVL, ReadPaths, ReadInner;
    ValueIsCanonical(s, id, depth);
    if Prefixed(id.typ) {
      LengthIsCanonical(s);
    }
  }

  lemma {:induction false} PathsNode(s: seq<Byte>) returns (ps: seq<PathStep>)
    requires ReadPaths(s).Done?
    ensures forall i :: 0 <= i < |ps| ==> StepOk(ps[i])
    ensures s[..ReadPaths(s).used] == StepsBytes(ps)
    decreases |s|
  {
    hide StepOk, StepBytes;
    if s[0] == 0x00 {
      ps := [];
      assert s[..1] == [0x00];
    } else {
      var p, k := StepNode(s);
      var more := PathsNode(s[k..]);
      ps := [p] + more;
      assert s[..ReadPaths(s).used] == s[..k] + s[k..][..ReadPaths(s[k..]).used];
      assert StepsBytes(ps) == StepBytes(p) + StepsBytes(more) by { assert ps[1..] == more; }
    }
  }

  lemma ThreeParts(s: seq<Byte>, i: nat, j: nat, k: nat)
    requires 1 <= i <= j <= k <= |s|
    ensures s[..k] == [s[0]] + (s[1..i] + s[i..j] + s[j..k])
  {
  }

  lemma StepNode(s: seq<Byte>) returns (p: PathStep, k: nat)
    requires ReadPaths(s).Done? && s[0] != 0x00
    ensures 0 < k <= |s| && StepOk(p) && s[..k] == StepBytes(p)
    ensures ReadPaths(s) == Shift(ReadPaths(s[k..]), k)
  {
    var t := s[0];
    if t == 0xff {
      p, k := Next, 1;
      assert s[..1] == [t];
    } else {
      hide StepHas, UnknownStepBits;
      StepSizes(t);
      var a := StepSize(t, 1);
      var c := StepSize(t, 2);
      k := 1 + StepSize(t, 3);
      p := Step(s[1..1 + a], s[1 + a..1 + c], s[1 + c..k]);
      TypeOfBits(t, p);
      ThreeParts(s, 1 + a, 1 + c, k);
    }
  }

  lemma TypeOfBits(t: Byte, p: PathStep)
    requires t != 0 && t != 0xff && !UnknownStepBits(t) && p.Step?
    requires |p.account| == StepSize(t, 1) && |p.currency| == StepSize(t, 2) - StepSize(t, 1)
    requires |p.issuer| == StepSize(t, 3) - StepSize(t, 2)
    ensures StepType(p) == t && StepOk(p)
  {
    StepSizes(t);
    assert t < 64 && t / 2 % 8 == 0;
    assert StepHas(t, 0) <==> t % 2 == 1;
    assert StepHas(t, 1) <==> t / 16 % 2 == 1;
    assert StepHas(t, 2) <==> t / 32 % 2 == 1;
    assert t == t % 2 + t / 16 % 2 * 16 + t / 32 % 2 * 32;
  }

  /** Whatever is read is a well-formed field's value. */
  lemma {:induction false} ReadsWell(s: seq<Byte>, id: FieldID, depth: nat) returns (n: Node)
    requires ValidID(id) && ReadValue(s, id, depth).Done?
    ensures Well(n, depth) && n.id == id
    ensures var r := ReadValue(s, id, depth); s[..r.used] == Body(n) && r.value == Val(n)
    decreases if depth > MAX_DEPTH then 0 else MAX_DEPTH + 1 - depth, 1, 0
  {
    hide ReadPaths, ReadInner, ReadVL, WriteVL, StepsBytes, StepOk, PlainSize;
    if id.typ == 18 {
      var ps := PathsNode(s);
      n := Paths(id, ps);
    } else if id.typ == 14 || id.typ == 15 {
      var inner := InnerWell(s, id, depth);
      n := Nested(id, inner);
      var k := ReadInner(s, Close(id.typ), depth).used;
      assert s[..k] == Concat(inner) + [Close(id.typ)];
      assert s[..k - 1] == s[..k][..k - 1] == Concat(inner);
    } else {
      PlainNode(s, id, depth);
      n := Plain(id, ReadValue(s, id, depth).value);
    }
  }

  lemma {:induction false} InnerWell(s: seq<Byte>, id: FieldID, depth: nat) returns (ns: seq<Node>)
    requires (id.typ == 14 || id.typ == 15) && depth <= MAX_DEPTH && ReadInner(s, Close(id.typ), depth).Done?
    ensures forall i :: 0 <= i < |ns| ==> Well(ns[i], depth + 1) && ns[i].id != FieldID(id.typ, 1)
    ensures s[..ReadInner(s, Close(id.typ), depth).used] == Concat(ns) + [Close(id.typ)]
    decreases MAX_DEPTH + 1 - depth, 0, |s|
  {
    hide ReadValue, ReadHeader, ReadInner, WriteHeader, Body, Val, Well;
    var end := Close(id.typ);
    InnerEnds(s, end, depth);
    if s[0] == end {
      ns := [];
      assert s[..1] == [end];
    } else {
      InnerOnce(s, end, depth);
      var h := ReadHeader(s);
      var v := ReadValue(s[h.used..], h.value, depth + 1);
      var n := ReadsWell(s[h.used..], h.value, depth + 1);
      var k := h.used + v.used;
      var more := InnerWell(s[k..], id, depth);
      ns := [n] + more;
      HeaderIsCanonical(s);
      HeaderIsNot(s, id);
      assert ns[1..] == more;
      assert s[..k] == s[..h.used] + s[h.used..][..v.used];
      assert s[..ReadInner(s, end, depth).used] == s[..k] + s[k..][..ReadInner(s[k..], end, depth).used];
    }
  }

  lemma HeaderIsNot(s: seq<Byte>, id: FieldID)
    requires (id.typ == 14 || id.typ == 15) && ReadHeader(s).Done? && s[0] != Close(id.typ)
    ensures ReadHeader(s).value != FieldID(id.typ, 1)
  {
  }

  // ----- whole blobs -----

  ghost function FieldOf(n: Node): Field {
    Field(n.id, Bytes(n), Val(n))
  }

  ghost function FieldsIn(ns: seq<Node>): (fs: seq<Field>)
    ensures |fs| == |ns| && forall i :: 0 <= i < |ns| ==> fs[i] == FieldOf(ns[i])
  {
    seq(|ns|, i requires 0 <= i < |ns| => FieldOf(ns[i]))
  }

  /** Well-formed fields in canonical order, each once. */
  ghost predicate Ordered(ns: seq<Node>, prev: Option<FieldID>) {
    && (forall i :: 0 <= i < |ns| ==> Well(ns[i], 0))
    && (forall i, j :: 0 <= i < j < |ns| ==> Less(ns[i].id, ns[j].id))
    && (prev.Some? && ns != [] ==> Less(prev.value, ns[0].id))
  }

  lemma OrderedTail(ns: seq<Node>, prev: Option<FieldID>)
    requires Ordered(ns, prev) && ns != []
    ensures Well(ns[0], 0) && Ordered(ns[1..], Some(ns[0].id)) && (prev.Some? ==> Less(prev.value, ns[0].id))
  {
    hide Well;
    assert forall i :: 0 <= i < |ns[1..]| ==> ns[1..][i] == ns[i + 1];
  }

  lemma OrderedCons(n: Node, ns: seq<Node>, prev: Option<FieldID>)
    requires Well(n, 0) && Ordered(ns, Some(n.id)) && (prev.Some? ==> Less(prev.value, n.id))
    ensures Ordered([n] + ns, prev)
  {
    hide Well;
    var all := [n] + ns;
    forall i, j | 0 <= i < j < |all| ensures Less(all[i].id, all[j].id) {
      if i == 0 && j > 1 {
        assert Less(n.id, ns[0].id) && Less(ns[0].id, ns[j - 1].id);
      }
    }
  }

  lemma FieldReads(n: Node, rest: seq<Byte>, prev: Option<FieldID>)
    requires Well(n, 0) && (prev.Some? ==> Less(prev.value, n.id))
    ensures |Bytes(n)| > 0 && NextField(Bytes(n) + rest, prev) == Done(FieldOf(n), |Bytes(n)|)
  {
    hide ReadHeader, ReadValue, WriteHeader, Body, Val;
    var s, h := Bytes(n) + rest, |WriteHeader(n.id)|;
    assert s == WriteHeader(n.id) + (Body(n) + rest);
    HeaderReadsBack(n.id, Body(n) + rest);
    assert s[h..] == Body(n) + rest;
    WellReads(n, rest, 0);
    assert s[..h + |Body(n)|] == Bytes(n);
  }

  lemma {:induction false} OrderedParses(ns: seq<Node>, prev: Option<FieldID>)
    requires Ordered(ns, prev)
    ensures ParseFields(Concat(ns), prev) == Ok(FieldsIn(ns))
    decreases |ns|
  {
    hide NextField, Ordered, Bytes, Val, Well;
    if ns != [] {
      OrderedTail(ns, prev);
      OrderedParses(ns[1..], Some(ns[0].id));
      FieldReads(ns[0], Concat(ns[1..]), prev);
      assert Concat(ns) == Bytes(ns[0]) + Concat(ns[1..]);
      assert Concat(ns)[|Bytes(ns[0])|..] == Concat(ns[1..]);
      assert FieldsIn(ns) == [FieldOf(ns[0])] + FieldsIn(ns[1..]);
    }
  }

  lemma {:induction false} ParsedIsOrdered(s: seq<Byte>, prev: Option<FieldID>) returns (ns: seq<Node>)
    requires ParseFields(s, prev).Ok?
    ensures Ordered(ns, prev) && s == Concat(ns)
    decreases |s|
  {
    hide ReadHeader, ReadValue, Ordered, Well, Body, Val, WriteHeader;
    if s == [] {
      ns := [];
      NoneOrdered(prev);
    } else {
      var h := ReadHeader(s);
      var n := ReadsWell(s[h.used..], h.value, 0);
      HeaderIsCanonical(s);
      var k := NextField(s, prev).used;
      var more := ParsedIsOrdered(s[k..], Some(n.id));
      ns := [n] + more;
      OrderedCons(n, more, prev);
      assert ns[1..] == more;
      assert s[..k] == s[..h.used] + s[h.used..][..k - h.used];
      assert s == s[..k] + s[k..];
    }
  }

  lemma NoneOrdered(prev: Option<FieldID>)
    ensures Ordered([], prev)
  {
  }

  // ----- what is refused besides -----

  /** Eight zero bytes, or an amount whose sign bit says positive; only native amounts can be negative. */
  predicate NotNegative(val: seq<Byte>) {
    |val| == 8 ==> val[0] / 0x40 % 2 == 1 || forall i :: 0 <= i < 8 ==> val[i] == 0
  }

  /** The amounts and accounts a transaction's known fields may hold. */
  predicate Sound(f: Field) {
    Known(f.id) ==> (f.id.typ == 6 ==> NotNegative(f.val)) && (f.id.typ == 8 ==> |f.val| == 20)
  }

  lemma EightZeros(val: seq<Byte>)
    requires |val| == 8
    ensures Value(256, val) == 0 <==> forall i :: 0 <= i < 8 ==> val[i] == 0
  {
    assert val[..8] == val && val[..0] == [];
    LowByteOff(val, 7);
    LowByteOff(val, 6);
    LowByteOff(val, 5);
    LowByteOff(val, 4);
    LowByteOff(val, 3);
    LowByteOff(val, 2);
    LowByteOff(val, 1);
    LowByteOff(val, 0);
  }

  lemma SignBit(val: seq<Byte>)
    requires |val| == 8
    ensures Value(256, val) / BIT62 % 2 == val[0] / 0x40 % 2
  {
    hide Value;
    TopByte(val);
    var v := Value(256, val);
    assert v / BIT62 == v / 0x100_0000_0000_0000 / 0x40;
  }

  lemma AmountIsRead(val: seq<Byte>)
    ensures ReadAmount(val).Ok? <==> NotNegative(val)
  {
    hide Value;
    if |val| == 8 {
      EightZeros(val);
      SignBit(val);
    }
  }

  lemma FieldAdded(t: Tx, f: Field)
    ensures AddField(t, f).Ok? <==> Sound(f)
  {
    hide ReadAmount, NotNegative;
    AmountIsRead(f.val);
  }

  lemma {:induction false} FieldsAdded(fs: seq<Field>)
    ensures AddFields(NO_TX, fs).Ok? <==> forall f :: f in fs ==> Sound(f)
    decreases |fs|
  {
    hide AddField, Sound;
    if fs != [] {
      var front, last := fs[..|fs| - 1], fs[|fs| - 1];
      FieldsAdded(front);
      assert fs == front + [last];
      if AddFields(NO_TX, front).Ok? {
        FieldAdded(AddFields(NO_TX, front).value, last);
      }
    }
  }

  /** Exactly the sequences of well-formed fields in canonical order are accepted, if their known amounts are not
    * negative and their known accounts have 20 bytes; the fields reported are those. */
  lemma DecodesExactly(blob: seq<Byte>)
    ensures DecodeBytes(blob).Ok? <==>
              blob != [] && exists ns :: Ordered(ns, None) && blob == Concat(ns) && forall n :: n in ns ==> Sound(FieldOf(n))
  {
    hide ParseFields, AddFields, Ordered, Concat, Sound, FieldOf;
    if DecodeBytes(blob).Ok? {
      var ns := ParsedIsOrdered(blob, None);
      OrderedParses(ns, None);
      FieldsAdded(FieldsIn(ns));
      SoundNodes(ns);
    }
    if blob != [] {
      forall ns | Ordered(ns, None) && blob == Concat(ns) && forall n :: n in ns ==> Sound(FieldOf(n))
        ensures DecodeBytes(blob).Ok?
      {
        OrderedParses(ns, None);
        FieldsAdded(FieldsIn(ns));
        SoundNodes(ns);
      }
    }
  }

  lemma SoundNodes(ns: seq<Node>)
    ensures (forall n :: n in ns ==> Sound(FieldOf(n))) <==> forall f :: f in FieldsIn(ns) ==> Sound(f)
  {
    hide Sound, FieldOf;
    forall n | n in ns ensures FieldOf(n) in FieldsIn(ns) {
      var i :| 0 <= i < |ns| && ns[i] == n;
      assert FieldsIn(ns)[i] == FieldOf(n);
    }
  }

  // ----- amounts -----

  lemma ReadDrops(val: seq<Byte>)
    requires |val| == 8 && NotNegative(val) && val[0] < 0x60
    ensures ReadAmount(val).Ok? && ReadAmount(val).value.native
    ensures var d := ReadAmount(val).value.drops;
            val == DropsBytes(d) || (d == 0 && forall i :: 0 <= i < 8 ==> val[i] == 0)
  {
    hide Value, BigEndian;
    AmountIsRead(val);
    SignBit(val);
    EightZeros(val);
    TopByte(val);
    var v := Value(256, val);
    if v / BIT62 % 2 == 1 {
      BigEndianOfValue(val);
    }
  }

  /** An accepted blob's amounts are what their bytes say: eight bytes are native drops, which written out again are
    * those bytes (or zero is eight zero bytes), and any other size is an issued amount. */
  lemma AmountsAreTheirBytes(blob: seq<Byte>, f: Field)
    requires DecodeBytes(blob).Ok? && f in DecodeBytes(blob).value.fields && f.id.typ == 6 && Known(f.id)
    ensures var t := DecodeBytes(blob).value;
            && f.id in t.amounts && (t.amounts[f.id].native <==> |f.val| == 8)
            && (t.amounts[f.id].native ==>
                  || f.val == DropsBytes(t.amounts[f.id].drops)
                  || (t.amounts[f.id].drops == 0 && forall i :: 0 <= i < 8 ==> f.val[i] == 0))
            && (|f.val| == 48 <==> f.val != [] && f.val[0] >= 0x80)
  {
    hide ParseFields, AddFields, Ordered, Concat, Sound, Bytes, Val, DropsBytes, NotNegative, ReadAmount, PresentIn;
    var ns := ParsedIsOrdered(blob, None);
    OrderedParses(ns, None);
    var fs := FieldsIn(ns);
    FieldsAdded(fs);
    OrderedIds(ns);
    DecodeReportsAll(fs);
    var i :| 0 <= i < |fs| && fs[i] == f;
    AmountNode(ns, i);
    AmountIsRead(f.val);
    if |f.val| == 8 {
      ReadDrops(f.val);
    } else {
      OtherAmount(f.val);
    }
  }

  lemma OtherAmount(val: seq<Byte>)
    requires |val| != 8
    ensures ReadAmount(val).Ok? && !ReadAmount(val).value.native
  {
  }

  lemma OrderedIds(ns: seq<Node>)
    requires Ordered(ns, None)
    ensures Increasing(Less, IDs(FieldsIn(ns)))
  {
    hide Well, Bytes, Val;
  }

  lemma AmountNode(ns: seq<Node>, i: nat)
    requires Ordered(ns, None) && i < |ns| && ns[i].id.typ == 6
    ensures var f := FieldsIn(ns)[i]; PlainSize(6, f.val)
    ensures FieldsIn(ns)[i].id == ns[i].id
  {
    hide Bytes;
    assert Well(ns[i], 0);
  }

  /** A negative native amount is refused: eight bytes, not all zero, with the sign bit clear. */
  lemma NegativeRefused(blob: seq<Byte>, ns: seq<Node>, n: Node)
    requires Ordered(ns, None) && blob == Concat(ns) && n in ns && n.id.typ == 6 && Known(n.id)
    requires |Val(n)| == 8 && Val(n)[0] / 0x40 % 2 == 0 && exists i :: 0 <= i < 8 && Val(n)[i] != 0
    ensures DecodeBytes(blob).Err?
  {
    hide ParseFields, AddFields, Ordered, Concat, Val, Bytes;
    OrderedParses(ns, None);
    FieldsAdded(FieldsIn(ns));
    var i :| 0 <= i < |ns| && ns[i] == n;
    assert FieldsIn(ns)[i] == FieldOf(n) && !Sound(FieldOf(n));
  }

  // ----- the formats by example -----

  lemma LengthExamples()
    ensures WriteVL(192) == [192] && WriteVL(193) == [193, 0] && WriteVL(12480) == [240, 255]
    ensures WriteVL(12481) == [241, 0, 0] && WriteVL(918744) == [254, 212, 23] && WriteVL(929984) == [254, 255, 255]
  {
  }

  lemma HeaderExamples()
    ensures WriteHeader(FieldID(1, 2)) == [0x12] && WriteHeader(FieldID(2, 27)) == [0x20, 0x1b]
    ensures WriteHeader(FieldID(16, 3)) == [0x03, 0x10] && WriteHeader(FieldID(16, 16)) == [0x00, 0x10, 0x10]
  {
  }

  lemma BigEndianStep(n: nat, k: nat)
    ensures BigEndian(n, k + 1) == BigEndian(n / 256, k) + [n % 256]
  {
  }

  lemma DropsExample()
    ensures DropsBytes(1_000_000) == [0x40, 0, 0, 0, 0, 0x0f, 0x42, 0x40]
  {
    hide BigEndian;
    BigEndianStep(0x4000_0000_000f_4240, 7);
    BigEndianStep(0x40_0000_0000_0f42, 6);
    BigEndianStep(0x4000_0000_000f, 5);
    BigEndianStep(0x40_0000_0000, 4);
    BigEndianStep(0x4000_0000, 3);
    BigEndianStep(0x40_0000, 2);
    BigEndianStep(0x4000, 1);
    BigEndianStep(0x40, 0);
    assert BigEndian(0, 0) == [] by { NoBytes(); }
  }

  lemma NoBytes()
    ensures BigEndian(0, 0) == []
  {
  }

  /** Length prefixes at the edges of their three forms, field headers of each form, and a million drops. */
  lemma FormatExamples()
    ensures WriteVL(192) == [192] && WriteVL(193) == [193, 0] && WriteVL(12480) == [240, 255]
    ensures WriteVL(12481) == [241, 0, 0] && WriteVL(918744) == [254, 212, 23] && WriteVL(929984) == [254, 255, 255]
    ensures WriteHeader(FieldID(1, 2)) == [0x12] && WriteHeader(FieldID(2, 27)) == [0x20, 0x1b]
    ensures WriteHeader(FieldID(16, 3)) == [0x03, 0x10] && WriteHeader(FieldID(16, 16)) == [0x00, 0x10, 0x10]
    ensures DropsBytes(1_000_000) == [0x40, 0, 0, 0, 0, 0x0f, 0x42, 0x40]
  {
    hide WriteVL, WriteHeader, DropsBytes;
    LengthExamples();
    HeaderExamples();
    DropsExample();
  }
}
