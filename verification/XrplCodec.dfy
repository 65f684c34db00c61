/** XRPL transaction encoding (internal/chain/xrpl/codec.go). Readers take the bytes that remain and say how many they used. */
module XrplCodec {
  import opened Numerals
  import opened Results
  import opened SortedSets

  const UINT16 := 1
  const UINT32 := 2
  const HASH256 := 5
  const AMOUNT := 6
  const BLOB := 7
  const ACCOUNT_ID := 8
  const ST_OBJECT := 14
  const ST_ARRAY := 15
  const PATH_SET := 18
  const VECTOR256 := 19

  const OBJECT_END: Byte := 0xe1
  const ARRAY_END: Byte := 0xf1
  const MAX_DEPTH := 4
  const MAX_LENGTH := 929984

  datatype FieldID = FieldID(typ: nat, nth: nat)

  predicate Less(a: FieldID, b: FieldID) {
    a.typ < b.typ || (a.typ == b.typ && a.nth < b.nth)
  }

  datatype Parsed<+T> = Done(value: T, used: nat) | Bad(reason: string)

  function Shift<T>(p: Parsed<T>, k: nat): Parsed<T> {
    if p.Done? then Done(p.value, p.used + k) else p
  }

  // ----- lengths -----

  /** The reader's "non-canonical length" checks cannot fire: the offsets 193 and 12481 rule it out. */
  function ReadVL(s: seq<Byte>): (r: Parsed<nat>)
    ensures r.Done? ==> 0 < r.used <= |s|
  {
    if |s| == 0 then Bad("truncated length")
    else if s[0] <= 192 then Done(s[0], 1)
    else if s[0] <= 240 then
      if |s| < 2 then Bad("truncated length")
      else
        Done((s[0] as int - 193) * 256 + s[1] as int + 193, 2)
    else if s[0] <= 254 then
      if |s| < 3 then Bad("truncated length")
      else
        Done((s[0] as int - 241) * 65536 + s[1] as int * 256 + s[2] as int + 12481, 3)
    else Bad("invalid length")
  }

  /** The byte conversions truncate, as in the source. */
  function WriteVL(n: nat): (bs: seq<Byte>)
    ensures 0 < |bs|
  {
    if n <= 192 then [n]
    else if n <= 12480 then [193 + (n - 193) / 256, (n - 193) % 256]
    else [(241 + (n - 12481) / 65536) % 256, (n - 12481) / 256 % 256, (n - 12481) % 256]
  }

  /** Exactly the lengths up to 929984 survive being written and read back. */
  lemma LengthReadsBack(n: nat, rest: seq<Byte>)
    ensures ReadVL(WriteVL(n) + rest) == Done(n, |WriteVL(n)|) <==> n <= MAX_LENGTH
  {
  }

  /** Every length the reader accepts is the written form of its value. */
  lemma LengthIsCanonical(s: seq<Byte>)
    requires ReadVL(s).Done?
    ensures ReadVL(s).value <= MAX_LENGTH
    ensures s[..ReadVL(s).used] == WriteVL(ReadVL(s).value)
  {
    var n := ReadVL(s).value;
    if s[0] > 240 {
      var a: int, b: int := s[0] - 241, s[1];
      assert (n - 12481) / 65536 == a;
      assert (n - 12481) / 256 == a * 256 + b;
    }
  }

  // ----- field headers -----

  ghost predicate ValidID(id: FieldID) {
    1 <= id.typ <= 255 && 1 <= id.nth <= 255
  }

  function ReadHeader(s: seq<Byte>): (r: Parsed<FieldID>)
    ensures r.Done? ==> 0 < r.used <= |s| && ValidID(r.value)
  {
    if |s| == 0 then Bad("truncated field")
    else
      var t0, n0 := s[0] / 16, s[0] % 16;
      if t0 == 0 && |s| < 2 then Bad("truncated field")
      else
        var (t, i) := if t0 == 0 then (s[1], 2) else (t0, 1);
        if t0 == 0 && t < 16 then Bad("non-canonical field header")
        else if n0 == 0 && |s| <= i then Bad("truncated field")
        else
          var (n, j) := if n0 == 0 then (s[i], i + 1) else (n0, i);
          if n0 == 0 && n < 16 then Bad("non-canonical field header")
          else Done(FieldID(t, n), j)
  }

  function WriteHeader(id: FieldID): (bs: seq<Byte>)
    requires ValidID(id)
    ensures 0 < |bs|
  {
    if id.typ < 16 && id.nth < 16 then [id.typ * 16 + id.nth]
    else if id.typ >= 16 && id.nth < 16 then [id.nth, id.typ]
    else if id.typ < 16 then [id.typ * 16, id.nth]
    else [0, id.typ, id.nth]
  }

  lemma HeaderReadsBack(id: FieldID, rest: seq<Byte>)
    requires ValidID(id)
    ensures ReadHeader(WriteHeader(id) + rest) == Done(id, |WriteHeader(id)|)
  {
  }

  lemma HeaderIsCanonical(s: seq<Byte>)
    requires ReadHeader(s).Done?
    ensures s[..ReadHeader(s).used] == WriteHeader(ReadHeader(s).value)
  {
  }

  // ----- values -----

  function FixedSize(typ: nat): (n: nat)
  {
    match typ
    case 16 => 1
    case 1 => 2
    case 2 => 4
    case 3 => 8
    case 4 => 16
    case 17 => 20
    case 21 => 24
    case 5 => 32
    case 22 => 48
    case 23 => 64
    case 20 => 12
    case 10 => 4
    case 11 => 8
    case 26 => 20
    case 9 => 12
    case _ => 0
  }

  predicate IsFixed(typ: nat) { FixedSize(typ) > 0 }

  predicate HasLength(typ: nat) { typ == BLOB || typ == ACCOUNT_ID || typ == VECTOR256 }

  predicate IsContainer(typ: nat) { typ == ST_OBJECT || typ == ST_ARRAY }

  function EndMarker(typ: nat): Byte { if typ == ST_ARRAY then ARRAY_END else OBJECT_END }

  function Take(s: seq<Byte>, n: nat): (r: Parsed<seq<Byte>>)
    ensures r.Done? ==> r.used == n <= |s| && r.value == s[..n]
  {
    if n > |s| then Bad("truncated value") else Done(s[..n], n)
  }

  function AmountSize(first: Byte): nat {
    if first >= 128 then 48 else if first / 32 % 2 == 1 then 33 else 8
  }

  /** Bits of a path step outside account, currency and issuer. */
  predicate UnknownStepBits(t: Byte) {
    t / 2 % 8 != 0 || t / 64 != 0
  }

  /** Account, currency and issuer bits: 0x01, 0x10, 0x20. */
  predicate StepHas(t: Byte, k: nat) {
    (if k == 0 then t else if k == 1 then t / 16 else t / 32) % 2 == 1
  }

  /** Bytes taken by the first k parts of a path step. */
  function StepSize(t: Byte, k: nat): nat {
    if k == 0 then 0 else StepSize(t, k - 1) + if StepHas(t, k - 1) then 20 else 0
  }

  /** Path steps up to and including the closing zero byte. */
  function ReadPaths(s: seq<Byte>): (r: Parsed<()>)
    ensures r.Done? ==> 0 < r.used <= |s|
    decreases |s|
  {
    if |s| == 0 then Bad("truncated value")
    else if s[0] == 0x00 then Done((), 1)
    else if s[0] == 0xff then Shift(ReadPaths(s[1..]), 1)
    else if UnknownStepBits(s[0]) then Bad("invalid path step")
    else
      var n := 1 + StepSize(s[0], 3);
      if n > |s| then Bad("truncated value") else Shift(ReadPaths(s[n..]), n)
  }

  /** Fields of a container up to and including its end marker. */
  function ReadInner(s: seq<Byte>, end: Byte, depth: nat): (r: Parsed<()>)
    requires depth <= MAX_DEPTH
    ensures r.Done? ==> 0 < r.used <= |s| && s[r.used - 1] == end
    decreases MAX_DEPTH + 1 - depth, 0, |s|
  {
    if |s| == 0 then Bad("unterminated object")
    else if s[0] == end then Done((), 1)
    else
      var h := ReadHeader(s);
      if h.Bad? then Bad(h.reason)
      else
        var v := ReadValue(s[h.used..], h.value, depth + 1);
        if v.Bad? then Bad(v.reason)
        else Shift(ReadInner(s[h.used + v.used..], end, depth), h.used + v.used)
  }

  /** The value of a field, without length prefix or end marker. */
  function ReadValue(s: seq<Byte>, id: FieldID, depth: nat): (r: Parsed<seq<Byte>>)
    ensures r.Done? ==> r.used <= |s|
    decreases if depth > MAX_DEPTH then 0 else MAX_DEPTH + 1 - depth, 1, 0
  {
    if depth > MAX_DEPTH then Bad("nesting too deep")
    else if IsFixed(id.typ) then Take(s, FixedSize(id.typ))
    else if HasLength(id.typ) then
      var l := ReadVL(s);
      if l.Bad? then Bad(l.reason) else Shift(Take(s[l.used..], l.value), l.used)
    else if id.typ == AMOUNT then
      if |s| == 0 then Bad("truncated amount") else Take(s, AmountSize(s[0]))
    else if id.typ == PATH_SET then
      var p := ReadPaths(s);
      if p.Bad? then Bad(p.reason) else Done(s[..p.used], p.used)
    else if IsContainer(id.typ) then
      var p := ReadInner(s, EndMarker(id.typ), depth);
      if p.Bad? then Bad(p.reason) else Done(s[..p.used - 1], p.used)
    else Bad("unsupported field type")
  }

  /** The only bytes a value can have been read from. */
  function WriteValue(id: FieldID, val: seq<Byte>): seq<Byte> {
    if HasLength(id.typ) then WriteVL(|val|) + val
    else if IsContainer(id.typ) then val + [EndMarker(id.typ)]
    else val
  }

  lemma OneKind(typ: nat)
    ensures HasLength(typ) || IsContainer(typ) ==> !IsFixed(typ) && typ != AMOUNT && typ != PATH_SET
    ensures !(HasLength(typ) && IsContainer(typ))
  {
  }

  lemma BeforeLast(s: seq<Byte>, n: nat)
    requires 0 < n <= |s|
    ensures s[..n - 1] + [s[n - 1]] == s[..n]
  {
  }

  lemma ValueIsCanonical(s: seq<Byte>, id: FieldID, depth: nat)
    requires ReadValue(s, id, depth).Done?
    ensures var r := ReadValue(s, id, depth); s[..r.used] == WriteValue(id, r.value)
  {
    hide ReadVL, WriteVL, ReadInner, ReadPaths, IsFixed, HasLength, IsContainer, AmountSize, FixedSize;
    OneKind(id.typ);
    var r := ReadValue(s, id, depth);
    if HasLength(id.typ) {
      LengthIsCanonical(s);
      var k := ReadVL(s).used;
      assert s[..r.used] == s[..k] + s[k..][..|r.value|];
    } else if IsContainer(id.typ) {
      BeforeLast(s, r.used);
    }
  }

  // ----- decoding -----

  /** raw is the field exactly as serialized, val its value alone. */
  datatype Field = Field(id: FieldID, raw: seq<Byte>, val: seq<Byte>)

  function NextField(s: seq<Byte>, prev: Option<FieldID>): (r: Parsed<Field>)
    ensures r.Done? ==> 0 < r.used <= |s| && r.value.raw == s[..r.used]
    ensures r.Done? && prev.Some? ==> Less(prev.value, r.value.id)
  {
    var h := ReadHeader(s);
    if h.Bad? then Bad(h.reason)
    else if prev.Some? && !Less(prev.value, h.value) then Bad("fields are not in canonical order")
    else
      var v := ReadValue(s[h.used..], h.value, 0);
      if v.Bad? then Bad(v.reason)
      else Done(Field(h.value, s[..h.used + v.used], v.value), h.used + v.used)
  }

  function ParseFields(s: seq<Byte>, prev: Option<FieldID>): Result<seq<Field>>
    decreases |s|
  {
    if s == [] then Ok([])
    else
      var f := NextField(s, prev);
      if f.Bad? then Err(f.reason)
      else
        var rest := ParseFields(s[f.used..], Some(f.value.id));
        if rest.Err? then rest else Ok([f.value] + rest.value)
  }

  function Raws(fs: seq<Field>): seq<Byte> {
    if fs == [] then [] else fs[0].raw + Raws(fs[1..])
  }

  function IDs(fs: seq<Field>): (ids: seq<FieldID>)
    ensures |ids| == |fs| && forall i :: 0 <= i < |fs| ==> ids[i] == fs[i].id
  {
    seq(|fs|, i requires 0 <= i < |fs| => fs[i].id)
  }

  lemma FieldOrderIsTotal()
    ensures StrictTotalOrder(Less)
  {
  }

  lemma IncreasingCons(id: FieldID, ids: seq<FieldID>)
    requires Increasing(Less, ids) && (ids != [] ==> Less(id, ids[0]))
    ensures Increasing(Less, [id] + ids)
  {
    forall j | 0 <= j < |ids| ensures Less(id, ids[j]) {
      if j > 0 { assert Less(ids[0], ids[j]); }
    }
  }

  ghost predicate Canonical(f: Field) {
    ValidID(f.id) && f.raw == WriteHeader(f.id) + WriteValue(f.id, f.val)
  }

  lemma NextFieldCanonical(s: seq<Byte>, prev: Option<FieldID>)
    requires NextField(s, prev).Done?
    ensures Canonical(NextField(s, prev).value)
  {
    hide ReadHeader, WriteHeader, WriteValue, ReadValue;
    var h := ReadHeader(s);
    HeaderIsCanonical(s);
    ValueIsCanonical(s[h.used..], h.value, 0);
    var v := ReadValue(s[h.used..], h.value, 0);
    assert s[..h.used + v.used] == s[..h.used] + s[h.used..][..v.used];
  }

  /** The raw fields of an accepted blob partition it in increasing order, each re-encodable from its value. */
  lemma {:induction false} FieldsPartitionBlob(s: seq<Byte>, prev: Option<FieldID>)
    requires ParseFields(s, prev).Ok?
    ensures var fs := ParseFields(s, prev).value;
            && Raws(fs) == s
            && Increasing(Less, IDs(fs))
            && (prev.Some? && fs != [] ==> Less(prev.value, fs[0].id))
            && forall f :: f in fs ==> Canonical(f)
    decreases |s|
  {
    hide NextField, Canonical, Raws, Less;
    if s == [] {
      NoRaws();
    } else {
      var f := NextField(s, prev);
      NextFieldCanonical(s, prev);
      FieldsPartitionBlob(s[f.used..], Some(f.value.id));
      assert s == s[..f.used] + s[f.used..];
      PartitionCons(f.value, ParseFields(s[f.used..], Some(f.value.id)).value);
    }
  }

  lemma NoRaws()
    ensures Raws([]) == []
  {
  }

  lemma PartitionCons(f: Field, rest: seq<Field>)
    requires Increasing(Less, IDs(rest)) && (rest != [] ==> Less(f.id, rest[0].id))
    ensures Raws([f] + rest) == f.raw + Raws(rest)
    ensures Increasing(Less, IDs([f] + rest))
  {
    assert ([f] + rest)[1..] == rest;
    IncreasingCons(f.id, IDs(rest));
    assert IDs([f] + rest) == [f.id] + IDs(rest);
  }

  lemma {:induction false} FieldsDetermineRaws(fs: seq<Field>, gs: seq<Field>)
    requires |fs| == |gs|
    requires forall i :: 0 <= i < |fs| ==> fs[i].id == gs[i].id && fs[i].val == gs[i].val
    requires forall i :: 0 <= i < |fs| ==> Canonical(fs[i]) && Canonical(gs[i])
    ensures Raws(fs) == Raws(gs)
  {
    if fs != [] {
      FieldsDetermineRaws(fs[1..], gs[1..]);
    }
  }

  /** A transaction has one encoding: blobs that parse to the same fields and values are equal. */
  lemma OneEncodingPerTransaction(s: seq<Byte>, t: seq<Byte>)
    requires ParseFields(s, None).Ok? && ParseFields(t, None).Ok?
    requires var fs, gs := ParseFields(s, None).value, ParseFields(t, None).value;
             |fs| == |gs| && forall i :: 0 <= i < |fs| ==> fs[i].id == gs[i].id && fs[i].val == gs[i].val
    ensures s == t
  {
    FieldsPartitionBlob(s, None);
    FieldsPartitionBlob(t, None);
    FieldsDetermineRaws(ParseFields(s, None).value, ParseFields(t, None).value);
  }

  // ----- what Decode reports -----

  const TRANSACTION_TYPE := FieldID(1, 2)
  const NETWORK_ID := FieldID(2, 1)
  const FLAGS := FieldID(2, 2)
  const SEQUENCE := FieldID(2, 4)
  const DESTINATION_TAG := FieldID(2, 14)
  const LAST_LEDGER_SEQUENCE := FieldID(2, 27)
  const INVOICE_ID := FieldID(5, 17)
  const AMOUNT_FIELD := FieldID(6, 1)
  const FEE := FieldID(6, 8)
  const SIGNING_PUB_KEY := FieldID(7, 3)
  const TXN_SIGNATURE := FieldID(7, 4)
  const ACCOUNT := FieldID(8, 1)
  const DESTINATION := FieldID(8, 3)
  const SIGNERS := FieldID(15, 3)

  /** The fields with names; the name table is a bijection, so the field ID stands for the name. */
  predicate Known(id: FieldID) {
    match id.typ
    case 1 => id.nth == 2
    case 2 => id.nth in {1, 2, 3, 4, 14, 27, 41}
    case 5 => id.nth == 17
    case 6 => id.nth in {1, 8, 9, 10}
    case 7 => id.nth in {3, 4}
    case 8 => id.nth in {1, 3, 12}
    case 15 => id.nth in {3, 9}
    case 18 => id.nth == 1
    case _ => false
  }

  datatype Amount = Amount(native: bool, drops: nat)

  datatype Tx = Tx(
    fields: seq<Field>,
    unknown: seq<FieldID>,
    present: set<FieldID>,
    transactionType: Option<nat>,
    uint32: map<FieldID, nat>,
    invoiceID: Option<seq<Byte>>,
    amounts: map<FieldID, Amount>,
    signingPubKey: Option<seq<Byte>>,
    txnSignature: Option<seq<Byte>>,
    accounts: map<FieldID, seq<Byte>>)

  const NO_TX := Tx([], [], {}, None, map[], None, map[], None, None, map[])

  const BIT62 := 0x4000_0000_0000_0000

  /** Eight bytes are drops with bit 62 as the sign; other sizes are issued amounts. */
  function ReadAmount(val: seq<Byte>): Result<Amount> {
    if |val| == 8 then
      var v := Value(256, val);
      var positive := v / BIT62 % 2 == 1;
      if !positive && v != 0 then Err("negative XRP amount")
      else Ok(Amount(true, if positive then v - BIT62 else v))
    else Ok(Amount(false, 0))
  }

  function AddField(t: Tx, f: Field): Result<Tx> {
    var t := t.(fields := t.fields + [f]);
    if !Known(f.id) then Ok(t.(unknown := t.unknown + [f.id]))
    else
      var t := t.(present := t.present + {f.id});
      match f.id.typ
      case 1 => Ok(t.(transactionType := Some(Value(256, f.val))))
      case 2 => Ok(t.(uint32 := t.uint32[f.id := Value(256, f.val)]))
      case 5 => Ok(t.(invoiceID := Some(f.val)))
      case 6 =>
        var a := ReadAmount(f.val);
        if a.Err? then Err(a.reason) else Ok(t.(amounts := t.amounts[f.id := a.value]))
      case 7 =>
        if f.id == SIGNING_PUB_KEY then Ok(t.(signingPubKey := Some(f.val))) else Ok(t.(txnSignature := Some(f.val)))
      case 8 =>
        if |f.val| != 20 then Err("invalid account") else Ok(t.(accounts := t.accounts[f.id := f.val]))
      case _ => Ok(t)
  }

  function AddFields(t: Tx, fs: seq<Field>): Result<Tx> {
    if fs == [] then Ok(t)
    else
      var r := AddFields(t, fs[..|fs| - 1]);
      if r.Err? then r else AddField(r.value, fs[|fs| - 1])
  }

  function DecodeBytes(blob: seq<Byte>): Result<Tx> {
    if blob == [] then Err("signedTxBlob must be hex")
    else
      var fs := ParseFields(blob, None);
      if fs.Err? then Err(fs.reason) else AddFields(NO_TX, fs.value)
  }

  /** The decoded transaction reports field f with its value. */
  ghost predicate Reports(t: Tx, f: Field) {
    if !Known(f.id) then f.id in t.unknown
    else
      f.id in t.present &&
      match f.id.typ
      case 1 => t.transactionType == Some(Value(256, f.val))
      case 2 => f.id in t.uint32 && t.uint32[f.id] == Value(256, f.val)
      case 5 => t.invoiceID == Some(f.val)
      case 6 => f.id in t.amounts && Ok(t.amounts[f.id]) == ReadAmount(f.val)
      case 7 => Some(f.val) == if f.id == SIGNING_PUB_KEY then t.signingPubKey else t.txnSignature
      case 8 => f.id in t.accounts && t.accounts[f.id] == f.val
      case _ => true
  }

  /** Fields with other IDs leave a report in place. */
  lemma ReportsKept(t: Tx, f: Field, g: Field)
    requires Reports(t, f) && f.id != g.id && AddField(t, g).Ok?
    ensures Reports(AddField(t, g).value, f)
  {
  }

  lemma AddedReports(t: Tx, g: Field)
    requires AddField(t, g).Ok?
    ensures Reports(AddField(t, g).value, g)
    ensures AddField(t, g).value.fields == t.fields + [g]
    ensures AddField(t, g).value.present == t.present + if Known(g.id) then {g.id} else {}
  {
    if !Known(g.id) {
      assert g.id in t.unknown + [g.id];
    }
  }

  ghost function PresentIn(fs: seq<Field>): set<FieldID> {
    set f | f in fs && Known(f.id) :: f.id
  }

  /** Decode reports every field of the blob, and nothing else. */
  lemma {:induction false} DecodeReportsAll(fs: seq<Field>)
    requires AddFields(NO_TX, fs).Ok? && Increasing(Less, IDs(fs))
    ensures var t := AddFields(NO_TX, fs).value;
            && t.fields == fs
            && (forall f :: f in fs ==> Reports(t, f))
            && t.present == PresentIn(fs)
    decreases |fs|
  {
    hide AddField, Reports, PresentIn;
    if fs != [] {
      var front, g := fs[..|fs| - 1], fs[|fs| - 1];
      assert forall i :: 0 <= i < |front| ==> IDs(front)[i] == IDs(fs)[i];
      DecodeReportsAll(front);
      var t := AddFields(NO_TX, front).value;
      AddedReports(t, g);
      forall f | f in front ensures Reports(AddField(t, g).value, f) {
        var i :| 0 <= i < |front| && front[i] == f;
        assert Less(IDs(fs)[i], IDs(fs)[|fs| - 1]);
        ReportsKept(t, f, g);
      }
      assert fs == front + [g];
      PresentSnoc(front, g);
    } else {
      PresentSnoc([], Field(FLAGS, [], []));
    }
  }

  lemma PresentSnoc(front: seq<Field>, g: Field)
    ensures PresentIn([]) == {}
    ensures PresentIn(front + [g]) == PresentIn(front) + if Known(g.id) then {g.id} else {}
  {
    var all := front + [g];
    assert forall f :: f in all <==> f in front || f == g;
    assert Known(g.id) ==> g in all;
  }

  // ----- the loops -----

  method ReadValueAt(b: seq<Byte>, i: nat, id: FieldID, depth: nat) returns (r: Parsed<seq<Byte>>)
    requires i <= |b|
    ensures r == ReadValue(b[i..], id, depth)
    decreases if depth > MAX_DEPTH then 0 else MAX_DEPTH + 1 - depth, 1
  {
    if depth > MAX_DEPTH {
      return Bad("nesting too deep");
    }
    if IsFixed(id.typ) {
      return Take(b[i..], FixedSize(id.typ));
    }
    if HasLength(id.typ) {
      var l := ReadVL(b[i..]);
      if l.Bad? {
        return Bad(l.reason);
      }
      return Shift(Take(b[i..][l.used..], l.value), l.used);
    }
    if id.typ == AMOUNT {
      if i >= |b| {
        return Bad("truncated amount");
      }
      return Take(b[i..], AmountSize(b[i]));
    }
    if id.typ == PATH_SET {
      var p := ReadPathsAt(b, i);
      return if p.Bad? then Bad(p.reason) else Done(b[i..][..p.used], p.used);
    }
    if IsContainer(id.typ) {
      var p := ReadInnerAt(b, i, EndMarker(id.typ), depth);
      return if p.Bad? then Bad(p.reason) else Done(b[i..][..p.used - 1], p.used);
    }
    r := Bad("unsupported field type");
  }

  lemma DropDrop(b: seq<Byte>, j: nat, k: nat)
    requires j + k <= |b|
    ensures b[j..][k..] == b[j + k..]
  {
  }

  /** One field of a container. */
  lemma InnerOnce(s: seq<Byte>, end: Byte, depth: nat)
    requires depth <= MAX_DEPTH && s != [] && s[0] != end && ReadHeader(s).Done?
    ensures var h := ReadHeader(s);
            var v := ReadValue(s[h.used..], h.value, depth + 1);
            ReadInner(s, end, depth) ==
              if v.Bad? then Bad(v.reason) else Shift(ReadInner(s[h.used + v.used..], end, depth), h.used + v.used)
  {
    hide ReadHeader, ReadValue;
  }

  lemma InnerEnds(s: seq<Byte>, end: Byte, depth: nat)
    requires depth <= MAX_DEPTH
    ensures s == [] ==> ReadInner(s, end, depth) == Bad("unterminated object")
    ensures s != [] && s[0] == end ==> ReadInner(s, end, depth) == Done((), 1)
    ensures s != [] && s[0] != end && ReadHeader(s).Bad? ==> ReadInner(s, end, depth) == Bad(ReadHeader(s).reason)
  {
    hide ReadHeader, ReadValue;
  }

  method ReadInnerAt(b: seq<Byte>, i: nat, end: Byte, depth: nat) returns (r: Parsed<()>)
    requires i <= |b| && depth <= MAX_DEPTH
    ensures r == ReadInner(b[i..], end, depth)
    decreases MAX_DEPTH + 1 - depth, 0
  {
    hide ReadHeader, ReadValue, ReadInner;
    ghost var whole := ReadInner(b[i..], end, depth);
    var j, used := i, 0;
    while true
      invariant j == i + used <= |b|
      invariant whole == Shift(ReadInner(b[j..], end, depth), used)
      decreases |b| - j
    {
      InnerEnds(b[j..], end, depth);
      if j >= |b| {
        return Bad("unterminated object");
      }
      if b[j] == end {
        return Done((), used + 1);
      }
      var h := ReadHeader(b[j..]);
      if h.Bad? {
        return Bad(h.reason);
      }
      InnerOnce(b[j..], end, depth);
      DropDrop(b, j, h.used);
      var v := ReadValueAt(b, j + h.used, h.value, depth + 1);
      if v.Bad? {
        return Bad(v.reason);
      }
      DropDrop(b, j, h.used + v.used);
      j, used := j + h.used + v.used, used + (h.used + v.used);
    }
  }

  method ReadPathsAt(b: seq<Byte>, i: nat) returns (r: Parsed<()>)
    requires i <= |b|
    ensures r == ReadPaths(b[i..])
  {
    var j := i;
    while true
      invariant i <= j <= |b|
      invariant ReadPaths(b[i..]) == Shift(ReadPaths(b[j..]), j - i)
      decreases |b| - j
    {
      if j >= |b| {
        return Bad("truncated value");
      }
      var t := b[j];
      if t == 0x00 {
        return Done((), j + 1 - i);
      }
      if t == 0xff {
        assert b[j..][1..] == b[j + 1..];
        j := j + 1;
        continue;
      }
      if UnknownStepBits(t) {
        return Bad("invalid path step");
      }
      var size := 0;
      for k := 0 to 3
        invariant size == StepSize(t, k) && j + 1 + size <= |b|
      {
        if StepHas(t, k) {
          if j + 1 + size + 20 > |b| {
            StepSizeGrows(t, k + 1);
            return Bad("truncated value");
          }
          size := size + 20;
        }
      }
      assert b[j..][1 + size..] == b[j + 1 + size..];
      j := j + 1 + size;
    }
  }

  lemma {:induction false} StepSizeGrows(t: Byte, k: nat)
    requires k <= 3
    ensures StepSize(t, k) <= StepSize(t, 3)
    decreases 3 - k
  {
    if k < 3 {
      StepSizeGrows(t, k + 1);
    }
  }

  /** Parsing the whole blob is the fields done so far followed by parsing the rest. */
  ghost predicate ParsedUpTo(whole: Result<seq<Field>>, done: seq<Field>, rest: Result<seq<Field>>) {
    if rest.Err? then whole.Err? else whole.Ok? && whole.value == done + rest.value
  }

  lemma ParsedOneMore(whole: Result<seq<Field>>, done: seq<Field>, f: Field, rest: Result<seq<Field>>)
    requires ParsedUpTo(whole, done, if rest.Err? then rest else Ok([f] + rest.value))
    ensures ParsedUpTo(whole, done + [f], rest)
  {
    if rest.Ok? {
      assert done + ([f] + rest.value) == done + [f] + rest.value;
    }
  }

  method NextFieldAt(b: seq<Byte>, i: nat, prev: Option<FieldID>) returns (r: Parsed<Field>)
    requires i <= |b|
    ensures r == NextField(b[i..], prev)
  {
    hide ReadHeader, ReadValue, Less;
    var h := ReadHeader(b[i..]);
    if h.Bad? {
      return Bad(h.reason);
    }
    if prev.Some? && !Less(prev.value, h.value) {
      return Bad("fields are not in canonical order");
    }
    DropDrop(b, i, h.used);
    var v := ReadValueAt(b, i + h.used, h.value, 0);
    if v.Bad? {
      return Bad(v.reason);
    }
    var n := h.used + v.used;
    r := Done(Field(h.value, b[i..][..n], v.value), n);
  }

  lemma AddFieldsSnoc(done: seq<Field>, f: Field)
    requires AddFields(NO_TX, done).Ok?
    ensures AddFields(NO_TX, done + [f]) == AddField(AddFields(NO_TX, done).value, f)
  {
    assert (done + [f])[..|done|] == done;
  }

  method Decode(blob: seq<Byte>) returns (r: Result<Tx>)
    ensures r.Ok? <==> DecodeBytes(blob).Ok?
    ensures r.Ok? ==> r == DecodeBytes(blob)
  {
    hide NextField, AddField, AddFields, ParseFields, ParsedUpTo, DecodeBytes;
    NothingYet(blob);
    if blob == [] {
      return Err("signedTxBlob must be hex");
    }
    var t := NO_TX;
    var i := 0;
    var prev: Option<FieldID> := None;
    ghost var done: seq<Field> := [];
    while i < |blob|
      invariant 0 <= i <= |blob|
      invariant AddFields(NO_TX, done) == Ok(t)
      invariant ParsedUpTo(ParseFields(blob, None), done, ParseFields(blob[i..], prev))
    {
      var f := NextFieldAt(blob, i, prev);
      ParseOneField(blob, i, prev, done);
      if f.Bad? {
        return Err(f.reason);
      }
      var added := AddField(t, f.value);
      if added.Err? {
        RejectedField(blob, done, f.value, ParseFields(blob[i + f.used..], Some(f.value.id)));
        return Err(added.reason);
      }
      AddFieldsSnoc(done, f.value);
      t, i, prev, done := added.value, i + f.used, Some(f.value.id), done + [f.value];
    }
    NothingLeft(blob, i, prev, done);
    r := Ok(t);
  }

  lemma RejectedField(blob: seq<Byte>, done: seq<Field>, f: Field, rest: Result<seq<Field>>)
    requires ParsedUpTo(ParseFields(blob, None), done + [f], rest)
    requires AddFields(NO_TX, done).Ok? && AddField(AddFields(NO_TX, done).value, f).Err?
    ensures DecodeBytes(blob).Err?
  {
    RejectedFieldRejectsBlob(done, f, rest);
  }

  lemma NothingYet(blob: seq<Byte>)
    ensures blob == [] ==> DecodeBytes(blob).Err?
    ensures blob[0..] == blob && AddFields(NO_TX, []) == Ok(NO_TX)
    ensures ParsedUpTo(ParseFields(blob, None), [], ParseFields(blob, None))
  {
  }

  lemma NothingLeft(blob: seq<Byte>, i: nat, prev: Option<FieldID>, done: seq<Field>)
    requires i == |blob| > 0 && ParsedUpTo(ParseFields(blob, None), done, ParseFields(blob[i..], prev))
    ensures DecodeBytes(blob) == AddFields(NO_TX, done)
  {
    assert done + [] == done;
  }

  lemma ParseOneField(blob: seq<Byte>, i: nat, prev: Option<FieldID>, done: seq<Field>)
    requires i < |blob| && ParsedUpTo(ParseFields(blob, None), done, ParseFields(blob[i..], prev))
    ensures var f := NextField(blob[i..], prev);
            if f.Bad? then DecodeBytes(blob).Err?
            else ParsedUpTo(ParseFields(blob, None), done + [f.value], ParseFields(blob[i + f.used..], Some(f.value.id)))
  {
    hide NextField, AddFields;
    var f := NextField(blob[i..], prev);
    if f.Done? {
      DropDrop(blob, i, f.used);
      ParsedOneMore(ParseFields(blob, None), done, f.value, ParseFields(blob[i + f.used..], Some(f.value.id)));
    }
  }

  lemma {:induction false} RejectedFieldRejectsBlob(front: seq<Field>, f: Field, rest: Result<seq<Field>>)
    requires AddFields(NO_TX, front).Ok? && AddField(AddFields(NO_TX, front).value, f).Err?
    ensures rest.Ok? ==> AddFields(NO_TX, front + [f] + rest.value).Err?
    decreases if rest.Ok? then |rest.value| else 0
  {
    if rest.Ok? {
      var all := front + [f] + rest.value;
      if rest.value == [] {
        assert all[..|all| - 1] == front;
      } else {
        var shorter := rest.value[..|rest.value| - 1];
        RejectedFieldRejectsBlob(front, f, Ok(shorter));
        assert all[..|all| - 1] == front + [f] + shorter;
      }
    }
  }
}
